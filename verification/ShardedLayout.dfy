/** Restoring recency from the files found on disk (src/cache/sharded_layout.rs). */
module ShardedLayout {
  import opened Prelude
  import opened Lru

  /** A file found by the scan. */
  datatype Scanned = Scanned(digest: Digest, size: nat, stamp: nat)

  datatype RestoredTotals = RestoredTotals(entries: nat, bytes: nat)

  /** Entries merged between two releases of the lock. */
  const MERGE_CHUNK: nat := 10000

  /** An entry newly tracked, and the counter it was given. */
  datatype Added = Added(entry: Scanned, counter: nat)

  ghost predicate SortedByStamp(s: seq<Scanned>) {
    forall i, j :: 0 <= i < j < |s| ==> s[i].stamp <= s[j].stamp
  }

  // ----- What the restore has done so far -----

  function AddedDigests(added: seq<Added>): set<Digest> {
    set a | a in added :: a.entry.digest
  }

  function HashesOf(done: seq<Scanned>): set<Hash> {
    set e | e in done :: e.digest.hash
  }

  ghost predicate TrackedAt(p: map<Digest, nat>, s: map<Digest, nat>, a: Added) {
    && a.entry.digest in p && p[a.entry.digest] == a.counter
    && a.entry.digest in s && s[a.entry.digest] == a.entry.size
  }

  ghost predicate Extends(m0: map<Digest, nat>, m: map<Digest, nat>) {
    forall d :: d in m0 ==> d in m && m[d] == m0[d]
  }

  /** Everything tracked before is as it was, and everything added is tracked at its counter. */
  ghost predicate Grown(p0: map<Digest, nat>, s0: map<Digest, nat>, p: map<Digest, nat>, s: map<Digest, nat>,
      added: seq<Added>)
  {
    && Extends(p0, p) && Extends(s0, s) && p.Keys == p0.Keys + AddedDigests(added) && p0.Keys !! AddedDigests(added)
    && (forall i :: 0 <= i < |added| ==> TrackedAt(p, s, added[i]))
  }

  /** The indexed hashes are those indexed before and those seen. */
  ghost predicate SeenHashes(h0: map<Hash, Digest>, h: map<Hash, Digest>, done: seq<Scanned>) {
    h.Keys == h0.Keys + HashesOf(done)
  }

  /** The counters handed out rise with the stamps, and every counter from `nextFree`
      to the last one handed out is taken. */
  ghost predicate Ascending(order: Order, added: seq<Added>, nextFree: nat) {
    && (forall i, j :: 0 <= i < j < |added| ==>
          added[i].counter < added[j].counter &&
          added[i].entry.stamp <= added[j].entry.stamp)
    && (added != [] ==> forall x :: nextFree <= x <= added[|added| - 1].counter ==> x in order)
  }

  /** The slot after the ones the insertions so far started from. */
  function SlotAfter(added: seq<Added>): nat {
    if added == [] then 0 else Max(added[|added| - 1].entry.stamp, SlotAfter(added[..|added| - 1])) + 1
  }

  /** Where the insertion of `added[i]` starts to look: at its stamp or the slot after the one the
      insertion before it started from, whichever is later. */
  function StartAt(added: seq<Added>, i: nat): nat
    requires i < |added|
  {
    Max(Max(added[i].entry.stamp, SlotAfter(added[..i])), 1)
  }

  /** Every entry went to the first slot from its start on that was not taken. */
  ghost predicate Placed(order: Order, added: seq<Added>) {
    forall i :: 0 <= i < |added| ==> PlacedAt(order, StartAt(added, i), added[i].counter)
  }

  ghost predicate PlacedAt(order: Order, start: nat, counter: nat) {
    start <= counter && forall x :: start <= x < counter ==> x in order
  }

  /** No insertion met more than one taken slot. */
  ghost predicate OneAtMost(added: seq<Added>) {
    forall i :: 0 <= i < |added| ==> added[i].counter - StartAt(added, i) <= 1
  }

  /** The taken slots met by all the insertions. */
  function Probes(added: seq<Added>): int {
    if added == [] then 0
    else Probes(added[..|added| - 1]) + added[|added| - 1].counter - StartAt(added, |added| - 1)
  }

  lemma {:induction false} FewProbes(added: seq<Added>)
    requires OneAtMost(added)
    ensures Probes(added) <= |added|
  {
    if added != [] {
      var init := added[..|added| - 1];
      forall i | 0 <= i < |init| ensures StartAt(init, i) == StartAt(added, i) {
        assert init[..i] == added[..i];
      }
      FewProbes(init);
    }
  }

  ghost predicate Spotted(order: Order, nextFree: nat, alone: bool, added: seq<Added>) {
    forall n: nat {:trigger Asked(n)} :: n == |added| ==>
      nextFree == SlotAfter(added) && Placed(order, added) && (alone ==> OneAtMost(added))
  }

  /** What may have been added, by the slots it went to. */
  ghost function Spots(order: Order, nextFree: nat, alone: bool): iset<seq<Added>> {
    iset added: seq<Added> | Spotted(order, nextFree, alone, added)
  }

  lemma SpotsNone(order: Order, alone: bool)
    ensures [] in Spots(order, 0, alone)
  {
    var none: seq<Added> := [];
    assert SlotAfter(none) == 0 && Placed(order, none) && OneAtMost(none);
  }

  lemma SpotsAre(order: Order, nextFree: nat, alone: bool, added: seq<Added>)
    requires added in Spots(order, nextFree, alone)
    ensures nextFree == SlotAfter(added) && Placed(order, added) && (alone ==> OneAtMost(added))
  {
    assert Asked(|added|);
  }

  lemma SpotsMore(order: Order, nextFree: nat, alone: bool, added: seq<Added>, a: Added)
    requires added in Spots(order, nextFree, alone)
    requires FirstFree(order, Max(Max(a.entry.stamp, nextFree), 1), a.counter)
    requires alone ==> a.counter - Max(Max(a.entry.stamp, nextFree), 1) <= 1
    ensures added + [a] in Spots(order[a.counter := a.entry.digest], Max(a.entry.stamp, nextFree) + 1, alone)
  {
    SpotsAre(order, nextFree, alone, added);
    PlacedMore(order, added, a);
  }

  lemma PlacedMore(order: Order, added: seq<Added>, a: Added)
    requires Placed(order, added) && FirstFree(order, Max(Max(a.entry.stamp, SlotAfter(added)), 1), a.counter)
    ensures Placed(order[a.counter := a.entry.digest], added + [a])
    ensures SlotAfter(added + [a]) == Max(a.entry.stamp, SlotAfter(added)) + 1
    ensures OneAtMost(added) && a.counter <= Max(Max(a.entry.stamp, SlotAfter(added)), 1) + 1 ==> OneAtMost(added + [a])
  {
    var more := added + [a];
    assert more[..|added|] == added;
    forall i | 0 <= i < |added| ensures StartAt(more, i) == StartAt(added, i) {
      assert more[..i] == added[..i];
    }
    assert StartAt(more, |added|) == Max(Max(a.entry.stamp, SlotAfter(added)), 1);
    forall i | 0 <= i < |added|
      ensures PlacedAt(order[a.counter := a.entry.digest], StartAt(more, i), more[i].counter)
    {
      assert PlacedAt(order, StartAt(added, i), added[i].counter);
    }
  }

  function Bytes(added: seq<Added>): nat {
    if added == [] then 0 else Bytes(added[..|added| - 1]) + added[|added| - 1].entry.size
  }

  function EntriesOf(added: seq<Added>): seq<Entry> {
    seq(|added|, i requires 0 <= i < |added| => Entry(added[i].entry.digest, added[i].entry.size))
  }

  /** Restored into an empty list: the list is what was added, and no counter lies
      beyond the next slot to try. */
  ghost predicate Alone(order: Order, r: seq<Entry>, added: seq<Added>, nextFree: nat) {
    && r == EntriesOf(added) && (forall c :: c in order ==> 1 <= c <= nextFree)
    && (forall c :: c in order ==> added != [] && c <= added[|added| - 1].counter)
    && (nextFree == 0 ==> order == map[])
  }

  lemma GrownMore(p0: map<Digest, nat>, s0: map<Digest, nat>, p: map<Digest, nat>, s: map<Digest, nat>,
      added: seq<Added>, a: Added)
    requires Grown(p0, s0, p, s, added) && a.entry.digest !in p && s0.Keys == p0.Keys
    ensures Grown(p0, s0, p[a.entry.digest := a.counter], s[a.entry.digest := a.entry.size], added + [a])
  {
    assert AddedDigests(added + [a]) == AddedDigests(added) + {a.entry.digest};
    forall i | 0 <= i < |added| ensures added[i].entry.digest != a.entry.digest {
      assert TrackedAt(p, s, added[i]);
    }
  }

  lemma SeenMore(h0: map<Hash, Digest>, h: map<Hash, Digest>, done: seq<Scanned>, e: Scanned, h': map<Hash, Digest>)
    requires SeenHashes(h0, h, done) && h'.Keys == h.Keys + {e.digest.hash}
    ensures SeenHashes(h0, h', done + [e])
  {
    assert HashesOf(done + [e]) == HashesOf(done) + {e.digest.hash};
  }

  lemma AscendingMore(order: Order, added: seq<Added>, nextFree: nat, a: Added, from: nat)
    requires Ascending(order, added, nextFree) && nextFree <= from <= Max(from, 1)
    requires FirstFree(order, Max(from, 1), a.counter)
    requires added != [] ==> added[|added| - 1].entry.stamp <= a.entry.stamp && nextFree > 0
    ensures added != [] ==> added[|added| - 1].counter < a.counter
    ensures Ascending(order[a.counter := a.entry.digest], added + [a], from + 1)
  {
    if added != [] {
      assert added[|added| - 1].counter < a.counter;
    }
  }

  lemma AloneMore(order: Order, r: seq<Entry>, added: seq<Added>, nextFree: nat, a: Added, from: nat)
    requires Alone(order, r, added, nextFree) && nextFree <= from
    requires FirstFree(order, Max(from, 1), a.counter) && (added != [] ==> added[|added| - 1].counter < a.counter)
    ensures a.counter - Max(from, 1) <= 1 && Beyond(order, a.counter)
    ensures Alone(order[a.counter := a.entry.digest], r + [Entry(a.entry.digest, a.entry.size)], added + [a], from + 1)
  {
    assert EntriesOf(added + [a]) == EntriesOf(added) + [Entry(a.entry.digest, a.entry.size)];
    var start := Max(from, 1);
    assert start + 1 !in order;
    assert a.counter <= start + 1;
    assert from == 0 ==> start !in order;
  }

  /** The maps of an `LruState` at one moment. */
  datatype Snapshot = Snapshot(
    order: Order, positions: map<Digest, nat>, sizes: map<Digest, nat>, hashIndex: map<Hash, Digest>, next: nat,
      list: seq<Entry>)

  ghost function Now(l: LruState): Snapshot
    reads l
  {
    Snapshot(l.order, l.positions, l.sizes, l.hashIndex, l.nextCounter, l.Recency())
  }

  /** An entry scanned after `done` that is not tracked without its hash being known: it
      is untracked, or its hash is indexed, or an earlier entry has the same hash. */
  ghost predicate Harmless(s0: Snapshot, done: seq<Scanned>, e: Scanned) {
    e.digest !in s0.positions || e.digest.hash in s0.hashIndex.Keys + HashesOf(done)
  }

  /** The exact condition under which folding in the first `n` entries keeps the LRU in order. */
  ghost predicate AllHarmless(s0: Snapshot, sorted: seq<Scanned>, n: nat)
    requires n <= |sorted|
  {
    forall i :: 0 <= i < n ==> Harmless(s0, sorted[..i], sorted[i])
  }

  /** The state after `d` was tracked at counter `c`. */
  function Inserted(s: Snapshot, d: Digest, size: nat, c: nat, list: seq<Entry>): Snapshot {
    Snapshot(s.order[c := d], s.positions[d := c], s.sizes[d := size], s.hashIndex[d.hash := d], Max(s.next, c + 1),
      list)
  }

  /** What the fold holds between two entries. */
  datatype Fold = Fold(added: seq<Added>, nextFree: nat, totals: RestoredTotals)

  const NEW_FOLD: Fold := Fold([], 0, RestoredTotals(0, 0))

  ghost predicate NewFrom(s0: Snapshot, done: seq<Scanned>, a: Added) {
    a.entry in done && a.entry.digest.hash !in s0.hashIndex
  }

  ghost predicate AllNew(s0: Snapshot, done: seq<Scanned>, added: seq<Added>) {
    forall i :: 0 <= i < |added| ==> NewFrom(s0, done, added[i])
  }

  /** The totals are those of the entries added, and the list has grown by them. */
  ghost predicate Counted(list0: seq<Entry>, list: seq<Entry>, added: seq<Added>, totals: RestoredTotals) {
    && totals == RestoredTotals(|added|, Bytes(added))
    && |list| == |list0| + |added| && Total(list) == Total(list0) + Bytes(added)
  }

  /** What folding in `done` has come to. */
  ghost predicate Folded(s0: Snapshot, s: Snapshot, done: seq<Scanned>, f: Fold) {
    && Grown(s0.positions, s0.sizes, s.positions, s.sizes, f.added)
    && Counted(s0.list, s.list, f.added, f.totals) && AllNew(s0, done, f.added)
    && (f.added == [] ==> s == s0)
  }

  ghost predicate Ranked(s0: Snapshot, s: Snapshot, done: seq<Scanned>, f: Fold) {
    && Ascending(s.order, f.added, f.nextFree)
    && (f.added != [] ==> f.nextFree > 0 && done != [] && f.added[|f.added| - 1].entry.stamp <= done[|done| - 1].stamp)
    && f.added in Spots(s.order, f.nextFree, s0.order == map[])
    && (s0.order == map[] ==> Alone(s.order, s.list, f.added, f.nextFree))
  }

  /** A digest with two slots whose hash is indexed: no later insertion mends it. */
  ghost predicate Broken(s: Snapshot) {
    exists c :: c in s.order && s.order[c] in s.positions && s.positions[s.order[c]] != c &&
      s.order[c].hash in s.hashIndex
  }

  lemma BrokenStays(s: Snapshot, d: Digest, size: nat, c: nat, list: seq<Entry>)
    requires Broken(s) && d.hash !in s.hashIndex && c !in s.order
    ensures Broken(Inserted(s, d, size, c, list))
  {
    var b :| b in s.order && s.order[b] in s.positions && s.positions[s.order[b]] != b &&
      s.order[b].hash in s.hashIndex;
    var t := Inserted(s, d, size, c, list);
    assert b in t.order && t.order[b] in t.positions && t.positions[t.order[b]] != b && t.order[b].hash in t.hashIndex;
  }

  lemma Breaks(s: Snapshot, d: Digest, size: nat, c: nat, list: seq<Entry>)
    requires Linked(s.order, s.positions) && d in s.positions && c !in s.order
    ensures Broken(Inserted(s, d, size, c, list))
  {
    var b, t := s.positions[d], Inserted(s, d, size, c, list);
    assert b in t.order && t.order[b] in t.positions && t.positions[t.order[b]] != b && t.order[b].hash in t.hashIndex;
  }

  /** An entry whose hash is not indexed yet is untracked, if it is harmless. */
  lemma NewIsUntracked(s0: Snapshot, s: Snapshot, done: seq<Scanned>, added: seq<Added>, e: Scanned)
    requires Grown(s0.positions, s0.sizes, s.positions, s.sizes, added) && AllNew(s0, done, added)
    requires SeenHashes(s0.hashIndex, s.hashIndex, done) && e.digest.hash !in s.hashIndex
    ensures Harmless(s0, done, e) <==> e.digest !in s.positions
    ensures e.digest.hash !in s0.hashIndex
  {
    forall a | a in added ensures a.entry.digest != e.digest {
      var k :| 0 <= k < |added| && added[k] == a;
      assert NewFrom(s0, done, added[k]);
      assert a.entry.digest.hash in HashesOf(done);
    }
  }

  lemma InsertedTotal(below: seq<Entry>, e: Entry, above: seq<Entry>)
    ensures Total(below + [e] + above) == Total(below + above) + e.size
  {
    TotalConcat(below, above);
    TotalConcat(below + [e], above);
    TotalConcat(below, [e]);
  }

  lemma BytesMore(added: seq<Added>, a: Added)
    ensures Bytes(added + [a]) == Bytes(added) + a.entry.size
  {
    assert (added + [a])[..|added|] == added;
  }

  function Grow(f: Fold, e: Scanned, c: nat): Fold
    requires Max(Max(e.stamp, f.nextFree), 1) <= c
  {
    Fold(f.added + [Added(e, c)], Max(e.stamp, f.nextFree) + 1,
         RestoredTotals(f.totals.entries + 1, f.totals.bytes + e.size))
  }

  ghost predicate Beyond(order: Order, c: nat) {
    forall x :: x in order ==> x < c
  }

  /** `list` is `s.list` with an entry put in where counter `c` stands. */
  ghost predicate PutIn(s: Snapshot, e: Scanned, c: nat, list: seq<Entry>, below: seq<Entry>, above: seq<Entry>) {
    && s.list == below + above && list == below + [Entry(e.digest, e.size)] + above
    && (Beyond(s.order, c) ==> above == [])
  }

  lemma CountedMore(list0: seq<Entry>, s: Snapshot, f: Fold, e: Scanned, c: nat, list: seq<Entry>, below: seq<Entry>,
      above: seq<Entry>)
    requires Max(Max(e.stamp, f.nextFree), 1) <= c && Counted(list0, s.list, f.added, f.totals) &&
             PutIn(s, e, c, list, below, above)
    ensures Counted(list0, list, Grow(f, e, c).added, Grow(f, e, c).totals)
  {
    InsertedTotal(below, Entry(e.digest, e.size), above);
    BytesMore(f.added, Added(e, c));
  }

  lemma AllNewMore(s0: Snapshot, done: seq<Scanned>, added: seq<Added>, e: Scanned, c: nat)
    requires AllNew(s0, done, added)
    ensures AllNew(s0, done + [e], added)
    ensures e.digest.hash !in s0.hashIndex ==> AllNew(s0, done + [e], added + [Added(e, c)])
  {
    forall i | 0 <= i < |added| ensures NewFrom(s0, done + [e], added[i]) {
      assert NewFrom(s0, done, added[i]);
    }
  }

  lemma FoldedMore(s0: Snapshot, s: Snapshot, done: seq<Scanned>, f: Fold, e: Scanned, c: nat, t: Snapshot, g: Fold)
    requires Folded(s0, s, done, f) && s0.sizes.Keys == s0.positions.Keys
    requires e.digest !in s.positions && e.digest.hash !in s0.hashIndex
    requires t == Inserted(s, e.digest, e.size, c, t.list) && Max(Max(e.stamp, f.nextFree), 1) <= c &&
             g == Grow(f, e, c) && Counted(s0.list, t.list, g.added, g.totals)
    ensures Folded(s0, t, done + [e], g)
  {
    GrownMore(s0.positions, s0.sizes, s.positions, s.sizes, f.added, Added(e, c));
    AllNewMore(s0, done, f.added, e, c);
  }

  lemma RankedMore(s0: Snapshot, s: Snapshot, done: seq<Scanned>, f: Fold, e: Scanned, c: nat, t: Snapshot, g: Fold,
                   below: seq<Entry>, above: seq<Entry>)
    requires Ranked(s0, s, done, f) && (done != [] ==> done[|done| - 1].stamp <= e.stamp)
    requires FirstFree(s.order, Max(Max(e.stamp, f.nextFree), 1), c) && PutIn(s, e, c, t.list, below, above)
    requires t == Inserted(s, e.digest, e.size, c, t.list) && Max(Max(e.stamp, f.nextFree), 1) <= c &&
             g == Grow(f, e, c)
    ensures Ranked(s0, t, done + [e], g)
  {
    var a, from := Added(e, c), Max(e.stamp, f.nextFree);
    AscendingMore(s.order, f.added, f.nextFree, a, from);
    if s0.order == map[] {
      AloneMore(s.order, s.list, f.added, f.nextFree, a, from);
    }
    SpotsMore(s.order, f.nextFree, s0.order == map[], f.added, a);
  }

  lemma SaneMore(s: Snapshot, e: Scanned, c: nat, list: seq<Entry>)
    requires Sane(s) && e.digest !in s.positions && c !in s.order
    ensures Sane(Inserted(s, e.digest, e.size, c, list))
  {
    InsertedConsistent(s.order, s.positions, s.sizes, s.hashIndex, s.next, e.digest, e.size, c);
  }

  ghost predicate Sane(s: Snapshot) {
    Consistent(s.order, s.positions, s.sizes, s.hashIndex, s.next)
  }

  ghost predicate IsCalm(s0: Snapshot, done: seq<Scanned>, f: Fold, s: Snapshot) {
    Sane(s) && Folded(s0, s, done, f) && Ranked(s0, s, done, f)
  }

  /** The states in order after `done` was folded in. */
  ghost function Calm(s0: Snapshot, done: seq<Scanned>, f: Fold): iset<Snapshot> {
    iset s: Snapshot | IsCalm(s0, done, f, s)
  }

  ghost predicate Follows(done: seq<Scanned>, e: Scanned) {
    done != [] ==> done[|done| - 1].stamp <= e.stamp
  }

  lemma CalmStarts(s0: Snapshot)
    requires Sane(s0) && s0.list == RecencyOf(s0.order, s0.sizes)
    ensures s0 in Calm(s0, [], NEW_FOLD)
  {
    assert EntriesOf([]) == [];
    SpotsNone(s0.order, s0.order == map[]);
  }

  /** An entry whose hash is indexed changes nothing. */
  lemma CalmSkips(s0: Snapshot, s: Snapshot, done: seq<Scanned>, f: Fold, e: Scanned)
    requires s in Calm(s0, done, f) && Follows(done, e)
    ensures s in Calm(s0, done + [e], f)
  {
    AllNewMore(s0, done, f.added, e, 0);
  }

  /** An untracked one is tracked at the first free counter from its rank on. */
  lemma CalmTracks(s0: Snapshot, s: Snapshot, done: seq<Scanned>, f: Fold, e: Scanned, c: nat, t: Snapshot, g: Fold,
      below: seq<Entry>, above: seq<Entry>)
    requires s in Calm(s0, done, f) && Follows(done, e) && s0.sizes.Keys == s0.positions.Keys
    requires e.digest !in s.positions && e.digest.hash !in s0.hashIndex
    requires FirstFree(s.order, Max(Max(e.stamp, f.nextFree), 1), c) && PutIn(s, e, c, t.list, below, above)
    requires t == Inserted(s, e.digest, e.size, c, t.list) && Max(Max(e.stamp, f.nextFree), 1) <= c &&
             g == Grow(f, e, c)
    ensures t in Calm(s0, done + [e], g)
  {
    assert Sane(t) by { SaneMore(s, e, c, t.list); }
    assert Folded(s0, t, done + [e], g) by {
      CountedMore(s0.list, s, f, e, c, t.list, below, above);
      FoldedMore(s0, s, done, f, e, c, t, g);
    }
    RankedMore(s0, s, done, f, e, c, t, g, below, above);
  }

  /** The restore between two entries: in order while every entry was harmless, and
      broken for good after one that was not. */
  ghost predicate Standing(s0: Snapshot, done: seq<Scanned>, calm: bool, f: Fold, s: Snapshot) {
    && SeenHashes(s0.hashIndex, s.hashIndex, done)
    && if calm then s in Calm(s0, done, f) else Broken(s)
  }

  lemma StandingTracks(s0: Snapshot, s: Snapshot, done: seq<Scanned>, calm: bool, f: Fold, e: Scanned, c: nat,
      t: Snapshot, g: Fold,
                       below: seq<Entry>, above: seq<Entry>)
    requires Standing(s0, done, calm, f, s) && Follows(done, e) && s0.sizes.Keys == s0.positions.Keys &&
             e.digest.hash !in s.hashIndex
    requires FirstFree(s.order, Max(Max(e.stamp, f.nextFree), 1), c)
    requires Sane(s) && e.digest !in s.positions ==> PutIn(s, e, c, t.list, below, above)
    requires t == Inserted(s, e.digest, e.size, c, t.list) && Max(Max(e.stamp, f.nextFree), 1) <= c &&
             g == Grow(f, e, c)
    ensures Standing(s0, done + [e], calm && Harmless(s0, done, e), g, t)
  {
    SeenMore(s0.hashIndex, s.hashIndex, done, e, t.hashIndex);
    if !calm {
      BrokenStays(s, e.digest, e.size, c, t.list);
    } else {
      NewIsUntracked(s0, s, done, f.added, e);
      if e.digest in s.positions {
        Breaks(s, e.digest, e.size, c, t.list);
      } else {
        CalmTracks(s0, s, done, f, e, c, t, g, below, above);
      }
    }
  }

  lemma StandingSkips(s0: Snapshot, s: Snapshot, done: seq<Scanned>, calm: bool, f: Fold, e: Scanned)
    requires Standing(s0, done, calm, f, s) && Follows(done, e) && e.digest.hash in s.hashIndex
    ensures Standing(s0, done + [e], calm, f, s) && Harmless(s0, done, e)
  {
    SeenMore(s0.hashIndex, s.hashIndex, done, e, s.hashIndex);
    if calm {
      CalmSkips(s0, s, done, f, e);
    }
  }

  /** What `insert_at` does to the list when it tracks `e` at counter `c`. */
  ghost predicate Tracked(s: Snapshot, e: Scanned, c: nat, t: Snapshot) {
    && t == Inserted(s, e.digest, e.size, c, t.list)
    && (Sane(s) && e.digest !in s.positions ==>
          var below, above := RecencyOf(Below(s.order, c), s.sizes), RecencyOf(Above(s.order, c), s.sizes);
          s.list == below + above && t.list == below + [Entry(e.digest, e.size)] + above)
  }

  lemma FoldTracks(s0: Snapshot, s: Snapshot, done: seq<Scanned>, calm: bool, f: Fold, e: Scanned, c: nat, t: Snapshot)
    requires Standing(s0, done, calm, f, s) && Follows(done, e) && s0.sizes.Keys == s0.positions.Keys
    requires e.digest.hash !in s.hashIndex && Tracked(s, e, c, t)
    requires FirstFree(s.order, Max(Max(e.stamp, f.nextFree), 1), c)
    requires Max(Max(e.stamp, f.nextFree), 1) <= c
    ensures Standing(s0, done + [e], calm && Harmless(s0, done, e), Grow(f, e, c), t)
  {
    assert Beyond(s.order, c) ==> Above(s.order, c) == map[];
    StandingTracks(s0, s, done, calm, f, e, c, t, Grow(f, e, c),
                   RecencyOf(Below(s.order, c), s.sizes), RecencyOf(Above(s.order, c), s.sizes));
  }

  /** One entry of the scan, at the later of its stamp and the next free slot. */
  method FoldOne(l: LruState, e: Scanned, nextFree: nat, totals: RestoredTotals,
                 ghost s0: Snapshot, ghost done: seq<Scanned>, ghost calm: bool, ghost f: Fold)
    returns (next: nat, sum: RestoredTotals, ghost g: Fold)
    requires s0.sizes.Keys == s0.positions.Keys && Follows(done, e)
    requires Standing(s0, done, calm, f, Now(l)) && f.nextFree == nextFree && f.totals == totals
    modifies l
    ensures Standing(s0, done + [e], calm && Harmless(s0, done, e), g, Now(l)) && g.nextFree == next && g.totals == sum
  {
    var stamp := Max(e.stamp, nextFree);
    ghost var s := Now(l);
    var tracked, probes := l.InsertAt(e.digest, e.size, stamp);
    if tracked {
      sum := RestoredTotals(totals.entries + 1, totals.bytes + e.size);
      next := stamp + 1;
      ghost var c := l.positions[e.digest];
      g := Grow(f, e, c);
      FoldTracks(s0, s, done, calm, f, e, c, Now(l));
    } else {
      next, sum, g := nextFree, totals, f;
      StandingSkips(s0, s, done, calm, f, e);
    }
  }

  method InsertByStamp(sorted: seq<Scanned>, e: Scanned) returns (r: seq<Scanned>)
    requires SortedByStamp(sorted)
    ensures multiset(r) == multiset(sorted) + multiset{e} && SortedByStamp(r)
  {
    var k := 0;
    while k < |sorted| && sorted[k].stamp <= e.stamp
      invariant 0 <= k <= |sorted| && forall i :: 0 <= i < k ==> sorted[i].stamp <= e.stamp
    {
      k := k + 1;
    }
    InsertedMultiset(sorted, k, e);
    r := sorted[..k] + [e] + sorted[k..];
  }

  /** `sort_unstable_by_key`: some order of the entries by stamp. */
  method SortByStamp(entries: seq<Scanned>) returns (sorted: seq<Scanned>)
    ensures multiset(sorted) == multiset(entries) && SortedByStamp(sorted)
  {
    sorted := [];
    var n := 0;
    while n < |entries|
      invariant 0 <= n <= |entries|
      invariant multiset(sorted) == multiset(entries[..n]) && SortedByStamp(sorted)
    {
      sorted := InsertByStamp(sorted, entries[n]);
      assert entries[..n + 1] == entries[..n] + [entries[n]];
      n := n + 1;
    }
    assert entries[..n] == entries;
  }

  lemma InsertedMultiset(s: seq<Scanned>, k: nat, e: Scanned)
    requires k <= |s|
    ensures multiset(s[..k] + [e] + s[k..]) == multiset(s) + multiset{e}
  {
    assert s == s[..k] + s[k..];
  }

  /** What a restore comes to: everything tracked before is as it was; the entries added
      are scanned ones whose hash was unknown, at counters that rise with their stamps;
      and the totals count them and their bytes exactly. */
  ghost predicate Restored(s0: Snapshot, s: Snapshot, sorted: seq<Scanned>, added: seq<Added>, totals: RestoredTotals) {
    && Grown(s0.positions, s0.sizes, s.positions, s.sizes, added) && AllNew(s0, sorted, added)
    && (forall i, j :: 0 <= i < j < |added| ==>
          added[i].counter < added[j].counter &&
          added[i].entry.stamp <= added[j].entry.stamp)
    && Counted(s0.list, s.list, added, totals)
  }

  lemma BrokenIsNotSane(s: Snapshot)
    requires Broken(s)
    ensures !Sane(s)
  {
  }

  lemma EmptyIsHarmless(l: LruState, sorted: seq<Scanned>)
    requires l.Ok() && l.Recency() == []
    ensures l.order == map[] && AllHarmless(Now(l), sorted, |sorted|)
  {
    RecencyHas(l.order, l.sizes, Digest(0, 0));
    assert l.positions == map[];
  }

  lemma NothingNew(s0: Snapshot, s: Snapshot, done: seq<Scanned>, f: Fold)
    requires s in Calm(s0, done, f) && forall e :: e in done ==> e.digest.hash in s0.hashIndex
    ensures f.totals == RestoredTotals(0, 0) && s == s0
  {
    if f.added != [] {
      assert false;
    }
  }

  lemma KnownIsHarmless(s0: Snapshot, sorted: seq<Scanned>)
    requires forall e :: e in sorted ==> e.digest.hash in s0.hashIndex
    ensures AllHarmless(s0, sorted, |sorted|)
  {
  }

  lemma NextSorted(sorted: seq<Scanned>, i: nat)
    requires i < |sorted| && SortedByStamp(sorted)
    ensures Follows(sorted[..i], sorted[i]) && sorted[..i + 1] == sorted[..i] + [sorted[i]]
  {
  }

  lemma FoldEnds(s0: Snapshot, s: Snapshot, sorted: seq<Scanned>, f: Fold)
    requires Standing(s0, sorted, AllHarmless(s0, sorted, |sorted|), f, s)
    ensures forall e :: e in sorted ==> e.digest.hash in s.hashIndex
    ensures Sane(s) <==> AllHarmless(s0, sorted, |sorted|)
    ensures Sane(s) ==>
              Restored(s0, s, sorted, f.added, f.totals) && Placed(s.order, f.added) &&
              (s0.order == map[] ==> s.list == EntriesOf(f.added) && OneAtMost(f.added))
    ensures (forall e :: e in sorted ==> e.digest.hash in s0.hashIndex) ==> f.totals == RestoredTotals(0, 0) && s == s0
  {
    if AllHarmless(s0, sorted, |sorted|) {
      SpotsAre(s.order, f.nextFree, s0.order == map[], f.added);
    }
    forall e | e in sorted ensures e.digest.hash in s.hashIndex {
      assert e.digest.hash in HashesOf(sorted);
    }
    if forall e :: e in sorted ==> e.digest.hash in s0.hashIndex {
      KnownIsHarmless(s0, sorted);
      NothingNew(s0, s, sorted, f);
    }
    if !AllHarmless(s0, sorted, |sorted|) {
      BrokenIsNotSane(s);
    }
  }

  ghost predicate StandsAfter(s0: Snapshot, ordered: seq<Scanned>, i: nat, f: Fold, s: Snapshot)
    requires i <= |ordered|
  {
    forall k: nat {:trigger Asked(k)} :: k == i ==> Standing(s0, ordered[..i], AllHarmless(s0, ordered, i), f, s)
  }

  /** Where the restore may stand after the first `i` entries. */
  ghost function Midway(s0: Snapshot, ordered: seq<Scanned>, i: nat, f: Fold): iset<Snapshot>
    requires i <= |ordered|
  {
    iset s: Snapshot | StandsAfter(s0, ordered, i, f, s)
  }

  lemma MidwayIs(s0: Snapshot, s: Snapshot, ordered: seq<Scanned>, i: nat, f: Fold)
    requires i <= |ordered|
    ensures s in Midway(s0, ordered, i, f) <==> Standing(s0, ordered[..i], AllHarmless(s0, ordered, i), f, s)
  {
    assert Asked(i);
  }

  lemma MidwayEnds(s0: Snapshot, s: Snapshot, ordered: seq<Scanned>, f: Fold)
    requires s in Midway(s0, ordered, |ordered|, f)
    ensures Standing(s0, ordered, AllHarmless(s0, ordered, |ordered|), f, s)
  {
    MidwayIs(s0, s, ordered, |ordered|, f);
    assert ordered[..|ordered|] == ordered;
  }

  lemma MidwayStarts(s0: Snapshot, ordered: seq<Scanned>)
    requires Sane(s0) && s0.list == RecencyOf(s0.order, s0.sizes)
    ensures s0 in Midway(s0, ordered, 0, NEW_FOLD)
  {
    CalmStarts(s0);
    assert ordered[..0] == [];
    MidwayIs(s0, s0, ordered, 0, NEW_FOLD);
  }

  method FoldNext(l: LruState, ordered: seq<Scanned>, i: nat, nextFree: nat, totals: RestoredTotals, ghost s0: Snapshot,
      ghost f: Fold)
    returns (next: nat, sum: RestoredTotals, ghost g: Fold)
    requires s0.sizes.Keys == s0.positions.Keys && SortedByStamp(ordered) && i < |ordered|
    requires Now(l) in Midway(s0, ordered, i, f) && f.nextFree == nextFree && f.totals == totals
    modifies l
    ensures Now(l) in Midway(s0, ordered, i + 1, g) && g.nextFree == next && g.totals == sum
  {
    NextSorted(ordered, i);
    MidwayIs(s0, Now(l), ordered, i, f);
    next, sum, g := FoldOne(l, ordered[i], nextFree, totals, s0, ordered[..i], AllHarmless(s0, ordered, i), f);
    HarmlessNext(s0, ordered, i);
    MidwayIs(s0, Now(l), ordered, i + 1, g);
  }

  lemma HarmlessNext(s0: Snapshot, ordered: seq<Scanned>, i: nat)
    requires i < |ordered|
    ensures AllHarmless(s0, ordered, i + 1) == (AllHarmless(s0, ordered, i) && Harmless(s0, ordered[..i], ordered[i]))
  {
  }

  /** One chunk, under one acquisition of the lock. */
  method FoldChunk(l: LruState, ordered: seq<Scanned>, from: nat, end: nat, nextFree: nat, totals: RestoredTotals,
      ghost s0: Snapshot, ghost f: Fold)
    returns (next: nat, sum: RestoredTotals, ghost g: Fold)
    requires s0.sizes.Keys == s0.positions.Keys && SortedByStamp(ordered) && from <= end <= |ordered|
    requires Now(l) in Midway(s0, ordered, from, f) && f.nextFree == nextFree && f.totals == totals
    modifies l
    ensures Now(l) in Midway(s0, ordered, end, g) && g.nextFree == next && g.totals == sum
  {
    next, sum, g := nextFree, totals, f;
    var i := from;
    while i < end
      invariant from <= i <= end && g.nextFree == next && g.totals == sum && Now(l) in Midway(s0, ordered, i, g)
    {
      next, sum, g := FoldNext(l, ordered, i, next, sum, s0, g);
      i := i + 1;
    }
  }

  method FoldAll(l: LruState, ordered: seq<Scanned>, ghost s0: Snapshot) returns (totals: RestoredTotals, ghost f: Fold)
    requires SortedByStamp(ordered) && s0.sizes.Keys == s0.positions.Keys && Now(l) in Midway(s0, ordered, 0, NEW_FOLD)
    modifies l
    ensures Now(l) in Midway(s0, ordered, |ordered|, f) && f.totals == totals
  {
    totals, f := RestoredTotals(0, 0), NEW_FOLD;
    var nextFree, i := 0, 0;
    while i < |ordered|
      invariant 0 <= i <= |ordered| && f.nextFree == nextFree && f.totals == totals &&
                Now(l) in Midway(s0, ordered, i, f)
    {
      var end := Min(i + MERGE_CHUNK, |ordered|);
      nextFree, totals, f := FoldChunk(l, ordered, i, end, nextFree, totals, s0, f);
      i := end;
    }
  }

  /** Folds the scanned entries into `l`, oldest first, releasing the lock between
      chunks. It keeps the LRU in order exactly when every entry is harmless; a second
      restore of the same entries adds nothing; and into an empty LRU it probes at most
      one taken slot for each entry it adds. */
  method RestoreRecency(l: LruState, entries: seq<Scanned>)
    returns (totals: RestoredTotals, ghost sorted: seq<Scanned>, ghost added: seq<Added>)
    requires l.Ok()
    modifies l
    ensures multiset(sorted) == multiset(entries) && SortedByStamp(sorted)
    ensures forall e :: e in sorted ==> e.digest.hash in l.hashIndex
    ensures l.Ok() <==> AllHarmless(old(Now(l)), sorted, |sorted|)
    ensures l.Ok() ==> Restored(old(Now(l)), Now(l), sorted, added, totals) && Placed(l.order, added)
    ensures (forall e :: e in sorted ==> e.digest.hash in old(l.hashIndex)) ==>
              totals == RestoredTotals(0, 0) && Now(l) == old(Now(l))
    ensures old(l.Recency()) == [] ==>
              l.Ok() && l.Recency() == EntriesOf(added) && OneAtMost(added) && Probes(added) <= |added|
  {
    ghost var s0 := Now(l);
    var ordered := SortByStamp(entries);
    if l.Recency() == [] {
      EmptyIsHarmless(l, ordered);
    }
    MidwayStarts(s0, ordered);
    ghost var f;
    totals, f := FoldAll(l, ordered, s0);
    MidwayEnds(s0, Now(l), ordered, f);
    FoldEnds(s0, Now(l), ordered, f);
    sorted, added := ordered, f.added;
    if old(l.Recency()) == [] {
      FewProbes(added);
    }
  }
}
