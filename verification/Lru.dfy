/** Least-recently-used bookkeeping (src/cache/lru.rs). */
module Lru {
  import opened Prelude

  datatype Entry = Entry(digest: Digest, size: nat)

  type Order = map<nat, Digest>

  // ----- Counters in order -----

  lemma {:induction false} LeastExists(keys: set<nat>) returns (m: nat)
    requires keys != {}
    ensures m in keys && forall c :: c in keys ==> m <= c
    decreases |keys|
  {
    var c :| c in keys;
    var rest := keys - {c};
    if rest == {} {
      m := c;
      assert forall x :: x in keys ==> x == c || x in rest;
    } else {
      var r := LeastExists(rest);
      m := if c < r then c else r;
      forall x | x in keys ensures m <= x {
        assert x == c || x in rest;
      }
    }
  }

  /** The least counter: what `pop_first` takes. */
  ghost function Least(keys: set<nat>): (m: nat)
    requires keys != {}
    ensures m in keys && forall c :: c in keys ==> m <= c
  {
    assert exists m :: m in keys && forall c :: c in keys ==> m <= c by {
      var m := LeastExists(keys);
    }
    var m :| m in keys && forall c :: c in keys ==> m <= c;
    m
  }

  function SizeOf(sizes: map<Digest, nat>, d: Digest): nat {
    if d in sizes then sizes[d] else 0
  }

  /** The tracked entries, least recently used first. */
  ghost function RecencyOf(order: Order, sizes: map<Digest, nat>): seq<Entry>
    decreases |order|
  {
    if order == map[] then []
    else
      var m := Least(order.Keys);
      [Entry(order[m], SizeOf(sizes, order[m]))] + RecencyOf(order - {m}, sizes)
  }

  function Below(order: Order, c: nat): Order {
    map x | x in order && x < c :: order[x]
  }

  function Above(order: Order, c: nat): Order {
    map x | x in order && x > c :: order[x]
  }

  function EntryAt(order: Order, sizes: map<Digest, nat>, c: nat): seq<Entry> {
    if c in order then [Entry(order[c], SizeOf(sizes, order[c]))] else []
  }

  lemma FirstOfRecency(order: Order, sizes: map<Digest, nat>, m: nat)
    requires m in order && forall x :: x in order ==> m <= x
    ensures RecencyOf(order, sizes) == EntryAt(order, sizes, m) + RecencyOf(order - {m}, sizes)
  {
    assert m == Least(order.Keys);
  }

  lemma BelowWithout(order: Order, c: nat, m: nat)
    requires m in order && m < c
    ensures Below(order, c) - {m} == Below(order - {m}, c) && Above(order, c) == Above(order - {m}, c)
  {
  }

  lemma AboveWithout(order: Order, c: nat, m: nat)
    requires m in order && c <= m && forall x :: x in order ==> m <= x
    ensures Below(order, c) == map[] && Above(order, c) == if m == c then order - {m} else order
  {
  }

  /** A counter splits the recency list where its entry stands. */
  lemma {:induction false} SplitAt(order: Order, sizes: map<Digest, nat>, c: nat)
    ensures RecencyOf(order, sizes) ==
            RecencyOf(Below(order, c), sizes) + EntryAt(order, sizes, c) + RecencyOf(Above(order, c), sizes)
    decreases |order|
  {
    if order == map[] {
      assert Below(order, c) == map[] && Above(order, c) == map[];
    } else {
      var m := LeastExists(order.Keys);
      FirstOfRecency(order, sizes, m);
      if m < c {
        SplitAt(order - {m}, sizes, c);
        BelowWithout(order, c, m);
        FirstOfRecency(Below(order, c), sizes, m);
        SplitMore(EntryAt(order, sizes, m), RecencyOf(Below(order - {m}, c), sizes), EntryAt(order, sizes, c),
          RecencyOf(Above(order, c), sizes));
      } else {
        AboveWithout(order, c, m);
      }
    }
  }

  lemma SplitMore(first: seq<Entry>, a: seq<Entry>, b: seq<Entry>, c: seq<Entry>)
    ensures first + (a + b + c) == first + a + b + c
  {
  }

  /** Only the sizes of listed digests matter. */
  lemma {:induction false} SameSizes(order: Order, sizes: map<Digest, nat>, others: map<Digest, nat>)
    requires forall c :: c in order ==> SizeOf(sizes, order[c]) == SizeOf(others, order[c])
    ensures RecencyOf(order, sizes) == RecencyOf(order, others)
    decreases |order|
  {
    if order != map[] {
      SameSizes(order - {Least(order.Keys)}, sizes, others);
    }
  }

  lemma {:induction false} RecencyHas(order: Order, sizes: map<Digest, nat>, d: Digest)
    ensures (exists c :: c in order && order[c] == d) <==>
            (exists i :: 0 <= i < |RecencyOf(order, sizes)| && RecencyOf(order, sizes)[i].digest == d)
    ensures |RecencyOf(order, sizes)| == |order|
    decreases |order|
  {
    if order != map[] {
      var m := Least(order.Keys);
      var rest, r := order - {m}, RecencyOf(order, sizes);
      RecencyHas(rest, sizes, d);
      assert r[1..] == RecencyOf(rest, sizes);
      if i :| 0 <= i < |r| && r[i].digest == d {
        if i > 0 {
          assert r[1..][i - 1].digest == d;
        }
      }
      if c :| c in order && order[c] == d {
        if c != m {
          assert c in rest && rest[c] == d;
          var i :| 0 <= i < |r[1..]| && r[1..][i].digest == d;
          assert r[i + 1].digest == d;
        } else {
          assert r[0].digest == d;
        }
      }
    }
  }

  /** The list without the entry of `d`. */
  function Without(r: seq<Entry>, d: Digest): seq<Entry> {
    if r == [] then [] else (if r[0].digest == d then [] else [r[0]]) + Without(r[1..], d)
  }

  lemma {:induction false} WithoutConcat(a: seq<Entry>, b: seq<Entry>, d: Digest)
    ensures Without(a + b, d) == Without(a, d) + Without(b, d)
  {
    if a == [] {
      assert a + b == b;
    } else {
      ConcatTail(a, b);
      WithoutConcat(a[1..], b, d);
      ConcatAssoc(if a[0].digest == d then [] else [a[0]], Without(a[1..], d), Without(b, d));
    }
  }

  ghost predicate Lists(r: seq<Entry>, d: Digest) {
    exists i :: 0 <= i < |r| && r[i].digest == d
  }

  lemma {:induction false} WithoutNone(r: seq<Entry>, d: Digest)
    requires !Lists(r, d)
    ensures Without(r, d) == r
  {
    if r != [] {
      assert r[0].digest != d;
      assert forall i :: 0 <= i < |r[1..]| ==> r[1..][i] == r[i + 1];
      WithoutNone(r[1..], d);
    }
  }

  lemma {:induction false} WithoutLists(r: seq<Entry>, d: Digest, e: Digest)
    ensures Lists(Without(r, d), e) <==> Lists(r, e) && e != d
  {
    if r != [] {
      var head, rest := if r[0].digest == d then [] else [r[0]], Without(r[1..], d);
      WithoutLists(r[1..], d, e);
      ListsCons(r, e);
      if r[0].digest == d {
        assert Without(r, d) == rest;
      } else {
        ListsCons(Without(r, d), e);
        assert Without(r, d)[1..] == rest;
      }
    }
  }

  lemma ListsCons(r: seq<Entry>, d: Digest)
    requires r != []
    ensures Lists(r, d) <==> r[0].digest == d || Lists(r[1..], d)
  {
    if i :| 0 <= i < |r| && r[i].digest == d {
      if i > 0 {
        assert r[1..][i - 1].digest == d;
      }
    }
    if i :| 0 <= i < |r[1..]| && r[1..][i].digest == d {
      assert r[i + 1].digest == d;
    }
  }

  // ----- The four maps -----

  /** `order` and `positions` are inverse to each other. */
  ghost predicate Linked(order: Order, positions: map<Digest, nat>) {
    && (forall c :: c in order ==> order[c] in positions && positions[order[c]] == c)
    && (forall d :: d in positions ==> positions[d] in order && order[positions[d]] == d)
  }

  lemma LinkedLists(order: Order, positions: map<Digest, nat>, sizes: map<Digest, nat>, d: Digest)
    requires Linked(order, positions)
    ensures Lists(RecencyOf(order, sizes), d) <==> d in positions
  {
    RecencyHas(order, sizes, d);
  }

  lemma RemovedRecency(order: Order, positions: map<Digest, nat>, sizes: map<Digest, nat>, d: Digest)
    requires Linked(order, positions) && d in positions
    ensures RecencyOf(order - {positions[d]}, sizes) == Without(RecencyOf(order, sizes), d)
  {
    var c := positions[d];
    var b, a := RecencyOf(Below(order, c), sizes), RecencyOf(Above(order, c), sizes);
    SplitAt(order, sizes, c);
    SplitAt(order - {c}, sizes, c);
    assert Below(order - {c}, c) == Below(order, c) && Above(order - {c}, c) == Above(order, c);
    RecencyHas(Below(order, c), sizes, d);
    RecencyHas(Above(order, c), sizes, d);
    var e := Entry(d, SizeOf(sizes, d));
    WithoutConcat(b + [e], a, d);
    WithoutConcat(b, [e], d);
    WithoutNone(b, d);
    WithoutNone(a, d);
  }

  lemma AppendedRecency(order: Order, sizes: map<Digest, nat>, c: nat, d: Digest, size: nat)
    requires forall x :: x in order ==> x < c && order[x] != d
    ensures RecencyOf(order[c := d], sizes[d := size]) == RecencyOf(order, sizes) + [Entry(d, size)]
  {
    SplitAt(order[c := d], sizes[d := size], c);
    assert Below(order[c := d], c) == order && Above(order[c := d], c) == map[];
    SameSizes(order, sizes, sizes[d := size]);
  }

  lemma InsertedRecency(order: Order, sizes: map<Digest, nat>, c: nat, d: Digest, size: nat)
    requires c !in order && forall x :: x in order ==> order[x] != d
    ensures RecencyOf(order, sizes) == RecencyOf(Below(order, c), sizes) + RecencyOf(Above(order, c), sizes)
    ensures RecencyOf(order[c := d], sizes[d := size]) ==
            RecencyOf(Below(order, c), sizes) + [Entry(d, size)] + RecencyOf(Above(order, c), sizes)
  {
    SplitAt(order, sizes, c);
    SplitAt(order[c := d], sizes[d := size], c);
    assert Below(order[c := d], c) == Below(order, c) && Above(order[c := d], c) == Above(order, c);
    SameSizes(Below(order, c), sizes, sizes[d := size]);
    SameSizes(Above(order, c), sizes, sizes[d := size]);
  }

  /** Every indexed hash names a tracked digest of that hash. */
  ghost predicate Indexed(hashIndex: map<Hash, Digest>, positions: map<Digest, nat>) {
    forall h :: h in hashIndex ==> hashIndex[h] in positions && hashIndex[h].hash == h
  }

  function Forgotten(hashIndex: map<Hash, Digest>, d: Digest): map<Hash, Digest> {
    if d.hash in hashIndex && hashIndex[d.hash] == d then hashIndex - {d.hash} else hashIndex
  }

  /** The invariant of the four maps and the counter. */
  ghost predicate Consistent(order: Order, positions: map<Digest, nat>, sizes: map<Digest, nat>,
      hashIndex: map<Hash, Digest>, next: nat)
  {
    && Linked(order, positions) && sizes.Keys == positions.Keys && Indexed(hashIndex, positions)
    && forall c :: c in order ==> c < next
  }

  lemma TrackedConsistent(order: Order, positions: map<Digest, nat>, sizes: map<Digest, nat>,
      hashIndex: map<Hash, Digest>, next: nat,
                          d: Digest, size: nat, c: nat)
    requires Linked(order, positions) && sizes.Keys + {d} == positions.Keys + {d} &&
             Indexed(hashIndex, positions[d := c])
    requires forall c :: c in order ==> c < next
    requires d !in positions && c !in order
    ensures Consistent(order[c := d], positions[d := c], sizes[d := size], hashIndex[d.hash := d], Max(next, c + 1))
  {
    assert sizes[d := size].Keys == positions[d := c].Keys;
  }

  lemma DroppedConsistent(order: Order, positions: map<Digest, nat>, sizes: map<Digest, nat>,
      hashIndex: map<Hash, Digest>, next: nat, d: Digest)
    requires Consistent(order, positions, sizes, hashIndex, next) && d in positions
    ensures Consistent(order - {positions[d]}, positions - {d}, sizes - {d}, Forgotten(hashIndex, d), next)
  {
  }

  lemma PoppedRecency(order: Order, positions: map<Digest, nat>, sizes: map<Digest, nat>, c: nat)
    requires Linked(order, positions) && c in order && forall x :: x in order ==> c <= x
    ensures RecencyOf(order, sizes) == [Entry(order[c], SizeOf(sizes, order[c]))]
            + RecencyOf(order - {c}, sizes - {order[c]})
  {
    assert c == Least(order.Keys);
    SameSizes(order - {c}, sizes, sizes - {order[c]});
  }

  lemma DroppedRecency(order: Order, positions: map<Digest, nat>, sizes: map<Digest, nat>, d: Digest)
    requires Linked(order, positions) && d in positions
    ensures RecencyOf(order - {positions[d]}, sizes - {d}) == Without(RecencyOf(order, sizes), d)
    ensures Entry(d, SizeOf(sizes, d)) in RecencyOf(order, sizes)
  {
    RemovedRecency(order, positions, sizes, d);
    SplitAt(order, sizes, positions[d]);
    SameSizes(order - {positions[d]}, sizes, sizes - {d});
  }

  lemma TouchedRecency(order: Order, positions: map<Digest, nat>, sizes: map<Digest, nat>, next: nat, d: Digest,
      size: nat)
    requires Linked(order, positions) && forall c :: c in order ==> c < next
    ensures var rest := if d in positions then order - {positions[d]} else order;
            RecencyOf(rest[next := d], sizes[d := size]) == Without(RecencyOf(order, sizes), d) + [Entry(d, size)]
  {
    if d in positions {
      RemovedRecency(order, positions, sizes, d);
      AppendedRecency(order - {positions[d]}, sizes, next, d, size);
    } else {
      LinkedLists(order, positions, sizes, d);
      WithoutNone(RecencyOf(order, sizes), d);
      AppendedRecency(order, sizes, next, d, size);
    }
  }

  lemma TouchedConsistent(order: Order, positions: map<Digest, nat>, sizes: map<Digest, nat>,
      hashIndex: map<Hash, Digest>, next: nat, d: Digest, size: nat)
    requires Consistent(order, positions, sizes, hashIndex, next)
    ensures var rest := if d in positions then order - {positions[d]} else order;
            Consistent(rest[next := d], positions[d := next], sizes[d := size], hashIndex[d.hash := d], next + 1)
  {
    var rest := if d in positions then order - {positions[d]} else order;
    assert (positions - {d})[d := next] == positions[d := next];
    TrackedConsistent(rest, positions - {d}, sizes, hashIndex, next, d, size, next);
  }

  /** `c` is the first free counter from `from` on. */
  ghost predicate FirstFree(order: Order, from: nat, c: nat) {
    from <= c && c !in order && forall x :: from <= x < c ==> x in order
  }

  lemma InsertedConsistent(order: Order, positions: map<Digest, nat>, sizes: map<Digest, nat>,
      hashIndex: map<Hash, Digest>, next: nat, d: Digest, size: nat, c: nat)
    requires Consistent(order, positions, sizes, hashIndex, next) && c !in order
    ensures d !in positions <==>
            Consistent(order[c := d], positions[d := c], sizes[d := size], hashIndex[d.hash := d], Max(next, c + 1))
  {
    if d in positions {
      assert order[c := d][positions[d]] == d && positions[d := c][d] != positions[d];
    } else {
      TrackedConsistent(order, positions, sizes, hashIndex, next, d, size, c);
    }
  }

  lemma InsertedBetween(order: Order, positions: map<Digest, nat>, sizes: map<Digest, nat>, d: Digest, size: nat,
      c: nat)
    requires Linked(order, positions) && c !in order && d !in positions
    ensures RecencyOf(order, sizes) == RecencyOf(Below(order, c), sizes) + RecencyOf(Above(order, c), sizes)
    ensures RecencyOf(order[c := d], sizes[d := size]) ==
            RecencyOf(Below(order, c), sizes) + [Entry(d, size)] + RecencyOf(Above(order, c), sizes)
  {
    InsertedRecency(order, sizes, c, d, size);
  }

  // ----- Eviction -----

  function Total(r: seq<Entry>): nat {
    if r == [] then 0 else r[0].size + Total(r[1..])
  }

  lemma {:induction false} TotalConcat(a: seq<Entry>, b: seq<Entry>)
    ensures Total(a + b) == Total(a) + Total(b)
  {
    if a == [] {
      assert a + b == b;
    } else {
      ConcatTail(a, b);
      TotalConcat(a[1..], b);
    }
  }

  /** Every proper prefix is worth less than `n` bytes. */
  ghost predicate NoLonger(gone: seq<Entry>, n: nat) {
    forall k :: 0 <= k < |gone| ==> Total(gone[..k]) < n
  }

  /** `gone` is the shortest prefix of `r` worth `n` bytes, or all of `r` if there is none. */
  ghost predicate Evicts(r: seq<Entry>, n: nat, gone: seq<Entry>) {
    gone <= r && (Total(gone) >= n || gone == r) && NoLonger(gone, n)
  }

  /** Part of an eviction done: `removed` was taken off the front of `all` and `left` bytes are
      still wanted. */
  ghost predicate Evicting(all: seq<Entry>, rest: seq<Entry>, n: nat, removed: seq<Entry>, left: nat) {
    && all == removed + rest && NoLonger(removed, n)
    && left == if Total(removed) >= n then 0 else n - Total(removed)
  }

  lemma EvictsOne(all: seq<Entry>, e: Entry, rest: seq<Entry>, n: nat, removed: seq<Entry>, left: nat)
    requires Evicting(all, [e] + rest, n, removed, left) && left > 0
    ensures Evicting(all, rest, n, removed + [e], if left >= e.size then left - e.size else 0)
  {
    OneMoreVictim(removed, n, e);
    ConcatAssoc(removed, [e], rest);
  }

  lemma EvictsAll(all: seq<Entry>, rest: seq<Entry>, n: nat, removed: seq<Entry>, left: nat)
    requires Evicting(all, rest, n, removed, left) && (left == 0 || rest == [])
    ensures all == removed + rest && Evicts(all, n, removed)
  {
  }

  lemma OneMoreVictim(gone: seq<Entry>, n: nat, e: Entry)
    requires NoLonger(gone, n) && Total(gone) < n
    ensures NoLonger(gone + [e], n) && Total(gone + [e]) == Total(gone) + e.size
  {
    var more := gone + [e];
    TotalConcat(gone, [e]);
    forall k | 0 <= k < |more| ensures Total(more[..k]) < n {
      assert more[..k] == if k < |gone| then gone[..k] else gone;
    }
  }

  class LruState {
    var order: Order
    var positions: map<Digest, nat>
    var sizes: map<Digest, nat>
    var hashIndex: map<Hash, Digest>
    var nextCounter: nat

    ghost predicate Ok()
      reads this
    {
      Consistent(order, positions, sizes, hashIndex, nextCounter)
    }

    /** The plain list this state stands for. */
    ghost function Recency(): seq<Entry>
      reads this
    {
      RecencyOf(order, sizes)
    }

    constructor ()
      ensures Ok() && Recency() == [] && hashIndex == map[] && nextCounter == 1
    {
      order, positions, sizes, hashIndex, nextCounter := map[], map[], map[], map[], 1;
    }

    method FloorCounter(stamp: nat)
      requires Ok()
      modifies this`nextCounter
      ensures Ok() && nextCounter == Max(old(nextCounter), stamp + 1)
    {
      nextCounter := Max(nextCounter, stamp + 1);
    }

    method Track(d: Digest, size: nat, counter: nat)
      modifies this`order, this`positions, this`sizes, this`hashIndex
      ensures order == old(order)[counter := d] && positions == old(positions)[d := counter]
      ensures sizes == old(sizes)[d := size] && hashIndex == old(hashIndex)[d.hash := d]
    {
      order := order[counter := d];
      positions := positions[d := counter];
      sizes := sizes[d := size];
      hashIndex := hashIndex[d.hash := d];
    }

    /** Marks `d` most recently used. */
    method Touch(d: Digest, size: nat)
      requires Ok()
      modifies this
      ensures Ok() && Recency() == Without(old(Recency()), d) + [Entry(d, size)]
      ensures nextCounter == old(nextCounter) + 1 && positions == old(positions)[d := old(nextCounter)]
      ensures hashIndex == old(hashIndex)[d.hash := d]
    {
      TouchedConsistent(order, positions, sizes, hashIndex, nextCounter, d, size);
      TouchedRecency(order, positions, sizes, nextCounter, d, size);
      assert (positions - {d})[d := nextCounter] == positions[d := nextCounter];
      Unlist(d);
      var counter := nextCounter;
      nextCounter := nextCounter + 1;
      Track(d, size, counter);
    }

    method Unlist(d: Digest)
      requires d in positions ==> positions[d] in order
      modifies this`order, this`positions
      ensures order == if d in old(positions) then old(order) - {old(positions)[d]} else old(order)
      ensures positions == old(positions) - {d}
    {
      if d in positions {
        order := order - {positions[d]};
        positions := positions - {d};
      } else {
        assert positions - {d} == positions;
      }
    }

    method Contains(d: Digest) returns (found: bool)
      requires Ok()
      ensures found <==> Lists(Recency(), d)
    {
      LinkedLists(order, positions, sizes, d);
      found := d in positions;
    }

    method Len() returns (n: nat)
      requires Ok()
      ensures n == |Recency()|
    {
      RecencyHas(order, sizes, Digest(0, 0));
      n := |order|;
    }

    /** Tracks `d` at the first free counter from `stamp` on, unless its hash is indexed.
        The invariant survives exactly when `d` was not tracked: a digest can be tracked
        while its hash is not indexed, and then it is given a second slot. */
    method InsertAt(d: Digest, size: nat, stamp: nat) returns (tracked: bool, ghost probes: nat)
      modifies this
      ensures tracked <==> d.hash !in old(hashIndex)
      ensures !tracked ==> unchanged(this)
      ensures tracked ==>
                d in positions && FirstFree(old(order), Max(stamp, 1), positions[d]) &&
                probes == positions[d] - Max(stamp, 1)
      ensures tracked ==> order == old(order)[positions[d] := d] && sizes == old(sizes)[d := size]
      ensures tracked ==> positions == old(positions)[d := positions[d]] && hashIndex == old(hashIndex)[d.hash := d]
      ensures tracked ==> nextCounter == Max(old(nextCounter), positions[d] + 1)
      ensures old(Ok()) ==> (Ok() <==> !tracked || d !in old(positions))
      ensures old(Ok()) && tracked && d !in old(positions) ==>
                var below, above := RecencyOf(Below(old(order), positions[d]), old(sizes)),
                  RecencyOf(Above(old(order), positions[d]), old(sizes));
                old(Recency()) == below + above && Recency() == below + [Entry(d, size)] + above
    {
      if d.hash in hashIndex {
        return false, 0;
      }
      var counter := Probe(order, Max(stamp, 1));
      if Ok() {
        InsertedConsistent(order, positions, sizes, hashIndex, nextCounter, d, size, counter);
        if d !in positions {
          InsertedBetween(order, positions, sizes, d, size, counter);
        }
      }
      Track(d, size, counter);
      nextCounter := Max(nextCounter, counter + 1);
      tracked, probes := true, counter - Max(stamp, 1);
    }

    /** Drops the size and hash records of a digest already out of the order. */
    method Forget(d: Digest) returns (size: Option<nat>)
      modifies this`sizes, this`hashIndex
      ensures sizes == old(sizes) - {d} && hashIndex == Forgotten(old(hashIndex), d)
      ensures size == if d in old(sizes) then Some(old(sizes)[d]) else None
    {
      if d.hash in hashIndex && hashIndex[d.hash] == d {
        hashIndex := hashIndex - {d.hash};
      }
      size := if d in sizes then Some(sizes[d]) else None;
      sizes := sizes - {d};
    }

    method Remove(d: Digest) returns (size: Option<nat>)
      requires Ok()
      modifies this
      ensures Ok() && Recency() == Without(old(Recency()), d)
      ensures size.Some? <==> Lists(old(Recency()), d)
      ensures size.Some? ==> Entry(d, size.value) in old(Recency())
      ensures hashIndex == if size.Some? then Forgotten(old(hashIndex), d) else old(hashIndex)
      ensures nextCounter == old(nextCounter) && positions == old(positions) - {d}
    {
      LinkedLists(order, positions, sizes, d);
      if d !in positions {
        WithoutNone(Recency(), d);
        return None;
      }
      DroppedRecency(order, positions, sizes, d);
      DroppedConsistent(order, positions, sizes, hashIndex, nextCounter, d);
      order := order - {positions[d]};
      positions := positions - {d};
      size := Forget(d);
    }

    /** Takes the least recently used entry. */
    method PopLru() returns (entry: Option<Entry>)
      requires Ok()
      modifies this
      ensures Ok() && nextCounter == old(nextCounter)
      ensures entry == None ==> old(Recency()) == [] && unchanged(this)
      ensures entry.Some? ==> old(Recency()) == [entry.value] + Recency()
      ensures entry.Some? ==>
                hashIndex == Forgotten(old(hashIndex), entry.value.digest) &&
                positions == old(positions) - {entry.value.digest}
      ensures entry.Some? ==> entry.value.digest in old(sizes) && entry.value.size == old(sizes)[entry.value.digest]
    {
      if order == map[] {
        return None;
      }
      ghost var least := LeastExists(order.Keys);
      var c :| c in order && forall x :: x in order ==> c <= x;
      var d := order[c];
      PoppedRecency(order, positions, sizes, c);
      DroppedConsistent(order, positions, sizes, hashIndex, nextCounter, d);
      order := order - {c};
      positions := positions - {d};
      var size := Forget(d);
      entry := Some(Entry(d, if size.Some? then size.value else 0));
    }

    /** Evicts the shortest run of least recently used entries worth `freeBytes`. */
    method Evict(freeBytes: nat) returns (removed: seq<Entry>)
      requires Ok()
      modifies this
      ensures Ok() && nextCounter == old(nextCounter)
      ensures old(Recency()) == removed + Recency() && Evicts(old(Recency()), freeBytes, removed)
    {
      ghost var all := Recency();
      var left: nat, more := freeBytes, true;
      removed := [];
      while left > 0 && more
        invariant Ok() && nextCounter == old(nextCounter)
        invariant Evicting(all, Recency(), freeBytes, removed, left) && (more || Recency() == [])
        decreases |Recency()| + One(more)
      {
        var entry := PopLru();
        more := entry.Some?;
        if more {
          EvictsOne(all, entry.value, Recency(), freeBytes, removed, left);
          removed := removed + [entry.value];
          left := if left >= entry.value.size then left - entry.value.size else 0;
        }
      }
      EvictsAll(all, Recency(), freeBytes, removed, left);
    }
  }

  /** The probing loop of `insert_at`. */
  method Probe(order: Order, from: nat) returns (counter: nat)
    ensures FirstFree(order, from, counter)
  {
    counter := from;
    while counter in order
      invariant from <= counter && forall x :: from <= x < counter ==> x in order
      decreases |Above(order, counter)| + One(counter in order)
    {
      SkipOne(order, counter);
      counter := counter + 1;
    }
  }

  lemma SkipOne(order: Order, c: nat)
    requires c in order
    ensures |Above(order, c + 1)| + One(c + 1 in order) < |Above(order, c)| + One(c in order)
  {
    if c + 1 in order {
      assert Above(order, c).Keys == Above(order, c + 1).Keys + {c + 1};
      assert |Above(order, c).Keys| == |Above(order, c + 1).Keys| + 1;
    } else {
      assert Above(order, c) == Above(order, c + 1);
    }
  }

  /** A digest given two slots: its hash was written under another key, that key was
      removed, and the entry was then restored. */
  method OneDigestTwoSlots() returns (l: LruState)
    ensures fresh(l) && !l.Ok()
    ensures exists b, c :: b in l.order && c in l.order && b != c && l.order[b] == l.order[c]
  {
    var mine, other := Digest(7, 1), Digest(7, 2);
    l := new LruState();
    l.Touch(mine, 10);
    l.Touch(other, 10);
    var size := l.Remove(other);
    ghost var before := l.positions[mine];
    var tracked, probes := l.InsertAt(mine, 10, 50);
    assert l.order[before] == l.order[l.positions[mine]] && before != l.positions[mine];
  }
}
