/** The in-memory Action Cache (`L1ActionCache` of src/cache/action_cache.rs). Every
    operation takes the clock readings it makes. */
module ActionCache {
  import opened Prelude
  import opened Lru

  /** Which `ActionResult` an entry holds. */
  type Value = nat

  datatype CacheEntry = CacheEntry(data: Value, createdAt: nat, ttl: nat)

  datatype Expiration = Expiration(expiresAt: nat, digest: Digest)

  predicate IsExpired(e: CacheEntry, now: nat) {
    now - e.createdAt > e.ttl
  }

  datatype Limits = Limits(capacity: nat, ttl: nat)

  /** The value of the cache: entries, recency and, in no particular order, the
      expiration records. */
  datatype L1 = L1(cache: map<Digest, CacheEntry>, recent: seq<Entry>, heap: seq<Expiration>)

  const EMPTY: L1 := L1(map[], [], [])

  function Removed(s: L1, d: Digest): L1 {
    s.(cache := s.cache - {d}, recent := Without(s.recent, d))
  }

  function Touched(recent: seq<Entry>, d: Digest): seq<Entry> {
    Without(recent, d) + [Entry(d, 0)]
  }

  function Get(s: L1, d: Digest, now: nat): (Option<Value>, L1) {
    if d !in s.cache then (None, s)
    else if IsExpired(s.cache[d], now) then (None, Removed(s, d))
    else (Some(s.cache[d].data), s.(recent := Touched(s.recent, d)))
  }

  /** Drops the least recently used entry. */
  function EvictLru(s: L1): L1 {
    if s.recent == [] then s else s.(cache := s.cache - {s.recent[0].digest}, recent := s.recent[1..])
  }

  function MadeRoom(limits: Limits, s: L1, d: Digest): L1 {
    if d !in s.cache && |s.cache| >= limits.capacity then EvictLru(s) else s
  }

  function Stored(limits: Limits, s: L1, d: Digest, v: Value, now: nat): L1 {
    L1(s.cache[d := CacheEntry(v, now, limits.ttl)], Touched(s.recent, d), s.heap + [Expiration(now + limits.ttl, d)])
  }

  /** The records not due at `now`. */
  function NotDue(heap: seq<Expiration>, now: nat): seq<Expiration> {
    if heap == [] then [] else (if heap[0].expiresAt > now then [heap[0]] else []) + NotDue(heap[1..], now)
  }

  /** The records of the digests in `keys`. */
  function RecordsOf(heap: seq<Expiration>, keys: set<Digest>): seq<Expiration> {
    if heap == [] then [] else (if heap[0].digest in keys then [heap[0]] else []) + RecordsOf(heap[1..], keys)
  }

  /** The clock readings a sweep makes after its first, one for each record it pops: the last
      one made for each digest. */
  type Readings = map<Digest, nat>

  function Reading(later: Readings, now: nat, d: Digest): nat {
    if d in later then later[d] else now
  }

  /** The clock does not run backwards. */
  predicate Clocked(later: Readings, now: nat) {
    forall d :: d in later ==> now <= later[d]
  }

  predicate ReadFrom(later: Readings, clock: seq<nat>) {
    forall d :: d in later ==> later[d] in clock
  }

  /** The digests with a record due at `now` whose entry was expired when it was looked at. */
  function Due(s: L1, now: nat, later: Readings): set<Digest> {
    set r | r in s.heap && r.expiresAt <= now && r.digest in s.cache
            && IsExpired(s.cache[r.digest], Reading(later, now, r.digest)) :: r.digest
  }

  function WithoutAll(recent: seq<Entry>, gone: set<Digest>): seq<Entry> {
    if recent == [] then [] else (if recent[0].digest in gone then [] else [recent[0]]) + WithoutAll(recent[1..], gone)
  }

  /** Removes what the due records say has expired. */
  function CleanedUp(s: L1, now: nat, later: Readings): L1 {
    var gone := Due(s, now, later);
    L1(s.cache - gone, WithoutAll(s.recent, gone), NotDue(s.heap, now))
  }

  function Pruned(s: L1): L1 {
    s.(heap := RecordsOf(s.heap, s.cache.Keys))
  }

  function Put(limits: Limits, s: L1, d: Digest, v: Value, now: nat, sweep: nat, later: Readings): L1 {
    var t := Stored(limits, MadeRoom(limits, s, d), d, v, now);
    if |t.heap| > limits.capacity * 2 then Pruned(CleanedUp(t, sweep, later)) else t
  }

  // ----- Recency and entries agree -----

  ghost predicate Distinct(r: seq<Entry>) {
    forall i, j :: 0 <= i < j < |r| ==> r[i].digest != r[j].digest
  }

  function Digests(r: seq<Entry>): set<Digest> {
    set e | e in r :: e.digest
  }

  /** The entries and the recency list track the same digests, each once, and no more
      than the capacity, or one when the capacity is zero. */
  ghost predicate Fit(limits: Limits, s: L1) {
    && Distinct(s.recent) && s.cache.Keys == Digests(s.recent) && |s.recent| <= Max(limits.capacity, 1)
  }

  lemma {:induction false} CountDigests(r: seq<Entry>)
    requires Distinct(r)
    ensures |Digests(r)| == |r|
  {
    if r != [] {
      var rest := r[1..];
      CountDigests(rest);
      assert r[0].digest !in Digests(rest);
      assert Digests(r) == Digests(rest) + {r[0].digest};
    }
  }

  lemma {:induction false} WithoutFacts(r: seq<Entry>, d: Digest)
    requires Distinct(r)
    ensures Distinct(Without(r, d)) && Digests(Without(r, d)) == Digests(r) - {d}
    ensures |Without(r, d)| == |r| - if d in Digests(r) then 1 else 0
  {
    if r != [] {
      var rest := r[1..];
      WithoutFacts(rest, d);
      assert r == [r[0]] + rest;
      assert Digests(r) == Digests(rest) + {r[0].digest};
      assert r[0].digest !in Digests(rest);
      forall e | e in Without(rest, d) ensures e.digest != r[0].digest {
        assert e.digest in Digests(Without(rest, d));
      }
      if r[0].digest != d {
        assert Without(r, d) == [r[0]] + Without(rest, d);
        assert Digests(Without(r, d)) == Digests(Without(rest, d)) + {r[0].digest};
      }
    }
  }

  lemma {:induction false} WithoutAllFacts(r: seq<Entry>, gone: set<Digest>)
    requires Distinct(r)
    ensures Distinct(WithoutAll(r, gone)) && Digests(WithoutAll(r, gone)) == Digests(r) - gone
    ensures |WithoutAll(r, gone)| <= |r|
  {
    if r != [] {
      var rest := r[1..];
      WithoutAllFacts(rest, gone);
      assert r == [r[0]] + rest;
      assert Digests(r) == Digests(rest) + {r[0].digest};
      assert r[0].digest !in Digests(rest);
      forall e | e in WithoutAll(rest, gone) ensures e.digest != r[0].digest {
        assert e.digest in Digests(WithoutAll(rest, gone));
      }
      if r[0].digest !in gone {
        assert WithoutAll(r, gone) == [r[0]] + WithoutAll(rest, gone);
        assert Digests(WithoutAll(r, gone)) == Digests(WithoutAll(rest, gone)) + {r[0].digest};
      }
    }
  }

  lemma TouchedFacts(r: seq<Entry>, d: Digest)
    requires Distinct(r)
    ensures Distinct(Touched(r, d)) && Digests(Touched(r, d)) == Digests(r) + {d}
    ensures |Touched(r, d)| == |r| + if d in Digests(r) then 0 else 1
  {
    WithoutFacts(r, d);
    var w := Without(r, d);
    assert Digests(w + [Entry(d, 0)]) == Digests(w) + {d};
    forall i | 0 <= i < |w| ensures w[i].digest != d {
      assert w[i].digest in Digests(w);
    }
  }

  lemma GetFits(limits: Limits, s: L1, d: Digest, now: nat)
    requires Fit(limits, s)
    ensures Fit(limits, Get(s, d, now).1)
  {
    WithoutFacts(s.recent, d);
    TouchedFacts(s.recent, d);
  }

  lemma RemovedFits(limits: Limits, s: L1, d: Digest)
    requires Fit(limits, s)
    ensures Fit(limits, Removed(s, d))
  {
    WithoutFacts(s.recent, d);
  }

  lemma CleanedUpFits(limits: Limits, s: L1, now: nat, later: Readings)
    requires Fit(limits, s)
    ensures Fit(limits, CleanedUp(s, now, later))
  {
    WithoutAllFacts(s.recent, Due(s, now, later));
  }

  lemma EvictFits(limits: Limits, s: L1)
    requires Fit(limits, s) && s.recent != []
    ensures Fit(limits, EvictLru(s)) && |EvictLru(s).recent| == |s.recent| - 1
  {
    var r := s.recent;
    assert r == [r[0]] + r[1..];
    assert Digests(r) == Digests(r[1..]) + {r[0].digest};
    assert r[0].digest !in Digests(r[1..]);
  }

  lemma MadeRoomFits(limits: Limits, s: L1, d: Digest)
    requires Fit(limits, s)
    ensures Fit(limits, MadeRoom(limits, s, d))
    ensures d !in s.cache ==>
              d !in MadeRoom(limits, s, d).cache &&
              |MadeRoom(limits, s, d).recent| < Max(limits.capacity, 1)
  {
    CountDigests(s.recent);
    if s.recent != [] {
      EvictFits(limits, s);
    }
  }

  lemma StoredFits(limits: Limits, s: L1, d: Digest, v: Value, now: nat)
    requires Fit(limits, s) && (d !in s.cache ==> |s.recent| < Max(limits.capacity, 1))
    ensures Fit(limits, Stored(limits, s, d, v, now))
  {
    TouchedFacts(s.recent, d);
  }

  lemma PutFits(limits: Limits, s: L1, d: Digest, v: Value, now: nat, sweep: nat, later: Readings)
    requires Fit(limits, s)
    ensures Fit(limits, Put(limits, s, d, v, now, sweep, later))
  {
    var room := MadeRoom(limits, s, d);
    MadeRoomFits(limits, s, d);
    StoredFits(limits, room, d, v, now);
    CleanedUpFits(limits, Stored(limits, room, d, v, now), sweep, later);
  }

  // ----- Runs -----

  datatype Op =
    | GetOp(digest: Digest, now: nat)
    | PutOp(digest: Digest, value: Value, now: nat, sweep: nat, later: Readings)
    | InvalidateOp(digest: Digest)
    | CleanupOp(now: nat, later: Readings)

  function Step(limits: Limits, s: L1, op: Op): L1 {
    match op
    case GetOp(d, now) => Get(s, d, now).1
    case PutOp(d, v, now, sweep, later) => Put(limits, s, d, v, now, sweep, later)
    case InvalidateOp(d) => Removed(s, d)
    case CleanupOp(now, later) => CleanedUp(s, now, later)
  }

  /** The cache after `ops`, from empty. */
  function Run(limits: Limits, ops: seq<Op>): L1 {
    if ops == [] then EMPTY else Step(limits, Run(limits, ops[..|ops| - 1]), ops[|ops| - 1])
  }

  /** The last value put for `d` and when, unless it was invalidated since. */
  function LastWrite(ops: seq<Op>, d: Digest): Option<(Value, nat)> {
    if ops == [] then None
    else
      var op := ops[|ops| - 1];
      if op.PutOp? && op.digest == d then Some((op.value, op.now))
      else if op.InvalidateOp? && op.digest == d then None
      else LastWrite(ops[..|ops| - 1], d)
  }

  predicate Hits(s: L1, d: Digest, now: nat) {
    d in s.cache && !IsExpired(s.cache[d], now)
  }

  /** The other digests put, or found by `get`, since `d` last was. */
  function OthersSince(limits: Limits, ops: seq<Op>, d: Digest): set<Digest> {
    if ops == [] then {}
    else
      var init, op := ops[..|ops| - 1], ops[|ops| - 1];
      if op.PutOp? || (op.GetOp? && Hits(Run(limits, init), op.digest, op.now)) then
        if op.digest == d then {} else OthersSince(limits, init, d) + {op.digest}
      else
        OthersSince(limits, init, d)
  }

  /** No clock reading of `op` is later than `now`. */
  predicate By(op: Op, now: nat) {
    match op
    case GetOp(_, t) => t <= now
    case PutOp(_, _, t, sweep, later) => t <= now && sweep <= now && forall d :: d in later ==> later[d] <= now
    case InvalidateOp(_) => true
    case CleanupOp(t, later) => t <= now && forall d :: d in later ==> later[d] <= now
  }

  lemma StepFits(limits: Limits, s: L1, op: Op)
    requires Fit(limits, s)
    ensures Fit(limits, Step(limits, s, op))
  {
    match op
    case GetOp(d, now) => GetFits(limits, s, d, now);
    case PutOp(d, v, now, sweep, later) => PutFits(limits, s, d, v, now, sweep, later);
    case InvalidateOp(d) => RemovedFits(limits, s, d);
    case CleanupOp(now, later) => CleanedUpFits(limits, s, now, later);
  }

  /** In every run the entries and the recency list track the same digests, within capacity. */
  lemma {:induction false} RunFits(limits: Limits, ops: seq<Op>)
    ensures Fit(limits, Run(limits, ops))
    decreases |ops|
  {
    if ops != [] {
      RunFits(limits, ops[..|ops| - 1]);
      StepFits(limits, Run(limits, ops[..|ops| - 1]), ops[|ops| - 1]);
    }
  }

  /** What is cached for a digest is the last value put for it, not invalidated since. */
  lemma {:induction false} CachedIsLastPut(limits: Limits, ops: seq<Op>, d: Digest)
    ensures var s := Run(limits, ops);
            d in s.cache ==>
                LastWrite(ops, d) == Some((s.cache[d].data, s.cache[d].createdAt)) &&
                s.cache[d].ttl == limits.ttl
    decreases |ops|
  {
    if ops != [] {
      CachedIsLastPut(limits, ops[..|ops| - 1], d);
    }
  }

  /** A lookup answers only with the last value put, no older than the time to live and
      not invalidated since, and marks it most recently used; an older value is gone. */
  lemma ServedIsFresh(limits: Limits, ops: seq<Op>, d: Digest, now: nat)
    ensures var (found, t) := Get(Run(limits, ops), d, now);
            && (forall v :: found == Some(v) ==>
                  && (exists at :: LastWrite(ops, d) == Some((v, at)) && now - at <= limits.ttl)
                  && t.recent != [] && t.recent[|t.recent| - 1].digest == d)
            && (LastWrite(ops, d) == None ==> found == None)
            && (forall v, at :: LastWrite(ops, d) == Some((v, at)) && now - at > limits.ttl ==> found == None)
            && (found == None ==> d !in t.cache && d !in Digests(t.recent))
            && (forall x :: x != d ==> (x in t.cache <==> x in Run(limits, ops).cache))
  {
    CachedIsLastPut(limits, ops, d);
    RunFits(limits, ops);
    GetFits(limits, Run(limits, ops), d, now);
  }

  // ----- An entry used recently enough survives -----

  /** What was used after `d`. */
  function NewerThan(r: seq<Entry>, d: Digest): seq<Entry> {
    if r == [] then [] else if r[0].digest == d then r[1..] else NewerThan(r[1..], d)
  }

  lemma {:induction false} NewerIsPart(r: seq<Entry>, d: Digest)
    ensures Digests(NewerThan(r, d)) <= Digests(r)
  {
    if r != [] {
      assert r == [r[0]] + r[1..];
      NewerIsPart(r[1..], d);
      assert Digests(r[1..]) <= Digests(r);
    }
  }

  lemma {:induction false} NewerWithoutAll(r: seq<Entry>, d: Digest, gone: set<Digest>)
    requires d !in gone
    ensures Digests(NewerThan(WithoutAll(r, gone), d)) <= Digests(NewerThan(r, d)) - gone
    ensures d in Digests(r) ==> d in Digests(WithoutAll(r, gone))
  {
    if r != [] {
      var rest, w := r[1..], WithoutAll(r[1..], gone);
      assert r == [r[0]] + rest;
      NewerWithoutAll(rest, d, gone);
      assert Digests(r) == Digests(rest) + {r[0].digest};
      if r[0].digest == d {
        assert WithoutAll(r, gone) == [r[0]] + w && WithoutAll(r, gone)[1..] == w;
        WithoutAllLeaves(rest, gone);
      } else if r[0].digest !in gone {
        assert WithoutAll(r, gone) == [r[0]] + w && WithoutAll(r, gone)[1..] == w;
        assert Digests(WithoutAll(r, gone)) == Digests(w) + {r[0].digest};
      } else {
        assert WithoutAll(r, gone) == w;
      }
    }
  }

  lemma {:induction false} WithoutAllLeaves(r: seq<Entry>, gone: set<Digest>)
    ensures Digests(WithoutAll(r, gone)) <= Digests(r) - gone
  {
    if r != [] {
      var rest, w := r[1..], WithoutAll(r[1..], gone);
      assert r == [r[0]] + rest;
      WithoutAllLeaves(rest, gone);
      assert Digests(r) == Digests(rest) + {r[0].digest};
      if r[0].digest !in gone {
        assert Digests([r[0]] + w) == Digests(w) + {r[0].digest};
      }
    }
  }

  lemma {:induction false} WithoutIsWithoutAll(r: seq<Entry>, d: Digest)
    ensures Without(r, d) == WithoutAll(r, {d})
  {
    if r != [] {
      WithoutIsWithoutAll(r[1..], d);
    }
  }

  lemma {:induction false} NewerAppend(r: seq<Entry>, d: Digest, e: Entry)
    requires d in Digests(r)
    ensures NewerThan(r + [e], d) == NewerThan(r, d) + [e]
  {
    assert r == [r[0]] + r[1..];
    assert (r + [e])[1..] == r[1..] + [e];
    if r[0].digest != d {
      NewerAppend(r[1..], d, e);
    }
  }

  lemma {:induction false} NewerNone(r: seq<Entry>, d: Digest)
    requires d !in Digests(r)
    ensures NewerThan(r + [Entry(d, 0)], d) == []
  {
    if r != [] {
      assert r[0] in r && forall e :: e in r[1..] ==> e in r;
      assert (r + [Entry(d, 0)])[1..] == r[1..] + [Entry(d, 0)];
      NewerNone(r[1..], d);
    }
  }

  /** `d` is cached with entry `e`, and everything used after it is in `others`. */
  ghost predicate Holds(s: L1, d: Digest, e: CacheEntry, others: set<Digest>) {
    d in s.cache && s.cache[d] == e && d in Digests(s.recent) && Digests(NewerThan(s.recent, d)) <= others
  }

  lemma HoldsUnderTouch(s: L1, d: Digest, e: CacheEntry, others: set<Digest>, x: Digest)
    requires Holds(s, d, e, others) && x != d
    ensures Holds(s.(recent := Touched(s.recent, x)), d, e, others + {x})
  {
    var w := Without(s.recent, x);
    WithoutIsWithoutAll(s.recent, x);
    NewerWithoutAll(s.recent, d, {x});
    NewerAppend(w, d, Entry(x, 0));
    assert Digests(NewerThan(w, d) + [Entry(x, 0)]) == Digests(NewerThan(w, d)) + {x};
    assert Digests(w + [Entry(x, 0)]) == Digests(w) + {x};
  }

  lemma HoldsAfterUse(s: L1, d: Digest, e: CacheEntry)
    requires d in s.cache && s.cache[d] == e
    ensures Holds(s.(recent := Touched(s.recent, d)), d, e, {})
  {
    var w := Without(s.recent, d);
    WithoutIsWithoutAll(s.recent, d);
    WithoutAllLeaves(s.recent, {d});
    NewerNone(w, d);
    assert Entry(d, 0) in w + [Entry(d, 0)];
  }

  lemma HoldsUnderRemoval(s: L1, d: Digest, e: CacheEntry, others: set<Digest>, gone: set<Digest>)
    requires Holds(s, d, e, others) && d !in gone
    ensures Holds(s.(cache := s.cache - gone, recent := WithoutAll(s.recent, gone)), d, e, others)
  {
    NewerWithoutAll(s.recent, d, gone);
  }

  lemma HoldsUnderCleanup(s: L1, d: Digest, e: CacheEntry, others: set<Digest>, now: nat, later: Readings)
    requires Holds(s, d, e, others) && !IsExpired(e, Reading(later, now, d))
    ensures Holds(CleanedUp(s, now, later), d, e, others)
  {
    HoldsUnderRemoval(s, d, e, others, Due(s, now, later));
  }

  /** Fewer than the capacity others were used after `d`, so it is not the victim. */
  lemma NotTheVictim(n: nat, r: seq<Entry>, d: Digest, others: set<Digest>, x: Digest)
    requires Distinct(r) && d in Digests(r) && Digests(NewerThan(r, d)) <= others
    requires x !in Digests(r) && |others + {x}| < n <= |r|
    ensures r[0].digest != d
  {
    CountDigests(r[1..]);
    if r[0].digest == d {
      assert x !in Digests(r[1..]);
      SmallerSet(Digests(r[1..]) + {x}, others + {x});
      assert false;
    }
  }

  /** Making room never evicts an entry fewer than the capacity others were used after. */
  lemma HoldsUnderEviction(limits: Limits, s: L1, d: Digest, e: CacheEntry, others: set<Digest>, x: Digest)
    requires Fit(limits, s) && Holds(s, d, e, others) && x != d && |others + {x}| < Max(limits.capacity, 1)
    ensures Holds(MadeRoom(limits, s, x), d, e, others)
  {
    CountDigests(s.recent);
    if x !in s.cache && |s.cache| >= limits.capacity {
      NotTheVictim(Max(limits.capacity, 1), s.recent, d, others, x);
      assert s.recent == [s.recent[0]] + s.recent[1..];
    }
  }

  lemma {:induction false} SmallerSet<T>(a: set<T>, b: set<T>)
    requires a <= b
    ensures |a| <= |b|
    decreases a
  {
    if a != {} {
      var x :| x in a;
      SmallerSet(a - {x}, b - {x});
    }
  }

  lemma HoldsUnderPut(limits: Limits, s: L1, d: Digest, e: CacheEntry, others: set<Digest>, x: Digest, v: Value,
      now: nat, sweep: nat, later: Readings)
    requires Fit(limits, s) && Holds(s, d, e, others) && x != d && |others + {x}| < Max(limits.capacity, 1)
    requires !IsExpired(e, Reading(later, sweep, d))
    ensures Holds(Put(limits, s, x, v, now, sweep, later), d, e, others + {x})
  {
    HoldsUnderEviction(limits, s, d, e, others, x);
    var room := MadeRoom(limits, s, x);
    HoldsUnderTouch(room, d, e, others, x);
    var t := Stored(limits, room, x, v, now);
    assert Holds(t, d, e, others + {x});
    HoldsUnderCleanup(t, d, e, others + {x}, sweep, later);
  }

  lemma HoldsOncePut(limits: Limits, s: L1, d: Digest, v: Value, now: nat, sweep: nat, later: Readings)
    requires Reading(later, sweep, d) <= now + limits.ttl
    ensures Holds(Put(limits, s, d, v, now, sweep, later), d, CacheEntry(v, now, limits.ttl), {})
  {
    var room, e := MadeRoom(limits, s, d), CacheEntry(v, now, limits.ttl);
    HoldsAfterUse(room.(cache := room.cache[d := e]), d, e);
    var t := Stored(limits, room, d, v, now);
    assert Holds(t, d, e, {});
    HoldsUnderCleanup(t, d, e, {}, sweep, later);
  }

  lemma HoldsUnderGet(s: L1, d: Digest, e: CacheEntry, others: set<Digest>, x: Digest, now: nat)
    requires Holds(s, d, e, others) && x != d
    ensures Holds(Get(s, x, now).1, d, e, if Hits(s, x, now) then others + {x} else others)
  {
    if Hits(s, x, now) {
      HoldsUnderTouch(s, d, e, others, x);
    } else if x in s.cache {
      WithoutIsWithoutAll(s.recent, x);
      HoldsUnderRemoval(s, d, e, others, {x});
    }
  }

  lemma HoldsUnderInvalidate(s: L1, d: Digest, e: CacheEntry, others: set<Digest>, x: Digest)
    requires Holds(s, d, e, others) && x != d
    ensures Holds(Removed(s, x), d, e, others)
  {
    WithoutIsWithoutAll(s.recent, x);
    HoldsUnderRemoval(s, d, e, others, {x});
  }

  /** One step, for an entry still alive at `end` with few enough others used since. */
  lemma HoldsUnderStep(limits: Limits, s: L1, op: Op, d: Digest, e: CacheEntry, others: set<Digest>, end: nat)
    requires Fit(limits, s) && Holds(s, d, e, others) && By(op, end) && !IsExpired(e, end)
    requires !(op.PutOp? && op.digest == d) && !(op.InvalidateOp? && op.digest == d)
    requires op.PutOp? ==> |others + {op.digest}| < Max(limits.capacity, 1)
    ensures Holds(Step(limits, s, op), d, e,
                  if op.GetOp? && op.digest == d then {}
                  else if op.PutOp? || (op.GetOp? && Hits(s, op.digest, op.now)) then others + {op.digest} else others)
  {
    match op
    case GetOp(x, now) =>
      if x == d {
        HoldsAfterUse(s, d, e);
      } else {
        HoldsUnderGet(s, d, e, others, x, now);
      }
    case PutOp(x, v, now, sweep, later) => HoldsUnderPut(limits, s, d, e, others, x, v, now, sweep, later);
    case InvalidateOp(x) => HoldsUnderInvalidate(s, d, e, others, x);
    case CleanupOp(now, later) => HoldsUnderCleanup(s, d, e, others, now, later);
  }

  lemma {:induction false} SurvivesHolding(limits: Limits, ops: seq<Op>, d: Digest, v: Value, at: nat, end: nat)
    requires forall i :: 0 <= i < |ops| ==> By(ops[i], end)
    requires LastWrite(ops, d) == Some((v, at)) && end <= at + limits.ttl
    requires |OthersSince(limits, ops, d)| < Max(limits.capacity, 1)
    ensures Holds(Run(limits, ops), d, CacheEntry(v, at, limits.ttl), OthersSince(limits, ops, d))
    decreases |ops|
  {
    var init, op, e := ops[..|ops| - 1], ops[|ops| - 1], CacheEntry(v, at, limits.ttl);
    var s := Run(limits, init);
    assert By(op, end);
    if op.PutOp? && op.digest == d {
      HoldsOncePut(limits, s, d, v, at, op.sweep, op.later);
    } else if op.GetOp? && op.digest == d && Hits(s, d, op.now) {
      CachedIsLastPut(limits, init, d);
      HoldsAfterUse(s, d, e);
    } else {
      assert LastWrite(init, d) == Some((v, at));
      RunFits(limits, init);
      FewerBefore(limits, ops, d);
      SurvivesHolding(limits, init, d, v, at, end);
      HoldsUnderStep(limits, s, op, d, e, OthersSince(limits, init, d), end);
    }
  }

  /** Unless `d` itself was just used, no fewer others were used since than before. */
  lemma FewerBefore(limits: Limits, ops: seq<Op>, d: Digest)
    requires ops != []
    requires var op := ops[|ops| - 1];
             op.PutOp? || (op.GetOp? && Hits(Run(limits, ops[..|ops| - 1]), op.digest, op.now)) ==> op.digest != d
    ensures |OthersSince(limits, ops[..|ops| - 1], d)| <= |OthersSince(limits, ops, d)|
  {
    SmallerSet(OthersSince(limits, ops[..|ops| - 1], d), OthersSince(limits, ops, d));
  }

  /** Whatever else happens, an entry that was put, not invalidated and has not expired is
      served, as long as fewer than the capacity others were put or found since it last was. */
  lemma RecentlyUsedIsServed(limits: Limits, ops: seq<Op>, d: Digest, v: Value, at: nat, now: nat)
    requires forall i :: 0 <= i < |ops| ==> By(ops[i], now)
    requires LastWrite(ops, d) == Some((v, at)) && now <= at + limits.ttl
    requires |OthersSince(limits, ops, d)| < Max(limits.capacity, 1)
    ensures Get(Run(limits, ops), d, now).0 == Some(v)
  {
    SurvivesHolding(limits, ops, d, v, at, now);
  }

  // ----- What cleaning up removes -----

  function Deadline(e: CacheEntry): nat {
    e.createdAt + e.ttl
  }

  /** Every cached entry has its expiration record. */
  ghost predicate Recorded(s: L1) {
    forall d :: d in s.cache ==> Expiration(Deadline(s.cache[d]), d) in s.heap
  }

  lemma {:induction false} NotDueHas(heap: seq<Expiration>, now: nat, r: Expiration)
    ensures r in NotDue(heap, now) <==> r in heap && r.expiresAt > now
  {
    if heap != [] {
      assert heap == [heap[0]] + heap[1..];
      NotDueHas(heap[1..], now, r);
    }
  }

  lemma {:induction false} RecordsHas(heap: seq<Expiration>, keys: set<Digest>, r: Expiration)
    ensures r in RecordsOf(heap, keys) <==> r in heap && r.digest in keys
  {
    if heap != [] {
      assert heap == [heap[0]] + heap[1..];
      RecordsHas(heap[1..], keys, r);
    }
  }

  /** Cleaning up removes every entry expired at its first clock reading, and none that was
      not expired when it was looked at. */
  lemma CleanupIsExact(s: L1, now: nat, later: Readings)
    requires Recorded(s) && Clocked(later, now)
    ensures forall d :: d in s.cache && IsExpired(s.cache[d], now) ==> d !in CleanedUp(s, now, later).cache
    ensures forall d :: d in s.cache && !IsExpired(s.cache[d], Reading(later, now, d)) ==>
            d in CleanedUp(s, now, later).cache
  {
    forall d | d in s.cache && IsExpired(s.cache[d], now) ensures d in Due(s, now, later) {
      assert Expiration(Deadline(s.cache[d]), d) in s.heap;
    }
  }

  /** The deadline of an entry is the first reading of a sweep and the one made for it too. */
  predicate Tied(s: L1, now: nat, later: Readings, d: Digest) {
    d in s.cache && Deadline(s.cache[d]) == now == Reading(later, now, d)
  }

  /** Cleaning up leaves every entry with its record exactly when none is tied: such a record is
      popped while its entry is not yet expired. */
  lemma CleanupKeepsRecordsIff(s: L1, now: nat, later: Readings)
    requires Recorded(s) && Clocked(later, now)
    ensures Recorded(CleanedUp(s, now, later)) <==> forall d :: !Tied(s, now, later, d)
  {
    var t := CleanedUp(s, now, later);
    forall d | d in t.cache ensures Expiration(Deadline(t.cache[d]), d) in t.heap <==> !Tied(s, now, later, d) {
      NotDueHas(s.heap, now, Expiration(Deadline(s.cache[d]), d));
      assert d !in Due(s, now, later);
    }
    forall d | Tied(s, now, later, d) ensures d in t.cache {
      assert !IsExpired(s.cache[d], Reading(later, now, d));
    }
  }

  /** A put keeps them exactly when it does not sweep, or sweeps with none tied. */
  lemma PutKeepsRecordsIff(limits: Limits, s: L1, d: Digest, v: Value, now: nat, sweep: nat, later: Readings)
    requires Recorded(s) && Clocked(later, sweep)
    ensures var t := Stored(limits, MadeRoom(limits, s, d), d, v, now);
            Recorded(Put(limits, s, d, v, now, sweep, later)) <==>
            |t.heap| <= limits.capacity * 2 || forall x :: !Tied(t, sweep, later, x)
  {
    var t := Stored(limits, MadeRoom(limits, s, d), d, v, now);
    assert Recorded(t);
    CleanupKeepsRecordsIff(t, sweep, later);
    PrunedRecords(CleanedUp(t, sweep, later));
  }

  lemma PrunedRecords(s: L1)
    ensures Recorded(Pruned(s)) <==> Recorded(s)
  {
    forall d | d in s.cache
      ensures Expiration(Deadline(s.cache[d]), d) in Pruned(s).heap <==> Expiration(Deadline(s.cache[d]), d) in s.heap
    {
      RecordsHas(s.heap, s.cache.Keys, Expiration(Deadline(s.cache[d]), d));
    }
  }

  // ----- Records over a run -----

  /** The readings of an operation's sweep do not run backwards. */
  predicate Forward(op: Op) {
    match op
    case PutOp(_, _, _, sweep, later) => Clocked(later, sweep)
    case CleanupOp(now, later) => Clocked(later, now)
    case _ => true
  }

  /** The cache an operation sweeps, if it does. */
  function SweptBy(limits: Limits, s: L1, op: Op): Option<L1> {
    match op
    case PutOp(d, v, now, _, _) =>
      var t := Stored(limits, MadeRoom(limits, s, d), d, v, now);
      if |t.heap| > limits.capacity * 2 then Some(t) else None
    case CleanupOp(_, _) => Some(s)
    case _ => None
  }

  /** The operation sweeps at the very instant the entry of `d` expires. */
  predicate Ties(limits: Limits, s: L1, op: Op, d: Digest) {
    match SweptBy(limits, s, op)
    case None => false
    case Some(t) => if op.PutOp? then Tied(t, op.sweep, op.later, d) else op.CleanupOp? && Tied(t, op.now, op.later, d)
  }

  /** A sweep since the last put of `d`, that of the put included, did so. */
  function TiedSince(limits: Limits, ops: seq<Op>, d: Digest): bool {
    if ops == [] then false
    else
      var init, op := ops[..|ops| - 1], ops[|ops| - 1];
      Ties(limits, Run(limits, init), op, d) || (!(op.PutOp? && op.digest == d) && TiedSince(limits, init, d))
  }

  ghost predicate HasRecord(s: L1, d: Digest)
    requires d in s.cache
  {
    Expiration(Deadline(s.cache[d]), d) in s.heap
  }

  lemma SweepKeepsRecordIff(s: L1, now: nat, later: Readings, d: Digest)
    requires Clocked(later, now) && d in CleanedUp(s, now, later).cache
    ensures d in s.cache && CleanedUp(s, now, later).cache[d] == s.cache[d]
    ensures HasRecord(CleanedUp(s, now, later), d) <==> HasRecord(s, d) && !Tied(s, now, later, d)
  {
    var r := Expiration(Deadline(s.cache[d]), d);
    NotDueHas(s.heap, now, r);
    assert d !in Due(s, now, later);
  }

  lemma PruneKeepsRecord(s: L1, d: Digest)
    requires d in s.cache
    ensures HasRecord(Pruned(s), d) <==> HasRecord(s, d)
  {
    RecordsHas(s.heap, s.cache.Keys, Expiration(Deadline(s.cache[d]), d));
  }

  lemma StoreKeepsRecord(limits: Limits, s: L1, x: Digest, v: Value, now: nat, d: Digest)
    requires d in Stored(limits, MadeRoom(limits, s, x), x, v, now).cache
    ensures d == x || d in s.cache
    ensures HasRecord(Stored(limits, MadeRoom(limits, s, x), x, v, now), d) <==> d == x || HasRecord(s, d)
  {
  }

  lemma PutKeepsRecordIff(limits: Limits, s: L1, op: Op, d: Digest)
    requires op.PutOp? && Forward(op) && d in Step(limits, s, op).cache
    ensures d == op.digest || d in s.cache
    ensures HasRecord(Step(limits, s, op), d) <==> !Ties(limits, s, op, d) && (d == op.digest || HasRecord(s, d))
  {
    var t := Stored(limits, MadeRoom(limits, s, op.digest), op.digest, op.value, op.now);
    StoreKeepsRecord(limits, s, op.digest, op.value, op.now, d);
    if |t.heap| > limits.capacity * 2 {
      SweepKeepsRecordIff(t, op.sweep, op.later, d);
      PruneKeepsRecord(CleanedUp(t, op.sweep, op.later), d);
    }
  }

  /** An operation leaves the entry of `d` with its record exactly when it put it or it had one, and
      did not sweep at its deadline. */
  lemma StepKeepsRecordIff(limits: Limits, s: L1, op: Op, d: Digest)
    requires Forward(op) && d in Step(limits, s, op).cache
    ensures (op.PutOp? && op.digest == d) || d in s.cache
    ensures HasRecord(Step(limits, s, op), d) <==>
            !Ties(limits, s, op, d) && ((op.PutOp? && op.digest == d) || HasRecord(s, d))
  {
    match op
    case GetOp(x, now) =>
    case PutOp(x, v, now, sweep, later) => PutKeepsRecordIff(limits, s, op, d);
    case InvalidateOp(x) =>
    case CleanupOp(now, later) => SweepKeepsRecordIff(s, now, later, d);
  }

  /** In every run, an entry has its record exactly when no sweep since it was last put fell on its
      deadline at both readings. */
  lemma {:induction false} RunRecordedIff(limits: Limits, ops: seq<Op>, d: Digest)
    requires d in Run(limits, ops).cache && forall i :: 0 <= i < |ops| ==> Forward(ops[i])
    ensures HasRecord(Run(limits, ops), d) <==> !TiedSince(limits, ops, d)
    decreases |ops|
  {
    if ops != [] {
      var init, op := ops[..|ops| - 1], ops[|ops| - 1];
      assert Forward(op);
      StepKeepsRecordIff(limits, Run(limits, init), op, d);
      if !(op.PutOp? && op.digest == d) {
        RunRecordedIff(limits, init, d);
      }
    }
  }

  /** Puts read a clock that does not run backwards. */
  ghost predicate InTime(ops: seq<Op>) {
    && (forall i :: 0 <= i < |ops| ==> Forward(ops[i]))
    && forall i, j :: 0 <= i < j < |ops| && ops[i].PutOp? && ops[j].PutOp? ==> ops[i].now <= ops[j].now
  }

  /** A record comes from the put that adds it. */
  lemma RecordsCome(limits: Limits, s: L1, op: Op, r: Expiration)
    requires r in Step(limits, s, op).heap
    ensures r in s.heap || (op.PutOp? && r == Expiration(op.now + limits.ttl, op.digest))
  {
    if op.PutOp? {
      var t := Stored(limits, MadeRoom(limits, s, op.digest), op.digest, op.value, op.now);
      var u := CleanedUp(t, op.sweep, op.later);
      RecordsHas(u.heap, u.cache.Keys, r);
      NotDueHas(t.heap, op.sweep, r);
    } else if op.CleanupOp? {
      NotDueHas(s.heap, op.now, r);
    }
  }

  lemma {:induction false} RecordsBounded(limits: Limits, ops: seq<Op>, time: nat)
    requires forall i :: 0 <= i < |ops| && ops[i].PutOp? ==> ops[i].now <= time
    ensures forall r :: r in Run(limits, ops).heap ==> r.expiresAt <= time + limits.ttl
    decreases |ops|
  {
    if ops != [] {
      var init, op := ops[..|ops| - 1], ops[|ops| - 1];
      RecordsBounded(limits, init, time);
      forall r | r in Run(limits, ops).heap ensures r.expiresAt <= time + limits.ttl {
        RecordsCome(limits, Run(limits, init), op, r);
      }
    }
  }

  /** No record of `d` is due later than its entry. */
  ghost predicate OwnIsLast(s: L1, d: Digest) {
    d in s.cache ==> forall r :: r in s.heap && r.digest == d ==> r.expiresAt <= Deadline(s.cache[d])
  }

  lemma EntryComes(limits: Limits, s: L1, op: Op, d: Digest)
    requires d in Step(limits, s, op).cache
    ensures if op.PutOp? && op.digest == d then Step(limits, s, op).cache[d] == CacheEntry(op.value, op.now, limits.ttl)
            else d in s.cache && Step(limits, s, op).cache[d] == s.cache[d]
  {
  }

  lemma {:induction false} RunOwnIsLast(limits: Limits, ops: seq<Op>, d: Digest)
    requires InTime(ops)
    ensures OwnIsLast(Run(limits, ops), d)
    decreases |ops|
  {
    if ops != [] && d in Run(limits, ops).cache {
      var init, op := ops[..|ops| - 1], ops[|ops| - 1];
      var s, t := Run(limits, init), Run(limits, ops);
      RunOwnIsLast(limits, init, d);
      EntryComes(limits, s, op, d);
      if op.PutOp? {
        RecordsBounded(limits, init, op.now);
      }
      forall r | r in t.heap && r.digest == d ensures r.expiresAt <= Deadline(t.cache[d]) {
        RecordsCome(limits, s, op, r);
      }
    }
  }

  /** A sweep on the deadline of an entry leaves it no record at all. */
  lemma TieUnrecords(limits: Limits, s: L1, op: Op, d: Digest)
    requires Ties(limits, s, op, d) && OwnIsLast(SweptBy(limits, s, op).value, d)
    ensures Unrecorded(Step(limits, s, op), d)
  {
    var t := SweptBy(limits, s, op).value;
    forall r | r in Step(limits, s, op).heap ensures r.digest != d {
      if op.PutOp? {
        var u := CleanedUp(t, op.sweep, op.later);
        RecordsHas(u.heap, u.cache.Keys, r);
        NotDueHas(t.heap, op.sweep, r);
      } else {
        NotDueHas(t.heap, op.now, r);
      }
    }
  }

  /** The same of the cache a put or a cleanup sweeps. */
  lemma SweptOwnIsLast(limits: Limits, ops: seq<Op>, op: Op, d: Digest)
    requires InTime(ops + [op]) && SweptBy(limits, Run(limits, ops), op).Some?
    ensures OwnIsLast(SweptBy(limits, Run(limits, ops), op).value, d)
  {
    var all := ops + [op];
    assert forall i :: 0 <= i < |ops| ==> all[i] == ops[i];
    RunOwnIsLast(limits, ops, d);
    if op.PutOp? {
      assert all[|ops|] == op;
      RecordsBounded(limits, ops, op.now);
    }
  }

  lemma {:induction false} TiedIsUnrecorded(limits: Limits, ops: seq<Op>, d: Digest)
    requires InTime(ops) && TiedSince(limits, ops, d)
    ensures Unrecorded(Run(limits, ops), d)
    decreases |ops|
  {
    var init, op := ops[..|ops| - 1], ops[|ops| - 1];
    var s := Run(limits, init);
    assert init + [op] == ops;
    if Ties(limits, s, op, d) {
      SweptOwnIsLast(limits, init, op, d);
      TieUnrecords(limits, s, op, d);
    } else {
      TiedIsUnrecorded(limits, init, d);
      forall r | r in Run(limits, ops).heap ensures r.digest != d {
        RecordsCome(limits, s, op, r);
      }
    }
  }

  /** So a cleanup of any run removes every entry expired when it begins, except exactly those that
      a sweep since their last put fell on. */
  lemma CleanupOfRunIsExact(limits: Limits, ops: seq<Op>, now: nat, later: Readings, d: Digest)
    requires InTime(ops) && Clocked(later, now)
    requires d in Run(limits, ops).cache && IsExpired(Run(limits, ops).cache[d], now)
    ensures d in CleanedUp(Run(limits, ops), now, later).cache <==> TiedSince(limits, ops, d)
  {
    var s := Run(limits, ops);
    RunRecordedIff(limits, ops, d);
    if TiedSince(limits, ops, d) {
      TiedIsUnrecorded(limits, ops, d);
      CleanupSparesUnrecorded(s, now, later, d);
    } else {
      assert d in Due(s, now, later);
    }
  }

  // ----- An entry without a record is there for good -----

  /** No expiration record names `d`. */
  ghost predicate Unrecorded(s: L1, d: Digest) {
    forall r :: r in s.heap ==> r.digest != d
  }

  lemma CleanupSparesUnrecorded(s: L1, now: nat, later: Readings, d: Digest)
    requires d in s.cache && Unrecorded(s, d)
    ensures d in CleanedUp(s, now, later).cache && CleanedUp(s, now, later).cache[d] == s.cache[d]
    ensures Unrecorded(CleanedUp(s, now, later), d)
  {
    forall r | r in NotDue(s.heap, now) ensures r in s.heap {
      NotDueHas(s.heap, now, r);
    }
  }

  /** No sequence of cleanups removes an entry that no record names. */
  lemma {:induction false} UnrecordedStays(limits: Limits, ops: seq<Op>, more: seq<Op>, d: Digest)
    requires d in Run(limits, ops).cache && Unrecorded(Run(limits, ops), d)
    requires forall i :: 0 <= i < |more| ==> more[i].CleanupOp?
    ensures d in Run(limits, ops + more).cache && Run(limits, ops + more).cache[d] == Run(limits, ops).cache[d]
    ensures Unrecorded(Run(limits, ops + more), d)
    decreases |more|
  {
    if more == [] {
      assert ops + more == ops;
    } else {
      var init, op := more[..|more| - 1], more[|more| - 1];
      UnrecordedStays(limits, ops, init, d);
      assert (ops + more)[..|ops + more| - 1] == ops + init && (ops + more)[|ops + more| - 1] == op;
      CleanupSparesUnrecorded(Run(limits, ops + init), op.now, op.later, d);
    }
  }

  lemma PutOnce(limits: Limits, d: Digest, v: Value, at: nat)
    requires limits.capacity > 0
    ensures Run(limits, [PutOp(d, v, at, at, map[])]) ==
            L1(map[d := CacheEntry(v, at, limits.ttl)], [Entry(d, 0)], [Expiration(at + limits.ttl, d)])
  {
    var put := PutOp(d, v, at, at, map[]);
    assert [put][..0] == [] && Run(limits, []) == EMPTY;
    assert MadeRoom(limits, EMPTY, d) == EMPTY;
    assert Touched([], d) == [Entry(d, 0)];
  }

  lemma SweptAtDeadline(d: Digest, e: CacheEntry)
    ensures var t := CleanedUp(L1(map[d := e], [Entry(d, 0)], [Expiration(Deadline(e), d)]), Deadline(e), map[]);
            t.cache == map[d := e] && t.heap == []
  {
    var s := L1(map[d := e], [Entry(d, 0)], [Expiration(Deadline(e), d)]);
    assert Due(s, Deadline(e), map[]) == {};
    assert s.heap[1..] == [] && NotDue(s.heap[1..], Deadline(e)) == [];
  }

  /** A put and a cleanup at the very instant of its deadline. */
  function PutAndSwept(limits: Limits, d: Digest, v: Value, at: nat): seq<Op> {
    [PutOp(d, v, at, at, map[])] + [CleanupOp(at + limits.ttl, map[])]
  }

  lemma RunStep(limits: Limits, ops: seq<Op>, op: Op)
    ensures Run(limits, ops + [op]) == Step(limits, Run(limits, ops), op)
  {
    assert (ops + [op])[..|ops|] == ops;
  }

  lemma SweptAfter(limits: Limits, ops: seq<Op>, op: Op, all: seq<Op>, d: Digest, e: CacheEntry)
    requires Run(limits, ops) == L1(map[d := e], [Entry(d, 0)], [Expiration(Deadline(e), d)])
    requires op == CleanupOp(Deadline(e), map[]) && all == ops + [op]
    ensures Run(limits, all).cache == map[d := e] && Run(limits, all).heap == []
  {
    RunStep(limits, ops, op);
    SweptAtDeadline(d, e);
  }

  lemma RecordIsLost(limits: Limits, d: Digest, v: Value, at: nat, all: seq<Op>)
    requires limits.capacity > 0 && all == PutAndSwept(limits, d, v, at)
    ensures Run(limits, all).cache == map[d := CacheEntry(v, at, limits.ttl)] && Run(limits, all).heap == []
  {
    var put, sweep := PutOp(d, v, at, at, map[]), CleanupOp(at + limits.ttl, map[]);
    PutOnce(limits, d, v, at);
    SweptAfter(limits, [put], sweep, all, d, CacheEntry(v, at, limits.ttl));
  }

  /** However often and however late the cache is cleaned up afterwards, the entry stays. */
  lemma TieIsForgotten(limits: Limits, d: Digest, v: Value, at: nat, more: seq<Op>)
    requires limits.capacity > 0 && forall i :: 0 <= i < |more| ==> more[i].CleanupOp?
    ensures var s := Run(limits, PutAndSwept(limits, d, v, at) + more);
            d in s.cache && s.cache[d] == CacheEntry(v, at, limits.ttl)
  {
    var ops := PutAndSwept(limits, d, v, at);
    RecordIsLost(limits, d, v, at, ops);
    UnrecordedStays(limits, ops, more, d);
  }

  // ----- The cache as it is updated in place -----

  class L1ActionCache {
    const limits: Limits
    const lru: LruState
    var cache: map<Digest, CacheEntry>
    var heap: seq<Expiration>

    ghost function View(): L1
      reads this, lru
    {
      L1(cache, lru.Recency(), heap)
    }

    ghost predicate Ok()
      reads this, lru
    {
      lru.Ok() && Fit(limits, View())
    }

    constructor (limits: Limits)
      ensures Ok() && View() == EMPTY && this.limits == limits && fresh(lru)
    {
      this.limits := limits;
      lru := new LruState();
      cache, heap := map[], [];
    }

    /** Removes an entry from both the value map and the recency list. */
    method RemoveEntry(d: Digest)
      requires Ok()
      modifies this`cache, lru
      ensures Ok() && View() == Removed(old(View()), d)
    {
      RemovedFits(limits, View(), d);
      cache := cache - {d};
      var size := lru.Remove(d);
    }

    method Invalidate(d: Digest)
      requires Ok()
      modifies this`cache, lru
      ensures Ok() && View() == Removed(old(View()), d)
    {
      RemoveEntry(d);
    }

    method GetEntry(d: Digest, now: nat) returns (found: Option<Value>)
      requires Ok()
      modifies this`cache, lru
      ensures Ok() && (found, View()) == Get(old(View()), d, now)
      ensures found == if d in old(cache) && now - old(cache)[d].createdAt <= old(cache)[d].ttl
                       then Some(old(cache)[d].data) else None
      ensures cache == if found.Some? then old(cache) else old(cache) - {d}
    {
      GetFits(limits, View(), d, now);
      if d !in cache {
        return None;
      }
      if IsExpired(cache[d], now) {
        RemoveEntry(d);
        return None;
      }
      found := Some(cache[d].data);
      lru.Touch(d, 0);
    }

    method EvictOne()
      requires Ok()
      modifies this`cache, lru
      ensures Ok() && View() == EvictLru(old(View()))
    {
      ghost var s := View();
      if s.recent != [] {
        EvictFits(limits, s);
      }
      var entry, stale := PopCached(lru, cache);
      NoneStale(limits, s, stale, lru.Recency(), entry);
      if entry.Some? {
        cache := cache - {entry.value.digest};
      }
    }

    method MakeRoom(d: Digest)
      requires Ok()
      modifies this`cache, lru
      ensures Ok() && View() == MadeRoom(limits, old(View()), d)
      ensures d !in cache ==> |lru.Recency()| < Max(limits.capacity, 1)
    {
      MadeRoomFits(limits, View(), d);
      if d !in cache && |cache| >= limits.capacity {
        EvictOne();
      }
    }

    method Store(d: Digest, v: Value, now: nat)
      requires Ok() && (d !in cache ==> |lru.Recency()| < Max(limits.capacity, 1))
      modifies this, lru
      ensures Ok() && View() == Stored(limits, old(View()), d, v, now)
    {
      StoredFits(limits, View(), d, v, now);
      cache := cache[d := CacheEntry(v, now, limits.ttl)];
      lru.Touch(d, 0);
      heap := heap + [Expiration(now + limits.ttl, d)];
    }

    /** `clock` holds the readings of the sweep, if there is one. */
    method PutEntry(d: Digest, v: Value, now: nat, sweep: nat, clock: seq<nat>) returns (ghost later: Readings)
      requires Ok() && |heap| < |clock|
      modifies this, lru
      ensures Ok() && View() == Put(limits, old(View()), d, v, now, sweep, later)
      ensures ReadFrom(later, clock)
    {
      MakeRoom(d);
      Store(d, v, now);
      later := map[];
      if |heap| > limits.capacity * 2 {
        later := CleanupExpired(sweep, clock);
        PruneGhosts();
      }
    }

    /** Drops the records whose digest is no longer cached. */
    method PruneGhosts()
      requires Ok()
      modifies this`heap
      ensures Ok() && View() == Pruned(old(View()))
    {
      heap := Retain(heap, cache.Keys);
    }

    /** Pops the due records, soonest first, and removes the entries that have expired; the clock
        is read anew for each record, `clock` holding the readings in order. */
    method CleanupExpired(now: nat, clock: seq<nat>) returns (ghost later: Readings)
      requires Ok() && |heap| <= |clock|
      modifies this, lru
      ensures Ok() && View() == CleanedUp(old(View()), now, later)
      ensures ReadFrom(later, clock)
    {
      ghost var s := View();
      ghost var gone: set<Digest> := {};
      later := map[];
      var i := 0;
      SweepStarts(s, now);
      while heap != []
        invariant Ok() && (later, gone) in Sweeps(s, now, View())
        invariant 0 <= i && i + |heap| <= |clock| && ReadFrom(later, clock)
        decreases |heap|
      {
        var k := Soonest(heap);
        if heap[k].expiresAt > now {
          break;
        }
        var record := heap[k];
        ghost var before := View();
        heap := Cut(heap, k);
        if record.digest !in cache {
          SweepSkips(s, now, later, gone, before, k);
        } else if IsExpired(cache[record.digest], clock[i]) {
          SweepRemoves(s, now, later, gone, before, k, clock[i]);
          RemoveEntry(record.digest);
          gone, later := gone + {record.digest}, later[record.digest := clock[i]];
        } else {
          SweepSpares(s, now, later, gone, before, k, clock[i]);
          later := later[record.digest := clock[i]];
        }
        i := i + 1;
      }
      SweepEnds(s, now, later, gone, View());
    }
  }

  function Listed(entry: Option<Entry>): seq<Entry> {
    if entry.Some? then [entry.value] else []
  }

  /** The loop of `evict_lru`: pops until a digest that is cached. */
  method PopCached(lru: LruState, cache: map<Digest, CacheEntry>)
      returns (entry: Option<Entry>, ghost stale: seq<Entry>)
    requires lru.Ok()
    modifies lru
    ensures lru.Ok() && old(lru.Recency()) == stale + (Listed(entry) + lru.Recency())
    ensures forall e :: e in stale ==> e.digest !in cache
    ensures if entry.Some? then entry.value.digest in cache else lru.Recency() == []
  {
    stale := [];
    entry := lru.PopLru();
    while entry.Some? && entry.value.digest !in cache
      invariant lru.Ok() && old(lru.Recency()) == stale + (Listed(entry) + lru.Recency())
      invariant forall e :: e in stale ==> e.digest !in cache
      invariant entry.None? ==> lru.Recency() == []
      decreases |lru.Recency()| + One(entry.Some?)
    {
      ConcatAssoc(stale, [entry.value], lru.Recency());
      stale := stale + [entry.value];
      entry := lru.PopLru();
    }
  }

  /** Every listed digest is cached, so the first one popped is the victim. */
  lemma NoneStale(limits: Limits, s: L1, stale: seq<Entry>, rest: seq<Entry>, entry: Option<Entry>)
    requires Fit(limits, s) && s.recent == stale + (Listed(entry) + rest)
    requires forall e :: e in stale ==> e.digest !in s.cache
    requires entry.None? ==> rest == []
    ensures stale == [] && (entry.None? ==> s.recent == []) &&
            (entry.Some? ==> s.recent[0] == entry.value && s.recent[1..] == rest)
  {
    if s.recent != [] {
      assert s.recent[0] in s.recent;
      assert s.recent[0].digest in Digests(s.recent);
    }
    if stale != [] {
      assert false;
    }
  }

  /** What `BinaryHeap::peek` shows: a record with the earliest deadline. */
  method Soonest(heap: seq<Expiration>) returns (k: nat)
    requires heap != []
    ensures k < |heap| && forall i :: 0 <= i < |heap| ==> heap[k].expiresAt <= heap[i].expiresAt
  {
    k := 0;
    var i := 1;
    while i < |heap|
      invariant 1 <= i <= |heap| && k < i
      invariant forall j :: 0 <= j < i ==> heap[k].expiresAt <= heap[j].expiresAt
    {
      if heap[i].expiresAt < heap[k].expiresAt {
        k := i;
      }
      i := i + 1;
    }
  }

  /** `prune_ghost_entries`: keeps the records whose digest is cached. */
  method Retain(heap: seq<Expiration>, keys: set<Digest>) returns (kept: seq<Expiration>)
    ensures kept == RecordsOf(heap, keys)
  {
    kept := [];
    var i := |heap|;
    while i > 0
      invariant 0 <= i <= |heap| && kept == RecordsOf(heap[i..], keys)
    {
      i := i - 1;
      assert heap[i..][1..] == heap[i + 1..];
      if heap[i].digest in keys {
        kept := [heap[i]] + kept;
      }
    }
    assert heap[0..] == heap;
  }

  /** What was found expired is gone and nothing else, and the records not due are there. */
  ghost predicate Emptied(s: L1, now: nat, gone: set<Digest>, t: L1) {
    && t.cache == s.cache - gone && t.recent == WithoutAll(s.recent, gone)
    && NotDue(t.heap, now) == NotDue(s.heap, now)
  }

  /** What was looked at had a due record, and went exactly if it was expired then. */
  ghost predicate Judged(s: L1, now: nat, later: Readings, gone: set<Digest>) {
    && gone <= later.Keys <= HasDue(s, now)
    && forall d :: d in later ==> (d in gone <==> IsExpired(s.cache[d], later[d]))
  }

  /** What was not looked at still has its due records. */
  ghost predicate StillDue(s: L1, now: nat, later: Readings, t: L1) {
    HasDue(t, now) <= HasDue(s, now) <= HasDue(t, now) + later.Keys
  }

  /** Part of the due records popped. */
  ghost predicate Sweeping(s: L1, now: nat, later: Readings, gone: set<Digest>, t: L1) {
    Emptied(s, now, gone, t) && Judged(s, now, later, gone) && StillDue(s, now, later, t)
  }

  /** The sweeps that may have led from `s` to `t`: the readings made and what is gone. */
  ghost function Sweeps(s: L1, now: nat, t: L1): iset<(Readings, set<Digest>)> {
    iset later: Readings, gone: set<Digest> | Sweeping(s, now, later, gone, t) :: (later, gone)
  }

  /** The cached digests with a record due at `now`. */
  function HasDue(s: L1, now: nat): set<Digest> {
    set r | r in s.heap && r.expiresAt <= now && r.digest in s.cache :: r.digest
  }

  lemma {:induction false} WithoutNothing(r: seq<Entry>)
    ensures WithoutAll(r, {}) == r
  {
    if r != [] {
      WithoutNothing(r[1..]);
    }
  }

  lemma {:induction false} WithoutOneMore(r: seq<Entry>, gone: set<Digest>, d: Digest)
    ensures Without(WithoutAll(r, gone), d) == WithoutAll(r, gone + {d})
  {
    if r != [] {
      WithoutOneMore(r[1..], gone, d);
      WithoutConcat(if r[0].digest in gone then [] else [r[0]], WithoutAll(r[1..], gone), d);
    }
  }

  lemma SweepStarts(s: L1, now: nat)
    ensures (map[], {}) in Sweeps(s, now, s)
  {
    WithoutNothing(s.recent);
  }

  lemma {:induction false} NotDueSkips(heap: seq<Expiration>, now: nat, k: nat)
    requires k < |heap| && heap[k].expiresAt <= now
    ensures NotDue(heap[..k] + heap[k + 1..], now) == NotDue(heap, now)
  {
    if k == 0 {
      assert heap[..0] + heap[1..] == heap[1..];
    } else {
      NotDueSkips(heap[1..], now, k - 1);
      assert (heap[..k] + heap[k + 1..])[1..] == heap[1..][..k - 1] + heap[1..][k..];
    }
  }

  function Cut(heap: seq<Expiration>, k: nat): seq<Expiration>
    requires k < |heap|
  {
    heap[..k] + heap[k + 1..]
  }

  /** Other digests keep their due records when one record is popped. */
  lemma DueOthers(t: L1, now: nat, k: nat, x: Digest)
    requires k < |t.heap| && x in HasDue(t, now) && x != t.heap[k].digest
    ensures x in HasDue(t.(heap := Cut(t.heap, k)), now)
  {
    var r :| r in t.heap && r.expiresAt <= now && r.digest == x;
    var i :| 0 <= i < |t.heap| && t.heap[i] == r;
    assert r in Cut(t.heap, k);
  }

  lemma DueAfter(t: L1, now: nat, k: nat)
    requires k < |t.heap| && t.heap[k].expiresAt <= now
    ensures var x, u := t.heap[k].digest, t.(heap := Cut(t.heap, k));
            && HasDue(u, now) <= HasDue(t, now) <= HasDue(u, now) + {x}
            && HasDue(Removed(u, x), now) == HasDue(u, now) - {x} && (x in t.cache ==> x in HasDue(t, now))
  {
    var x, u := t.heap[k].digest, t.(heap := Cut(t.heap, k));
    forall y | y in HasDue(t, now) && y != x ensures y in HasDue(u, now) {
      DueOthers(t, now, k, y);
    }
  }

  lemma JudgedMore(s: L1, now: nat, later: Readings, gone: set<Digest>, x: Digest, time: nat)
    requires Judged(s, now, later, gone) && x in HasDue(s, now) && x !in gone
    ensures if IsExpired(s.cache[x], time) then Judged(s, now, later[x := time], gone + {x})
            else Judged(s, now, later[x := time], gone)
  {
    assert later[x := time].Keys == later.Keys + {x};
  }

  lemma StillDueMore(s: L1, now: nat, later: Readings, t: L1, k: nat, time: nat)
    requires StillDue(s, now, later, t) && k < |t.heap| && t.heap[k].expiresAt <= now
    ensures var x, u := t.heap[k].digest, t.(heap := Cut(t.heap, k));
            && StillDue(s, now, later[x := time], u) && StillDue(s, now, later[x := time], Removed(u, x))
            && (x !in t.cache ==> StillDue(s, now, later, u)) && (x in t.cache ==> x in HasDue(s, now))
  {
    var x := t.heap[k].digest;
    DueAfter(t, now, k);
    assert later[x := time].Keys == later.Keys + {x};
    if x !in t.cache {
      assert x !in HasDue(t, now);
    }
  }

  lemma EmptiedMore(s: L1, now: nat, gone: set<Digest>, t: L1, k: nat)
    requires Emptied(s, now, gone, t) && k < |t.heap| && t.heap[k].expiresAt <= now
    ensures var x, u := t.heap[k].digest, t.(heap := Cut(t.heap, k));
            Emptied(s, now, gone, u) && Emptied(s, now, gone + {x}, Removed(u, x))
  {
    var x := t.heap[k].digest;
    NotDueSkips(t.heap, now, k);
    WithoutOneMore(s.recent, gone, x);
    assert s.cache - gone - {x} == s.cache - (gone + {x});
  }

  lemma SweepSkips(s: L1, now: nat, later: Readings, gone: set<Digest>, t: L1, k: nat)
    requires (later, gone) in Sweeps(s, now, t) && k < |t.heap| && t.heap[k].expiresAt <= now
    requires t.heap[k].digest !in t.cache
    ensures (later, gone) in Sweeps(s, now, t.(heap := Cut(t.heap, k)))
  {
    EmptiedMore(s, now, gone, t, k);
    StillDueMore(s, now, later, t, k, now);
    assert Sweeping(s, now, later, gone, t.(heap := Cut(t.heap, k)));
  }

  /** The digest of a popped record is not expired when the clock shows `time`. */
  lemma SweepSpares(s: L1, now: nat, later: Readings, gone: set<Digest>, t: L1, k: nat, time: nat)
    requires (later, gone) in Sweeps(s, now, t) && k < |t.heap| && t.heap[k].expiresAt <= now
    requires t.heap[k].digest in t.cache && !IsExpired(t.cache[t.heap[k].digest], time)
    ensures (later[t.heap[k].digest := time], gone) in Sweeps(s, now, t.(heap := Cut(t.heap, k)))
  {
    var x, u := t.heap[k].digest, t.(heap := Cut(t.heap, k));
    EmptiedMore(s, now, gone, t, k);
    StillDueMore(s, now, later, t, k, time);
    JudgedMore(s, now, later, gone, x, time);
    assert Sweeping(s, now, later[x := time], gone, u);
  }

  /** It is expired then. */
  lemma SweepRemoves(s: L1, now: nat, later: Readings, gone: set<Digest>, t: L1, k: nat, time: nat)
    requires (later, gone) in Sweeps(s, now, t) && k < |t.heap| && t.heap[k].expiresAt <= now
    requires t.heap[k].digest in t.cache && IsExpired(t.cache[t.heap[k].digest], time)
    ensures (later[t.heap[k].digest := time], gone + {t.heap[k].digest})
              in Sweeps(s, now, Removed(t.(heap := Cut(t.heap, k)), t.heap[k].digest))
  {
    var x, u := t.heap[k].digest, t.(heap := Cut(t.heap, k));
    EmptiedMore(s, now, gone, t, k);
    StillDueMore(s, now, later, t, k, time);
    JudgedMore(s, now, later, gone, x, time);
    assert Sweeping(s, now, later[x := time], gone + {x}, Removed(u, x));
  }

  lemma {:induction false} NoneDue(heap: seq<Expiration>, now: nat)
    requires forall r :: r in heap ==> r.expiresAt > now
    ensures NotDue(heap, now) == heap
  {
    if heap != [] {
      NoneDue(heap[1..], now);
    }
  }

  lemma SweepEnds(s: L1, now: nat, later: Readings, gone: set<Digest>, t: L1)
    requires (later, gone) in Sweeps(s, now, t) && forall r :: r in t.heap ==> r.expiresAt > now
    ensures t == CleanedUp(s, now, later)
  {
    NoneDue(t.heap, now);
    assert HasDue(t, now) == {};
    assert gone == Due(s, now, later);
  }
}
