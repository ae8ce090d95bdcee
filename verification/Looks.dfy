/** What a dispatch pass looks at, failed deliveries included: when it can look at an
    action twice (`dispatch_ready` of src/execution/engine.rs). */
module Looks {
  import opened Prelude
  import opened FairQueues
  import opened Scheduling
  import opened Slots
  import opened Protocol
  import opened Traces
  import opened DispatchOrder

  /** The class the next action is taken from. */
  function Front(s: Sched): QueuePriority {
    if s.critical.queues != map[] then Critical else Medium
  }

  ghost function NextKey(w: Weight, s: Sched): (key: string)
    requires Filed(s) && QueueOf(s, Front(s)).queues != map[]
    ensures IsNext(w, RunningFrom(s.inFlight), QueueOf(s, Front(s)), key)
  {
    Next(w, RunningFrom(s.inFlight), QueueOf(s, Front(s)))
  }

  /** What an invocation with something waiting is served by. */
  function ScoreIn(w: Weight, running: map<string, nat>, f: Fair, k: string): real
    requires k in f.queues
  {
    Score(w, RunningOf(running, k), FrontPriority(f.queues[k]))
  }

  /** Each operation waits once, under its own digest, which is not marked dispatched. */
  ghost predicate Tidy(s: Sched) {
    && Slotted(s)
    && (forall a, b :: IsQueued(s, a) && IsQueued(s, b) && a.op == b.op ==> a == b)
    && (forall a :: IsQueued(s, a) ==> a.digest in s.inFlight && s.inFlight[a.digest].op == a.op)
    && (forall a :: IsQueued(s, a) ==>
          !s.inFlight[a.digest].dispatched &&
          s.inFlight[a.digest].invocation == a.invocation)
  }

  lemma SafeIsTidy(max: nat, s: Sys)
    requires s in Safe(max)
    ensures Tidy(s.sched)
  {
    forall a | IsQueued(s.sched, a)
      ensures a.digest in s.sched.inFlight && s.sched.inFlight[a.digest].op == a.op
      ensures !s.sched.inFlight[a.digest].dispatched && s.sched.inFlight[a.digest].invocation == a.invocation
    {
      QueuedFacts(max, s, a);
      QueuedIsCurrent(max, s, a);
    }
    forall a, b | IsQueued(s.sched, a) && IsQueued(s.sched, b) && a.op == b.op ensures a == b {
      QueuedIsCurrent(max, s, a);
      QueuedIsCurrent(max, s, b);
    }
  }

  /** The action looked at, `key` being next. */
  function Head(s: Sched, key: string): Action
    requires key in QueueOf(s, Front(s)).queues && QueueOf(s, Front(s)).queues[key].items != []
  {
    QueueOf(s, Front(s)).queues[key].items[0]
  }

  /** The scheduler after one look: the action is out, or `back` after a failed delivery. */
  ghost function Look(w: Weight, s: Sched, back: bool): Sched
    requires Filed(s)
  {
    var (item, t) := Dequeue(w, s);
    if back && item.Some? then PutBack(t, item.value) else t
  }

  lemma LookFiled(w: Weight, s: Sched, back: bool)
    requires Filed(s)
    ensures Filed(Look(w, s, back))
  {
    TryDequeueFiled(w, s, Critical);
    TryDequeueFiled(w, s, Medium);
    if back && Dequeue(w, s).0.Some? {
      PutBackFiled(Dequeue(w, s).1, Dequeue(w, s).0.value);
    }
  }

  /** The actions looked at, one round for each element of `backs`. */
  ghost function LooksOf(w: Weight, s: Sched, backs: seq<bool>): seq<Action>
    requires Filed(s)
    decreases |backs|
  {
    if backs == [] || Dequeue(w, s).0.None? then []
    else
      LookFiled(w, s, backs[0]);
      [Dequeue(w, s).0.value] + LooksOf(w, Look(w, s, backs[0]), backs[1..])
  }

  /** How many actions wait. */
  ghost function Waiting(s: Sched): nat {
    Size(s.critical) + Size(s.medium)
  }

  // ----- One look -----

  lemma HeadFacts(w: Weight, s: Sched, key: string)
    requires Filed(s) && QueueOf(s, Front(s)).queues != map[] && key == NextKey(w, s)
    ensures Dequeue(w, s).0 == Some(Head(s, key)) && Head(s, key).invocation == key && Head(s, key).priority == Front(s)
    ensures IsQueued(s, Head(s, key))
    ensures Dequeue(w, s).1 ==
            SetDispatched(WithQueue(s, Front(s), TakeFrom(QueueOf(s, Front(s)), key)), Head(s, key).digest, true)
  {
    var items := QueueOf(s, Front(s)).queues[key].items;
    assert Own(items, key) && InClass(items, Front(s));
  }

  lemma OutIs(w: Weight, s: Sched, key: string)
    requires Tidy(s) && QueueOf(s, Front(s)).queues != map[] && key == NextKey(w, s)
    ensures Look(w, s, false) ==
            WithQueue(s, Front(s), TakeFrom(QueueOf(s, Front(s)), key)).(
              inFlight := s.inFlight[Head(s, key).digest := s.inFlight[Head(s, key).digest].(dispatched := true)])
  {
    HeadFacts(w, s, key);
  }

  lemma BackIs(w: Weight, s: Sched, key: string)
    requires Tidy(s) && QueueOf(s, Front(s)).queues != map[] && key == NextKey(w, s)
    ensures Look(w, s, true) ==
            WithQueue(s, Front(s), Push(TakeFrom(QueueOf(s, Front(s)), key), Head(s, key), true))
  {
    HeadFacts(w, s, key);
    UndoneMark(s, Dequeue(w, s).1, Head(s, key));
  }

  /** Every other invocation scores more than `key`. */
  ghost predicate Lowest(w: Weight, running: map<string, nat>, f: Fair, key: string)
    requires key in f.queues
  {
    forall k :: k in f.queues && k != key ==> ScoreIn(w, running, f, key) < ScoreIn(w, running, f, k)
  }

  /** The queue with the only action of `key` taken and put back: a new stamp, no more. */
  function Restamped(f: Fair, key: string): Fair
    requires key in f.queues
  {
    Fair(f.queues[key := f.queues[key].(since := f.nextSince)], f.nextSince + 1)
  }

  lemma ReturnedIs(f: Fair, key: string)
    requires Valid(f) && key in f.queues
    ensures Push(TakeFrom(f, key), f.queues[key].items[0], true) ==
            if |f.queues[key].items| == 1 then Restamped(f, key) else f
  {
    TakeThenPush(f, key);
    assert Own(f.queues[key].items, key);
    if |f.queues[key].items| == 1 {
      var q := f.queues[key].(since := f.nextSince);
      assert f.queues[key].items == [f.queues[key].items[0]] + [];
      assert (f.queues - {key})[key := q] == f.queues[key := q];
    }
  }

  /** A tie is lost: the new stamp is the newest. */
  lemma RestampedNextIff(w: Weight, running: map<string, nat>, f: Fair, key: string)
    requires Valid(f) && key in f.queues
    ensures IsNext(w, running, Restamped(f, key), key) <==> Lowest(w, running, f, key)
  {
    var g := Restamped(f, key);
    forall k | k in f.queues && k != key
      ensures ServedBefore(w, running, g.queues, key, k) <==> ScoreIn(w, running, f, key) < ScoreIn(w, running, f, k)
    {
      assert g.queues[k] == f.queues[k];
    }
  }

  /** After a failed delivery the action is taken again next exactly when its invocation has
      more waiting, or every other invocation of its class scores strictly more. */
  lemma TakenAgainIff(w: Weight, s: Sched, a: Action)
    requires Tidy(s) && Dequeue(w, s).0 == Some(a)
    ensures Filed(Look(w, s, true)) && a.invocation in QueueOf(s, a.priority).queues
    ensures Dequeue(w, Look(w, s, true)).0 == Some(a) <==>
            || |ItemsAt(s, a.priority, a.invocation)| > 1
            || Lowest(w, RunningFrom(s.inFlight), QueueOf(s, a.priority), a.invocation)
  {
    LookFiled(w, s, true);
    var c, running := Front(s), RunningFrom(s.inFlight);
    var f := QueueOf(s, c);
    var key := NextKey(w, s);
    HeadFacts(w, s, key);
    BackIs(w, s, key);
    ReturnedIs(f, key);
    if |f.queues[key].items| == 1 {
      LoneTakenAgainIff(w, s, key);
    } else {
      assert WithQueue(s, c, f) == s;
    }
  }

  lemma LoneTakenAgainIff(w: Weight, s: Sched, key: string)
    requires Filed(s) && QueueOf(s, Front(s)).queues != map[] && key == NextKey(w, s)
    requires |QueueOf(s, Front(s)).queues[key].items| == 1
    requires Filed(WithQueue(s, Front(s), Restamped(QueueOf(s, Front(s)), key)))
    ensures Dequeue(w, WithQueue(s, Front(s), Restamped(QueueOf(s, Front(s)), key))).0 == Some(Head(s, key)) <==>
            Lowest(w, RunningFrom(s.inFlight), QueueOf(s, Front(s)), key)
  {
    var c, running := Front(s), RunningFrom(s.inFlight);
    var f := QueueOf(s, c);
    var g := Restamped(f, key);
    var t := WithQueue(s, c, g);
    assert Front(t) == c && QueueOf(t, c) == g;
    RestampedNextIff(w, running, f, key);
    var next := NextKey(w, t);
    HeadFacts(w, s, key);
    HeadFacts(w, t, next);
    if Lowest(w, running, f, key) {
      var only := NextExists(w, running, g);
      assert next == key;
    }
  }

  // ----- A pass -----

  lemma OutTidy(w: Weight, s: Sched)
    requires Tidy(s) && QueueOf(s, Front(s)).queues != map[]
    ensures Dequeue(w, s).0.Some? && Tidy(Look(w, s, false))
    ensures forall b :: IsQueued(Look(w, s, false), b) <==> IsQueued(s, b) && b != Dequeue(w, s).0.value
  {
    var key := NextKey(w, s);
    HeadFacts(w, s, key);
    OutIs(w, s, key);
    TakeSlotted(s, Front(s), key);
    var a, t := Head(s, key), Look(w, s, false);
    var u := WithQueue(s, Front(s), TakeFrom(QueueOf(s, Front(s)), key));
    forall b ensures IsQueued(t, b) <==> IsQueued(s, b) && b != a {
      assert IsQueued(t, b) <==> IsQueued(u, b);
    }
    forall b | IsQueued(t, b) ensures b.digest != a.digest {
    }
  }

  lemma BackTidy(w: Weight, s: Sched)
    requires Tidy(s) && QueueOf(s, Front(s)).queues != map[]
    ensures Dequeue(w, s).0.Some? && Tidy(Look(w, s, true))
    ensures forall b :: IsQueued(Look(w, s, true), b) <==> IsQueued(s, b)
  {
    var key := NextKey(w, s);
    HeadFacts(w, s, key);
    BackIs(w, s, key);
    var f := QueueOf(s, Front(s));
    ReturnedIs(f, key);
    if |f.queues[key].items| == 1 {
      RestampedTidy(s, Front(s), key);
    } else {
      assert WithQueue(s, Front(s), f) == s;
    }
  }

  lemma RestampedTidy(s: Sched, c: QueuePriority, key: string)
    requires Tidy(s) && key in QueueOf(s, c).queues
    ensures Tidy(WithQueue(s, c, Restamped(QueueOf(s, c), key)))
    ensures forall b :: IsQueued(WithQueue(s, c, Restamped(QueueOf(s, c), key)), b) <==> IsQueued(s, b)
  {
    var f := QueueOf(s, c);
    var g, t := Restamped(f, key), WithQueue(s, c, Restamped(f, key));
    forall k ensures ItemsOf(g, k) == ItemsOf(f, k) {
    }
    forall b ensures IsQueued(t, b) <==> IsQueued(s, b) {
      assert ItemsOf(g, b.invocation) == ItemsOf(f, b.invocation);
    }
    assert Valid(g) && OfClass(g, c) && Single(g);
  }

  /** The tidy schedulers, for proofs that need no more of them than that. */
  ghost function AllTidy(): iset<Sched> {
    iset s: Sched | Tidy(s)
  }

  /** The operations with an action in a queue. */
  ghost function QueuedOps(s: Sched): iset<OperationId> {
    iset a: Action | IsQueued(s, a) :: a.op
  }

  lemma OpsWithout(s: Sched, t: Sched, a: Action)
    requires IsQueued(s, a) && forall b :: IsQueued(s, b) && b.op == a.op ==> b == a
    requires forall b :: IsQueued(t, b) <==> IsQueued(s, b) && b != a
    ensures QueuedOps(t) == QueuedOps(s) - iset{a.op}
  {
  }

  lemma OpsSame(s: Sched, t: Sched)
    requires forall b :: IsQueued(t, b) <==> IsQueued(s, b)
    ensures QueuedOps(t) == QueuedOps(s)
  {
  }

  lemma LookTidy(w: Weight, s: Sched, back: bool)
    requires s in AllTidy() && Filed(s) && Dequeue(w, s).0.Some?
    ensures Look(w, s, back) in AllTidy() && Filed(Look(w, s, back))
    ensures Dequeue(w, s).0.value.op in QueuedOps(s)
    ensures QueuedOps(Look(w, s, back)) == if back then QueuedOps(s) else QueuedOps(s) - iset{Dequeue(w, s).0.value.op}
  {
    DequeuedWasQueued(w, s);
    if back {
      BackTidy(w, s);
      OpsSame(s, Look(w, s, true));
    } else {
      OutTidy(w, s);
      OpsWithout(s, Look(w, s, false), Dequeue(w, s).0.value);
    }
  }

  lemma LooksIs(w: Weight, s: Sched, backs: seq<bool>)
    requires Filed(s) && backs != [] && Dequeue(w, s).0.Some?
    ensures Filed(Look(w, s, backs[0]))
    ensures LooksOf(w, s, backs) == [Dequeue(w, s).0.value] + LooksOf(w, Look(w, s, backs[0]), backs[1..])
  {
    LookFiled(w, s, backs[0]);
  }

  ghost predicate Among(looks: seq<Action>, ops: iset<OperationId>) {
    forall i :: 0 <= i < |looks| ==> looks[i].op in ops
  }

  /** An action is looked at again only after its delivery failed. */
  ghost predicate RepeatsReturned(looks: seq<Action>, backs: seq<bool>) {
    && |looks| <= |backs|
    && forall i, j :: 0 <= i < j < |looks| && looks[i].op == looks[j].op ==> backs[i]
  }

  lemma RepeatsMore(a: Action, rest: seq<Action>, backs: seq<bool>, ops: iset<OperationId>)
    requires backs != [] && RepeatsReturned(rest, backs[1..]) &&
             Among(rest, if backs[0] then ops else ops - iset{a.op}) && a.op in ops
    ensures RepeatsReturned([a] + rest, backs) && Among([a] + rest, ops)
  {
    var looks := [a] + rest;
    forall i, j | 0 <= i < j < |looks| && looks[i].op == looks[j].op ensures backs[i] {
      assert looks[j] == rest[j - 1];
      if i > 0 {
        assert looks[i] == rest[i - 1] && backs[i] == backs[1..][i - 1];
      }
    }
  }

  /** A pass looks again only at an action whose delivery failed. */
  lemma {:induction false} OnlyReturnedAgain(w: Weight, s: Sched, backs: seq<bool>)
    requires s in AllTidy() && Filed(s)
    ensures RepeatsReturned(LooksOf(w, s, backs), backs) && Among(LooksOf(w, s, backs), QueuedOps(s))
    decreases |backs|
  {
    if backs != [] && Dequeue(w, s).0.Some? {
      LookTidy(w, s, backs[0]);
      LooksIs(w, s, backs);
      var t := Look(w, s, backs[0]);
      OnlyReturnedAgain(w, t, backs[1..]);
      RepeatsMore(Dequeue(w, s).0.value, LooksOf(w, t, backs[1..]), backs, QueuedOps(s));
    }
  }

  // ----- When a pass looks at each action once -----

  ghost function Stamped(f: Fair, m: nat): set<string> {
    set k | k in f.queues && f.queues[k].since < m
  }

  /** All in `f` wait alone and score the same. */
  ghost predicate Flat(w: Weight, running: map<string, nat>, f: Fair) {
    && (forall k :: k in f.queues ==> |f.queues[k].items| == 1)
    && (forall j, k :: j in f.queues && k in f.queues ==> ScoreIn(w, running, f, j) == ScoreIn(w, running, f, k))
  }

  lemma OldestIsNext(w: Weight, running: map<string, nat>, f: Fair, key: string, m: nat)
    requires Flat(w, running, f) && IsNext(w, running, f, key) && Stamped(f, m) != {}
    ensures key in Stamped(f, m)
  {
    var k :| k in Stamped(f, m);
    if k != key {
      assert ServedBefore(w, running, f.queues, key, k);
      assert ScoreIn(w, running, f, key) == ScoreIn(w, running, f, k);
    }
  }

  lemma RestampedFlat(w: Weight, running: map<string, nat>, f: Fair, key: string, m: nat)
    requires Flat(w, running, f) && key in f.queues && m <= f.nextSince
    ensures Flat(w, running, Restamped(f, key)) && Stamped(Restamped(f, key), m) == Stamped(f, m) - {key}
  {
    var g := Restamped(f, key);
    forall k | k in g.queues ensures ScoreIn(w, running, g, k) == ScoreIn(w, running, f, k) {
    }
  }

  lemma TakenFlat(w: Weight, before: map<string, nat>, after: map<string, nat>, f: Fair, key: string, m: nat)
    requires Flat(w, before, f) && key in f.queues && f.queues[key].items != []
    requires forall k :: k != key ==> RunningOf(after, k) == RunningOf(before, k)
    ensures Flat(w, after, TakeFrom(f, key)) && Stamped(TakeFrom(f, key), m) == Stamped(f, m) - {key}
    ensures TakeFrom(f, key).nextSince == f.nextSince
  {
    var g := TakeFrom(f, key);
    forall k | k in g.queues ensures k in f.queues && k != key && ScoreIn(w, after, g, k) == ScoreIn(w, before, f, k) {
    }
  }

  function Other(c: QueuePriority): QueuePriority {
    if c.Critical? then Medium else Critical
  }

  /** Only class `c` has anything waiting, and it is flat. */
  ghost predicate FlatIn(w: Weight, s: Sched, c: QueuePriority) {
    QueueOf(s, Other(c)).queues == map[] && Flat(w, RunningFrom(s.inFlight), QueueOf(s, c))
  }

  lemma FlatBack(w: Weight, s: Sched, c: QueuePriority, m: nat)
    requires Tidy(s) && FlatIn(w, s, c) && Stamped(QueueOf(s, c), m) != {} && m <= QueueOf(s, c).nextSince
    ensures Dequeue(w, s).0.Some? && Dequeue(w, s).0.value.invocation in Stamped(QueueOf(s, c), m)
    ensures var t := Look(w, s, true);
            && FlatIn(w, t, c) && m <= QueueOf(t, c).nextSince
            && Stamped(QueueOf(t, c), m) == Stamped(QueueOf(s, c), m) - {Dequeue(w, s).0.value.invocation}
  {
    var f, running := QueueOf(s, c), RunningFrom(s.inFlight);
    assert Front(s) == c;
    var key := NextKey(w, s);
    HeadFacts(w, s, key);
    OldestIsNext(w, running, f, key, m);
    BackIs(w, s, key);
    ReturnedIs(f, key);
    RestampedFlat(w, running, f, key, m);
  }

  lemma FlatOut(w: Weight, s: Sched, c: QueuePriority, m: nat)
    requires Tidy(s) && FlatIn(w, s, c) && Stamped(QueueOf(s, c), m) != {} && m <= QueueOf(s, c).nextSince
    ensures Dequeue(w, s).0.Some? && Dequeue(w, s).0.value.invocation in Stamped(QueueOf(s, c), m)
    ensures var t := Look(w, s, false);
            && FlatIn(w, t, c) && m <= QueueOf(t, c).nextSince
            && Stamped(QueueOf(t, c), m) == Stamped(QueueOf(s, c), m) - {Dequeue(w, s).0.value.invocation}
  {
    var f, running := QueueOf(s, c), RunningFrom(s.inFlight);
    assert Front(s) == c;
    var key := NextKey(w, s);
    HeadFacts(w, s, key);
    OldestIsNext(w, running, f, key, m);
    OutIs(w, s, key);
    OthersRun(w, s, key);
    TakenFlat(w, running, RunningFrom(Look(w, s, false).inFlight), f, key, m);
  }

  /** A look counts one more running action of its own invocation at most. */
  lemma OthersRun(w: Weight, s: Sched, key: string)
    requires Tidy(s) && QueueOf(s, Front(s)).queues != map[] && key == NextKey(w, s)
    ensures forall k :: k != key ==>
                          RunningOf(RunningFrom(Look(w, s, false).inFlight), k) == RunningOf(RunningFrom(s.inFlight), k)
  {
    HeadFacts(w, s, key);
    OutIs(w, s, key);
    forall k | k != key
      ensures RunningOf(RunningFrom(Look(w, s, false).inFlight), k) == RunningOf(RunningFrom(s.inFlight), k)
    {
      MarkAt(s.inFlight, Head(s, key).digest, k);
    }
  }

  ghost predicate OneEach(looks: seq<Action>, keys: set<string>) {
    && (forall i :: 0 <= i < |looks| ==> looks[i].invocation in keys)
    && (forall i, j :: 0 <= i < j < |looks| ==> looks[i].invocation != looks[j].invocation)
  }

  lemma OneEachMore(a: Action, rest: seq<Action>, keys: set<string>)
    requires a.invocation in keys && OneEach(rest, keys - {a.invocation})
    ensures OneEach([a] + rest, keys)
  {
    var looks := [a] + rest;
    forall i, j | 0 <= i < j < |looks| ensures looks[i].invocation != looks[j].invocation {
      assert looks[j] == rest[j - 1];
    }
  }

  /** While the rounds last there is an invocation that has not had its turn, and its stamp
      is older than every stamp given out since. */
  lemma {:induction false} FlatLooksOnce(w: Weight, s: Sched, c: QueuePriority, backs: seq<bool>, m: nat)
    requires s in AllTidy() && Filed(s) && FlatIn(w, s, c) && m <= QueueOf(s, c).nextSince
    requires |backs| <= |Stamped(QueueOf(s, c), m)|
    ensures OneEach(LooksOf(w, s, backs), Stamped(QueueOf(s, c), m))
    decreases |backs|
  {
    if backs != [] {
      if backs[0] {
        FlatBack(w, s, c, m);
      } else {
        FlatOut(w, s, c, m);
      }
      var a, t := Dequeue(w, s).0.value, Look(w, s, backs[0]);
      LookTidy(w, s, backs[0]);
      LooksIs(w, s, backs);
      FlatLooksOnce(w, t, c, backs[1..], m);
      OneEachMore(a, LooksOf(w, t, backs[1..]), Stamped(QueueOf(s, c), m));
    }
  }

  /** All that waits is of one class, one action to an invocation, and scores the same. */
  ghost predicate Level(w: Weight, s: Sched) {
    FlatIn(w, s, Critical) || FlatIn(w, s, Medium)
  }

  lemma {:induction false} OnesCount(m: map<string, nat>)
    requires forall k :: k in m ==> m[k] == 1
    ensures SumOf(m) == |m.Keys|
    decreases |m|
  {
    if m == map[] {
      assert m.Keys == {};
    } else {
      var k :| k in m;
      SumWithout(m, k);
      OnesCount(m - {k});
      assert m.Keys == (m - {k}).Keys + {k};
    }
  }

  lemma FlatWaits(w: Weight, s: Sched, c: QueuePriority)
    requires Filed(s) && FlatIn(w, s, c)
    ensures Waiting(s) == |Stamped(QueueOf(s, c), QueueOf(s, c).nextSince)|
  {
    var f := QueueOf(s, c);
    SizeZero(QueueOf(s, Other(c)));
    OnesCount(Lengths(f.queues));
    assert Lengths(f.queues).Keys == Stamped(f, f.nextSince);
  }

  lemma LevelLooksOnce(w: Weight, s: Sched, c: QueuePriority, backs: seq<bool>)
    requires Tidy(s) && FlatIn(w, s, c) && |backs| <= Waiting(s)
    ensures DistinctOps(LooksOf(w, s, backs))
  {
    var looks := LooksOf(w, s, backs);
    FlatWaits(w, s, c);
    FlatLooksOnce(w, s, c, backs, QueueOf(s, c).nextSince);
    OnlyReturnedAgain(w, s, backs);
    LooksQueued(w, s, backs);
    forall i, j | 0 <= i < j < |looks| ensures looks[i].op != looks[j].op {
      assert looks[i].invocation != looks[j].invocation;
    }
  }

  ghost predicate AllQueued(s: Sched, looks: seq<Action>) {
    forall i :: 0 <= i < |looks| ==> IsQueued(s, looks[i])
  }

  lemma {:induction false} LooksQueued(w: Weight, s: Sched, backs: seq<bool>)
    requires s in AllTidy() && Filed(s)
    ensures AllQueued(s, LooksOf(w, s, backs))
    decreases |backs|
  {
    if backs != [] && Dequeue(w, s).0.Some? {
      LookTidy(w, s, backs[0]);
      LooksIs(w, s, backs);
      var a, t := Dequeue(w, s).0.value, Look(w, s, backs[0]);
      LooksQueued(w, t, backs[1..]);
      QueuedBefore(w, s, backs[0], LooksOf(w, t, backs[1..]));
    }
  }

  lemma QueuedToo(s: Sched, t: Sched, first: Action, rest: seq<Action>)
    requires IsQueued(s, first) && AllQueued(t, rest) && forall b :: IsQueued(t, b) ==> IsQueued(s, b)
    ensures AllQueued(s, [first] + rest)
  {
  }

  lemma QueuedBefore(w: Weight, s: Sched, back: bool, rest: seq<Action>)
    requires Tidy(s) && Dequeue(w, s).0.Some? && AllQueued(Look(w, s, back), rest)
    ensures AllQueued(s, [Dequeue(w, s).0.value] + rest)
  {
    DequeuedWasQueued(w, s);
    if back {
      BackTidy(w, s);
    } else {
      OutTidy(w, s);
    }
    QueuedToo(s, Look(w, s, back), Dequeue(w, s).0.value, rest);
  }

  /** With the next action of `s` sent, what remains is no more level than it was. */
  lemma StillNotLevel(w: Weight, s: Sched, key: string)
    requires Tidy(s) && !Level(w, s) && QueueOf(s, Front(s)).queues != map[] && key == NextKey(w, s)
    requires |QueueOf(s, Front(s)).queues[key].items| == 1
    requires !Lowest(w, RunningFrom(s.inFlight), QueueOf(s, Front(s)), key)
    ensures !Level(w, Look(w, s, false))
  {
    var c, running := Front(s), RunningFrom(s.inFlight);
    var f, t := QueueOf(s, c), Look(w, s, false);
    HeadFacts(w, s, key);
    OutIs(w, s, key);
    OthersRun(w, s, key);
    var k :| k in f.queues && k != key && ScoreIn(w, running, f, key) >= ScoreIn(w, running, f, k);
    assert ServedBefore(w, running, f.queues, key, k);
    assert k in QueueOf(t, c).queues && QueueOf(t, Other(c)) == QueueOf(s, Other(c));
    if Level(w, t) {
      assert FlatIn(w, t, c);
      FlatWasFlat(w, running, RunningFrom(t.inFlight), f, key, k);
      assert false;
    }
  }

  lemma FlatWasFlat(w: Weight, before: map<string, nat>, after: map<string, nat>, f: Fair, key: string, k: string)
    requires key in f.queues && |f.queues[key].items| == 1 && k in f.queues && k != key
    requires ScoreIn(w, before, f, key) == ScoreIn(w, before, f, k)
    requires forall j :: j != key ==> RunningOf(after, j) == RunningOf(before, j)
    requires Flat(w, after, TakeFrom(f, key))
    ensures Flat(w, before, f)
  {
    var g := TakeFrom(f, key);
    forall j | j in f.queues && j != key
      ensures |f.queues[j].items| == 1 && ScoreIn(w, before, f, j) == ScoreIn(w, before, f, k)
    {
      assert j in g.queues && g.queues[j] == f.queues[j] && k in g.queues;
      assert ScoreIn(w, after, g, j) == ScoreIn(w, after, g, k);
    }
  }

  lemma LookWaiting(w: Weight, s: Sched)
    requires Filed(s) && QueueOf(s, Front(s)).queues != map[]
    ensures Waiting(Look(w, s, false)) + 1 == Waiting(s)
  {
    var key := NextKey(w, s);
    HeadFacts(w, s, key);
    SizeOfTake(QueueOf(s, Front(s)), key);
  }

  lemma LoneIsFlat(w: Weight, running: map<string, nat>, f: Fair, key: string)
    requires key in f.queues && f.queues[key].items != [] && TakeFrom(f, key).queues == map[]
    ensures Flat(w, running, f)
  {
    assert |f.queues[key].items| == 1 by {
      assert key !in TakeFrom(f, key).queues;
    }
    forall k | k in f.queues ensures k == key {
      assert k !in f.queues - {key};
    }
  }

  /** A lone waiting action is level. */
  lemma TwoWait(w: Weight, s: Sched)
    requires Tidy(s) && !Level(w, s)
    ensures QueueOf(s, Front(s)).queues != map[] && Waiting(s) >= 2
  {
    assert QueueOf(s, Front(s)).queues != map[];
    var c, f, key := Front(s), QueueOf(s, Front(s)), NextKey(w, s);
    SizeOfTake(f, key);
    TakeValid(f, key);
    SizeZero(TakeFrom(f, key));
    SizeZero(QueueOf(s, Other(c)));
    if TakeFrom(f, key).queues == map[] && QueueOf(s, Other(c)).queues == map[] {
      LoneIsFlat(w, RunningFrom(s.inFlight), f, key);
      assert false;
    }
  }

  lemma SameTwice(w: Weight, s: Sched, a: Action)
    requires Filed(s) && Dequeue(w, s).0 == Some(a) && Filed(Look(w, s, true))
    requires Dequeue(w, Look(w, s, true)).0 == Some(a)
    ensures LooksOf(w, s, [true, false]) == [a, a]
  {
    LooksIs(w, s, [true, false]);
    assert [true, false][1..] == [false];
    LooksIs(w, Look(w, s, true), [false]);
    assert [false][1..] == [];
  }

  lemma RepeatsLater(a: Action, rest: seq<Action>)
    requires !DistinctOps(rest)
    ensures !DistinctOps([a] + rest)
  {
    var i, j :| 0 <= i < j < |rest| && rest[i].op == rest[j].op;
    assert ([a] + rest)[i + 1].op == ([a] + rest)[j + 1].op;
  }

  lemma {:induction false} CanLookTwice(w: Weight, s: Sched) returns (backs: seq<bool>)
    requires s in AllTidy() && Filed(s) && !Level(w, s)
    ensures |backs| <= Waiting(s) && !DistinctOps(LooksOf(w, s, backs))
    decreases Waiting(s)
  {
    TwoWait(w, s);
    LookWaiting(w, s);
    var key, running := NextKey(w, s), RunningFrom(s.inFlight);
    HeadFacts(w, s, key);
    TakenAgainIff(w, s, Head(s, key));
    if |QueueOf(s, Front(s)).queues[key].items| > 1 || Lowest(w, running, QueueOf(s, Front(s)), key) {
      backs := [true, false];
      SameTwice(w, s, Head(s, key));
      assert LooksOf(w, s, backs)[0] == LooksOf(w, s, backs)[1];
    } else {
      StillNotLevel(w, s, key);
      LookTidy(w, s, false);
      var rest := CanLookTwice(w, Look(w, s, false));
      backs := [false] + rest;
      LooksIs(w, s, backs);
      assert backs[1..] == rest;
      RepeatsLater(Head(s, key), LooksOf(w, Look(w, s, false), rest));
    }
  }

  /** Whatever becomes of its deliveries, a pass looks at each action at most once exactly when
      all that waits is of one class, one action to an invocation, and scores the same. */
  lemma LooksOnceIff(w: Weight, s: Sched)
    requires Tidy(s)
    ensures (forall backs: seq<bool> :: |backs| <= Waiting(s) ==> DistinctOps(LooksOf(w, s, backs))) <==> Level(w, s)
  {
    if Level(w, s) {
      var c := if FlatIn(w, s, Critical) then Critical else Medium;
      forall backs: seq<bool> | |backs| <= Waiting(s) ensures DistinctOps(LooksOf(w, s, backs)) {
        LevelLooksOnce(w, s, c, backs);
      }
    } else {
      var backs := CanLookTwice(w, s);
    }
  }

  // ----- The looks of the engine's pass -----

  ghost function SchedAfter(w: Weight, s: Sched, backs: seq<bool>): (t: Sched)
    requires Filed(s)
    ensures Filed(t)
    decreases |backs|
  {
    if backs == [] then s
    else
      LookFiled(w, s, backs[0]);
      SchedAfter(w, Look(w, s, backs[0]), backs[1..])
  }

  lemma StillSome(w: Weight, s: Sched, backs: seq<bool>)
    requires Filed(s) && Dequeue(w, SchedAfter(w, s, backs)).0.Some?
    ensures Dequeue(w, s).0.Some?
  {
    if Dequeue(w, s).0.None? {
      NothingMore(w, s, backs);
      assert false;
    }
  }

  lemma {:induction false} OneSchedMore(w: Weight, s: Sched, backs: seq<bool>, back: bool)
    requires Filed(s)
    ensures SchedAfter(w, s, backs + [back]) == Look(w, SchedAfter(w, s, backs), back)
    decreases |backs|
  {
    if backs == [] {
      assert [back][1..] == [] && backs + [back] == [back];
    } else {
      ConcatTail(backs, [back]);
      LookFiled(w, s, backs[0]);
      OneSchedMore(w, Look(w, s, backs[0]), backs[1..], back);
    }
  }

  /** The action a pass looks at next. */
  ghost function NextLook(w: Weight, s: Sched): Action
    requires Filed(s) && Dequeue(w, s).0.Some?
  {
    Dequeue(w, s).0.value
  }

  lemma {:induction false} OneLookMore(w: Weight, s: Sched, backs: seq<bool>, back: bool)
    requires Filed(s) && Dequeue(w, SchedAfter(w, s, backs)).0.Some?
    ensures LooksOf(w, s, backs + [back]) == LooksOf(w, s, backs) + [NextLook(w, SchedAfter(w, s, backs))]
    decreases |backs|
  {
    if backs == [] {
      assert [back][1..] == [];
      LooksIs(w, s, [back]);
    } else {
      ConcatTail(backs, [back]);
      LookFiled(w, s, backs[0]);
      StillSome(w, s, backs);
      OneLookMore(w, Look(w, s, backs[0]), backs[1..], back);
      LooksIs(w, s, backs);
      LooksIs(w, s, backs + [back]);
      ConcatAssoc([NextLook(w, s)], LooksOf(w, Look(w, s, backs[0]), backs[1..]),
        [NextLook(w, SchedAfter(w, s, backs))]);
    }
  }

  lemma {:induction false} NothingMore(w: Weight, s: Sched, backs: seq<bool>)
    requires Filed(s) && Dequeue(w, s).0.None?
    ensures SchedAfter(w, s, backs) == s
    decreases |backs|
  {
    if backs != [] {
      NothingMore(w, s, backs[1..]);
    }
  }

  /** What a pass looked at so far, and which of it came back after a failed delivery. */
  datatype Log = Log(looks: seq<Action>, backs: seq<bool>)

  const NO_LOOKS: Log := Log([], [])

  function LogAlso(g: Log, a: Action, back: bool): Log {
    Log(g.looks + [a], g.backs + [back])
  }

  /** The log of a pass that leads from `s0` to `s`. */
  ghost predicate Logged(w: Weight, s0: Sched, s: Sched, g: Log) {
    forall n: nat {:trigger Asked(n)} :: n == |g.backs| ==>
      Filed(s0) && g.looks == LooksOf(w, s0, g.backs) && s == SchedAfter(w, s0, g.backs)
  }

  lemma LogStarts(w: Weight, s: Sched)
    requires Filed(s)
    ensures Logged(w, s, s, NO_LOOKS)
  {
    assert NO_LOOKS.backs == [] && NO_LOOKS.looks == [];
    assert LooksOf(w, s, []) == [] && SchedAfter(w, s, []) == s;
  }

  lemma LogGrows(w: Weight, s0: Sched, s: Sched, g: Log, back: bool)
    requires Logged(w, s0, s, g) && Filed(s) && Dequeue(w, s).0.Some?
    ensures Logged(w, s0, Look(w, s, back), LogAlso(g, Dequeue(w, s).0.value, back))
  {
    assert Asked(|g.backs|);
    OneLookMore(w, s0, g.backs, back);
    OneSchedMore(w, s0, g.backs, back);
  }

  /** A pass over the queues of `s0` looked at exactly this: again only at what had come back,
      and at nothing twice if the queues were level. */
  ghost predicate LookedAs(w: Weight, s0: Sched, g: Log) {
    && Filed(s0) && g.looks == LooksOf(w, s0, g.backs) && |g.backs| <= Waiting(s0)
    && RepeatsReturned(g.looks, g.backs)
    && (Level(w, s0) ==> DistinctOps(g.looks))
  }

  lemma LogIsFair(w: Weight, max: nat, s0: Sys, s: Sched, g: Log)
    requires s0 in Safe(max) && Logged(w, s0.sched, s, g) && |g.backs| <= Waiting(s0.sched)
    ensures LookedAs(w, s0.sched, g)
  {
    assert Asked(|g.backs|);
    SafeIsTidy(max, s0);
    OnlyReturnedAgain(w, s0.sched, g.backs);
    LooksOnceIff(w, s0.sched);
  }

  /** The same of the protocol: after a failed delivery the action is next again exactly then. */
  lemma FailedIsTakenAgainIff(cfg: Config, max: nat, s: Sys, a: Action)
    requires s in Safe(max) && Dequeue(cfg.weight, s.sched).0 == Some(a)
    ensures var t := ApplyTakeNext(cfg, s);
            Enabled(t, FailDelivery(a.op)) && Filed(ApplyFailDelivery(t, a.op).sched)
    ensures a.invocation in QueueOf(s.sched, a.priority).queues
    ensures Dequeue(cfg.weight, ApplyFailDelivery(ApplyTakeNext(cfg, s), a.op).sched).0 == Some(a) <==>
            || |ItemsAt(s.sched, a.priority, a.invocation)| > 1
            || Lowest(cfg.weight, RunningFrom(s.sched.inFlight), QueueOf(s.sched, a.priority), a.invocation)
  {
    TakeFacts(cfg, max, s, a);
    TakeNextKeeps(cfg, max, s);
    FailDeliveryIsPutBack(max, ApplyTakeNext(cfg, s), a.op);
    SafeIsTidy(max, s);
    TakenAgainIff(cfg.weight, s.sched, a);
    assert ApplyFailDelivery(ApplyTakeNext(cfg, s), a.op).sched == Look(cfg.weight, s.sched, true);
  }

  lemma ThenAdmitted(cfg: Config, steps: seq<Step>, s: Sys, a: Action) returns (more: seq<Step>, t: Sys)
    requires s in EndOf(cfg, steps) && a.workerLosses == 0 && a.op !in s.machines && a.op !in s.admitted
    requires a.digest !in s.sched.inFlight
    ensures t in EndOf(cfg, more) && t.sched == Enqueue(s.sched, a, 0).0
    ensures t.machines.Keys == s.machines.Keys + {a.op} && t.admitted.Keys == s.admitted.Keys + {a.op}
  {
    ThenCreate(cfg, steps, s, a.op, a.digest);
    var u, first := ApplyCreate(s, a.op, a.digest), steps + [Create(a.op, a.digest)];
    ThenSubmit(cfg, first, u, a, 0);
    t, more := ApplySubmit(u, a, 0), first + [Submit(a, 0)];
  }

  /** Two actions of one invocation, and a pass whose first delivery fails, show it. */
  lemma LookingTwiceIsReachable(cfg: Config, a: Action, b: Action) returns (steps: seq<Step>, s: Sys)
    requires a.op != b.op && a.digest != b.digest && a.workerLosses == 0 && b.workerLosses == 0
    requires a.invocation == b.invocation && a.priority == b.priority
    ensures s in EndOf(cfg, steps) && Filed(s.sched) && Waiting(s.sched) == 2
    ensures LooksOf(cfg.weight, s.sched, [true, false]) == [a, a]
  {
    StartEnds(cfg);
    var steps1, s1 := ThenAdmitted(cfg, [], START, a);
    assert s1.sched.inFlight.Keys == {a.digest};
    steps, s := ThenAdmitted(cfg, steps1, s1, b);
    EndIsSafe(cfg, steps, s);
    SafeIsTidy(cfg.maxWorkerLosses, s);
    TwoOfOne(cfg.weight, s.sched, a, b);
  }

  lemma TwoPushed(a: Action, b: Action)
    requires a.invocation == b.invocation
    ensures Push(Push(EMPTY, a, false), b, false) == Fair(map[a.invocation := InvocationQueue([a, b], 0)], 1)
    ensures Size(Push(Push(EMPTY, a, false), b, false)) == 2
  {
    SizeOfPush(EMPTY, a, false);
    SizeOfPush(Push(EMPTY, a, false), b, false);
    SizeZero(EMPTY);
    assert [] + [a] == [a];
    assert Push(EMPTY, a, false) == Fair(map[a.invocation := InvocationQueue([a], 0)], 1);
    assert [a] + [b] == [a, b];
  }

  lemma TwoOfOne(w: Weight, s: Sched, a: Action, b: Action)
    requires a.op != b.op && a.digest != b.digest && a.invocation == b.invocation && a.priority == b.priority
    requires s == Enqueue(Enqueue(IDLE, a, 0).0, b, 0).0 && Tidy(s)
    ensures Waiting(s) == 2 && LooksOf(w, s, [true, false]) == [a, a]
  {
    var c := a.priority;
    TwoPushed(a, b);
    SizeZero(EMPTY);
    assert QueueOf(s, c) == Push(Push(EMPTY, a, false), b, false) && QueueOf(s, Other(c)) == EMPTY;
    TwiceFirst(w, s, a, b);
  }

  lemma TwiceFirst(w: Weight, s: Sched, a: Action, b: Action)
    requires Tidy(s) && QueueOf(s, Other(a.priority)) == EMPTY
    requires QueueOf(s, a.priority) == Fair(map[a.invocation := InvocationQueue([a, b], 0)], 1)
    ensures LooksOf(w, s, [true, false]) == [a, a]
  {
    assert Front(s) == a.priority;
    var key := NextKey(w, s);
    HeadFacts(w, s, key);
    TakenAgainIff(w, s, a);
    SameTwice(w, s, a);
  }
}
