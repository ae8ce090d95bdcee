/** Two fair queues, the in-flight digests and the running counters
    (`MultiLevelScheduler` of src/execution/scheduler.rs). */
module Scheduling {
  import opened Prelude
  import opened FairQueues

  datatype InFlightEntry = InFlightEntry(op: OperationId, insertedAt: nat, invocation: string, dispatched: bool)

  type InFlight = map<Digest, InFlightEntry>

  /** The value of a scheduler. The running counters are not part of it: they
      are what `RunningFrom` computes from the in-flight entries. */
  datatype Sched = Sched(critical: Fair, medium: Fair, inFlight: InFlight)

  const IDLE: Sched := Sched(EMPTY, EMPTY, map[])

  function QueueOf(s: Sched, c: QueuePriority): Fair {
    if c.Critical? then s.critical else s.medium
  }

  function WithQueue(s: Sched, c: QueuePriority, f: Fair): Sched {
    if c.Critical? then s.(critical := f) else s.(medium := f)
  }

  /** Both queues are well formed and every action waits in the queue of its class. */
  ghost predicate Filed(s: Sched) {
    && Valid(s.critical) && Valid(s.medium)
    && OfClass(s.critical, Critical) && OfClass(s.medium, Medium)
  }

  /** `a` occupies a slot of a queue. */
  ghost predicate IsQueued(s: Sched, a: Action) {
    a in ItemsOf(s.critical, a.invocation) || a in ItemsOf(s.medium, a.invocation)
  }

  lemma QueuedAfterPush(s: Sched, a: Action, front: bool, b: Action)
    requires Filed(s)
    ensures IsQueued(WithQueue(s, a.priority, Push(QueueOf(s, a.priority), a, front)), b) <==> b == a || IsQueued(s, b)
  {
    var f := QueueOf(s, a.priority);
    PushValid(f, a, front);
    assert b in ItemsOf(Push(f, a, front), b.invocation) <==> b == a || b in ItemsOf(f, b.invocation);
  }

  lemma QueuedAfterTake(s: Sched, c: QueuePriority, key: string, b: Action)
    requires Filed(s) && key in QueueOf(s, c).queues
    ensures IsQueued(WithQueue(s, c, TakeFrom(QueueOf(s, c), key)), b) ==> IsQueued(s, b)
    ensures IsQueued(s, b) && b != QueueOf(s, c).queues[key].items[0] ==>
            IsQueued(WithQueue(s, c, TakeFrom(QueueOf(s, c), key)), b)
  {
    var f := QueueOf(s, c);
    TakeValid(f, key);
    assert f.queues[key].items == [f.queues[key].items[0]] + f.queues[key].items[1..];
  }

  /** The digests of `key` that are out of the queues. */
  ghost function Dispatched(m: InFlight, key: string): set<Digest> {
    set d | d in m && m[d].dispatched && m[d].invocation == key
  }

  /** How many dispatched digests each invocation has; none with zero is listed. */
  ghost function RunningFrom(m: InFlight): map<string, nat> {
    map key | key in (set d | d in m && m[d].dispatched :: m[d].invocation) :: |Dispatched(m, key)|
  }

  function Increment(running: map<string, nat>, key: string): map<string, nat> {
    running[key := RunningOf(running, key) + 1]
  }

  /** One less, dropping the entry at zero. */
  function Decrement(running: map<string, nat>, key: string): map<string, nat>
    requires key in running ==> running[key] > 0
  {
    if key !in running then running
    else if running[key] == 1 then running - {key}
    else running[key := running[key] - 1]
  }

  lemma RunningIs(m: InFlight, key: string)
    ensures RunningOf(RunningFrom(m), key) == |Dispatched(m, key)|
    ensures key in RunningFrom(m) <==> Dispatched(m, key) != {}
    ensures key in RunningFrom(m) ==> RunningFrom(m)[key] > 0
  {
    if d :| d in m && m[d].dispatched && m[d].invocation == key {
      assert d in Dispatched(m, key);
      assert key in RunningFrom(m);
    } else {
      assert Dispatched(m, key) == {};
    }
  }

  lemma SameRunning(m: map<string, nat>, n: map<string, nat>)
    requires forall k :: RunningOf(m, k) == RunningOf(n, k)
    requires forall k :: k in m ==> m[k] > 0
    requires forall k :: k in n ==> n[k] > 0
    ensures m == n
  {
    forall k ensures k in m <==> k in n {
      assert RunningOf(m, k) == RunningOf(n, k);
    }
    assert m.Keys == n.Keys;
    forall k | k in m ensures m[k] == n[k] {
      assert RunningOf(m, k) == RunningOf(n, k);
    }
  }

  lemma AllPositive(m: InFlight)
    ensures forall k :: k in RunningFrom(m) ==> RunningFrom(m)[k] > 0
  {
    forall k | k in RunningFrom(m) ensures RunningFrom(m)[k] > 0 {
      RunningIs(m, k);
    }
  }

  lemma MarkAt(m: InFlight, d: Digest, k: string)
    requires d in m && !m[d].dispatched
    ensures RunningOf(RunningFrom(m[d := m[d].(dispatched := true)]), k) ==
            RunningOf(RunningFrom(m), k) + if k == m[d].invocation then 1 else 0
  {
    var n := m[d := m[d].(dispatched := true)];
    RunningIs(m, k);
    RunningIs(n, k);
    assert Dispatched(n, k) == if k == m[d].invocation then Dispatched(m, k) + {d} else Dispatched(m, k);
  }

  /** Marking one entry dispatched is one more running action of its invocation. */
  lemma MarkCounts(m: InFlight, d: Digest)
    requires d in m && !m[d].dispatched
    ensures RunningFrom(m[d := m[d].(dispatched := true)]) == Increment(RunningFrom(m), m[d].invocation)
  {
    var n := m[d := m[d].(dispatched := true)];
    AllPositive(m);
    AllPositive(n);
    forall k ensures RunningOf(RunningFrom(n), k) == RunningOf(Increment(RunningFrom(m), m[d].invocation), k) {
      MarkAt(m, d, k);
    }
    SameRunning(RunningFrom(n), Increment(RunningFrom(m), m[d].invocation));
  }

  /** Unmarking one is one less, and there is always one to take. */
  lemma UnmarkCounts(m: InFlight, d: Digest)
    requires d in m && m[d].dispatched
    ensures m[d].invocation in RunningFrom(m) && RunningFrom(m)[m[d].invocation] > 0
    ensures RunningFrom(m[d := m[d].(dispatched := false)]) == Decrement(RunningFrom(m), m[d].invocation)
  {
    var n, key := m[d := m[d].(dispatched := false)], m[d].invocation;
    RunningIs(m, key);
    assert d in Dispatched(m, key);
    assert n[d := n[d].(dispatched := true)] == m;
    AllPositive(m);
    AllPositive(n);
    forall k ensures RunningOf(RunningFrom(n), k) == RunningOf(Decrement(RunningFrom(m), key), k) {
      MarkAt(n, d, k);
    }
    SameRunning(RunningFrom(n), Decrement(RunningFrom(m), key));
  }

  /** Adding or dropping an entry that is not dispatched counts nothing. */
  lemma UnmarkedCountsNothing(m: InFlight, n: InFlight)
    requires forall d :: d in m && m[d].dispatched ==> d in n && n[d] == m[d]
    requires forall d :: d in n && n[d].dispatched ==> d in m && m[d] == n[d]
    ensures RunningFrom(m) == RunningFrom(n)
  {
    forall k ensures RunningOf(RunningFrom(m), k) == RunningOf(RunningFrom(n), k) {
      RunningIs(m, k);
      RunningIs(n, k);
      assert Dispatched(m, k) == Dispatched(n, k);
    }
    AllPositive(m);
    AllPositive(n);
    SameRunning(RunningFrom(m), RunningFrom(n));
  }

  /** Admits the action, or names the operation already running its digest. */
  function Enqueue(s: Sched, a: Action, now: nat): (Sched, OperationId) {
    if a.digest in s.inFlight then
      (s, s.inFlight[a.digest].op)
    else
      var t := s.(inFlight := s.inFlight[a.digest := InFlightEntry(a.op, now, a.invocation, false)]);
      (WithQueue(t, a.priority, Push(QueueOf(t, a.priority), a, false)), a.op)
  }

  function SetDispatched(s: Sched, d: Digest, dispatched: bool): Sched {
    if d in s.inFlight then
      s.(inFlight := s.inFlight[d := s.inFlight[d].(dispatched := dispatched)])
    else
      s
  }

  function PutBack(s: Sched, a: Action): Sched {
    var t := SetDispatched(s, a.digest, false);
    WithQueue(t, a.priority, Push(QueueOf(t, a.priority), a, true))
  }

  ghost function TryDequeue(w: Weight, s: Sched, c: QueuePriority): (Option<Action>, Sched)
    requires Filed(s)
  {
    var (item, f) := Pop(w, RunningFrom(s.inFlight), QueueOf(s, c));
    match item
    case None => (None, s)
    case Some(a) => (Some(a), SetDispatched(WithQueue(s, c, f), a.digest, true))
  }

  ghost function Dequeue(w: Weight, s: Sched): (Option<Action>, Sched)
    requires Filed(s)
  {
    if s.critical.queues != map[] then TryDequeue(w, s, Critical) else TryDequeue(w, s, Medium)
  }

  function Complete(s: Sched, d: Digest): Sched {
    s.(inFlight := s.inFlight - {d})
  }

  function CleanupStale(s: Sched, now: nat, maxAge: nat): Sched {
    s.(inFlight := map d | d in s.inFlight && now - s.inFlight[d].insertedAt <= maxAge :: s.inFlight[d])
  }

  function RemoveUnwatched(s: Sched, c: QueuePriority, ops: set<OperationId>): Sched {
    WithQueue(s, c, Drain(QueueOf(s, c), ops))
  }

  lemma EnqueueFiled(s: Sched, a: Action, now: nat)
    requires Filed(s)
    ensures Filed(Enqueue(s, a, now).0)
  {
    PushValid(QueueOf(s, a.priority), a, false);
    PushOfClass(QueueOf(s, a.priority), a, false);
  }

  lemma PutBackFiled(s: Sched, a: Action)
    requires Filed(s)
    ensures Filed(PutBack(s, a))
  {
    PushValid(QueueOf(s, a.priority), a, true);
    PushOfClass(QueueOf(s, a.priority), a, true);
  }

  lemma TryDequeueFiled(w: Weight, s: Sched, c: QueuePriority)
    requires Filed(s)
    ensures Filed(TryDequeue(w, s, c).1)
    ensures TryDequeue(w, s, c).0.None? <==> QueueOf(s, c).queues == map[]
  {
    if QueueOf(s, c).queues != map[] {
      var key := Next(w, RunningFrom(s.inFlight), QueueOf(s, c));
      TakeValid(QueueOf(s, c), key);
      TakeOfClass(QueueOf(s, c), key, c);
    }
  }

  /** What is left in the queues after a pop. */
  lemma PoppedFiled(w: Weight, s: Sched, c: QueuePriority)
    requires Filed(s)
    ensures Filed(WithQueue(s, c, Pop(w, RunningFrom(s.inFlight), QueueOf(s, c)).1))
  {
    var f := QueueOf(s, c);
    if f.queues == map[] {
      assert WithQueue(s, c, f) == s;
    } else {
      var key := Next(w, RunningFrom(s.inFlight), f);
      TakeValid(f, key);
      TakeOfClass(f, key, c);
    }
  }

  /** A critical action always goes before the others, and nothing is returned only when
      nothing waits. */
  lemma CriticalGoesFirst(w: Weight, s: Sched, a: Action)
    requires Filed(s) && IsQueued(s, a)
    ensures Dequeue(w, s).0.Some? && IsQueued(s, Dequeue(w, s).0.value)
    ensures a.priority.Critical? ==> Dequeue(w, s).0.value.priority.Critical?
  {
    var from := if s.critical.queues != map[] then Critical else Medium;
    var f := QueueOf(s, from);
    assert a.invocation in s.critical.queues || a.invocation in s.medium.queues;
    if a.invocation in s.medium.queues {
      assert InClass(s.medium.queues[a.invocation].items, Medium);
    }
    var key := Next(w, RunningFrom(s.inFlight), f);
    assert Own(f.queues[key].items, key);
    assert InClass(f.queues[key].items, from);
  }

  lemma RemoveUnwatchedFiled(s: Sched, c: QueuePriority, ops: set<OperationId>)
    requires Filed(s)
    ensures Filed(RemoveUnwatched(s, c, ops))
  {
    DrainValid(QueueOf(s, c), ops);
    DrainOfClass(QueueOf(s, c), ops, c);
  }

  /** Part of the stale entries released: `stale` are still to go. */
  ghost predicate Cleaning(before: InFlight, now: nat, maxAge: nat, m: InFlight, stale: set<Digest>) {
    && stale <= m.Keys <= before.Keys && (forall d :: d in m ==> m[d] == before[d])
    && (forall d :: d in stale ==> now - before[d].insertedAt > maxAge)
    && forall d :: d in before && d !in stale ==> (d in m <==> now - before[d].insertedAt <= maxAge)
  }

  lemma CleansOne(before: InFlight, now: nat, maxAge: nat, m: InFlight, stale: set<Digest>, d: Digest)
    requires Cleaning(before, now, maxAge, m, stale) && d in stale
    ensures Cleaning(before, now, maxAge, m - {d}, stale - {d}) && |m - {d}| + 1 == |m|
  {
    assert m.Keys - {d} == (m - {d}).Keys;
  }

  lemma CleansAll(before: InFlight, now: nat, maxAge: nat, m: InFlight)
    requires Cleaning(before, now, maxAge, m, {})
    ensures m == map d | d in before && now - before[d].insertedAt <= maxAge :: before[d]
  {
  }

  /** The scheduler itself. Its counters are kept by increments and decrements;
      `Ok` says they never differ from a recount of the in-flight entries. */
  class MultiLevelScheduler {
    const w: Weight
    const critical: FairQueue
    const medium: FairQueue
    var inFlight: InFlight
    var running: map<string, nat>

    ghost function View(): Sched
      reads this, critical, medium
    {
      Sched(critical.View(), medium.View(), inFlight)
    }

    ghost predicate Ok()
      reads this, critical, medium
    {
      && critical != medium && critical.Ok() && medium.Ok()
      && Filed(View())
      && running == RunningFrom(inFlight)
    }

    constructor (w: Weight)
      ensures Ok() && View() == IDLE && fresh(critical) && fresh(medium) && this.w == w
    {
      this.w := w;
      critical := new FairQueue();
      medium := new FairQueue();
      inFlight := map[];
      running := map[];
    }

    method EnqueueAction(a: Action, now: nat) returns (owner: OperationId)
      requires Ok()
      modifies this, critical, medium
      ensures Ok() && (View(), owner) == Enqueue(old(View()), a, now)
    {
      if a.digest in inFlight {
        return inFlight[a.digest].op;
      }
      EnqueueFiled(View(), a, now);
      UnmarkedCountsNothing(inFlight, inFlight[a.digest := InFlightEntry(a.op, now, a.invocation, false)]);
      inFlight := inFlight[a.digest := InFlightEntry(a.op, now, a.invocation, false)];
      if a.priority.Critical? {
        critical.PushItem(a, false);
      } else {
        medium.PushItem(a, false);
      }
      owner := a.op;
    }

    method Undispatch(d: Digest)
      requires Ok()
      modifies this`inFlight, this`running
      ensures Ok() && View() == SetDispatched(old(View()), d, false)
    {
      if d !in inFlight {
        return;
      }
      if inFlight[d].dispatched {
        UnmarkCounts(inFlight, d);
        var key := inFlight[d].invocation;
        inFlight := inFlight[d := inFlight[d].(dispatched := false)];
        if key in running {
          running := running[key := running[key] - 1];
          if running[key] == 0 {
            running := running - {key};
          }
        }
        assert running == old(Decrement(running, inFlight[d].invocation));
      } else {
        assert inFlight[d := inFlight[d].(dispatched := false)] == inFlight;
      }
    }

    /** Counts a dequeued digest as running, once. */
    method MarkDispatched(d: Digest)
      requires Ok()
      modifies this`inFlight, this`running
      ensures Ok() && View() == SetDispatched(old(View()), d, true)
    {
      if d in inFlight {
        if !inFlight[d].dispatched {
          MarkCounts(inFlight, d);
          running := running[inFlight[d].invocation := RunningOf(running, inFlight[d].invocation) + 1];
          inFlight := inFlight[d := inFlight[d].(dispatched := true)];
        } else {
          assert inFlight[d := inFlight[d].(dispatched := true)] == inFlight;
        }
      }
    }

    method PutBackAction(a: Action)
      requires Ok()
      modifies this, critical, medium
      ensures Ok() && View() == PutBack(old(View()), a)
    {
      PutBackFiled(View(), a);
      Undispatch(a.digest);
      if a.priority.Critical? {
        critical.PushItem(a, true);
      } else {
        medium.PushItem(a, true);
      }
    }

    method TryDequeueAction(c: QueuePriority) returns (item: Option<Action>)
      requires Ok()
      modifies this, critical, medium
      ensures Ok() && (item, View()) == TryDequeue(w, old(View()), c)
    {
      item := PopFrom(c);
      if item.Some? {
        MarkDispatched(item.value.digest);
      }
    }

    method PopFrom(c: QueuePriority) returns (item: Option<Action>)
      requires Ok()
      modifies critical, medium
      ensures Ok() && item == Pop(w, running, old(QueueOf(View(), c))).0
      ensures View() == WithQueue(old(View()), c, Pop(w, running, old(QueueOf(View(), c))).1)
      ensures TryDequeue(w, old(View()), c) ==
              (item, if item.Some? then SetDispatched(View(), item.value.digest, true) else old(View()))
    {
      PoppedFiled(w, View(), c);
      if c.Critical? {
        item := critical.PopItem(w, running);
      } else {
        item := medium.PopItem(w, running);
      }
    }

    method DequeueAction() returns (item: Option<Action>)
      requires Ok()
      modifies this, critical, medium
      ensures Ok() && (item, View()) == Dequeue(w, old(View()))
    {
      TryDequeueFiled(w, View(), Critical);
      item := TryDequeueAction(Critical);
      if item.None? {
        item := TryDequeueAction(Medium);
      }
    }

    method CompleteAction(d: Digest)
      requires Ok()
      modifies this`inFlight, this`running
      ensures Ok() && View() == Complete(old(View()), d)
    {
      ghost var before := inFlight;
      Undispatch(d);
      UnmarkedCountsNothing(inFlight, inFlight - {d});
      assert inFlight - {d} == before - {d};
      inFlight := inFlight - {d};
    }

    method QueuedLen() returns (n: nat)
      requires Ok()
      ensures n == Size(View().critical) + Size(View().medium)
    {
      n := critical.len + medium.len;
    }

    /** Releases every digest admitted more than `maxAge` ago, in any order. */
    method CleanupStaleActions(now: nat, maxAge: nat) returns (removed: nat)
      requires Ok()
      modifies this`inFlight, this`running
      ensures Ok() && View() == CleanupStale(old(View()), now, maxAge)
      ensures removed + |inFlight| == |old(inFlight)|
    {
      ghost var before := inFlight;
      var stale := set d | d in inFlight && now - inFlight[d].insertedAt > maxAge;
      removed := 0;
      while stale != {}
        invariant Ok() && View() == old(View()).(inFlight := inFlight)
        invariant Cleaning(before, now, maxAge, inFlight, stale) && removed + |inFlight| == |before|
        decreases stale
      {
        var d :| d in stale;
        CleansOne(before, now, maxAge, inFlight, stale, d);
        stale := stale - {d};
        CompleteAction(d);
        removed := removed + 1;
      }
      CleansAll(before, now, maxAge, inFlight);
    }

    /** Takes the actions of `ops` out of both queues; their digests stay in flight. */
    method RemoveUnwatchedActions(ops: set<OperationId>) returns (gone: seq<Action>)
      requires Ok()
      modifies this, critical, medium
      ensures Ok()
      ensures View() == RemoveUnwatched(RemoveUnwatched(old(View()), Critical, ops), Medium, ops)
      ensures forall k :: OfInvocation(gone, k) ==
                          Leaving(ItemsOf(old(View()).critical, k), ops) + Leaving(ItemsOf(old(View()).medium, k), ops)
      ensures Size(View().critical) + Size(View().medium) + |gone| == Size(old(View()).critical)
              + Size(old(View()).medium)
    {
      RemoveUnwatchedFiled(View(), Critical, ops);
      RemoveUnwatchedFiled(RemoveUnwatched(View(), Critical, ops), Medium, ops);
      var first := critical.DrainWhere(ops);
      var second := medium.DrainWhere(ops);
      gone := first + second;
      forall k ensures OfInvocation(gone, k) == OfInvocation(first, k) + OfInvocation(second, k) {
        OfInvocationConcat(first, second, k);
      }
    }
  }
}
