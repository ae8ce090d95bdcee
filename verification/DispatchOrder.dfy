/** What taking actions out of the scheduler and putting them back does to each
    invocation's queue (`dispatch_ready` of src/execution/engine.rs). */
module DispatchOrder {
  import opened Prelude
  import opened Stages
  import opened FairQueues
  import opened Scheduling
  import opened Slots
  import opened Protocol

  /** The queue of one invocation in one class. */
  function ItemsAt(s: Sched, c: QueuePriority, k: string): seq<Action> {
    ItemsOf(QueueOf(s, c), k)
  }

  predicate Here(a: Action, c: QueuePriority, k: string) {
    a.priority == c && a.invocation == k
  }

  /** The actions of one invocation and class, in order. */
  function At(items: seq<Action>, c: QueuePriority, k: string): seq<Action> {
    if items == [] then [] else (if Here(items[0], c, k) then [items[0]] else []) + At(items[1..], c, k)
  }

  lemma {:induction false} AtConcat(x: seq<Action>, y: seq<Action>, c: QueuePriority, k: string)
    ensures At(x + y, c, k) == At(x, c, k) + At(y, c, k)
  {
    if x == [] {
      assert x + y == y;
    } else {
      ConcatTail(x, y);
      AtConcat(x[1..], y, c, k);
      ConcatAssoc(if Here(x[0], c, k) then [x[0]] else [], At(x[1..], c, k), At(y, c, k));
    }
  }

  lemma {:induction false} StayingConcat(x: seq<Action>, y: seq<Action>, ops: set<OperationId>)
    ensures Staying(x + y, ops) == Staying(x, ops) + Staying(y, ops)
  {
    if x == [] {
      assert x + y == y;
    } else {
      ConcatTail(x, y);
      StayingConcat(x[1..], y, ops);
      ConcatAssoc(if x[0].op in ops then [] else [x[0]], Staying(x[1..], ops), Staying(y, ops));
    }
  }

  lemma {:induction false} AllStay(x: seq<Action>, ops: set<OperationId>)
    requires forall a :: a in x ==> a.op !in ops
    ensures Staying(x, ops) == x
  {
    if x != [] {
      AllStay(x[1..], ops);
    }
  }

  /** Leaving out an operation that is not there changes nothing. */
  lemma {:induction false} StayingMore(x: seq<Action>, ops: set<OperationId>, op: OperationId)
    requires forall a :: a in x ==> a.op != op
    ensures Staying(x, ops + {op}) == Staying(x, ops)
  {
    if x != [] {
      StayingMore(x[1..], ops, op);
    }
  }

  lemma {:induction false} AtStaying(x: seq<Action>, ops: set<OperationId>, c: QueuePriority, k: string)
    ensures At(Staying(x, ops), c, k) == Staying(At(x, c, k), ops)
  {
    if x != [] {
      AtStaying(x[1..], ops, c, k);
      AtConcat(if x[0].op in ops then [] else [x[0]], Staying(x[1..], ops), c, k);
      StayingConcat(if Here(x[0], c, k) then [x[0]] else [], At(x[1..], c, k), ops);
    }
  }

  lemma AtOne(a: Action, c: QueuePriority, k: string)
    ensures At([a], c, k) == if Here(a, c, k) then [a] else []
  {
  }

  lemma TakeAt(s: Sched, from: QueuePriority, key: string, c: QueuePriority, k: string)
    requires Filed(s) && key in QueueOf(s, from).queues
    ensures ItemsAt(s, c, k) ==
            At([QueueOf(s, from).queues[key].items[0]], c, k)
              + ItemsAt(WithQueue(s, from, TakeFrom(QueueOf(s, from), key)), c, k)
  {
    var f := QueueOf(s, from);
    var items, t := f.queues[key].items, WithQueue(s, from, TakeFrom(f, key));
    AtOne(items[0], c, k);
    assert items[0].invocation == key && items[0].priority == from by {
      assert Own(items, key) && InClass(items, from);
    }
    assert QueueOf(t, c) == if c == from then TakeFrom(f, key) else QueueOf(s, c);
    assert ItemsOf(TakeFrom(f, key), k) == if k == key then items[1..] else ItemsOf(f, k) by {
      TakeValid(f, key);
    }
    assert items == [items[0]] + items[1..];
  }

  lemma DequeueAt(w: Weight, s: Sched, c: QueuePriority, k: string)
    requires Filed(s) && Dequeue(w, s).0.Some?
    ensures ItemsAt(s, c, k) == At([Dequeue(w, s).0.value], c, k) + ItemsAt(Dequeue(w, s).1, c, k)
  {
    var from := if s.critical.queues != map[] then Critical else Medium;
    TakeAt(s, from, Next(w, RunningFrom(s.inFlight), QueueOf(s, from)), c, k);
  }

  lemma PushAt(f: Fair, a: Action, k: string)
    requires Valid(f)
    ensures ItemsOf(Push(f, a, true), k) == (if k == a.invocation then [a] else []) + ItemsOf(f, k)
  {
    PushValid(f, a, true);
  }

  lemma PutBackAt(s: Sched, a: Action, c: QueuePriority, k: string)
    requires Filed(s)
    ensures ItemsAt(PutBack(s, a), c, k) == At([a], c, k) + ItemsAt(s, c, k)
  {
    var f := QueueOf(s, c);
    assert QueueOf(PutBack(s, a), c) == if c == a.priority then Push(f, a, true) else f;
    PushAt(f, a, k);
  }

  /** The queues of `s` are those of `t` with `out` put back in front of them. */
  ghost predicate AheadOf(s: Sched, out: seq<Action>, t: Sched) {
    forall c, k {:trigger ItemsAt(s, c, k)} {:trigger ItemsAt(t, c, k)} ::
      ItemsAt(s, c, k) == At(out, c, k) + ItemsAt(t, c, k)
  }

  lemma TakenAhead(w: Weight, s0: Sched, looked: seq<Action>, s: Sched, a: Action, t: Sched)
    requires Filed(s) && Dequeue(w, s) == (Some(a), t) && AheadOf(s0, looked, s)
    ensures AheadOf(s0, looked + [a], t)
  {
    forall c, k ensures ItemsAt(s0, c, k) == At(looked + [a], c, k) + ItemsAt(t, c, k) {
      DequeueAt(w, s, c, k);
      AtConcat(looked, [a], c, k);
      ConcatAssoc(At(looked, c, k), At([a], c, k), ItemsAt(t, c, k));
    }
  }

  lemma ReturnedAt(s: Sched, out: seq<Action>, t: Sched, a: Action, c: QueuePriority, k: string)
    requires Filed(s) && ItemsAt(s, c, k) == At(out, c, k) + ItemsAt(t, c, k)
    ensures ItemsAt(PutBack(s, a), c, k) == At([a] + out, c, k) + ItemsAt(t, c, k)
  {
    PutBackAt(s, a, c, k);
    AtConcat([a], out, c, k);
    ConcatAssoc(At([a], c, k), At(out, c, k), ItemsAt(t, c, k));
  }

  lemma ReturnedAhead(s: Sched, out: seq<Action>, t: Sched, a: Action)
    requires Filed(s) && AheadOf(s, out, t)
    ensures AheadOf(PutBack(s, a), [a] + out, t)
  {
    forall c, k ensures ItemsAt(PutBack(s, a), c, k) == At([a] + out, c, k) + ItemsAt(t, c, k) {
      ReturnedAt(s, out, t, a, c, k);
    }
  }

  /** A pass that looked at `looked`, handed out `sent` and returned the rest. */
  lemma PassRemoves(s0: Sched, looked: seq<Action>, mid: Sched, sent: set<OperationId>, s: Sched)
    requires AheadOf(s0, looked, mid) && AheadOf(s, Staying(looked, sent), mid)
    requires forall c: QueuePriority, k: string, a: Action :: a in ItemsAt(mid, c, k) ==> a.op !in sent
    ensures forall c, k :: At(looked, c, k) <= ItemsAt(s0, c, k)
    ensures forall c, k :: ItemsAt(s, c, k) == Staying(ItemsAt(s0, c, k), sent)
  {
    forall c, k ensures At(looked, c, k) <= ItemsAt(s0, c, k) && ItemsAt(s, c, k) == Staying(ItemsAt(s0, c, k), sent) {
      StayingConcat(At(looked, c, k), ItemsAt(mid, c, k), sent);
      AllStay(ItemsAt(mid, c, k), sent);
      AtStaying(looked, sent, c, k);
    }
  }

  /** The in-flight entries with the digests in `out` marked dispatched. */
  function Marked(m: InFlight, out: set<Digest>): InFlight {
    map d | d in m :: if d in out then m[d].(dispatched := true) else m[d]
  }

  function DigestsOf(items: seq<Action>): set<Digest> {
    set a | a in items :: a.digest
  }

  lemma TakenMarks(w: Weight, s: Sched, m: InFlight, out: set<Digest>)
    requires Filed(s) && Dequeue(w, s).0.Some? && s.inFlight == Marked(m, out)
    ensures Dequeue(w, s).1.inFlight == Marked(m, out + {Dequeue(w, s).0.value.digest})
  {
  }

  /** The in-flight entries with the digests in `back` no longer marked. */
  function Unmarked(m: InFlight, back: set<Digest>): InFlight {
    map d | d in m :: if d in back then m[d].(dispatched := false) else m[d]
  }

  lemma ReturnedUnmarks(s: Sched, m: InFlight, back: set<Digest>, a: Action)
    requires s.inFlight == Unmarked(m, back)
    ensures PutBack(s, a).inFlight == Unmarked(m, back + {a.digest})
  {
  }

  lemma UnmarkedMarks(m: InFlight, out: set<Digest>, back: set<Digest>)
    requires forall d :: d in back && d in m ==> !m[d].dispatched
    ensures Unmarked(Marked(m, out), back) == Marked(m, out - back)
  {
  }

  // ----- One dispatch pass -----

  /** What a queued action's operation is like. */
  lemma QueuedFacts(max: nat, s: Sys, a: Action)
    requires s in Safe(max) && IsQueued(s.sched, a)
    ensures a.op !in s.dequeued && a.op !in s.active && a.op in s.machines && s.machines[a.op].stage == Queued
    ensures a.digest in s.sched.inFlight && !s.sched.inFlight[a.digest].dispatched
  {
    QueuedIsCurrent(max, s, a);
    LocalIsLegal(max, s, a.op);
    var l := LocalOf(s, a.op);
    assert l.slots != iset{} && l.dequeued == Get(s.dequeued, a.op) && l.active == Get(s.active, a.op) &&
           l.machine == Get(s.machines, a.op);
    assert l.entry == EntryOf(s, a.op);
  }

  lemma DequeuedWasQueued(w: Weight, s: Sched)
    requires Filed(s) && Dequeue(w, s).0.Some?
    ensures IsQueued(s, Dequeue(w, s).0.value)
  {
    var a := Dequeue(w, s).0.value;
    DequeueAt(w, s, a.priority, a.invocation);
  }

  ghost predicate InOrder(s0: Sched, s: Sched, looked: seq<Action>) {
    && AheadOf(s0, looked, s) && s.inFlight == Marked(s0.inFlight, DigestsOf(looked))
    && forall a :: a in looked ==> a.digest in s0.inFlight && !s0.inFlight[a.digest].dispatched
  }

  /** The actions looked at: those sent are with a worker, the others in hand. */
  ghost predicate InHand(s: Sys, looked: seq<Action>, sent: set<OperationId>, unmatched: seq<Action>) {
    && unmatched == Staying(looked, sent) && DistinctOps(looked)
    && (forall a :: a in looked ==> a.op in s.dequeued || a.op in s.active)
    && (forall op :: op in sent ==> op in s.active)
  }

  /** What is in hand can be put back. */
  ghost predicate HoldsAll(s: Sys, unmatched: seq<Action>) {
    && DistinctOps(unmatched)
    && forall i :: 0 <= i < |unmatched| ==> unmatched[i].op in s.dequeued && s.dequeued[unmatched[i].op] == unmatched[i]
  }

  lemma LookedMore(w: Weight, s0: Sched, s: Sched, looked: seq<Action>, a: Action, t: Sched)
    requires Filed(s) && InOrder(s0, s, looked) && Dequeue(w, s) == (Some(a), t)
    requires a.digest in s.inFlight && !s.inFlight[a.digest].dispatched
    ensures InOrder(s0, t, looked + [a])
  {
    TakenAhead(w, s0, looked, s, a, t);
    TakenMarks(w, s, s0.inFlight, DigestsOf(looked));
    assert DigestsOf(looked + [a]) == DigestsOf(looked) + {a.digest};
  }

  lemma HandKeeps(s: Sys, t: Sys, looked: seq<Action>, sent: set<OperationId>, unmatched: seq<Action>, a: Action)
    requires InHand(s, looked, sent, unmatched) && a.op !in s.dequeued && a.op !in s.active
    requires t.dequeued == s.dequeued[a.op := a] && t.active == s.active
    ensures InHand(t, looked + [a], sent, unmatched + [a])
  {
    StayingConcat(looked, [a], sent);
  }

  lemma HandSends(s: Sys, t: Sys, looked: seq<Action>, sent: set<OperationId>, unmatched: seq<Action>, a: Action,
      x: ActiveExecution)
    requires InHand(s, looked, sent, unmatched) && a.op !in s.dequeued && a.op !in s.active
    requires t.dequeued == s.dequeued[a.op := a] - {a.op} && t.active == s.active[a.op := x]
    ensures InHand(t, looked + [a], sent + {a.op}, unmatched)
  {
    StayingMore(looked, sent, a.op);
    StayingConcat(looked, [a], sent + {a.op});
  }

  lemma HoldsMore(s: Sys, t: Sys, unmatched: seq<Action>, a: Action)
    requires HoldsAll(s, unmatched) && a.op !in s.dequeued
    requires t.dequeued == s.dequeued[a.op := a]
    ensures HoldsAll(t, unmatched + [a])
  {
  }

  /** A pass under way: what it took and did not give back, and of that what it sent and
      what it keeps in hand. */
  datatype Pass = Pass(looked: seq<Action>, sent: set<OperationId>, unmatched: seq<Action>)

  const NEW_PASS: Pass := Pass([], {}, [])

  /** The passes that may have led from `s0` to `s`: what was taken accounts for everything
      gone from the queues. */
  ghost function Passes(s0: Sys, s: Sys): iset<Pass> {
    iset p: Pass |
      && HoldsAll(s, p.unmatched)
      && InOrder(s0.sched, s.sched, p.looked) && InHand(s, p.looked, p.sent, p.unmatched)
  }

  function Kept(p: Pass, a: Action): Pass {
    p.(looked := p.looked + [a], unmatched := p.unmatched + [a])
  }

  function SentOut(p: Pass, a: Action): Pass {
    p.(looked := p.looked + [a], sent := p.sent + {a.op})
  }

  lemma PassStarts(s: Sys)
    ensures NEW_PASS in Passes(s, s)
  {
    assert Marked(s.sched.inFlight, DigestsOf([])) == s.sched.inFlight;
  }

  lemma TakeFacts(cfg: Config, max: nat, s: Sys, a: Action)
    requires s in Safe(max) && Dequeue(cfg.weight, s.sched).0 == Some(a)
    ensures a.op !in s.dequeued && a.op !in s.active && a.op in s.machines && s.machines[a.op].stage == Queued
    ensures a.digest in s.sched.inFlight && !s.sched.inFlight[a.digest].dispatched
    ensures ApplyTakeNext(cfg, s) == s.(sched := Dequeue(cfg.weight, s.sched).1, dequeued := s.dequeued[a.op := a])
  {
    DequeuedWasQueued(cfg.weight, s.sched);
    QueuedFacts(max, s, a);
  }

  lemma PassKeeps(cfg: Config, max: nat, s0: Sys, s: Sys, a: Action, p: Pass)
    requires s in Safe(max) && Dequeue(cfg.weight, s.sched).0 == Some(a) && p in Passes(s0, s)
    ensures Kept(p, a) in Passes(s0, ApplyTakeNext(cfg, s))
  {
    var t := ApplyTakeNext(cfg, s);
    TakeFacts(cfg, max, s, a);
    HoldsMore(s, t, p.unmatched, a);
    LookedMore(cfg.weight, s0.sched, s.sched, p.looked, a, t.sched);
    HandKeeps(s, t, p.looked, p.sent, p.unmatched, a);
  }

  /** `a` taken off the queues and handed to a worker. */
  lemma SentPass(s0: Sys, s: Sys, u: Sys, a: Action, x: ActiveExecution, p: Pass)
    requires p in Passes(s0, s) && InOrder(s0.sched, u.sched, p.looked + [a])
    requires a.op !in s.dequeued && a.op !in s.active
    requires u.dequeued == s.dequeued[a.op := a] - {a.op} && u.active == s.active[a.op := x]
    ensures SentOut(p, a) in Passes(s0, u) && |SentOut(p, a).sent| == |p.sent| + 1
  {
    HandSends(s, u, p.looked, p.sent, p.unmatched, a, x);
    assert u.dequeued == s.dequeued;
  }

  lemma TakeThenDeliver(cfg: Config, max: nat, s: Sys, a: Action, worker: nat)
    requires s in Safe(max) && Dequeue(cfg.weight, s.sched).0 == Some(a)
    ensures a.op in ApplyTakeNext(cfg, s).machines && ApplyTakeNext(cfg, s).machines[a.op].stage == Queued
    ensures a.op in ApplyTakeNext(cfg, s).dequeued && ApplyTakeNext(cfg, s).dequeued[a.op] == a
    ensures var u := ApplyDeliver(ApplyTakeNext(cfg, s), a.op, worker);
            && u.sched == Dequeue(cfg.weight, s.sched).1 && u.dequeued == s.dequeued[a.op := a] - {a.op}
            && u.active == s.active[a.op := ActiveExecution(worker, a)]
  {
    TakeFacts(cfg, max, s, a);
  }

  lemma PassLooks(w: Weight, s0: Sys, s: Sys, a: Action, p: Pass)
    requires p in Passes(s0, s) && Filed(s.sched) && Dequeue(w, s.sched).0 == Some(a)
    requires a.digest in s.sched.inFlight && !s.sched.inFlight[a.digest].dispatched
    ensures InOrder(s0.sched, Dequeue(w, s.sched).1, p.looked + [a])
  {
    var t := Dequeue(w, s.sched).1;
    LookedMore(w, s0.sched, s.sched, p.looked, a, t);
  }

  lemma PassSends(cfg: Config, max: nat, s0: Sys, s: Sys, a: Action, worker: nat, p: Pass)
    requires s in Safe(max) && Dequeue(cfg.weight, s.sched).0 == Some(a) && p in Passes(s0, s)
    requires a.op in ApplyTakeNext(cfg, s).machines && a.op in ApplyTakeNext(cfg, s).dequeued
    ensures SentOut(p, a) in Passes(s0, ApplyDeliver(ApplyTakeNext(cfg, s), a.op, worker))
    ensures |SentOut(p, a).sent| == |p.sent| + 1
  {
    TakeFacts(cfg, max, s, a);
    TakeThenDeliver(cfg, max, s, a, worker);
    PassLooks(cfg.weight, s0, s, a, p);
    SentPass(s0, s, ApplyDeliver(ApplyTakeNext(cfg, s), a.op, worker), a, ActiveExecution(worker, a), p);
  }

  lemma UndoneMark(s: Sched, t: Sched, a: Action)
    requires a.digest in s.inFlight && !s.inFlight[a.digest].dispatched
    requires t.inFlight == SetDispatched(s, a.digest, true).inFlight
    ensures PutBack(t, a).inFlight == s.inFlight
  {
    assert SetDispatched(t, a.digest, false).inFlight == s.inFlight;
  }

  lemma DequeueFacts(w: Weight, s: Sched, a: Action)
    requires Filed(s) && Dequeue(w, s).0 == Some(a)
    ensures Filed(Dequeue(w, s).1) && Dequeue(w, s).1.inFlight == SetDispatched(s, a.digest, true).inFlight
  {
    TryDequeueFiled(w, s, Critical);
    TryDequeueFiled(w, s, Medium);
  }

  /** Taking an action and putting it back leaves every queue in order, whether or not its
      invocation's stamp is the old one. */
  lemma UndoneOrder(w: Weight, s: Sched, a: Action)
    requires Filed(s) && Dequeue(w, s).0 == Some(a) && a.digest in s.inFlight && !s.inFlight[a.digest].dispatched
    ensures AheadOf(s, [], PutBack(Dequeue(w, s).1, a)) && PutBack(Dequeue(w, s).1, a).inFlight == s.inFlight
  {
    DequeueFacts(w, s, a);
    var t := Dequeue(w, s).1;
    UndoneMark(s, t, a);
    forall c, k ensures ItemsAt(s, c, k) == At([], c, k) + ItemsAt(PutBack(t, a), c, k) {
      DequeueAt(w, s, c, k);
      PutBackAt(t, a, c, k);
    }
  }

  lemma PassSame(s0: Sys, s: Sys, t: Sys, p: Pass)
    requires p in Passes(s0, s) && AheadOf(s.sched, [], t.sched) && t.sched.inFlight == s.sched.inFlight
    requires t.active == s.active && t.dequeued == s.dequeued
    ensures p in Passes(s0, t)
  {
    forall c, k ensures ItemsAt(s0.sched, c, k) == At(p.looked, c, k) + ItemsAt(t.sched, c, k) {
      assert ItemsAt(s.sched, c, k) == At([], c, k) + ItemsAt(t.sched, c, k);
      ConcatNone(ItemsAt(t.sched, c, k));
    }
  }

  lemma TakeThenFail(cfg: Config, max: nat, s: Sys, a: Action)
    requires s in Safe(max) && Dequeue(cfg.weight, s.sched).0 == Some(a)
    ensures a.op in ApplyTakeNext(cfg, s).machines && ApplyTakeNext(cfg, s).machines[a.op].stage == Queued
    ensures a.op in ApplyTakeNext(cfg, s).dequeued && ApplyTakeNext(cfg, s).dequeued[a.op] == a
    ensures var u := ApplyFailDelivery(ApplyTakeNext(cfg, s), a.op);
            u.sched == PutBack(Dequeue(cfg.weight, s.sched).1, a) && u.dequeued == s.dequeued && u.active == s.active
  {
    TakeFacts(cfg, max, s, a);
    TakeNextKeeps(cfg, max, s);
    var t := ApplyTakeNext(cfg, s);
    FailDeliveryIsPutBack(max, t, a.op);
    assert t.dequeued - {a.op} == s.dequeued;
  }

  /** A delivery that fails leaves the pass where it was. */
  lemma PassFails(cfg: Config, max: nat, s0: Sys, s: Sys, a: Action, p: Pass)
    requires s in Safe(max) && Dequeue(cfg.weight, s.sched).0 == Some(a) && p in Passes(s0, s)
    requires a.op in ApplyTakeNext(cfg, s).machines && a.op in ApplyTakeNext(cfg, s).dequeued
    ensures p in Passes(s0, ApplyFailDelivery(ApplyTakeNext(cfg, s), a.op))
  {
    TakeFacts(cfg, max, s, a);
    TakeThenFail(cfg, max, s, a);
    UndoneOrder(cfg.weight, s.sched, a);
    PassSame(s0, s, ApplyFailDelivery(ApplyTakeNext(cfg, s), a.op), p);
  }

  /** What a pass over the queues of `s0` leaves, having taken `looked` and sent the
      operations `sent`: it took the front of every queue, nothing twice, and each queue
      ends as it began without the sent actions. */
  ghost predicate Passed(s0: Sys, s: Sys, looked: seq<Action>, sent: set<OperationId>) {
    && DistinctOps(looked)
    && (forall c, k :: At(looked, c, k) <= ItemsAt(s0.sched, c, k))
    && (forall c, k :: ItemsAt(s.sched, c, k) == Staying(ItemsAt(s0.sched, c, k), sent))
    && (forall op :: op in sent ==> op in s.active)
    && (sent == {} ==> s.sched.inFlight == s0.sched.inFlight)
  }

  lemma NothingSent(m: InFlight, looked: seq<Action>)
    ensures Staying(looked, {}) == looked && Marked(m, DigestsOf(looked) - DigestsOf(looked)) == m
  {
    AllStay(looked, {});
    assert DigestsOf(looked) - DigestsOf(looked) == {};
  }

  lemma PassEnds(max: nat, s0: Sys, mid: Sys, s: Sys, p: Pass)
    requires mid in Safe(max) && p in Passes(s0, mid)
    requires Returned(mid, s, p.unmatched)
    ensures Passed(s0, s, p.looked, p.sent)
  {
    forall c: QueuePriority, k: string, a: Action | a in ItemsAt(mid.sched, c, k) ensures a.op !in p.sent {
      assert IsQueued(mid.sched, a) by {
        assert Own(QueueOf(mid.sched, c).queues[k].items, k);
      }
      QueuedFacts(max, mid, a);
    }
    PassRemoves(s0.sched, p.looked, mid.sched, p.sent, s.sched);
    LeavingAndStaying(p.looked, p.sent);
    UnmarkedMarks(s0.sched.inFlight, DigestsOf(p.looked), DigestsOf(p.unmatched));
    NothingSent(s0.sched.inFlight, p.looked);
  }

  /** `out` went back to the front of its queues and nothing else changed in them. */
  ghost predicate Returned(mid: Sys, s: Sys, out: seq<Action>) {
    && AheadOf(s.sched, out, mid.sched) && s.active == mid.active
    && s.sched.inFlight == Unmarked(mid.sched.inFlight, DigestsOf(out))
  }

  /** The states with `unmatched[j..]` put back and the rest still in hand. */
  ghost function BackFrom(mid: Sys, unmatched: seq<Action>, j: nat): iset<Sys>
    requires j <= |unmatched|
  {
    iset s: Sys | Returned(mid, s, unmatched[j..]) && HoldsAll(s, unmatched[..j])
  }

  lemma ReturnedNone(s: Sys, unmatched: seq<Action>)
    requires HoldsAll(s, unmatched)
    ensures s in BackFrom(s, unmatched, |unmatched|)
  {
    assert unmatched[|unmatched|..] == [] && unmatched[..|unmatched|] == unmatched;
    assert Unmarked(s.sched.inFlight, DigestsOf([])) == s.sched.inFlight;
  }

  lemma HoldsFewer(s: Sys, unmatched: seq<Action>, j: nat)
    requires 0 < j <= |unmatched| && HoldsAll(s, unmatched[..j])
    ensures unmatched[j - 1].op in s.dequeued && s.dequeued[unmatched[j - 1].op] == unmatched[j - 1]
    ensures HoldsAll(s.(dequeued := s.dequeued - {unmatched[j - 1].op}), unmatched[..j - 1])
  {
    var held := unmatched[..j];
    assert held[j - 1] == unmatched[j - 1];
    forall i | 0 <= i < j - 1 ensures unmatched[..j - 1][i] == held[i] && held[i].op != held[j - 1].op {
    }
  }

  lemma ReturnsMore(mid: Sys, s: Sys, out: seq<Action>, a: Action)
    requires Filed(s.sched) && Returned(mid, s, out) && a.op in s.dequeued && s.dequeued[a.op] == a
    ensures Returned(mid, ApplyPutBack(s, a.op), [a] + out)
  {
    ReturnedAhead(s.sched, out, mid.sched, a);
    ReturnedUnmarks(s.sched, mid.sched.inFlight, DigestsOf(out), a);
    assert DigestsOf(out) + {a.digest} == DigestsOf([a] + out);
  }

  /** One more action put back, from the last in hand to the first. */
  lemma ReturnedMore(mid: Sys, s: Sys, unmatched: seq<Action>, j: nat)
    requires 0 < j <= |unmatched| && Filed(s.sched) && s in BackFrom(mid, unmatched, j)
    ensures unmatched[j - 1].op in s.dequeued && s.dequeued[unmatched[j - 1].op] == unmatched[j - 1]
    ensures ApplyPutBack(s, unmatched[j - 1].op) in BackFrom(mid, unmatched, j - 1)
  {
    HoldsFewer(s, unmatched, j);
    ReturnsMore(mid, s, unmatched[j..], unmatched[j - 1]);
    assert [unmatched[j - 1]] + unmatched[j..] == unmatched[j - 1..];
  }

  lemma ReturnedAll(mid: Sys, s: Sys, unmatched: seq<Action>)
    requires s in BackFrom(mid, unmatched, 0)
    ensures Returned(mid, s, unmatched)
  {
    assert unmatched[0..] == unmatched;
  }

  lemma TakeThenPush(f: Fair, key: string)
    requires Valid(f) && key in f.queues
    ensures Push(TakeFrom(f, key), f.queues[key].items[0], true) == f <==> |f.queues[key].items| > 1
  {
    var q := f.queues[key];
    assert Own(q.items, key);
    assert [q.items[0]] + q.items[1..] == q.items;
    if |q.items| > 1 {
      assert f.queues[key := q.(items := q.items[1..])][key := q] == f.queues;
    } else {
      assert Push(TakeFrom(f, key), q.items[0], true).nextSince != f.nextSince;
    }
  }

  /** `put_back` undoes `dequeue` exactly when its invocation has more waiting: the last
      action of an invocation comes back with a new stamp, behind its equals. */
  lemma PutBackUndoesIff(w: Weight, s: Sched, a: Action)
    requires Filed(s) && Dequeue(w, s).0 == Some(a)
    requires a.digest in s.inFlight ==> !s.inFlight[a.digest].dispatched
    ensures PutBack(Dequeue(w, s).1, a) == s <==> |ItemsAt(s, a.priority, a.invocation)| > 1
  {
    var from := if s.critical.queues != map[] then Critical else Medium;
    var f := QueueOf(s, from);
    var key := Next(w, RunningFrom(s.inFlight), f);
    assert Own(f.queues[key].items, key);
    assert InClass(f.queues[key].items, from);
    TakeThenPush(f, key);
    var m := SetDispatched(SetDispatched(s, a.digest, true), a.digest, false).inFlight;
    assert m == s.inFlight;
    assert PutBack(Dequeue(w, s).1, a) == WithQueue(s, from, Push(TakeFrom(f, key), a, true));
  }
}
