/** The engine's tasks as code over one scheduler, the machines and the result
    store (src/execution/engine.rs). `book` is the protocol's view of the engine:
    every method moves it along by protocol steps. */
module Engines {
  import opened Prelude
  import opened Stages
  import opened FairQueues
  import opened Scheduling
  import opened Slots
  import opened Protocol
  import opened Traces
  import opened DispatchOrder
  import opened Effects
  import opened LateErrors
  import opened Looks
  import Watches

  /** What the environment does with one dequeued action: no idle worker satisfies
      it, or one does and its channel is open or closed. */
  datatype Delivery = NoMatch | Sent(worker: nat) | ChannelClosed(worker: nat)

  /** Nothing kept the look from an instant read after the last client left. */
  ghost predicate Rightly(g: Watches.Sighting) {
    && g.counted < |g.states| && g.dated < |g.states|
    && (Watches.Fresh(g) || (Watches.InOrder(g.states, g.steps) && !Watches.HalfWay(Watches.Seen(g))))
  }

  /** The looks that came back are those whose delivery failed. */
  ghost predicate FailedAt(backs: seq<bool>, deliveries: seq<Delivery>) {
    && |backs| <= |deliveries|
    && forall i :: 0 <= i < |backs| ==> backs[i] == deliveries[i].ChannelClosed?
  }

  lemma FailedMore(backs: seq<bool>, deliveries: seq<Delivery>)
    requires FailedAt(backs, deliveries) && |backs| < |deliveries|
    ensures FailedAt(backs + [deliveries[|backs|].ChannelClosed?], deliveries)
  {
  }

  /** A pass under way: the rounds made, the actions sent, what it took and what it saw. */
  datatype Progress = Progress(rounds: nat, sent: nat, pass: Pass, log: Log)

  ghost predicate Midway(w: Weight, s0: Sys, s: Sys, deliveries: seq<Delivery>, m: Progress) {
    forall n: nat {:trigger Asked(n)} :: n == m.rounds ==>
      && m.pass in Passes(s0, s) && |m.pass.sent| == m.sent && |m.log.backs| == m.rounds
      && Logged(w, s0.sched, s.sched, m.log) && FailedAt(m.log.backs, deliveries)
  }

  ghost function PassesTo(w: Weight, s0: Sys, s: Sys, deliveries: seq<Delivery>): iset<Progress> {
    iset m: Progress | Midway(w, s0, s, deliveries, m)
  }

  const NO_PROGRESS: Progress := Progress(0, 0, NEW_PASS, NO_LOOKS)

  lemma MidwayStarts(w: Weight, s: Sys, deliveries: seq<Delivery>)
    requires Filed(s.sched)
    ensures NO_PROGRESS in PassesTo(w, s, s, deliveries)
  {
    PassStarts(s);
    LogStarts(w, s.sched);
    var m := NO_PROGRESS;
    assert m.rounds == m.sent == 0 && m.pass == NEW_PASS && m.log == NO_LOOKS;
    assert |NEW_PASS.sent| == 0 && |NO_LOOKS.backs| == 0 && FailedAt(NO_LOOKS.backs, deliveries);
  }

  lemma MidwayGoes(w: Weight, s0: Sys, s: Sys, deliveries: seq<Delivery>, m: Progress)
    requires m.pass in Passes(s0, s) && |m.pass.sent| == m.sent && |m.log.backs| == m.rounds
    requires Logged(w, s0.sched, s.sched, m.log) && FailedAt(m.log.backs, deliveries)
    ensures m in PassesTo(w, s0, s, deliveries)
  {
  }

  lemma MidwayIs(w: Weight, s0: Sys, s: Sys, deliveries: seq<Delivery>, m: Progress)
    requires m in PassesTo(w, s0, s, deliveries)
    ensures m.pass in Passes(s0, s) && |m.pass.sent| == m.sent && |m.log.backs| == m.rounds
    ensures Logged(w, s0.sched, s.sched, m.log) && FailedAt(m.log.backs, deliveries)
  {
    assert Asked(m.rounds);
  }

  function Held(s: Sys, op: OperationId): Sys {
    s.(dequeued := s.dequeued - {op})
  }

  lemma HeldBack(s: Sys, a: Action)
    requires a.op in s.dequeued && s.dequeued[a.op] == a
    ensures Held(s, a.op).(sched := PutBack(s.sched, a)) == ApplyPutBack(s, a.op)
  {
  }

  function Handed(s: Sys, a: Action, worker: nat): Sys {
    s.(active := s.active[a.op := ActiveExecution(worker, a)],
       deliveries := s.deliveries[a.op := Deliveries(s, a.op) + 1])
  }

  /** What `dispatch` does, put together from its parts. */
  function Dispatched(s: Sys, a: Action, worker: nat, open: bool): Sys
    requires a.op in s.machines
  {
    var t := Moved(Held(s, a.op), a.op, Assigned);
    if !CanTransition(s.machines[a.op].stage, Assigned) then t.(sched := Complete(t.sched, a.digest))
    else if open then Handed(t, a, worker)
    else Requeued(t, a.op, a)
  }

  lemma DroppedBy(s: Sys, a: Action, worker: nat, open: bool)
    requires a.op in s.dequeued && s.dequeued[a.op] == a && a.op in s.machines
    requires !CanTransition(s.machines[a.op].stage, Assigned)
    ensures Dispatched(s, a, worker, open) == ApplyDeliver(s, a.op, worker) == ApplyFailDelivery(s, a.op)
  {
  }

  lemma DeliveredBy(s: Sys, a: Action, worker: nat)
    requires a.op in s.dequeued && s.dequeued[a.op] == a && a.op in s.machines
    requires CanTransition(s.machines[a.op].stage, Assigned)
    ensures Dispatched(s, a, worker, true) == ApplyDeliver(s, a.op, worker)
  {
  }

  lemma FailedBy(s: Sys, a: Action, worker: nat)
    requires a.op in s.dequeued && s.dequeued[a.op] == a && a.op in s.machines
    requires CanTransition(s.machines[a.op].stage, Assigned)
    ensures Dispatched(s, a, worker, false) == ApplyFailDelivery(s, a.op)
  {
  }

  lemma DispatchedBy(s: Sys, a: Action, worker: nat, open: bool)
    requires a.op in s.dequeued && s.dequeued[a.op] == a && a.op in s.machines
    ensures Dispatched(s, a, worker, open) ==
            if open then ApplyDeliver(s, a.op, worker) else ApplyFailDelivery(s, a.op)
  {
    if !CanTransition(s.machines[a.op].stage, Assigned) {
      DroppedBy(s, a, worker, open);
    } else if open {
      DeliveredBy(s, a, worker);
    } else {
      FailedBy(s, a, worker);
    }
  }

  lemma LostFacts(max: nat, s: Sys, op: OperationId)
    requires s in Safe(max) && op in s.lost && op in s.machines
    ensures op in s.registered && s.machines[op].stage == Assigned && s.lost[op].op == op
  {
    LocalIsLegal(max, s, op);
    LocalSettle(max, op, LocalOf(s, op));
    assert LocalOf(s, op).lost == Some(s.lost[op]) && LocalOf(s, op).machine == Some(s.machines[op]);
  }

  /** The operation a lost worker held, as `worker_lost` leaves it. */
  function SettledBy(max: nat, s: Sys, op: OperationId): Sys
    requires op in s.lost && op in s.machines
  {
    var t, a := s.(lost := s.lost - {op}), s.lost[op];
    if a.workerLosses + 1 > max then Finalized(t, op, ENGINE_FAILURE)
    else Requeued(t, op, a.(workerLosses := a.workerLosses + 1))
  }

  lemma SettledIs(max: nat, s: Sys, op: OperationId)
    requires op in s.lost && op in s.machines && op in s.registered && s.machines[op].stage == Assigned
    ensures Settled(max, s, op) == SettledBy(max, s, op)
  {
  }

  ghost predicate AllFrom(lost: map<OperationId, Action>, active: map<OperationId, ActiveExecution>) {
    forall op :: op in lost ==> op in active && lost[op] == active[op].action
  }

  lemma TakenIs(cfg: Config, s: Sys, item: Option<Action>, sched: Sched)
    requires Filed(s.sched) && (item, sched) == Dequeue(cfg.weight, s.sched)
    ensures ApplyTakeNext(cfg, s) == if item.None? then s.(sched := sched)
                                     else s.(sched := sched, dequeued := s.dequeued[item.value.op := item.value])
  {
  }

  lemma DrainSteps(cfg: Config, steps: seq<Step>, s: Sys, ops: set<OperationId>, t: Sys)
    requires s in EndOf(cfg, steps) && Drains(s, ops, t)
    ensures t in EndOf(cfg, steps + [TakeUnwatched(Critical, ops), TakeUnwatched(Medium, ops)])
  {
    var first, second := TakeUnwatched(Critical, ops), TakeUnwatched(Medium, ops);
    assert Asked(|ops|);
    DrainedTwice(s, ops);
    ThenTakeUnwatched(cfg, steps, s, Critical, ops);
    ThenTakeUnwatched(cfg, steps + [first], ApplyTakeUnwatched(s, Critical, ops), Medium, ops);
    assert steps + [first] + [second] == steps + [first, second];
  }

  lemma CancelSteps(cfg: Config, steps: seq<Step>, s: Sys, op: OperationId)
    requires s in EndOf(cfg, steps) && Filed(s.sched) && op in s.machines && CanTransition(s.machines[op].stage, Failed)
    requires op in s.cancelling && s.cancelling[op] == Finish(ENGINE_FAILURE, ToRecord)
    ensures Ended(Uncancelled(s, op), op, ENGINE_FAILURE) in EndOf(cfg, steps + FourTimes(AdvanceCancel(op)))
  {
    var u := Uncancelled(s, op);
    assert u.cancelling[op := s.cancelling[op]] == s.cancelling;
    assert Cancelling(u, op, ENGINE_FAILURE, ToRecord) == s;
    ExtendCancel(cfg, steps, u, op, ENGINE_FAILURE);
  }

  lemma {:induction false} OpsCount(gone: seq<Action>)
    requires DistinctOps(gone)
    ensures |OpsOf(gone)| == |gone|
  {
    if gone != [] {
      OpsCount(gone[1..]);
      NextGone(gone, 0);
      assert gone[0..] == gone;
    }
  }

  class ExecutionEngine {
    const cfg: Config
    const scheduler: MultiLevelScheduler
    var machines: map<OperationId, Machine>
    var registered: set<OperationId>
    var active: map<OperationId, ActiveExecution>
    var recorded: map<OperationId, Outcome>
    var results: map<OperationId, Outcome>
    ghost var book: Sys
    ghost var trace: seq<Step>

    /** The engine's fields are what the protocol's view says they are. */
    ghost predicate Ok()
      reads this, scheduler, scheduler.critical, scheduler.medium
    {
      && scheduler.Ok() && scheduler.w == cfg.weight
      && book.sched == scheduler.View() && book.machines == machines && book.registered == registered
      && book.active == active && book.recorded == recorded && book.results == results
    }

    /** The engine stands where a run of protocol steps leads. */
    ghost predicate Sound()
      reads this, scheduler, scheduler.critical, scheduler.medium
    {
      Ok() && book in EndOf(cfg, trace)
    }

    constructor (cfg: Config)
      ensures Sound() && book == START && this.cfg == cfg
      ensures fresh(scheduler) && fresh(scheduler.critical) && fresh(scheduler.medium)
    {
      this.cfg := cfg;
      scheduler := new MultiLevelScheduler(cfg.weight);
      machines, registered, active, recorded, results := map[], {}, map[], map[], map[];
      book, trace := START, [];
      StartEnds(cfg);
    }

    /** A new operation of `Execute`. */
    method Create(op: OperationId, digest: Digest)
      requires Sound() && op !in machines
      modifies this
      ensures Sound() && book == ApplyCreate(old(book), op, digest)
    {
      ThenCreate(cfg, trace, book, op, digest);
      machines, registered := machines[op := Machine(digest, CacheCheck)], registered + {op};
      book, trace := ApplyCreate(book, op, digest), trace + [Step.Create(op, digest)];
    }

    /** `transition_to`: refused when the move is not legal. */
    method TransitionTo(op: OperationId, next: Stage) returns (ok: bool)
      requires Ok() && op in machines
      modifies this`machines, this`book
      ensures Ok() && book == Moved(old(book), op, next) && ok == CanTransition(old(machines[op].stage), next)
    {
      ok := CanTransition(machines[op].stage, next);
      if ok {
        machines := machines[op := machines[op].(stage := next)];
        book := book.(machines := machines);
      }
    }

    method Enter(a: Action, now: nat) returns (owner: OperationId)
      requires Ok()
      modifies this`book, scheduler, scheduler.critical, scheduler.medium
      ensures Ok() && book == old(book).(sched := Enqueue(old(book).sched, a, now).0) &&
              owner == Enqueue(old(book).sched, a, now).1
    {
      owner := scheduler.EnqueueAction(a, now);
      book := book.(sched := scheduler.View());
    }

    /** Keeps the operation's machine listed only if the operation runs itself. */
    method Join(a: Action, owner: OperationId)
      requires Ok()
      modifies this`registered, this`book
      ensures Ok()
      ensures book == if owner == a.op then old(book).(admitted := old(book).admitted[a.op := a])
                      else old(book).(registered := old(book).registered - {a.op})
    {
      if owner == a.op {
        book := book.(admitted := book.admitted[a.op := a]);
      } else {
        registered := registered - {a.op};
        book := book.(registered := registered);
      }
    }

    method SubmitNow(a: Action, now: nat) returns (owner: OperationId)
      requires Ok() && a.op in machines
      modifies this`machines, this`registered, this`book, scheduler, scheduler.critical, scheduler.medium
      ensures Ok() && book == ApplySubmit(old(book), a, now) && owner == Enqueue(old(book).sched, a, now).1
    {
      var ok := TransitionTo(a.op, Queued);
      owner := Enter(a, now);
      Join(a, owner);
    }

    /** `Execute` past its cache check: queues the action and returns its own operation,
        or joins the operation already running its digest. */
    method SubmitAction(a: Action, now: nat) returns (owner: OperationId)
      requires Sound() && Enabled(book, Submit(a, now))
      modifies this`machines, this`registered, this`book, this`trace, scheduler, scheduler.critical, scheduler.medium
      ensures Sound() && book == ApplySubmit(old(book), a, now)
      ensures owner == if a.digest in old(book).sched.inFlight then old(book).sched.inFlight[a.digest].op else a.op
      ensures SubmittedAs(old(book), book, a, owner)
    {
      SubmitShows(book, a, now);
      ThenSubmit(cfg, trace, book, a, now);
      trace := trace + [Submit(a, now)];
      owner := SubmitNow(a, now);
    }

    method ReturnToQueue(a: Action)
      requires Ok()
      modifies this`book, scheduler, scheduler.critical, scheduler.medium
      ensures Ok() && book == old(book).(sched := PutBack(old(book).sched, a))
    {
      ghost var before := scheduler.View();
      scheduler.PutBackAction(a);
      ghost var after := scheduler.View();
      assert after == PutBack(before, a);
      book := book.(sched := after);
    }

    method Release(digest: Digest)
      requires Ok()
      modifies this`book, scheduler, scheduler.critical, scheduler.medium
      ensures Ok() && book == old(book).(sched := Complete(old(book).sched, digest))
    {
      scheduler.CompleteAction(digest);
      book := book.(sched := scheduler.View());
    }

    method Hand(a: Action, worker: nat)
      requires Ok()
      modifies this`active, this`book
      ensures Ok()
      ensures book == Handed(old(book), a, worker)
    {
      active := active[a.op := ActiveExecution(worker, a)];
      book := Handed(book, a, worker);
    }

    /** Returns an action that never ran to the queue. */
    method Requeue(a: Action)
      requires Ok() && a.op in machines
      modifies this`machines, this`book, scheduler, scheduler.critical, scheduler.medium
      ensures Ok() && book == Requeued(old(book), a.op, a)
    {
      var ok := TransitionTo(a.op, Queued);
      if ok {
        ReturnToQueue(a);
      }
    }

    /** Takes an action in hand and moves its operation to `Assigned`, if it can be. */
    method Assign(a: Action) returns (ok: bool)
      requires Ok() && a.op in machines
      modifies this`machines, this`book
      ensures Ok() && book == Moved(Held(old(book), a.op), a.op, Assigned)
      ensures ok == CanTransition(old(machines[a.op].stage), Assigned)
    {
      book := Held(book, a.op);
      ok := TransitionTo(a.op, Assigned);
    }

    /** Delivers an assigned action, or puts it back when the worker's channel is closed. */
    method SendTo(a: Action, worker: nat, open: bool)
      requires Ok() && a.op in machines
      modifies this`machines, this`active, this`book, scheduler, scheduler.critical, scheduler.medium
      ensures Ok() && book == if open then Handed(old(book), a, worker) else Requeued(old(book), a.op, a)
    {
      if open {
        Hand(a, worker);
      } else {
        Requeue(a);
      }
    }

    /** Delivers a dequeued action, if it can be assigned and the channel is open. */
    method Dispatch(a: Action, worker: nat, open: bool) returns (sent: bool)
      requires Ok() && a.op in book.dequeued && book.dequeued[a.op] == a && a.op in machines
      modifies this`machines, this`active, this`book, scheduler, scheduler.critical, scheduler.medium
      ensures Ok() && book == if open then ApplyDeliver(old(book), a.op, worker) else ApplyFailDelivery(old(book), a.op)
      ensures sent == (open && CanTransition(old(machines[a.op].stage), Assigned))
    {
      DispatchedBy(book, a, worker, open);
      var ok := Assign(a);
      if ok {
        SendTo(a, worker, open);
      } else {
        Release(a.digest);
      }
      sent := ok && open;
    }

    method Pull() returns (item: Option<Action>)
      requires Ok()
      modifies this`book, scheduler, scheduler.critical, scheduler.medium
      ensures Ok() && old(Filed(book.sched))
      ensures (item, book.sched) == Dequeue(cfg.weight, old(book).sched) && book == old(book).(sched := book.sched)
    {
      item := scheduler.DequeueAction();
      book := book.(sched := scheduler.View());
    }

    method Draw() returns (item: Option<Action>)
      requires Ok()
      modifies this`book, scheduler, scheduler.critical, scheduler.medium
      ensures Ok() && old(Filed(book.sched))
      ensures book == ApplyTakeNext(cfg, old(book)) && item == Dequeue(cfg.weight, old(book).sched).0
    {
      item := Pull();
      TakenIs(cfg, old(book), item, book.sched);
      if item.Some? {
        book := book.(dequeued := book.dequeued[item.value.op := item.value]);
      }
    }

    method Take() returns (item: Option<Action>)
      requires Sound()
      modifies this`book, this`trace, scheduler, scheduler.critical, scheduler.medium
      ensures Sound() && old(Filed(book.sched))
      ensures book == ApplyTakeNext(cfg, old(book)) && item == Dequeue(cfg.weight, old(book).sched).0
    {
      ThenTakeNext(cfg, trace, book);
      trace := trace + [TakeNext];
      item := Draw();
    }

    method Restore(a: Action)
      requires Ok() && a.op in book.dequeued && book.dequeued[a.op] == a
      modifies this`book, scheduler, scheduler.critical, scheduler.medium
      ensures Ok() && book == ApplyPutBack(old(book), a.op)
    {
      HeldBack(book, a);
      book := Held(book, a.op);
      ReturnToQueue(a);
    }

    method PutBackTaken(a: Action)
      requires Sound() && a.op in book.dequeued && book.dequeued[a.op] == a
      modifies this`book, this`trace, scheduler, scheduler.critical, scheduler.medium
      ensures Sound() && book == ApplyPutBack(old(book), a.op)
    {
      ThenPutBack(cfg, trace, book, a.op);
      trace := trace + [PutBackUnmatched(a.op)];
      Restore(a);
    }

    method DispatchTaken(a: Action, worker: nat, open: bool) returns (sent: bool)
      requires Sound() && a.op in book.dequeued && book.dequeued[a.op] == a && a.op in machines
      modifies this`machines, this`active, this`book, this`trace, scheduler, scheduler.critical, scheduler.medium
      ensures Sound() && book == if open then ApplyDeliver(old(book), a.op, worker)
              else ApplyFailDelivery(old(book), a.op)
      ensures sent == (open && CanTransition(old(machines[a.op].stage), Assigned))
    {
      ThenDeliver(cfg, trace, book, a.op, worker);
      ThenFailDelivery(cfg, trace, book, a.op);
      trace := trace + [if open then Deliver(a.op, worker) else FailDelivery(a.op)];
      sent := Dispatch(a, worker, open);
    }

    /** One round of the pass: takes the next action, if there is one, and sends it,
        fails to send it or keeps it in hand. */
    method RoundNow(delivery: Delivery, unmatched: seq<Action>, ghost s0: Sys, ghost p: Pass, ghost g: Log)
      returns (more: bool, delivered: bool, held: seq<Action>, ghost q: Pass, ghost h: Log)
      requires Sound() && p in Passes(s0, book) && p.unmatched == unmatched &&
               Logged(cfg.weight, s0.sched, book.sched, g)
      modifies this`machines, this`active, this`book, this`trace, scheduler, scheduler.critical, scheduler.medium
      ensures Sound() && q in Passes(s0, book) && q.unmatched == held && Logged(cfg.weight, s0.sched, book.sched, h)
      ensures !more ==> !delivered && q == p && h == g && held == unmatched
      ensures more ==> h.backs == g.backs + [delivery.ChannelClosed?]
      ensures |q.sent| == |p.sent| + One(delivered)
    {
      EndIsSafe(cfg, trace, book);
      ghost var s := book;
      var item := Take();
      if item == None {
        return false, false, unmatched, p, g;
      }
      var a := item.value;
      more, delivered, held := true, false, unmatched;
      LogGrows(cfg.weight, s0.sched, s.sched, g, delivery.ChannelClosed?);
      h := LogAlso(g, a, delivery.ChannelClosed?);
      match delivery
      case NoMatch =>
        PassKeeps(cfg, cfg.maxWorkerLosses, s0, s, a, p);
        held, q := unmatched + [a], Kept(p, a);
      case Sent(worker) =>
        TakeThenDeliver(cfg, cfg.maxWorkerLosses, s, a, worker);
        PassSends(cfg, cfg.maxWorkerLosses, s0, s, a, worker, p);
        delivered := DispatchTaken(a, worker, true);
        q := SentOut(p, a);
      case ChannelClosed(worker) =>
        TakeThenFail(cfg, cfg.maxWorkerLosses, s, a);
        PassFails(cfg, cfg.maxWorkerLosses, s0, s, a, p);
        delivered := DispatchTaken(a, worker, false);
        q := p;
    }

    method Round(deliveries: seq<Delivery>, i: nat, unmatched: seq<Action>, ghost s0: Sys, ghost m: Progress)
      returns (more: bool, delivered: bool, held: seq<Action>, ghost n: Progress)
      requires Sound() && m in PassesTo(cfg.weight, s0, book, deliveries)
      requires i == m.rounds < |deliveries| && m.pass.unmatched == unmatched
      modifies this`machines, this`active, this`book, this`trace, scheduler, scheduler.critical, scheduler.medium
      ensures Sound() && n in PassesTo(cfg.weight, s0, book, deliveries) && n.pass.unmatched == held
      ensures n.rounds == m.rounds + One(more) && n.sent == m.sent + One(delivered)
    {
      MidwayIs(cfg.weight, s0, book, deliveries, m);
      FailedMore(m.log.backs, deliveries);
      ghost var q, h;
      more, delivered, held, q, h := RoundNow(deliveries[i], unmatched, s0, m.pass, m.log);
      n := Progress(m.rounds + One(more), m.sent + One(delivered), q, h);
      MidwayGoes(cfg.weight, s0, book, deliveries, n);
    }

    /** The rounds of the pass: as many as actions wait, fewer if no worker is idle. */
    method Rounds(deliveries: seq<Delivery>) returns (dispatched: nat, unmatched: seq<Action>, ghost m: Progress)
      requires Sound()
      modifies this`machines, this`active, this`book, this`trace, scheduler, scheduler.critical, scheduler.medium
      ensures Sound() && m in PassesTo(cfg.weight, old(book), book, deliveries) && m.pass.unmatched == unmatched
      ensures m.rounds <= Waiting(old(book).sched) && m.sent == dispatched
    {
      dispatched, unmatched, m := 0, [], NO_PROGRESS;
      MidwayStarts(cfg.weight, book, deliveries);
      var n := scheduler.QueuedLen();
      var i, more := 0, true;
      while more && i < n && i < |deliveries|
        invariant Sound() && m in PassesTo(cfg.weight, old(book), book, deliveries) && m.pass.unmatched == unmatched
        invariant i == m.rounds <= n && m.sent == dispatched
        decreases n - i + One(more)
      {
        var delivered;
        more, delivered, unmatched, m := Round(deliveries, i, unmatched, old(book), m);
        dispatched, i := dispatched + One(delivered), i + One(more);
      }
    }

    /** Puts the actions in hand back, the last one first. */
    method PutAllBack(unmatched: seq<Action>)
      requires Sound() && HoldsAll(book, unmatched)
      modifies this`book, this`trace, scheduler, scheduler.critical, scheduler.medium
      ensures Sound() && Returned(old(book), book, unmatched)
    {
      ghost var mid := book;
      var j := |unmatched|;
      ReturnedNone(book, unmatched);
      while j > 0
        invariant 0 <= j <= |unmatched| && Sound() && book in BackFrom(mid, unmatched, j)
      {
        EndIsSafe(cfg, trace, book);
        ReturnedMore(mid, book, unmatched, j);
        PutBackTaken(unmatched[j - 1]);
        j := j - 1;
      }
      ReturnedAll(mid, book, unmatched);
    }

    /** One pass of the dispatcher. `deliveries` says what becomes of the action taken in
        each round, for as many rounds as a worker is idle. Whatever becomes of them, every
        invocation's queue ends as it began with the dispatched actions taken out, and only
        an action whose delivery failed is looked at again. */
    method DispatchReady(deliveries: seq<Delivery>) returns (dispatched: nat, ghost p: Pass, ghost g: Log)
      requires Sound()
      modifies this`machines, this`active, this`book, this`trace, scheduler, scheduler.critical, scheduler.medium
      ensures Sound()
      ensures dispatched == |p.sent| && Passed(old(book), book, p.looked, p.sent)
      ensures LookedAs(cfg.weight, old(book).sched, g) && FailedAt(g.backs, deliveries)
    {
      var unmatched;
      ghost var m;
      EndIsSafe(cfg, trace, book);
      dispatched, unmatched, m := Rounds(deliveries);
      MidwayIs(cfg.weight, old(book), book, deliveries, m);
      p, g := m.pass, m.log;
      LogIsFair(cfg.weight, cfg.maxWorkerLosses, old(book), book.sched, g);
      ghost var mid := book;
      EndIsSafe(cfg, trace, book);
      PutAllBack(unmatched);
      PassEnds(cfg.maxWorkerLosses, old(book), mid, book, p);
    }

    /** The writes that end an operation: record, store, turn terminal, release. */
    method End(op: OperationId, o: Outcome)
      requires Ok() && op in machines && CanTransition(machines[op].stage, FinalStage(o))
      modifies this`machines, this`recorded, this`results, this`book, scheduler, scheduler.critical, scheduler.medium
      ensures Ok() && book == Ended(old(book), op, o)
    {
      recorded := recorded[op := o];
      results := results[op := o];
      book := book.(recorded := recorded, results := results);
      var ok := TransitionTo(op, FinalStage(o));
      Release(machines[op].digest);
    }

    method Finalize(op: OperationId, o: Outcome)
      requires Ok() && op in machines
      modifies this`machines, this`active, this`recorded, this`results, this`book, scheduler, scheduler.critical,
               scheduler.medium
      ensures Ok() && book == Finalized(old(book), op, o)
      ensures StoredAs(old(book), book, op, o)
    {
      FinalizedStores(book, op, o);
      if op !in registered {
        active := active - {op};
        book := book.(active := active);
        return;
      }
      if !CanTransition(machines[op].stage, FinalStage(o)) {
        return;
      }
      active := active - {op};
      book := book.(active := active);
      End(op, o);
    }

    /** The result processor receives a result from a worker. The engine stays where protocol
        steps lead exactly when the report is not a late error. */
    method ReportResult(op: OperationId, o: Outcome)
      requires Sound() && Enabled(book, Report(op, o))
      modifies this`machines, this`active, this`recorded, this`results, this`book, this`trace,
               scheduler, scheduler.critical, scheduler.medium
      ensures Ok() && book == Reported(old(book), op, o)
      ensures Sound() <==> !LateError(old(book), Report(op, o))
      ensures StoredAs(old(book), book, op, o)
    {
      EndIsSafe(cfg, trace, book);
      if LateError(book, Report(op, o)) {
        ReportedIsUnsafe(cfg.maxWorkerLosses, book, op, o);
      } else {
        ghost var more := ReportedTrace(cfg, trace, book, op, o);
        trace := trace + more;
      }
      ProcessResult(op, o);
      ReportedStores(old(book), op, o);
      if book in EndOf(cfg, trace) {
        EndIsSafe(cfg, trace, book);
      }
    }

    method ProcessResult(op: OperationId, o: Outcome)
      requires Ok() && op in machines
      modifies this`machines, this`active, this`recorded, this`results, this`book, scheduler, scheduler.critical,
               scheduler.medium
      ensures Ok() && book == Reported(old(book), op, o)
    {
      if op in registered && CanTransition(machines[op].stage, FinalStage(o)) {
        book := Counted(book, op, o);
      }
      Finalize(op, o);
    }

    method SettleNow(op: OperationId, a: Action)
      requires Ok() && book in Safe(cfg.maxWorkerLosses) && op in book.lost && book.lost[op] == a && op in machines
      modifies this`machines, this`active, this`recorded, this`results, this`book, scheduler, scheduler.critical,
               scheduler.medium
      ensures Ok() && book == Settled(cfg.maxWorkerLosses, old(book), op)
    {
      LostFacts(cfg.maxWorkerLosses, book, op);
      SettledIs(cfg.maxWorkerLosses, book, op);
      book := book.(lost := book.lost - {op});
      var b := a.(workerLosses := a.workerLosses + 1);
      if op in registered {
        if b.workerLosses > cfg.maxWorkerLosses {
          Finalize(op, ENGINE_FAILURE);
        } else {
          Requeue(b);
        }
      }
    }

    /** One operation a lost worker held. */
    method Settle(op: OperationId, a: Action)
      requires Sound() && op in book.lost && book.lost[op] == a && op in machines
      modifies this`machines, this`active, this`recorded, this`results, this`book, this`trace,
               scheduler, scheduler.critical, scheduler.medium
      ensures Sound() && book == Settled(cfg.maxWorkerLosses, old(book), op)
    {
      ghost var more := SettledTrace(cfg, trace, book, op);
      EndIsSafe(cfg, trace, book);
      trace := trace + more;
      SettleNow(op, a);
    }

    method Seize(worker: nat) returns (lost: map<OperationId, Action>)
      requires Ok()
      modifies this`active, this`book
      ensures Ok() && book == ApplyLoseWorker(old(book), worker)
      ensures lost.Keys == HeldOps(old(active), worker) && AllFrom(lost, old(active))
    {
      lost := map op | op in active && active[op].worker == worker :: active[op].action;
      active := map op | op in active && active[op].worker != worker :: active[op];
      book := ApplyLoseWorker(book, worker);
    }

    method TakeFromWorker(worker: nat) returns (lost: map<OperationId, Action>)
      requires Sound()
      modifies this`active, this`book, this`trace
      ensures Sound() && book == ApplyLoseWorker(old(book), worker)
      ensures lost.Keys == HeldOps(old(book).active, worker) && AllFrom(lost, old(book).active)
    {
      ThenLoseWorker(cfg, trace, book, worker);
      trace := trace + [LoseWorker(worker)];
      lost := Seize(worker);
    }

    method SettleAll(lost: map<OperationId, Action>, ghost worker: nat, ghost s0: Sys)
      requires Sound() && book in LossUnderWay(cfg.maxWorkerLosses, worker, s0, lost.Keys) && AllFrom(lost, s0.active)
      modifies this`machines, this`active, this`recorded, this`results, this`book, this`trace,
               scheduler, scheduler.critical, scheduler.medium
      ensures Sound() && book in LossUnderWay(cfg.maxWorkerLosses, worker, s0, {})
    {
      var todo := lost.Keys;
      while todo != {}
        invariant todo <= lost.Keys
        invariant Sound() && book in LossUnderWay(cfg.maxWorkerLosses, worker, s0, todo)
        decreases todo
      {
        var op :| op in todo;
        EndIsSafe(cfg, trace, book);
        LossGoesOn(cfg.maxWorkerLosses, worker, s0, book, todo, op);
        Settle(op, lost[op]);
        todo := todo - {op};
      }
    }

    /** Every operation `worker` held waits again with one more loss, or fails when it
        has lost too many; every other operation is left as it was. */
    method WorkerLost(worker: nat)
      requires Sound()
      modifies this`machines, this`active, this`recorded, this`results, this`book, this`trace,
               scheduler, scheduler.critical, scheduler.medium
      ensures Sound() && LossSettled(cfg.maxWorkerLosses, worker, old(book), book)
    {
      EndIsSafe(cfg, trace, book);
      LossBegins(cfg.maxWorkerLosses, book, worker);
      var lost := TakeFromWorker(worker);
      SettleAll(lost, worker, old(book));
      LossEnds(cfg.maxWorkerLosses, worker, old(book), book);
    }

    method Drain(ops: set<OperationId>) returns (gone: seq<Action>)
      requires Ok()
      modifies this`book, scheduler, scheduler.critical, scheduler.medium
      ensures Ok() && Drains(old(book), ops, book) && TakenOut(old(book).sched, ops, gone)
    {
      ghost var drained := DrainedFrom(book, ops);
      gone := scheduler.RemoveUnwatchedActions(ops);
      book := drained;
    }

    method TakeUnwatchedActions(ops: set<OperationId>) returns (gone: seq<Action>)
      requires Sound()
      modifies this`book, this`trace, scheduler, scheduler.critical, scheduler.medium
      ensures Sound() && Drains(old(book), ops, book) && TakenOut(old(book).sched, ops, gone)
    {
      gone := Drain(ops);
      DrainSteps(cfg, trace, old(book), ops, book);
      trace := trace + [TakeUnwatched(Critical, ops), TakeUnwatched(Medium, ops)];
    }

    method Cancel(a: Action)
      requires Sound() && a.op in machines && a.op in book.cancelling &&
               book.cancelling[a.op] == Finish(ENGINE_FAILURE, ToRecord)
      requires CanTransition(machines[a.op].stage, Failed)
      modifies this`machines, this`recorded, this`results, this`book, this`trace, scheduler, scheduler.critical,
               scheduler.medium
      ensures Sound() && book == Ended(Uncancelled(old(book), a.op), a.op, ENGINE_FAILURE)
    {
      EndIsSafe(cfg, trace, book);
      CancelSteps(cfg, trace, book, a.op);
      trace := trace + FourTimes(AdvanceCancel(a.op));
      book := Uncancelled(book, a.op);
      End(a.op, ENGINE_FAILURE);
    }

    /** Ends the operations taken out, one after the other. */
    method CancelAll(gone: seq<Action>, ghost s0: Sys, ghost ops: set<OperationId>)
      requires Sound() && book in CancelUnderWay(s0, ops, OpsOf(gone)) && s0 in Safe(cfg.maxWorkerLosses)
      requires DistinctOps(gone)
      modifies this`machines, this`recorded, this`results, this`book, this`trace, scheduler, scheduler.critical,
               scheduler.medium
      ensures Sound() && book in CancelUnderWay(s0, ops, {})
    {
      ghost var todo := OpsOf(gone);
      assert gone[0..] == gone;
      var i := 0;
      while i < |gone|
        invariant 0 <= i <= |gone| && todo == OpsOf(gone[i..])
        invariant Sound() && book in CancelUnderWay(s0, ops, todo)
      {
        EndIsSafe(cfg, trace, book);
        NextGone(gone, i);
        CancelGoesOn(cfg.maxWorkerLosses, s0, book, ops, todo, gone[i].op);
        Cancel(gone[i]);
        i := i + 1;
        todo := OpsOf(gone[i..]);
      }
      assert gone[i..] == [] && OpsOf(gone[i..]) == {};
    }

    /** Every queued operation of `ops`, which no client follows, fails; every other
        operation is left as it was. */
    method CancelUnwatched(ops: set<OperationId>) returns (cancelled: nat)
      requires Sound()
      modifies this`machines, this`recorded, this`results, this`book, this`trace, scheduler, scheduler.critical,
               scheduler.medium
      ensures Sound() && Cancelled(old(book), ops, book) && cancelled == |UnwatchedOps(old(book), ops)|
    {
      ghost var s0, max := book, cfg.maxWorkerLosses;
      EndIsSafe(cfg, trace, book);
      var gone := TakeUnwatchedActions(ops);
      CancelBegins(max, s0, ops, book);
      GoneDistinct(max, s0, ops, gone);
      GoneAreUnwatched(s0, ops, gone);
      CancelAll(gone, s0, ops);
      CancelEnds(s0, ops, book);
      OpsCount(gone);
      cancelled := |gone|;
    }

    /** One round of the cleanup task: looks at each operation and cancels the queued ones it
        reports unwatched. One is abandoned indeed if the instant found was read after the last
        client left, as it is while no store lands behind a newer one and no drop is half way. */
    method CancelAbandoned(looks: map<OperationId, Watches.Look>, grace: nat,
                           ghost sightings: map<OperationId, Watches.Sighting>)
      returns (cancelled: nat, ghost ops: set<OperationId>)
      requires Sound()
      requires forall op :: op in looks ==> op in sightings && Watches.Sees(sightings[op], looks[op])
      modifies this`machines, this`recorded, this`results, this`book, this`trace, scheduler, scheduler.critical,
               scheduler.medium
      ensures Sound() && Cancelled(old(book), ops, book) && cancelled == |UnwatchedOps(old(book), ops)|
      ensures ops <= looks.Keys && forall op :: op in looks ==> (op in ops <==> Watches.Unwatched(looks[op], grace))
      ensures forall op :: op in ops && Rightly(sightings[op]) ==>
                             Watches.Abandoned(Watches.Seen(sightings[op]), looks[op].now, grace)
    {
      var unwatched := set op | op in looks && Watches.Unwatched(looks[op], grace);
      forall op | op in unwatched && Rightly(sightings[op])
        ensures Watches.Abandoned(Watches.Seen(sightings[op]), looks[op].now, grace)
      {
        Watches.SightingIsRight(sightings[op], looks[op], grace);
      }
      ops := unwatched;
      cancelled := CancelUnwatched(unwatched);
    }
  }
}
