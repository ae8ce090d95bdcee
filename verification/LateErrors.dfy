/** Error reports that arrive for an operation back in the queue. */
module LateErrors {
  import opened Prelude
  import opened Stages
  import opened FairQueues
  import opened Scheduling
  import opened Protocol
  import opened Traces
  import opened DispatchOrder
  import opened Effects

  /** A report keeps the protocol in order exactly when it is not a late error. */
  lemma ReportIsSafeIff(max: nat, s: Sys, op: OperationId, outcome: Outcome)
    requires s in Safe(max) && Enabled(s, Report(op, outcome))
    ensures ApplyReport(s, op, outcome) in Safe(max) <==> !LateError(s, Report(op, outcome))
  {
    if LateError(s, Report(op, outcome)) {
      var t := ApplyReport(s, op, outcome);
      LocalIsLegal(max, s, op);
      assert LocalOf(s, op).machine == Some(s.machines[op]) && LocalOf(s, op).deliveries > 0;
      assert LocalOf(t, op).finishing.Some?;
      assert LocalOf(t, op).slots == LocalOf(s, op).slots && LocalOf(t, op).dequeued == LocalOf(s, op).dequeued
          && LocalOf(t, op).cancelling == LocalOf(s, op).cancelling;
      if t in Safe(max) {
        LocalIsLegal(max, t, op);
        assert false;
      }
    } else {
      ReportKeeps(max, s, op, outcome);
    }
  }

  /** A late error processed to its end leaves the protocol out of order. */
  lemma ReportedIsUnsafe(max: nat, s: Sys, op: OperationId, o: Outcome)
    requires s in Safe(max) && Enabled(s, Report(op, o)) && LateError(s, Report(op, o))
    ensures Reported(s, op, o) !in Safe(max)
  {
    var t := Reported(s, op, o);
    LocalIsLegal(max, s, op);
    var l, k := LocalOf(s, op), LocalOf(t, op);
    assert l.machine == Some(s.machines[op]) && l.deliveries > 0 && l.action == k.action;
    assert k.slots == l.slots && k.dequeued == l.dequeued && k.cancelling == l.cancelling;
    assert k.entry == None;
    if t in Safe(max) {
      LocalIsLegal(max, t, op);
      assert false;
    }
  }

  /** The four writes that end `op`. */
  ghost predicate FourAdvances(s: Sys, op: OperationId, t: Sys)
    requires op in s.finishing && op in s.machines
  {
    var u := ApplyAdvance(s, op);
    && op in u.finishing && op in u.machines
    && var v := ApplyAdvance(u, op);
       && op in v.finishing && op in v.machines
       && var w := ApplyAdvance(v, op);
          op in w.finishing && op in w.machines && t == ApplyAdvance(w, op)
  }

  lemma AdvancesEnd(s: Sys, op: OperationId, o: Outcome)
    requires op in s.machines && op !in s.finishing && CanTransition(s.machines[op].stage, FinalStage(o))
    ensures FourAdvances(Finishing(s, op, o, ToRecord), op, Ended(s, op, o))
  {
    NextFinishing(s, op, o);
    TurnFinishing(s, op, o);
    LastFinishing(s, op, o);
  }

  /** What a late error does: the operation fails and its digest is released, so an
      identical action can start, while its own action still waits in a queue. */
  lemma LateErrorLeavesAQueuedAction(max: nat, s: Sys, a: Action, report: nat) returns (t: Sys)
    requires s in Safe(max) && IsQueued(s.sched, a) && Deliveries(s, a.op) > 0
    ensures var o := Outcome(true, report);
            && Enabled(s, Report(a.op, o)) && LateError(s, Report(a.op, o))
            && Enabled(ApplyReport(s, a.op, o), Advance(a.op)) && FourAdvances(ApplyReport(s, a.op, o), a.op, t)
    ensures a.op in t.machines && t.machines[a.op].stage == Failed
    ensures IsQueued(t.sched, a) && a.digest !in t.sched.inFlight
  {
    var op, o := a.op, Outcome(true, report);
    WaitsAgain(max, s, a);
    var u := s.(active := s.active - {op});
    BeginsFinishing(s, op, o);
    AdvancesEnd(u, op, o);
    t := Ended(u, op, o);
  }

  /** What becomes of that action: once taken it is neither delivered nor put back, channel
      open or closed, and its digest is freed, whichever operation has it in flight by then. */
  lemma LeftoverIsDropped(s: Sys, op: OperationId, worker: nat)
    requires op in s.dequeued && op in s.machines && IsTerminal(s.machines[op].stage)
    ensures ApplyDeliver(s, op, worker) == ApplyFailDelivery(s, op)
    ensures var t, d := ApplyDeliver(s, op, worker), s.dequeued[op].digest;
            && op !in t.dequeued && d !in t.sched.inFlight && t.active == s.active && t.machines == s.machines
            && (forall c, k :: ItemsAt(t.sched, c, k) == ItemsAt(s.sched, c, k))
            && (forall x :: x != d && x in s.sched.inFlight ==>
                  x in t.sched.inFlight && t.sched.inFlight[x] == s.sched.inFlight[x])
  {
    var t := s.(sched := Complete(s.sched, s.dequeued[op].digest), dequeued := s.dequeued - {op});
    assert ApplyDeliver(s, op, worker) == t;
    forall c, k ensures ItemsAt(t.sched, c, k) == ItemsAt(s.sched, c, k) {
      assert QueueOf(t.sched, c) == QueueOf(s.sched, c);
    }
  }

  lemma WaitsAgain(max: nat, s: Sys, a: Action)
    requires s in Safe(max) && IsQueued(s.sched, a)
    ensures a.op in s.machines && s.machines[a.op] == Machine(a.digest, Queued) && a.op in s.registered
    ensures a.op !in s.lost && a.op !in s.finishing
  {
    QueuedIsCurrent(max, s, a);
    LocalIsLegal(max, s, a.op);
    var l := LocalOf(s, a.op);
    assert l.slots != iset{} && l.machine == Get(s.machines, a.op) && l.lost == Get(s.lost, a.op) &&
           l.finishing == Get(s.finishing, a.op);
  }

  lemma BeginsFinishing(s: Sys, op: OperationId, o: Outcome)
    requires op in s.machines && op in s.registered && s.machines[op].stage == Queued && o.error
    ensures ApplyReport(s, op, o) == Finishing(s.(active := s.active - {op}), op, o, ToRecord)
  {
  }

  lemma Admitted(cfg: Config, a: Action) returns (steps: seq<Step>, s: Sys)
    requires a.workerLosses == 0
    ensures s in EndOf(cfg, steps) && IsQueued(s.sched, a) && Deliveries(s, a.op) == 0
    ensures forall b :: IsQueued(s.sched, b) ==> b == a
  {
    StartEnds(cfg);
    ThenCreate(cfg, [], START, a.op, a.digest);
    var s1, steps1 := ApplyCreate(START, a.op, a.digest), [] + [Create(a.op, a.digest)];
    EndIsSafe(cfg, steps1, s1);
    ThenSubmit(cfg, steps1, s1, a, 0);
    SubmitEffect(cfg.maxWorkerLosses, s1, a, 0);
    s, steps := ApplySubmit(s1, a, 0), steps1 + [Submit(a, 0)];
    assert s.sched == Enqueue(s1.sched, a, 0).0;
    assert a in SlotsOf(s.sched, a.op);
    forall b | IsQueued(s.sched, b) ensures b == a {
      assert b in SlotsOf(s.sched, b.op);
    }
  }

  lemma HandedOut(cfg: Config, steps: seq<Step>, s: Sys, a: Action, worker: nat) returns (more: seq<Step>, t: Sys)
    requires s in EndOf(cfg, steps) && IsQueued(s.sched, a) && Deliveries(s, a.op) == 0
    requires forall b :: IsQueued(s.sched, b) ==> b == a
    ensures t in EndOf(cfg, more) && a.op in t.active && t.active[a.op] == ActiveExecution(worker, a) &&
            Deliveries(t, a.op) == 1
    ensures a.op in t.machines
  {
    EndIsSafe(cfg, steps, s);
    CriticalGoesFirst(cfg.weight, s.sched, a);
    TakeFacts(cfg, cfg.maxWorkerLosses, s, a);
    ThenTakeNext(cfg, steps, s);
    var u := ApplyTakeNext(cfg, s);
    ThenDeliver(cfg, steps + [TakeNext], u, a.op, worker);
    t, more := ApplyDeliver(u, a.op, worker), steps + [TakeNext] + [Deliver(a.op, worker)];
    assert t == Delivered(u, a.op, worker);
  }

  lemma Seized(max: nat, s: Sys, a: Action, worker: nat)
    requires s in Safe(max) && a.op in s.active && s.active[a.op] == ActiveExecution(worker, a)
    ensures var u := ApplyLoseWorker(s, worker);
            a.op in u.lost && u.lost[a.op] == a && u.machines == s.machines && u.deliveries == s.deliveries
  {
    LocalIsLegal(max, s, a.op);
    assert LocalOf(s, a.op).active.Some? && LocalOf(s, a.op).lost == Get(s.lost, a.op);
  }

  lemma RetriedIn(max: nat, u: Sys, a: Action, b: Action)
    requires u in Safe(max) && a.op in u.lost && u.lost[a.op] == a && a.op in u.machines && a.workerLosses + 1 <= max
    requires b == a.(workerLosses := a.workerLosses + 1)
    ensures ApplySettleLost(max, u, a.op) == Retried(u, a.op, PutBack(u.sched, b))
  {
    SettleLostIs(max, u, a.op);
  }

  lemma RequeuedOnce(max: nat, u: Sys, a: Action)
    requires u in Safe(max) && a.op in u.lost && u.lost[a.op] == a && a.op in u.machines && a.workerLosses + 1 <= max
    ensures var t, b := ApplySettleLost(max, u, a.op), a.(workerLosses := a.workerLosses + 1);
            IsQueued(t.sched, b) && Deliveries(t, a.op) == Deliveries(u, a.op)
  {
    var b := a.(workerLosses := a.workerLosses + 1);
    RetriedIn(max, u, a, b);
    BackIsQueued(u.sched, b);
    var sched := PutBack(u.sched, b);
    assert Retried(u, a.op, sched).sched == sched && Retried(u, a.op, sched).deliveries == u.deliveries;
  }

  lemma BackIsQueued(s: Sched, a: Action)
    requires Filed(s)
    ensures IsQueued(PutBack(s, a), a)
  {
    QueuedAfterPush(SetDispatched(s, a.digest, false), a, true, a);
  }

  lemma LostAndRequeued(cfg: Config, steps: seq<Step>, s: Sys, a: Action, worker: nat) returns (more: seq<Step>, t: Sys)
    requires s in EndOf(cfg, steps) && a.op in s.active && s.active[a.op] == ActiveExecution(worker, a)
    requires a.op in s.machines && a.workerLosses + 1 <= cfg.maxWorkerLosses
    ensures t in EndOf(cfg, more) && Deliveries(t, a.op) == Deliveries(s, a.op)
    ensures IsQueued(t.sched, a.(workerLosses := a.workerLosses + 1))
  {
    EndIsSafe(cfg, steps, s);
    Seized(cfg.maxWorkerLosses, s, a, worker);
    ThenLoseWorker(cfg, steps, s, worker);
    var u, steps1 := ApplyLoseWorker(s, worker), steps + [LoseWorker(worker)];
    EndIsSafe(cfg, steps1, u);
    ThenSettleLost(cfg, steps1, u, a.op);
    RequeuedOnce(cfg.maxWorkerLosses, u, a);
    t, more := ApplySettleLost(cfg.maxWorkerLosses, u, a.op), steps1 + [SettleLost(a.op)];
  }

  /** Late errors can happen: when a loss is tolerated, a run leads to an operation that was
      delivered once and waits again. */
  lemma LateErrorsAreReachable(cfg: Config, a: Action, worker: nat) returns (steps: seq<Step>, s: Sys, b: Action)
    requires cfg.maxWorkerLosses >= 1 && a.workerLosses == 0
    ensures s in EndOf(cfg, steps) && IsQueued(s.sched, b) && b.op == a.op && Deliveries(s, b.op) == 1
  {
    var steps1, s1 := Admitted(cfg, a);
    var steps2, s2 := HandedOut(cfg, steps1, s1, a, worker);
    steps, s := LostAndRequeued(cfg, steps2, s2, a, worker);
    b := a.(workerLosses := a.workerLosses + 1);
  }
}
