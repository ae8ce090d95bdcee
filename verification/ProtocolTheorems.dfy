/** What holds over every run of the execution protocol. */
module ProtocolTheorems {
  import opened Prelude
  import opened Stages
  import opened FairQueues
  import opened Scheduling
  import opened Slots
  import opened Protocol

  lemma StepIsSafe(cfg: Config, s: Sys, step: Step)
    requires s in Safe(cfg.maxWorkerLosses) && Filed(s.sched) && Enabled(s, step) && !LateError(s, step)
    ensures Apply(cfg, s, step) in Safe(cfg.maxWorkerLosses)
  {
    var max := cfg.maxWorkerLosses;
    match step
    case Create(op, digest) => CreateKeeps(max, s, op, digest);
    case Submit(a, now) => SubmitKeeps(max, s, a, now);
    case TakeNext => TakeNextKeeps(cfg, max, s);
    case PutBackUnmatched(op) => PutBackKeeps(max, s, op);
    case Deliver(op, worker) => DeliverKeeps(max, s, op, worker);
    case FailDelivery(op) => FailDeliveryKeeps(max, s, op);
    case LoseWorker(worker) => LoseWorkerKeeps(max, s, worker);
    case SettleLost(op) => SettleLostKeeps(max, s, op);
    case Report(op, outcome) => ReportKeeps(max, s, op, outcome);
    case Advance(op) => AdvanceKeeps(max, s, op);
    case TakeUnwatched(c, ops) => TakeUnwatchedKeeps(max, s, c, ops);
    case AdvanceCancel(op) => AdvanceCancelKeeps(max, s, op);
    case Retire(op) => RetireKeeps(max, s, op);
  }

  /** Any interleaving of the tasks' steps, without late errors. */
  ghost predicate IsRun(cfg: Config, states: seq<Sys>, steps: seq<Step>) {
    && |states| == |steps| + 1 && states[0] == START
    && forall n :: 0 <= n < |steps| ==>
                     && Filed(states[n].sched) && Enabled(states[n], steps[n]) && !LateError(states[n], steps[n])
                     && states[n + 1] == Apply(cfg, states[n], steps[n])
  }

  lemma StartIsSafe(max: nat)
    ensures START in Safe(max)
  {
    forall op ensures LocalOf(START, op) in Legal(max, op) {
      assert SlotsOf(IDLE, op) == iset{};
    }
  }

  lemma {:induction false} RunIsSafe(cfg: Config, states: seq<Sys>, steps: seq<Step>, n: nat)
    requires IsRun(cfg, states, steps) && n < |states|
    ensures states[n] in Safe(cfg.maxWorkerLosses)
    decreases n
  {
    if n == 0 {
      StartIsSafe(cfg.maxWorkerLosses);
    } else {
      RunIsSafe(cfg, states, steps, n - 1);
      StepIsSafe(cfg, states[n - 1], steps[n - 1]);
    }
  }

  ghost predicate OwnsItsDigest(s: Sys, op: OperationId) {
    && op in s.admitted && s.admitted[op].digest in s.sched.inFlight
    && s.sched.inFlight[s.admitted[op].digest].op == op
  }

  ghost predicate InOneSlot(s: Sched, op: OperationId) {
    exists slot :: Holds(s, slot, op) && forall other :: Holds(s, other, op) ==> other == slot
  }

  ghost predicate InNoSlot(s: Sched, op: OperationId) {
    forall slot :: !Holds(s, slot, op)
  }

  /** No task is between two of its steps. */
  predicate Quiet(s: Sys) {
    s.dequeued == map[] && s.lost == map[] && s.finishing == map[] && s.cancelling == map[]
  }

  lemma HolderIsQueued(s: Sched, slot: Slot, op: OperationId) returns (a: Action)
    requires Filed(s) && Holds(s, slot, op)
    ensures IsQueued(s, a) && a in SlotsOf(s, op)
    ensures a == ItemsOf(QueueOf(s, slot.priority), slot.invocation)[slot.index]
    ensures a.invocation == slot.invocation && a.priority == slot.priority
  {
    var f := QueueOf(s, slot.priority);
    a := ItemsOf(f, slot.invocation)[slot.index];
    assert Own(f.queues[slot.invocation].items, slot.invocation);
    assert InClass(f.queues[slot.invocation].items, slot.priority);
  }

  lemma OneSlot(s: Sched, op: OperationId, a: Action)
    requires Slotted(s) && SlotsOf(s, op) == iset{a}
    ensures InOneSlot(s, op)
  {
    assert a in SlotsOf(s, op);
    var c := if a in ItemsOf(s.critical, a.invocation) then Critical else Medium;
    var items := ItemsOf(QueueOf(s, c), a.invocation);
    var i :| 0 <= i < |items| && items[i] == a;
    var slot := Slot(c, a.invocation, i);
    var same := HolderIsQueued(s, slot, op);
    forall other | Holds(s, other, op) ensures other == slot {
      var b := HolderIsQueued(s, other, op);
      assert b == a;
      assert DistinctOps(QueueOf(s, c).queues[a.invocation].items);
    }
    assert Holds(s, slot, op) && forall other :: Holds(s, other, op) ==> other == slot;
  }

  lemma NoSlot(s: Sched, op: OperationId)
    requires Filed(s) && SlotsOf(s, op) == iset{}
    ensures InNoSlot(s, op)
  {
    forall slot ensures !Holds(s, slot, op) {
      if Holds(s, slot, op) {
        var a := HolderIsQueued(s, slot, op);
        assert false;
      }
    }
  }

  /** One place at rest: an operation that owns its digest is `Queued` in one slot of
      one queue or `Assigned` and with a worker, and nothing else; one that does not
      is terminal, in neither, and its result is stored. */
  lemma OnePlace(cfg: Config, states: seq<Sys>, steps: seq<Step>, n: nat, op: OperationId)
    requires IsRun(cfg, states, steps) && n < |states| && Quiet(states[n]) && op in states[n].admitted
    ensures var s := states[n];
            && op in s.machines
            && (OwnsItsDigest(s, op) <==> !IsTerminal(s.machines[op].stage))
            && (OwnsItsDigest(s, op) ==>
                  || (s.machines[op].stage == Queued && InOneSlot(s.sched, op) && op !in s.active)
                  || (s.machines[op].stage == Assigned && op in s.active && InNoSlot(s.sched, op)))
            && (!OwnsItsDigest(s, op) ==> InNoSlot(s.sched, op) && op !in s.active && op in s.results)
  {
    var s, max := states[n], cfg.maxWorkerLosses;
    RunIsSafe(cfg, states, steps, n);
    LocalIsLegal(max, s, op);
    var l := LocalOf(s, op);
    assert OwnsItsDigest(s, op) <==> l.entry.Some?;
    if l.slots == iset{} {
      NoSlot(s.sched, op);
    } else {
      OneSlot(s.sched, op, l.action.value.(workerLosses := l.deliveries));
    }
  }

  /** At any moment, half-done steps included: an operation is in exactly one of the
      six places while it owns its digest, and in none of them afterwards. */
  lemma OnePlaceAlways(cfg: Config, states: seq<Sys>, steps: seq<Step>, n: nat, op: OperationId)
    requires IsRun(cfg, states, steps) && n < |states|
    ensures var s := states[n];
            One(!InNoSlot(s.sched, op)) + One(op in s.dequeued) + One(op in s.active) + One(op in s.lost)
            + One(op in s.finishing) + One(op in s.cancelling) == One(OwnsItsDigest(s, op))
    ensures !InNoSlot(states[n].sched, op) ==> InOneSlot(states[n].sched, op)
  {
    var s, max := states[n], cfg.maxWorkerLosses;
    RunIsSafe(cfg, states, steps, n);
    LocalIsLegal(max, s, op);
    var l := LocalOf(s, op);
    assert OwnsItsDigest(s, op) <==> l.entry.Some?;
    if l.slots == iset{} {
      NoSlot(s.sched, op);
    } else {
      OneSlot(s.sched, op, l.action.value.(workerLosses := l.deliveries));
    }
  }

  /** A client that sees a terminal stage always finds the recorded result stored. */
  lemma TerminalMeansStored(cfg: Config, states: seq<Sys>, steps: seq<Step>, n: nat, op: OperationId)
    requires IsRun(cfg, states, steps) && n < |states|
    requires op in states[n].admitted && op in states[n].machines && IsTerminal(states[n].machines[op].stage)
    ensures var s := states[n];
            && op in s.recorded && op in s.results && s.recorded[op] == s.results[op]
            && s.machines[op].stage == FinalStage(s.results[op])
  {
    RunIsSafe(cfg, states, steps, n);
    LocalIsLegal(cfg.maxWorkerLosses, states[n], op);
    var l := LocalOf(states[n], op);
    assert l.machine == Some(states[n].machines[op]) && l.recorded == Get(states[n].recorded, op) &&
           l.stored == Get(states[n].results, op);
  }

  /** The machine of `op`, if terminal, is the same before and after. */
  ghost predicate Stays(before: map<OperationId, Machine>, after: map<OperationId, Machine>, op: OperationId) {
    op in before && IsTerminal(before[op].stage) ==> op in after && after[op] == before[op]
  }

  lemma MovedStays(s: Sys, o: OperationId, next: Stage, op: OperationId)
    requires o in s.machines
    ensures Stays(s.machines, Moved(s, o, next).machines, op)
  {
  }

  lemma SubmitStays(s: Sys, a: Action, now: nat, op: OperationId)
    requires a.op in s.machines
    ensures Stays(s.machines, ApplySubmit(s, a, now).machines, op)
  {
    assert ApplySubmit(s, a, now).machines == Moved(s, a.op, Queued).machines;
    MovedStays(s, a.op, Queued, op);
  }

  lemma DeliverStays(s: Sys, o: OperationId, worker: nat, op: OperationId)
    requires o in s.dequeued && o in s.machines
    ensures Stays(s.machines, ApplyDeliver(s, o, worker).machines, op)
  {
  }

  lemma RequeuedStays(s: Sys, o: OperationId, a: Action, op: OperationId)
    requires o in s.machines
    ensures Stays(s.machines, Requeued(s, o, a).machines, op)
  {
    assert Requeued(s, o, a).machines == Moved(s, o, Queued).machines;
    MovedStays(s, o, Queued, op);
  }

  lemma UndeliveredStays(s: Sys, o: OperationId, a: Action, op: OperationId)
    requires o in s.machines
    ensures Stays(s.machines, Requeued(Moved(s, o, Assigned), o, a).machines, op)
  {
    MovedStays(s, o, Assigned, op);
    RequeuedStays(Moved(s, o, Assigned), o, a, op);
  }

  lemma FailDeliveryStays(s: Sys, o: OperationId, op: OperationId)
    requires o in s.dequeued && o in s.machines
    ensures Stays(s.machines, ApplyFailDelivery(s, o).machines, op)
  {
    if CanTransition(s.machines[o].stage, Assigned) {
      FailedStays(s, o, op);
    } else {
      DroppedStays(s, o, op);
    }
  }

  lemma FailedStays(s: Sys, o: OperationId, op: OperationId)
    requires o in s.dequeued && o in s.machines && CanTransition(s.machines[o].stage, Assigned)
    ensures Stays(s.machines, ApplyFailDelivery(s, o).machines, op)
  {
    UndeliveredStays(s.(dequeued := s.dequeued - {o}), o, s.dequeued[o], op);
  }

  lemma DroppedStays(s: Sys, o: OperationId, op: OperationId)
    requires o in s.dequeued && o in s.machines && !CanTransition(s.machines[o].stage, Assigned)
    ensures Stays(s.machines, ApplyFailDelivery(s, o).machines, op)
  {
  }

  lemma SettleStays(max: nat, s: Sys, o: OperationId, op: OperationId)
    requires o in s.lost && o in s.machines
    ensures Stays(s.machines, ApplySettleLost(max, s, o).machines, op)
  {
    var a, t := s.lost[o].(workerLosses := s.lost[o].workerLosses + 1), s.(lost := s.lost - {o});
    RequeuedStays(t, o, a, op);
    assert BeginFinalize(t, o, ENGINE_FAILURE).machines == s.machines;
  }

  lemma FinishStays(s: Sys, o: OperationId, f: Finish, op: OperationId)
    requires o in s.machines
    ensures Stays(s.machines, FinishStep(s, o, f).machines, op)
  {
    MovedStays(s, o, FinalStage(f.outcome), op);
  }

  lemma AdvanceStays(s: Sys, o: OperationId, op: OperationId)
    requires o in s.machines && o in s.finishing
    ensures Stays(s.machines, ApplyAdvance(s, o).machines, op)
  {
    FinishStays(s, o, s.finishing[o], op);
  }

  lemma AdvanceCancelStays(s: Sys, o: OperationId, op: OperationId)
    requires o in s.machines && o in s.cancelling
    ensures Stays(s.machines, ApplyAdvanceCancel(s, o).machines, op)
  {
    FinishStays(s, o, s.cancelling[o], op);
  }

  lemma ReportMovesNothing(s: Sys, o: OperationId, outcome: Outcome)
    requires o in s.machines
    ensures ApplyReport(s, o, outcome).machines == s.machines
  {
    assert BeginFinalize(s, o, outcome).machines == s.machines;
  }

  lemma TakeNextMovesNothing(cfg: Config, s: Sys)
    requires Filed(s.sched)
    ensures ApplyTakeNext(cfg, s).machines == s.machines
  {
  }

  /** No step, in or out of order, moves a terminal machine. */
  lemma StepKeepsTerminal(cfg: Config, s: Sys, step: Step, op: OperationId)
    requires Filed(s.sched) && Enabled(s, step)
    ensures Stays(s.machines, Apply(cfg, s, step).machines, op)
  {
    match step
    case Create(o, d) =>
    case Submit(a, now) => SubmitStays(s, a, now, op);
    case Deliver(o, worker) => DeliverStays(s, o, worker, op);
    case FailDelivery(o) => FailDeliveryStays(s, o, op);
    case SettleLost(o) => SettleStays(cfg.maxWorkerLosses, s, o, op);
    case Advance(o) => AdvanceStays(s, o, op);
    case AdvanceCancel(o) => AdvanceCancelStays(s, o, op);
    case Report(o, outcome) => ReportMovesNothing(s, o, outcome);
    case TakeNext => TakeNextMovesNothing(cfg, s);
    case _ =>
  }

  lemma {:induction false} StaysThroughout(states: seq<Sys>, m: nat, n: nat, op: OperationId)
    requires m <= n < |states|
    requires forall k {:trigger states[k]} :: 0 < k < |states| ==> Stays(states[k - 1].machines, states[k].machines, op)
    ensures Stays(states[m].machines, states[n].machines, op)
    decreases n
  {
    if m < n {
      StaysThroughout(states, m, n - 1, op);
    }
  }

  /** A stage turned terminal never changes again. */
  lemma TerminalForever(cfg: Config, states: seq<Sys>, steps: seq<Step>, m: nat, n: nat, op: OperationId)
    requires IsRun(cfg, states, steps) && m <= n < |states|
    requires op in states[m].machines && IsTerminal(states[m].machines[op].stage)
    ensures op in states[n].machines && states[n].machines[op] == states[m].machines[op]
  {
    forall k {:trigger states[k]} | 0 < k < |states| ensures Stays(states[k - 1].machines, states[k].machines, op) {
      StepKeepsTerminal(cfg, states[k - 1], steps[k - 1], op);
    }
    StaysThroughout(states, m, n, op);
  }

  /** A second operation for a digest is admitted only once every earlier one was
      recorded, stored and turned terminal. */
  lemma SecondOperationWaits(cfg: Config, states: seq<Sys>, steps: seq<Step>, n: nat, earlier: OperationId)
    requires IsRun(cfg, states, steps) && n < |steps| && steps[n].Submit?
    requires steps[n].action.op in states[n + 1].admitted
    requires earlier in states[n].admitted && states[n].admitted[earlier].digest == steps[n].action.digest
    ensures var s := states[n];
            && earlier in s.machines && IsTerminal(s.machines[earlier].stage)
            && earlier in s.recorded && earlier in s.results && s.recorded[earlier] == s.results[earlier]
  {
    var s := states[n];
    RunIsSafe(cfg, states, steps, n);
    LocalIsLegal(cfg.maxWorkerLosses, s, earlier);
    var l := LocalOf(s, earlier);
    assert steps[n].action.digest !in s.sched.inFlight;
    assert l.entry == None;
    assert l.machine == Get(s.machines, earlier) && l.recorded == Get(s.recorded, earlier) &&
           l.stored == Get(s.results, earlier);
  }

  /** Whatever is lost, no operation is delivered more than `maxWorkerLosses + 1` times. */
  lemma DeliveriesAreBounded(cfg: Config, states: seq<Sys>, steps: seq<Step>, n: nat, op: OperationId)
    requires IsRun(cfg, states, steps) && n < |states|
    ensures Deliveries(states[n], op) <= cfg.maxWorkerLosses + 1
    ensures op in states[n].active ==> states[n].active[op].action.workerLosses + 1 == Deliveries(states[n], op)
    ensures forall a :: IsQueued(states[n].sched, a) ==>
            a.workerLosses == Deliveries(states[n], a.op) <= cfg.maxWorkerLosses
  {
    RunIsSafe(cfg, states, steps, n);
    LocalIsLegal(cfg.maxWorkerLosses, states[n], op);
    var l := LocalOf(states[n], op);
    assert l.active == Get(states[n].active, op) && l.deliveries == Deliveries(states[n], op);
    forall a | IsQueued(states[n].sched, a)
      ensures a.workerLosses == Deliveries(states[n], a.op) <= cfg.maxWorkerLosses
    {
      QueuedIsCurrent(cfg.maxWorkerLosses, states[n], a);
      LocalIsLegal(cfg.maxWorkerLosses, states[n], a.op);
      assert LocalOf(states[n], a.op).slots != iset{};
    }
  }

  lemma AcceptedOnce(max: nat, s: Sys, op: OperationId)
    requires s in Safe(max)
    ensures Accepted(s, op) <= 1
  {
    LocalIsLegal(max, s, op);
    assert LocalOf(s, op).accepted == Accepted(s, op);
  }

  /** However many success reports arrive for an operation, at most one is accepted,
      and one that arrives while it is back in the queue changes nothing. */
  lemma AtMostOneSuccess(cfg: Config, states: seq<Sys>, steps: seq<Step>, n: nat, op: OperationId, report: nat)
    requires IsRun(cfg, states, steps) && n < |states|
    ensures Accepted(states[n], op) <= 1
    ensures var step := Report(op, Outcome(false, report));
            Enabled(states[n], step) && (states[n].machines[op].stage == Queued ||
              IsTerminal(states[n].machines[op].stage)) ==>
              Filed(states[n].sched) && Apply(cfg, states[n], step) == states[n]
  {
    RunIsSafe(cfg, states, steps, n);
    AcceptedOnce(cfg.maxWorkerLosses, states[n], op);
    var s, step := states[n], Report(op, Outcome(false, report));
    if Enabled(s, step) && (s.machines[op].stage == Queued || IsTerminal(s.machines[op].stage)) {
      ReportDropped(cfg.maxWorkerLosses, s, op, step.outcome);
    }
  }
}
