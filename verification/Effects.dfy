/** What each task of the engine does to every operation, from the first of its
    steps to the last. */
module Effects {
  import opened Prelude
  import opened Stages
  import opened FairQueues
  import opened Scheduling
  import opened Slots
  import opened Protocol
  import opened Traces

  /** An operation that owned its digest, ended with outcome `o`. */
  function EndedLocal(l: Local, o: Outcome): Local
    requires l.machine.Some?
  {
    l.(machine := Some(l.machine.value.(stage := FinalStage(o))), entry := None, recorded := Some(o), stored := Some(o))
  }

  lemma EndedEntries(s: Sys, op: OperationId, o: Outcome, other: OperationId)
    requires EntriesOwned(s) && EntryOf(s, op).Some? && op in s.machines &&
             s.machines[op].digest == s.admitted[op].digest
    ensures EntryOf(Ended(s, op, o), other) == if other == op then None else EntryOf(s, other)
  {
  }

  lemma EndedLocals(s: Sys, op: OperationId, o: Outcome)
    requires EntriesOwned(s) && EntryOf(s, op).Some? && op in s.machines &&
             s.machines[op].digest == s.admitted[op].digest
    ensures LocalOf(Ended(s, op, o), op) == EndedLocal(LocalOf(s, op), o)
    ensures forall other :: other != op ==> LocalOf(Ended(s, op, o), other) == LocalOf(s, other)
  {
    EndedEntries(s, op, o, op);
    forall other | other != op ensures LocalOf(Ended(s, op, o), other) == LocalOf(s, other) {
      EndedEntries(s, op, o, other);
    }
  }

  /** `finalize` from its first check to its last write. */
  function Finalized(s: Sys, op: OperationId, o: Outcome): Sys
    requires op in s.machines
  {
    if op !in s.registered then s.(active := s.active - {op})
    else if !CanTransition(s.machines[op].stage, FinalStage(o)) then s
    else Ended(s.(active := s.active - {op}), op, o)
  }

  /** A submitted operation shows as queued; one that joins another is listed no longer. */
  predicate SubmittedAs(s: Sys, t: Sys, a: Action, owner: OperationId) {
    && t.machines == s.machines[a.op := Machine(a.digest, Queued)]
    && t.registered == (if owner == a.op then s.registered else s.registered - {a.op})
  }

  lemma MovedTo(s: Sys, op: OperationId, next: Stage)
    requires op in s.machines && CanTransition(s.machines[op].stage, next)
    ensures Moved(s, op, next).machines == s.machines[op := Machine(s.machines[op].digest, next)]
  {
  }

  lemma SubmitTurns(s: Sys, a: Action, now: nat)
    requires a.op in s.machines
    ensures ApplySubmit(s, a, now).machines == Moved(s, a.op, Queued).machines
  {
    var (sched, owner) := Enqueue(s.sched, a, now);
    var t := Moved(s, a.op, Queued).(sched := sched);
    if owner == a.op {
      assert ApplySubmit(s, a, now) == t.(admitted := s.admitted[a.op := a]);
    } else {
      assert ApplySubmit(s, a, now) == t.(registered := s.registered - {a.op});
    }
  }

  lemma SubmitLists(s: Sys, a: Action, now: nat)
    requires a.op in s.machines
    ensures ApplySubmit(s, a, now).registered
         == if Enqueue(s.sched, a, now).1 == a.op then s.registered else s.registered - {a.op}
  {
    assert Moved(s, a.op, Queued).registered == s.registered;
  }

  lemma SubmitShows(s: Sys, a: Action, now: nat)
    requires Enabled(s, Submit(a, now))
    ensures SubmittedAs(s, ApplySubmit(s, a, now), a, Enqueue(s.sched, a, now).1)
  {
    MovedTo(s, a.op, Queued);
    SubmitTurns(s, a, now);
    SubmitLists(s, a, now);
  }

  function Counted(s: Sys, op: OperationId, o: Outcome): Sys {
    if o.error then s else s.(accepted := s.accepted[op := Accepted(s, op) + 1])
  }

  /** A result processed: dropped by the checks of `finalize`, or accepted and ended. */
  function Reported(s: Sys, op: OperationId, o: Outcome): Sys
    requires op in s.machines
  {
    if op in s.registered && CanTransition(s.machines[op].stage, FinalStage(o)) then
      Finalized(Counted(s, op, o), op, o)
    else
      Finalized(s, op, o)
  }

  /** Whether a result for `op` is taken: the operation is still listed and its stage can
      turn to the one the result calls for. */
  predicate Takes(s: Sys, op: OperationId, o: Outcome)
    requires op in s.machines
  {
    op in s.registered && CanTransition(s.machines[op].stage, if o.error then Failed else Completed)
  }

  /** A result that is taken is recorded and stored for `op`, which shows it, is with no
      worker and holds its digest no longer; one that is not changes none of these. */
  predicate StoredAs(s: Sys, t: Sys, op: OperationId, o: Outcome)
    requires op in s.machines
  {
    if Takes(s, op, o) then
      && t.recorded == s.recorded[op := o] && t.results == s.results[op := o]
      && t.machines == s.machines[op := Machine(s.machines[op].digest, if o.error then Failed else Completed)]
      && op !in t.active && s.machines[op].digest !in t.sched.inFlight
    else
      t.recorded == s.recorded && t.results == s.results && t.machines == s.machines && t.sched == s.sched
  }

  lemma EndedStores(s: Sys, op: OperationId, o: Outcome)
    requires op in s.machines && Takes(s, op, o)
    ensures StoredAs(s, Ended(s.(active := s.active - {op}), op, o), op, o)
  {
  }

  lemma DroppedStores(s: Sys, active: map<OperationId, ActiveExecution>, op: OperationId, o: Outcome)
    requires op in s.machines && !Takes(s, op, o)
    ensures StoredAs(s, s.(active := active), op, o)
  {
  }

  lemma FinalizedStores(s: Sys, op: OperationId, o: Outcome)
    requires op in s.machines
    ensures StoredAs(s, Finalized(s, op, o), op, o)
  {
    if Takes(s, op, o) {
      EndedStores(s, op, o);
    } else {
      DroppedStores(s, s.active, op, o);
      DroppedStores(s, s.active - {op}, op, o);
      assert s.(active := s.active) == s;
    }
  }

  lemma ReportedStores(s: Sys, op: OperationId, o: Outcome)
    requires op in s.machines
    ensures StoredAs(s, Reported(s, op, o), op, o)
  {
    FinalizedStores(s, op, o);
    FinalizedStores(Counted(s, op, o), op, o);
  }

  /** Processing a result is one report and, if it is accepted, four steps more. */
  lemma ReportedTrace(cfg: Config, steps: seq<Step>, s: Sys, op: OperationId, o: Outcome) returns (more: seq<Step>)
    requires s in EndOf(cfg, steps) && Enabled(s, Report(op, o)) && !LateError(s, Report(op, o))
    ensures Reported(s, op, o) in EndOf(cfg, steps + more)
  {
    ThenReport(cfg, steps, s, op, o);
    EndIsSafe(cfg, steps, s);
    if op in s.registered && CanTransition(s.machines[op].stage, FinalStage(o)) {
      AcceptedTrace(cfg, steps, s, op, o);
      more := [Report(op, o)] + FourTimes(Advance(op));
      assert steps + more == steps + [Report(op, o)] + FourTimes(Advance(op));
    } else {
      more := [Report(op, o)];
    }
  }

  lemma AcceptedTrace(cfg: Config, steps: seq<Step>, s: Sys, op: OperationId, o: Outcome)
    requires s in Safe(cfg.maxWorkerLosses) && Enabled(s, Report(op, o)) &&
             ApplyReport(s, op, o) in EndOf(cfg, steps + [Report(op, o)])
    requires op in s.registered && CanTransition(s.machines[op].stage, FinalStage(o))
    ensures Finalized(Counted(s, op, o), op, o) in EndOf(cfg, steps + [Report(op, o)] + FourTimes(Advance(op)))
  {
    var u := Counted(s, op, o).(active := s.active - {op});
    assert ApplyReport(s, op, o) == Finishing(u, op, o, ToRecord);
    ExtendFinish(cfg, steps + [Report(op, o)], u, op, o);
  }

  // ----- A lost worker -----

  predicate HeldBy(l: Local, worker: nat) {
    l.active.Some? && l.active.value.worker == worker
  }

  function LostLocal(l: Local): Local
    requires l.active.Some?
  {
    l.(active := None, lost := Some(l.active.value.action))
  }

  /** One more loss: over the limit the operation fails, otherwise it waits again,
      at the front of its queue, with the loss counted. */
  ghost function SettledLocal(max: nat, l: Local): Local
    requires l.lost.Some? && l.machine.Some? && l.entry.Some?
  {
    var a := l.lost.value.(workerLosses := l.lost.value.workerLosses + 1);
    if a.workerLosses > max then
      EndedLocal(l.(lost := None), ENGINE_FAILURE)
    else
      l.(lost := None, machine := Some(l.machine.value.(stage := Queued)), slots := iset{a},
         entry := Some(l.entry.value.(dispatched := false)))
  }

  /** What the loss of `worker` does to an operation. */
  ghost function AfterLoss(max: nat, worker: nat, l: Local): Local {
    if HeldBy(l, worker) && l.machine.Some? && l.entry.Some? then SettledLocal(max, LostLocal(l)) else l
  }

  lemma LoseWorkerLocals(s: Sys, worker: nat, op: OperationId)
    requires op in s.active ==> op !in s.lost
    ensures LocalOf(ApplyLoseWorker(s, worker), op) == if HeldBy(LocalOf(s, op), worker) then LostLocal(LocalOf(s, op))
            else LocalOf(s, op)
  {
  }

  function Unlost(s: Sys, op: OperationId): Sys {
    s.(lost := s.lost - {op}, active := s.active - {op})
  }

  /** One round of `worker_lost`, ended if it gives up. */
  function Settled(max: nat, s: Sys, op: OperationId): Sys
    requires op in s.lost && op in s.machines
  {
    if s.lost[op].workerLosses + 1 > max then Ended(Unlost(s, op), op, ENGINE_FAILURE) else ApplySettleLost(max, s, op)
  }

  lemma GivenUpLocals(max: nat, s: Sys, op: OperationId)
    requires s in Safe(max) && op in s.lost && op in s.machines && s.lost[op].workerLosses + 1 > max
    ensures LocalOf(s, op).machine.Some? && LocalOf(s, op).entry.Some?
    ensures LocalOf(Settled(max, s, op), op) == SettledLocal(max, LocalOf(s, op))
    ensures forall o :: o != op ==> LocalOf(Settled(max, s, op), o) == LocalOf(s, o)
  {
    LocalIsLegal(max, s, op);
    LocalSettle(max, op, LocalOf(s, op));
    UnlostLocals(s, op);
    EndedLocals(Unlost(s, op), op, ENGINE_FAILURE);
  }

  lemma UnlostLocals(s: Sys, op: OperationId)
    ensures LocalOf(Unlost(s, op), op) == LocalOf(s, op).(lost := None, active := None)
    ensures forall o :: o != op ==> LocalOf(Unlost(s, op), o) == LocalOf(s, o)
  {
  }

  lemma SettledIsRetried(max: nat, s: Sys, op: OperationId, a: Action)
    requires s in Safe(max) && op in s.lost && op in s.machines
    requires a == s.lost[op].(workerLosses := s.lost[op].workerLosses + 1) && a.workerLosses <= max
    ensures a.op == op && Settled(max, s, op) == Retried(s, op, PutBack(s.sched, a))
    ensures Rescheduled(s, PutBack(s.sched, a), op, iset{a}, false)
  {
    SettleLostIs(max, s, op);
    PutBackEffect(max, s, a);
  }

  lemma RetryLocals(max: nat, s: Sys, op: OperationId)
    requires s in Safe(max) && op in s.lost && op in s.machines && s.lost[op].workerLosses + 1 <= max
    ensures LocalOf(s, op).machine.Some? && LocalOf(s, op).entry.Some?
    ensures LocalOf(Settled(max, s, op), op) == SettledLocal(max, LocalOf(s, op))
    ensures forall o :: o != op ==> LocalOf(Settled(max, s, op), o) == LocalOf(s, o)
  {
    var a := s.lost[op].(workerLosses := s.lost[op].workerLosses + 1);
    SettledIsRetried(max, s, op, a);
    LostIsLocal(max, s, op);
    RetriedLocals(s, op, a, PutBack(s.sched, a));
    SettledLocalIs(max, LocalOf(s, op), a, s.machines[op], EntryOf(s, op).value);
  }

  lemma SettledLocalIs(max: nat, l: Local, a: Action, m: Machine, e: InFlightEntry)
    requires l.lost.Some? && a == l.lost.value.(workerLosses := l.lost.value.workerLosses + 1) && a.workerLosses <= max
    requires l.machine == Some(m) && l.entry == Some(e)
    ensures SettledLocal(max, l) == l.(machine := Some(m.(stage := Queued)), lost := None, slots := iset{a},
                                       entry := Some(e.(dispatched := false)))
  {
  }

  lemma LostIsLocal(max: nat, s: Sys, op: OperationId)
    requires s in Safe(max) && op in s.lost && op in s.machines
    ensures var l := LocalOf(s, op);
            && l.lost == Some(s.lost[op]) && l.machine == Some(s.machines[op])
            && l.entry == EntryOf(s, op) && l.entry.Some?
  {
    SettleLostIs(max, s, op);
  }

  /** Settling one operation is one step and, if it gives up, four more. */
  lemma SettledTrace(cfg: Config, steps: seq<Step>, s: Sys, op: OperationId) returns (more: seq<Step>)
    requires s in EndOf(cfg, steps) && op in s.lost && op in s.machines
    ensures Settled(cfg.maxWorkerLosses, s, op) in EndOf(cfg, steps + more)
  {
    ThenSettleLost(cfg, steps, s, op);
    EndIsSafe(cfg, steps, s);
    if s.lost[op].workerLosses + 1 > cfg.maxWorkerLosses {
      GivenUpTrace(cfg, steps, s, op);
      more := [SettleLost(op)] + FourTimes(Advance(op));
      assert steps + more == steps + [SettleLost(op)] + FourTimes(Advance(op));
    } else {
      more := [SettleLost(op)];
    }
  }

  lemma GivenUpTrace(cfg: Config, steps: seq<Step>, s: Sys, op: OperationId)
    requires s in Safe(cfg.maxWorkerLosses) && op in s.lost && op in s.machines &&
             s.lost[op].workerLosses + 1 > cfg.maxWorkerLosses
    requires ApplySettleLost(cfg.maxWorkerLosses, s, op) in EndOf(cfg, steps + [SettleLost(op)])
    ensures Settled(cfg.maxWorkerLosses, s, op) in EndOf(cfg, steps + [SettleLost(op)] + FourTimes(Advance(op)))
  {
    LocalIsLegal(cfg.maxWorkerLosses, s, op);
    LocalSettle(cfg.maxWorkerLosses, op, LocalOf(s, op));
    SettleLostIs(cfg.maxWorkerLosses, s, op);
    ExtendFinish(cfg, steps + [SettleLost(op)], Unlost(s, op), op, ENGINE_FAILURE);
  }

  /** An operation taken from `worker` and still to be settled, or as the loss leaves it. */
  ghost predicate LossAt(max: nat, worker: nat, todo: bool, l0: Local, l: Local) {
    if todo then HeldBy(l0, worker) && l == LostLocal(l0) else l == AfterLoss(max, worker, l0)
  }

  ghost predicate LossState(max: nat, worker: nat, s0: Sys, todo: set<OperationId>, s: Sys) {
    forall op {:trigger Of(s, op)} :: LossAt(max, worker, op in todo, LocalOf(s0, op), LocalOf(s, op))
  }

  ghost function LossUnderWay(max: nat, worker: nat, s0: Sys, todo: set<OperationId>): iset<Sys> {
    iset s: Sys | LossState(max, worker, s0, todo, s)
  }

  function HeldOps(active: map<OperationId, ActiveExecution>, worker: nat): set<OperationId> {
    set op | op in active && active[op].worker == worker
  }

  lemma ActiveIsNotLost(max: nat, s: Sys, op: OperationId)
    requires s in Safe(max) && op in s.active
    ensures op !in s.lost && op in s.machines && EntryOf(s, op).Some?
  {
    LocalIsLegal(max, s, op);
    var l := LocalOf(s, op);
    assert l.active.Some? && l.lost == Get(s.lost, op) && l.machine == Get(s.machines, op) && l.entry == EntryOf(s, op);
  }

  lemma LossBegins(max: nat, s: Sys, worker: nat)
    requires s in Safe(max)
    ensures ApplyLoseWorker(s, worker) in LossUnderWay(max, worker, s, HeldOps(s.active, worker))
  {
    var t := ApplyLoseWorker(s, worker);
    forall op ensures LossAt(max, worker, op in HeldOps(s.active, worker), LocalOf(s, op), LocalOf(t, op)) {
      if op in s.active {
        ActiveIsNotLost(max, s, op);
      }
      LoseWorkerLocals(s, worker, op);
    }
  }

  lemma LossGoesOn(max: nat, worker: nat, s0: Sys, s: Sys, todo: set<OperationId>, op: OperationId)
    requires s in Safe(max) && s in LossUnderWay(max, worker, s0, todo) && op in todo
    ensures op in s0.active && op in s.lost && s.lost[op] == s0.active[op].action && op in s.machines
    ensures Settled(max, s, op) in LossUnderWay(max, worker, s0, todo - {op})
  {
    assert Of(s, op);
    LocalIsLegal(max, s, op);
    assert LocalOf(s, op).lost.Some?;
    var t := Settled(max, s, op);
    if s.lost[op].workerLosses + 1 > max {
      GivenUpLocals(max, s, op);
    } else {
      RetryLocals(max, s, op);
    }
    LossMoves(max, worker, s0, s, t, todo, op);
  }

  lemma SettledIsAfterLoss(max: nat, worker: nat, l0: Local, l: Local)
    requires LossAt(max, worker, true, l0, l) && l.machine.Some? && l.entry.Some?
    ensures LossAt(max, worker, false, l0, SettledLocal(max, l))
  {
  }

  lemma LossMoves(max: nat, worker: nat, s0: Sys, s: Sys, t: Sys, todo: set<OperationId>, op: OperationId)
    requires s in LossUnderWay(max, worker, s0, todo) && op in todo
    requires LocalOf(s, op).lost.Some? && LocalOf(s, op).machine.Some? && LocalOf(s, op).entry.Some?
    requires LocalOf(t, op) == SettledLocal(max, LocalOf(s, op))
    requires forall o :: o != op ==> LocalOf(t, o) == LocalOf(s, o)
    ensures t in LossUnderWay(max, worker, s0, todo - {op})
  {
    forall o ensures LossAt(max, worker, o in todo - {op}, LocalOf(s0, o), LocalOf(t, o)) {
      assert Of(s, o);
      if o == op {
        SettledIsAfterLoss(max, worker, LocalOf(s0, o), LocalOf(s, o));
      }
    }
  }

  /** The loss of `worker` settled: each operation it held failed or waits again, and
      every other one is as it was. */
  ghost predicate LossSettled(max: nat, worker: nat, s0: Sys, s: Sys) {
    forall op :: LocalOf(s, op) == AfterLoss(max, worker, LocalOf(s0, op))
  }

  lemma LossEnds(max: nat, worker: nat, s0: Sys, s: Sys)
    requires s in LossUnderWay(max, worker, s0, {})
    ensures LossSettled(max, worker, s0, s)
  {
    forall op ensures LocalOf(s, op) == AfterLoss(max, worker, LocalOf(s0, op)) {
      assert Of(s, op);
    }
  }

  // ----- Unwatched operations -----

  function DrainedLocal(l: Local): Local {
    l.(slots := iset{}, cancelling := Some(Finish(ENGINE_FAILURE, ToRecord)))
  }

  /** What the cancellation of `ops` does to an operation: it fails if it was queued. */
  ghost function AfterCancel(ops: set<OperationId>, op: OperationId, l: Local): Local {
    if op in ops && l.slots != iset{} && l.machine.Some? then EndedLocal(l.(slots := iset{}), ENGINE_FAILURE) else l
  }

  ghost predicate CancelAt(ops: set<OperationId>, op: OperationId, todo: bool, l0: Local, l: Local) {
    if todo then op in ops && l0.slots != iset{} && l == DrainedLocal(l0) else l == AfterCancel(ops, op, l0)
  }

  ghost predicate CancelState(s0: Sys, ops: set<OperationId>, todo: set<OperationId>, s: Sys) {
    forall op {:trigger Of(s, op)} :: CancelAt(ops, op, op in todo, LocalOf(s0, op), LocalOf(s, op))
  }

  ghost function CancelUnderWay(s0: Sys, ops: set<OperationId>, todo: set<OperationId>): iset<Sys> {
    iset s: Sys | CancelState(s0, ops, todo, s)
  }

  function Uncancelled(s: Sys, op: OperationId): Sys {
    s.(cancelling := s.cancelling - {op})
  }

  lemma CancelMoves(s0: Sys, s: Sys, t: Sys, ops: set<OperationId>, todo: set<OperationId>, op: OperationId)
    requires s in CancelUnderWay(s0, ops, todo) && op in todo && LocalOf(s, op).machine.Some?
    requires LocalOf(s0, op).cancelling.None?
    requires LocalOf(t, op) == EndedLocal(LocalOf(s, op).(cancelling := None), ENGINE_FAILURE)
    requires forall o :: o != op ==> LocalOf(t, o) == LocalOf(s, o)
    ensures t in CancelUnderWay(s0, ops, todo - {op})
  {
    forall o ensures CancelAt(ops, o, o in todo - {op}, LocalOf(s0, o), LocalOf(t, o)) {
      assert Of(s, o);
    }
  }

  lemma CancelGoesOn(max: nat, s0: Sys, s: Sys, ops: set<OperationId>, todo: set<OperationId>, op: OperationId)
    requires s0 in Safe(max) && s in Safe(max) && s in CancelUnderWay(s0, ops, todo) && op in todo
    ensures op in s.machines && op in s.cancelling && s.cancelling[op] == Finish(ENGINE_FAILURE, ToRecord)
    ensures CanTransition(s.machines[op].stage, Failed)
    ensures Ended(Uncancelled(s, op), op, ENGINE_FAILURE) in CancelUnderWay(s0, ops, todo - {op})
  {
    assert Of(s, op);
    LocalIsLegal(max, s, op);
    LocalIsLegal(max, s0, op);
    EndingHoldsDigest(max, s, op);
    assert LocalOf(s, op).cancelling.Some?;
    var u := Uncancelled(s, op);
    assert LocalOf(u, op) == LocalOf(s, op).(cancelling := None);
    EndedLocals(u, op, ENGINE_FAILURE);
    CancelMoves(s0, s, Ended(u, op, ENGINE_FAILURE), ops, todo, op);
  }

  lemma UnwatchedLocals(max: nat, s: Sys, c: QueuePriority, ops: set<OperationId>, op: OperationId)
    requires s in Safe(max)
    ensures LocalOf(ApplyTakeUnwatched(s, c, ops), op) ==
            if op in ops && WaitsIn(s.sched, c, op) then DrainedLocal(LocalOf(s, op)) else LocalOf(s, op)
  {
    SlotsAfterDrain(s.sched, c, ops, op);
    if op in ops && WaitsIn(s.sched, c, op) {
      var a :| IsQueued(s.sched, a) && a.op == op && a.priority == c;
      QueuedIsCurrent(max, s, a);
      assert SlotsOf(s.sched, op) == iset{a};
      TakenLocal(s, c, ops, op);
    } else {
      SparedLocal(s, c, ops, op);
    }
  }

  lemma TakenLocal(s: Sys, c: QueuePriority, ops: set<OperationId>, op: OperationId)
    requires op in ops && WaitsIn(s.sched, c, op) && SlotsOf(RemoveUnwatched(s.sched, c, ops), op) == iset{}
    ensures LocalOf(ApplyTakeUnwatched(s, c, ops), op) == DrainedLocal(LocalOf(s, op))
  {
  }

  lemma SparedLocal(s: Sys, c: QueuePriority, ops: set<OperationId>, op: OperationId)
    requires !(op in ops && WaitsIn(s.sched, c, op)) &&
             SlotsOf(RemoveUnwatched(s.sched, c, ops), op) == SlotsOf(s.sched, op)
    ensures LocalOf(ApplyTakeUnwatched(s, c, ops), op) == LocalOf(s, op)
  {
  }

  /** A queued operation waits in one class, and its slots say which. */
  lemma WaitsInOne(max: nat, s: Sys, op: OperationId)
    requires s in Safe(max)
    ensures SlotsOf(s.sched, op) != iset{} <==> WaitsIn(s.sched, Critical, op) || WaitsIn(s.sched, Medium, op)
    ensures !(WaitsIn(s.sched, Critical, op) && WaitsIn(s.sched, Medium, op))
  {
    if a :| a in SlotsOf(s.sched, op) {
      assert IsQueued(s.sched, a);
      QueuedIsCurrent(max, s, a);
      forall b | IsQueued(s.sched, b) && b.op == op ensures b == a {
        assert b in SlotsOf(s.sched, op);
      }
    } else {
      forall b | IsQueued(s.sched, b) ensures b.op != op {
        assert b.op == op ==> b in SlotsOf(s.sched, op);
      }
    }
  }

  function DrainedSched(s: Sched, ops: set<OperationId>): Sched {
    RemoveUnwatched(RemoveUnwatched(s, Critical, ops), Medium, ops)
  }

  ghost function CancellingBoth(s: Sys, ops: set<OperationId>): map<OperationId, Finish> {
    ApplyTakeUnwatched(ApplyTakeUnwatched(s, Critical, ops), Medium, ops).cancelling
  }

  ghost function DrainedBoth(s: Sys, ops: set<OperationId>): Sys {
    s.(sched := DrainedSched(s.sched, ops), cancelling := CancellingBoth(s, ops))
  }

  /** The two classes drained one after the other. */
  lemma DrainedTwice(s: Sys, ops: set<OperationId>)
    ensures DrainedBoth(s, ops) == ApplyTakeUnwatched(ApplyTakeUnwatched(s, Critical, ops), Medium, ops)
  {
  }

  ghost function UnwatchedOps(s: Sys, ops: set<OperationId>): set<OperationId> {
    set op | op in ops && SlotsOf(s.sched, op) != iset{}
  }

  /** `t` is `s` with both classes drained, seen by a proof only when it asks. */
  ghost predicate Drains(s: Sys, ops: set<OperationId>, t: Sys) {
    forall n: nat {:trigger Asked(n)} :: n == |ops| ==> t == DrainedBoth(s, ops)
  }

  lemma DrainedFrom(s: Sys, ops: set<OperationId>) returns (t: Sys)
    ensures Drains(s, ops, t) && t.sched == RemoveUnwatched(RemoveUnwatched(s.sched, Critical, ops), Medium, ops)
    ensures t.machines == s.machines && t.registered == s.registered && t.active == s.active
    ensures t.recorded == s.recorded && t.results == s.results
  {
    t := DrainedBoth(s, ops);
  }

  lemma CancelBegins(max: nat, s: Sys, ops: set<OperationId>, t: Sys)
    requires s in Safe(max) && Drains(s, ops, t)
    ensures t in CancelUnderWay(s, ops, UnwatchedOps(s, ops))
  {
    assert Asked(|ops|);
    DrainedTwice(s, ops);
    var u := ApplyTakeUnwatched(s, Critical, ops);
    TakeUnwatchedKeeps(max, s, Critical, ops);
    forall op ensures CancelAt(ops, op, op in UnwatchedOps(s, ops), LocalOf(s, op), LocalOf(t, op)) {
      WaitsInOne(max, s, op);
      WaitsInOne(max, u, op);
      UnwatchedLocals(max, s, Critical, ops, op);
      UnwatchedLocals(max, u, Medium, ops, op);
      StillWaits(s, ops, op);
    }
  }

  lemma StillWaits(s: Sys, ops: set<OperationId>, op: OperationId)
    requires Filed(s.sched)
    ensures WaitsIn(ApplyTakeUnwatched(s, Critical, ops).sched, Medium, op) <==> WaitsIn(s.sched, Medium, op)
  {
    var t := ApplyTakeUnwatched(s, Critical, ops);
    if WaitsIn(s.sched, Medium, op) {
      var a :| IsQueued(s.sched, a) && a.op == op && a.priority == Medium;
      QueuedAfterDrain(s.sched, Critical, ops, a);
    }
    if WaitsIn(t.sched, Medium, op) {
      var a :| IsQueued(t.sched, a) && a.op == op && a.priority == Medium;
      QueuedAfterDrain(s.sched, Critical, ops, a);
    }
  }

  // ----- The actions `remove_unwatched` hands over -----

  lemma {:induction false} InItsInvocation(items: seq<Action>, a: Action)
    ensures a in items <==> a in OfInvocation(items, a.invocation)
  {
    if items != [] {
      assert items == [items[0]] + items[1..];
      InItsInvocation(items[1..], a);
    }
  }

  lemma {:induction false} LeavingDistinct(items: seq<Action>, ops: set<OperationId>)
    requires DistinctOps(items)
    ensures DistinctOps(Leaving(items, ops))
  {
    if items != [] {
      LeavingDistinct(items[1..], ops);
      LeavingAndStaying(items[1..], ops);
      var rest := Leaving(items[1..], ops);
      forall j | 0 <= j < |rest| ensures rest[j].op != items[0].op {
        assert rest[j] in items[1..];
      }
    }
  }

  /** Distinct within each invocation is distinct, if an operation has one invocation. */
  lemma {:induction false} DistinctThroughout(gone: seq<Action>)
    requires forall k :: DistinctOps(OfInvocation(gone, k))
    requires forall a, b :: a in gone && b in gone && a.op == b.op ==> a.invocation == b.invocation
    ensures DistinctOps(gone)
  {
    if gone != [] {
      var rest := gone[1..];
      forall k ensures DistinctOps(OfInvocation(rest, k)) {
        var all, part := OfInvocation(gone, k), OfInvocation(rest, k);
        assert DistinctOps(all) && part == all[|all| - |part|..];
      }
      DistinctThroughout(rest);
      forall j | 0 <= j < |rest| ensures rest[j].op != gone[0].op {
        var b := rest[j];
        assert b in gone && gone[0] in gone;
        if b.invocation == gone[0].invocation {
          InItsInvocation(rest, b);
          var all := OfInvocation(gone, b.invocation);
          assert all == [gone[0]] + OfInvocation(rest, b.invocation);
          var i :| 0 <= i < |OfInvocation(rest, b.invocation)| && OfInvocation(rest, b.invocation)[i] == b;
          assert DistinctOps(all) && all[i + 1] == b && all[0] == gone[0];
          assert all[0].op != all[i + 1].op;
        }
      }
    }
  }

  /** What `remove_unwatched` hands over, invocation by invocation. */
  ghost predicate TakenOut(s: Sched, ops: set<OperationId>, gone: seq<Action>) {
    forall k :: OfInvocation(gone, k) == Leaving(ItemsOf(s.critical, k), ops) + Leaving(ItemsOf(s.medium, k), ops)
  }

  lemma GoneWasQueued(s: Sched, ops: set<OperationId>, gone: seq<Action>, a: Action)
    requires TakenOut(s, ops, gone)
    ensures a in gone <==> IsQueued(s, a) && a.op in ops
  {
    InItsInvocation(gone, a);
    LeavingAndStaying(ItemsOf(s.critical, a.invocation), ops);
    LeavingAndStaying(ItemsOf(s.medium, a.invocation), ops);
  }

  lemma GoneDistinct(max: nat, s: Sys, ops: set<OperationId>, gone: seq<Action>)
    requires s in Safe(max) && TakenOut(s.sched, ops, gone)
    ensures DistinctOps(gone)
  {
    forall a, b | a in gone && b in gone && a.op == b.op ensures a == b {
      GoneWasQueued(s.sched, ops, gone, a);
      GoneWasQueued(s.sched, ops, gone, b);
      QueuedIsCurrent(max, s, a);
      assert b in SlotsOf(s.sched, a.op);
    }
    forall k ensures DistinctOps(OfInvocation(gone, k)) {
      PartsDistinct(max, s, ops, k);
    }
    DistinctThroughout(gone);
  }

  lemma PartsDistinct(max: nat, s: Sys, ops: set<OperationId>, k: string)
    requires s in Safe(max)
    ensures DistinctOps(Leaving(ItemsOf(s.sched.critical, k), ops) + Leaving(ItemsOf(s.sched.medium, k), ops))
  {
    var x, y := ItemsOf(s.sched.critical, k), ItemsOf(s.sched.medium, k);
    assert DistinctOps(x) && DistinctOps(y);
    LeavingDistinct(x, ops);
    LeavingDistinct(y, ops);
    LeavingAndStaying(x, ops);
    LeavingAndStaying(y, ops);
    var lx, ly := Leaving(x, ops), Leaving(y, ops);
    forall i, j | 0 <= i < |lx| && 0 <= j < |ly| ensures lx[i].op != ly[j].op {
      assert lx[i] in x && ly[j] in y;
      NotInBoth(max, s, k, lx[i], ly[j]);
    }
  }

  lemma NotInBoth(max: nat, s: Sys, k: string, a: Action, b: Action)
    requires s in Safe(max) && a in ItemsOf(s.sched.critical, k) && b in ItemsOf(s.sched.medium, k)
    ensures a.op != b.op
  {
    assert Own(s.sched.critical.queues[k].items, k) && InClass(s.sched.critical.queues[k].items, Critical);
    assert Own(s.sched.medium.queues[k].items, k) && InClass(s.sched.medium.queues[k].items, Medium);
    assert IsQueued(s.sched, a) && IsQueued(s.sched, b);
    QueuedIsCurrent(max, s, a);
    assert a.op == b.op ==> b in SlotsOf(s.sched, a.op);
  }

  function OpsOf(items: seq<Action>): set<OperationId> {
    set a | a in items :: a.op
  }

  lemma GoneAreUnwatched(s: Sys, ops: set<OperationId>, gone: seq<Action>)
    requires TakenOut(s.sched, ops, gone)
    ensures OpsOf(gone) == UnwatchedOps(s, ops)
  {
    forall op ensures op in OpsOf(gone) <==> op in UnwatchedOps(s, ops) {
      if op in OpsOf(gone) {
        var a :| a in gone && a.op == op;
        GoneWasQueued(s.sched, ops, gone, a);
        assert a in SlotsOf(s.sched, op);
      }
      if op in UnwatchedOps(s, ops) {
        var a :| a in SlotsOf(s.sched, op);
        GoneWasQueued(s.sched, ops, gone, a);
      }
    }
  }

  lemma NextGone(gone: seq<Action>, i: nat)
    requires i < |gone| && DistinctOps(gone)
    ensures gone[i].op in OpsOf(gone[i..]) && OpsOf(gone[i + 1..]) == OpsOf(gone[i..]) - {gone[i].op}
  {
    assert gone[i..][0] == gone[i];
    forall op ensures op in OpsOf(gone[i + 1..]) <==> op in OpsOf(gone[i..]) && op != gone[i].op {
      if op in OpsOf(gone[i + 1..]) {
        var a :| a in gone[i + 1..] && a.op == op;
        assert a in gone[i..];
      }
      if op in OpsOf(gone[i..]) && op != gone[i].op {
        var a :| a in gone[i..] && a.op == op;
        assert gone[i..] == [gone[i]] + gone[i + 1..];
      }
    }
  }

  /** The cancellation of `ops` done: those that were queued failed, and nothing else changed. */
  ghost predicate Cancelled(s0: Sys, ops: set<OperationId>, s: Sys) {
    forall op :: LocalOf(s, op) == AfterCancel(ops, op, LocalOf(s0, op))
  }

  lemma CancelEnds(s0: Sys, ops: set<OperationId>, s: Sys)
    requires s in CancelUnderWay(s0, ops, {})
    ensures Cancelled(s0, ops, s)
  {
    forall op ensures LocalOf(s, op) == AfterCancel(ops, op, LocalOf(s0, op)) {
      assert Of(s, op);
    }
  }
}
