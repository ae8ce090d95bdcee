/** What becomes of a reported result, over whole runs of the protocol. */
module Outcomes {
  import opened Prelude
  import opened Stages
  import opened FairQueues
  import opened Scheduling
  import opened Protocol
  import opened ProtocolTheorems

  // ----- The steps that touch the outcome of one operation -----

  /** What is being written, and what is written, about one operation. */
  datatype Told = Told(
    finishing: Option<Finish>,
    cancelling: Option<Finish>,
    recorded: Option<Outcome>,
    stored: Option<Outcome>)

  function ToldOf(s: Sys, op: OperationId): Told {
    Told(Get(s.finishing, op), Get(s.cancelling, op), Get(s.recorded, op), Get(s.results, op))
  }

  lemma MovedSame(s: Sys, o: OperationId, next: Stage, op: OperationId)
    requires o in s.machines
    ensures ToldOf(Moved(s, o, next), op) == ToldOf(s, op)
  {
  }

  lemma RequeuedSame(s: Sys, o: OperationId, a: Action, op: OperationId)
    requires o in s.machines
    ensures ToldOf(Requeued(s, o, a), op) == ToldOf(s, op)
  {
    MovedSame(s, o, Queued, op);
  }

  lemma SubmitSame(s: Sys, a: Action, now: nat, op: OperationId)
    requires a.op in s.machines
    ensures ToldOf(ApplySubmit(s, a, now), op) == ToldOf(s, op)
  {
    MovedSame(s, a.op, Queued, op);
    var (sched, owner) := Enqueue(s.sched, a, now);
    var t := Moved(s, a.op, Queued).(sched := sched);
    if owner == a.op {
      assert ApplySubmit(s, a, now) == t.(admitted := s.admitted[a.op := a]);
    } else {
      assert ApplySubmit(s, a, now) == t.(registered := s.registered - {a.op});
    }
  }

  lemma DeliverSame(s: Sys, o: OperationId, worker: nat, op: OperationId)
    requires o in s.dequeued && o in s.machines
    ensures ToldOf(ApplyDeliver(s, o, worker), op) == ToldOf(s, op)
  {
    if CanTransition(s.machines[o].stage, Assigned) {
      MovedSame(s, o, Assigned, op);
    }
  }

  lemma UndeliveredSame(s: Sys, o: OperationId, a: Action, op: OperationId)
    requires o in s.machines
    ensures ToldOf(Requeued(Moved(s, o, Assigned), o, a), op) == ToldOf(s, op)
  {
    MovedSame(s, o, Assigned, op);
    RequeuedSame(Moved(s, o, Assigned), o, a, op);
  }

  lemma FailedSame(s: Sys, o: OperationId, op: OperationId)
    requires o in s.dequeued && o in s.machines && CanTransition(s.machines[o].stage, Assigned)
    ensures ToldOf(ApplyFailDelivery(s, o), op) == ToldOf(s, op)
  {
    UndeliveredSame(s.(dequeued := s.dequeued - {o}), o, s.dequeued[o], op);
  }

  lemma FailDeliverySame(s: Sys, o: OperationId, op: OperationId)
    requires o in s.dequeued && o in s.machines
    ensures ToldOf(ApplyFailDelivery(s, o), op) == ToldOf(s, op)
  {
    if CanTransition(s.machines[o].stage, Assigned) {
      FailedSame(s, o, op);
    }
  }

  lemma TakeNextSame(cfg: Config, s: Sys, op: OperationId)
    requires Filed(s.sched)
    ensures ToldOf(ApplyTakeNext(cfg, s), op) == ToldOf(s, op)
  {
  }

  /** What the stage check of `finalize` lets through. */
  predicate Lets(s: Sys, o: OperationId, outcome: Outcome)
    requires o in s.machines
  {
    o in s.registered && CanTransition(s.machines[o].stage, FinalStage(outcome))
  }

  lemma LetThrough(s: Sys, o: OperationId, outcome: Outcome, op: OperationId)
    requires o in s.machines && Lets(s, o, outcome)
    ensures ToldOf(BeginFinalize(s, o, outcome), op)
         == if o == op then ToldOf(s, op).(finishing := Some(Finish(outcome, ToRecord))) else ToldOf(s, op)
  {
  }

  lemma HeldOff(s: Sys, o: OperationId, outcome: Outcome, op: OperationId)
    requires o in s.machines && !Lets(s, o, outcome)
    ensures ToldOf(BeginFinalize(s, o, outcome), op) == ToldOf(s, op)
  {
  }

  lemma BegunTells(s: Sys, op: OperationId, o: Outcome)
    requires op in s.machines
    ensures var told := ToldOf(BeginFinalize(s, op, o), op);
            told == ToldOf(s, op) || told == ToldOf(s, op).(finishing := Some(Finish(o, ToRecord)))
  {
    if Lets(s, op, o) {
      LetThrough(s, op, o, op);
    } else {
      HeldOff(s, op, o, op);
    }
  }

  lemma BegunSame(s: Sys, o: OperationId, outcome: Outcome, op: OperationId)
    requires o in s.machines && o != op
    ensures ToldOf(BeginFinalize(s, o, outcome), op) == ToldOf(s, op)
  {
    if Lets(s, o, outcome) {
      LetThrough(s, o, outcome, op);
    } else {
      HeldOff(s, o, outcome, op);
    }
  }

  lemma ReportSame(s: Sys, o: OperationId, outcome: Outcome, op: OperationId)
    requires o in s.machines && o != op
    ensures ToldOf(ApplyReport(s, o, outcome), op) == ToldOf(s, op)
  {
    BegunSame(s, o, outcome, op);
  }

  lemma SettleSame(max: nat, s: Sys, o: OperationId, op: OperationId)
    requires o in s.lost && o in s.machines && o != op
    ensures ToldOf(ApplySettleLost(max, s, o), op) == ToldOf(s, op)
  {
    var a, t := s.lost[o].(workerLosses := s.lost[o].workerLosses + 1), s.(lost := s.lost - {o});
    assert ToldOf(t, op) == ToldOf(s, op);
    if o in s.registered && a.workerLosses > max {
      BegunSame(t, o, ENGINE_FAILURE, op);
    } else {
      RequeuedSame(t, o, a, op);
    }
  }

  lemma FinishSame(s: Sys, o: OperationId, f: Finish, op: OperationId)
    requires o in s.machines && o != op
    ensures ToldOf(FinishStep(s, o, f), op) == ToldOf(s, op)
  {
  }

  lemma TakeUnwatchedTells(s: Sys, c: QueuePriority, ops: set<OperationId>, op: OperationId)
    ensures ToldOf(ApplyTakeUnwatched(s, c, ops), op)
         == if op in ops && WaitsIn(s.sched, c, op) then
              ToldOf(s, op).(cancelling := Some(Finish(ENGINE_FAILURE, ToRecord)))
            else
              ToldOf(s, op)
  {
  }

  /** The steps that can tell something new about `op`. */
  predicate Tells(step: Step, op: OperationId) {
    || ((step.Report? || step.SettleLost? || step.Advance? || step.AdvanceCancel?) && step.op == op)
    || (step.TakeUnwatched? && op in step.ops)
  }

  lemma OthersTellNothing(cfg: Config, s: Sys, step: Step, op: OperationId)
    requires Filed(s.sched) && Enabled(s, step) && !Tells(step, op)
    ensures ToldOf(Apply(cfg, s, step), op) == ToldOf(s, op)
  {
    match step
    case Submit(a, now) => SubmitSame(s, a, now, op);
    case TakeNext => TakeNextSame(cfg, s, op);
    case Deliver(o, worker) => DeliverSame(s, o, worker, op);
    case FailDelivery(o) => FailDeliverySame(s, o, op);
    case SettleLost(o) => SettleSame(cfg.maxWorkerLosses, s, o, op);
    case Report(o, outcome) => ReportSame(s, o, outcome, op);
    case Advance(o) => FinishSame(s, o, s.finishing[o], op);
    case AdvanceCancel(o) => FinishSame(s, o, s.cancelling[o], op);
    case TakeUnwatched(c, ops) => TakeUnwatchedTells(s, c, ops, op);
    case _ =>
  }

  lemma ActiveLets(max: nat, s: Sys, op: OperationId, o: Outcome)
    requires s in Safe(max) && op in s.machines && op in s.active
    ensures Lets(s, op, o)
  {
    LocalIsLegal(max, s, op);
    var l := LocalOf(s, op);
    assert l.active == Get(s.active, op) && l.machine == Some(s.machines[op]) && l.registered == (op in s.registered);
  }

  lemma LetsWhileActive(max: nat, s: Sys, op: OperationId, o: Outcome)
    requires s in Safe(max) && Enabled(s, Report(op, o)) && !LateError(s, Report(op, o)) && Lets(s, op, o)
    ensures op in s.active
  {
    LocalIsLegal(max, s, op);
    var l := LocalOf(s, op);
    assert l.active == Get(s.active, op) && l.lost == Get(s.lost, op) && l.finishing == Get(s.finishing, op);
    assert l.machine == Some(s.machines[op]) && l.deliveries > 0;
  }

  /** A report is taken up, outside late errors, exactly while its operation is active. */
  lemma ReportTells(max: nat, s: Sys, op: OperationId, o: Outcome)
    requires s in Safe(max) && Enabled(s, Report(op, o)) && !LateError(s, Report(op, o))
    ensures ToldOf(ApplyReport(s, op, o), op)
         == if op in s.active then ToldOf(s, op).(finishing := Some(Finish(o, ToRecord))) else ToldOf(s, op)
  {
    if op in s.active {
      ActiveLets(max, s, op, o);
      LetThrough(s, op, o, op);
    } else {
      if Lets(s, op, o) {
        LetsWhileActive(max, s, op, o);
      }
      HeldOff(s, op, o, op);
    }
  }

  lemma SettleTells(max: nat, s: Sys, op: OperationId)
    requires op in s.lost && op in s.machines
    ensures var told := ToldOf(ApplySettleLost(max, s, op), op);
            || told == ToldOf(s, op)
            || (s.lost[op].workerLosses >= max &&
                told == ToldOf(s, op).(finishing := Some(Finish(ENGINE_FAILURE, ToRecord))))
  {
    var a, t := s.lost[op].(workerLosses := s.lost[op].workerLosses + 1), s.(lost := s.lost - {op});
    assert ToldOf(t, op) == ToldOf(s, op);
    if op in s.registered && a.workerLosses > max {
      BegunTells(t, op, ENGINE_FAILURE);
    } else {
      RequeuedSame(t, op, a, op);
    }
  }

  lemma AdvanceTells(s: Sys, op: OperationId)
    requires op in s.finishing && op in s.machines
    ensures var f, told, before := s.finishing[op], ToldOf(ApplyAdvance(s, op), op), ToldOf(s, op);
            && told.recorded == (if f.phase.ToRecord? then Some(f.outcome) else before.recorded)
            && told.stored == (if f.phase.ToStore? then Some(f.outcome) else before.stored)
            && told.finishing == (if f.phase.ToRelease? then None else Some(NextPhase(f)))
            && told.cancelling == before.cancelling
  {
  }

  lemma AdvanceCancelTells(s: Sys, op: OperationId)
    requires op in s.cancelling && op in s.machines
    ensures var f, told, before := s.cancelling[op], ToldOf(ApplyAdvanceCancel(s, op), op), ToldOf(s, op);
            && told.recorded == (if f.phase.ToRecord? then Some(f.outcome) else before.recorded)
            && told.stored == (if f.phase.ToStore? then Some(f.outcome) else before.stored)
            && told.cancelling == (if f.phase.ToRelease? then None else Some(NextPhase(f)))
            && told.finishing == before.finishing
  {
  }

  // ----- Over a whole run -----

  /** A step that ends `op` with a failure of the engine's own: one delivery too many was
      lost, or nobody waits for it and it is still queued. */
  ghost predicate GivesUp(max: nat, s: Sys, step: Step, op: OperationId) {
    || (step == SettleLost(op) && Deliveries(s, op) > max)
    || (step.TakeUnwatched? && op in step.ops && WaitsIn(s.sched, step.priority, op))
  }

  /** `o` came to the engine for `op` before the `n`th state: reported while `op` was
      active, or as the failure of an operation given up. */
  ghost predicate Came(max: nat, states: seq<Sys>, steps: seq<Step>, n: nat, op: OperationId, o: Outcome)
    requires n <= |steps| < |states|
  {
    || (exists k :: 0 <= k < n && steps[k] == Report(op, o) && op in states[k].active)
    || (o == ENGINE_FAILURE && exists k :: 0 <= k < n && GivesUp(max, states[k], steps[k], op))
  }

  /** The outcomes told about one operation. */
  function Named(told: Told): set<Outcome> {
    (if told.finishing.Some? then {told.finishing.value.outcome} else {})
    + (if told.cancelling.Some? then {told.cancelling.value.outcome} else {})
    + (if told.recorded.Some? then {told.recorded.value} else {})
    + (if told.stored.Some? then {told.stored.value} else {})
  }

  /** The outcome that a step brings to `op`. */
  ghost function Brought(max: nat, s: Sys, step: Step, op: OperationId): set<Outcome> {
    match step
    case Report(o, outcome) => if o == op && op in s.active then {outcome} else {}
    case SettleLost(o) => if o == op && Deliveries(s, op) > max then {ENGINE_FAILURE} else {}
    case TakeUnwatched(c, ops) => if op in ops && WaitsIn(s.sched, c, op) then {ENGINE_FAILURE} else {}
    case _ => {}
  }

  lemma WriteNames(cfg: Config, s: Sys, step: Step, op: OperationId)
    requires Filed(s.sched) && Enabled(s, step) && (step == Advance(op) || step == AdvanceCancel(op))
    ensures Named(ToldOf(Apply(cfg, s, step), op)) <= Named(ToldOf(s, op))
  {
    if step.Advance? {
      AdvanceTells(s, op);
    } else {
      AdvanceCancelTells(s, op);
    }
  }

  lemma LostSoOften(max: nat, s: Sys, op: OperationId)
    requires s in Safe(max) && op in s.lost
    ensures s.lost[op].workerLosses + 1 == Deliveries(s, op)
  {
    LocalIsLegal(max, s, op);
    assert LocalOf(s, op).lost == Some(s.lost[op]) && LocalOf(s, op).deliveries == Deliveries(s, op);
  }

  lemma StepNames(cfg: Config, s: Sys, step: Step, op: OperationId)
    requires s in Safe(cfg.maxWorkerLosses) && Filed(s.sched) && Enabled(s, step) && !LateError(s, step)
    ensures Named(ToldOf(Apply(cfg, s, step), op)) <= Named(ToldOf(s, op)) + Brought(cfg.maxWorkerLosses, s, step, op)
  {
    if !Tells(step, op) {
      OthersTellNothing(cfg, s, step, op);
    } else {
      match step
      case Report(_, o) => ReportTells(cfg.maxWorkerLosses, s, op, o);
      case SettleLost(_) =>
        LostSoOften(cfg.maxWorkerLosses, s, op);
        SettleTells(cfg.maxWorkerLosses, s, op);
      case TakeUnwatched(c, ops) => TakeUnwatchedTells(s, c, ops, op);
      case _ => WriteNames(cfg, s, step, op);
    }
  }

  lemma {:induction false} NamedCame(cfg: Config, states: seq<Sys>, steps: seq<Step>, n: nat, op: OperationId)
    requires IsRun(cfg, states, steps) && n < |states|
    ensures forall o :: o in Named(ToldOf(states[n], op)) ==> Came(cfg.maxWorkerLosses, states, steps, n, op, o)
  {
    if n > 0 {
      NamedCame(cfg, states, steps, n - 1, op);
      RunIsSafe(cfg, states, steps, n - 1);
      StepNames(cfg, states[n - 1], steps[n - 1], op);
    }
  }

  /** A stored result is one that was reported while the operation was with a worker, or
      the failure of an operation that was lost with its worker once more than allowed, or
      was cancelled in the queue. */
  lemma StoredIsReported(cfg: Config, states: seq<Sys>, steps: seq<Step>, n: nat, op: OperationId)
    requires IsRun(cfg, states, steps) && n < |states| && op in states[n].results
    ensures var o := states[n].results[op];
            || (exists k :: 0 <= k < n && steps[k] == Report(op, o) && op in states[k].active)
            || (o == Outcome(true, 0) &&
                exists k :: 0 <= k < n && GivesUp(cfg.maxWorkerLosses, states[k], steps[k], op))
  {
    NamedCame(cfg, states, steps, n, op);
    assert states[n].results[op] in Named(ToldOf(states[n], op));
  }

  /** The writes made for `op` by the steps from `from` up to `to`. */
  ghost function Advances(steps: seq<Step>, from: nat, to: nat, op: OperationId): nat
    requires to <= |steps|
  {
    if to <= from then 0 else Advances(steps, from, to - 1, op) + One(steps[to - 1] == Advance(op))
  }

  function PhaseAt(writes: nat): Phase {
    if writes == 0 then ToRecord else if writes == 1 then ToStore else if writes == 2 then ToTurn else ToRelease
  }

  /** `op` is `writes` writes into being ended with `o`. */
  ghost predicate Ending(s: Sys, op: OperationId, o: Outcome, writes: nat) {
    if writes < 4 then
      op in s.finishing && s.finishing[op] == Finish(o, PhaseAt(writes))
    else
      && writes == 4 && op in s.machines && IsTerminal(s.machines[op].stage)
      && op !in s.finishing && op !in s.cancelling && op in s.results && s.results[op] == o
  }

  /** An operation being finished is nowhere else. */
  lemma OnlyFinishing(max: nat, s: Sys, op: OperationId)
    requires s in Safe(max) && op in s.finishing
    ensures op !in s.lost && op !in s.cancelling
  {
    LocalIsLegal(max, s, op);
    var l := LocalOf(s, op);
    assert l.finishing.Some? && l.lost == Get(s.lost, op) && l.cancelling == Get(s.cancelling, op);
  }

  lemma FinishingStays(cfg: Config, s: Sys, step: Step, op: OperationId)
    requires s in Safe(cfg.maxWorkerLosses) && Filed(s.sched) && Enabled(s, step)
    requires op in s.finishing && step != Advance(op)
    ensures ToldOf(Apply(cfg, s, step), op).finishing == Some(s.finishing[op])
  {
    OnlyFinishing(cfg.maxWorkerLosses, s, op);
    if step.TakeUnwatched? {
      TakeUnwatchedTells(s, step.priority, step.ops, op);
    } else {
      OthersTellNothing(cfg, s, step, op);
    }
  }

  lemma EndingGoesOn(cfg: Config, s: Sys, step: Step, op: OperationId, o: Outcome, writes: nat)
    requires s in Safe(cfg.maxWorkerLosses) && Filed(s.sched) && Enabled(s, step)
    requires writes < 4 && Ending(s, op, o, writes)
    ensures Ending(Apply(cfg, s, step), op, o, writes + One(step == Advance(op)))
  {
    var t := Apply(cfg, s, step);
    assert ToldOf(t, op).finishing == Get(t.finishing, op);
    if step != Advance(op) {
      FinishingStays(cfg, s, step, op);
    } else if writes < 3 {
      AdvanceTells(s, op);
    } else {
      LastWrite(cfg, s, op, o);
    }
  }

  lemma LastWrite(cfg: Config, s: Sys, op: OperationId, o: Outcome)
    requires s in Safe(cfg.maxWorkerLosses) && op in s.finishing && op in s.machines && Ending(s, op, o, 3)
    ensures Ending(ApplyAdvance(s, op), op, o, 4)
  {
    LocalIsLegal(cfg.maxWorkerLosses, s, op);
    var l := LocalOf(s, op);
    assert l.finishing.Some? && l.stored == Get(s.results, op) && l.cancelling == Get(s.cancelling, op);
    assert l.machine == Some(s.machines[op]) && l.action == Get(s.admitted, op);
    AdvanceTells(s, op);
    AdvanceStays(s, op, op);
    var t := ApplyAdvance(s, op);
    assert ToldOf(t, op).finishing == Get(t.finishing, op) && ToldOf(t, op).stored == Get(t.results, op);
    assert ToldOf(t, op).cancelling == Get(t.cancelling, op);
  }

  /** An ended operation is nowhere. */
  lemma Nowhere(max: nat, s: Sys, op: OperationId, o: Outcome)
    requires s in Safe(max) && Ending(s, op, o, 4)
    ensures op !in s.lost && op !in s.active && !OwnsItsDigest(s, op) && SlotsOf(s.sched, op) == iset{}
    ensures op in s.recorded && s.recorded[op] == o && s.machines[op].stage == FinalStage(o)
  {
    LocalIsLegal(max, s, op);
    var l := LocalOf(s, op);
    assert l.finishing == None && l.cancelling == None && l.lost == Get(s.lost, op) && l.active == Get(s.active, op);
    assert l.machine == Some(s.machines[op]) && l.action == Get(s.admitted, op);
    assert l.stored == Some(o) && l.recorded == Get(s.recorded, op);
  }

  lemma NotWaiting(s: Sched, c: QueuePriority, op: OperationId)
    requires SlotsOf(s, op) == iset{}
    ensures !WaitsIn(s, c, op)
  {
    assert forall a :: IsQueued(s, a) && a.op == op ==> a in SlotsOf(s, op);
  }

  lemma EndedTellsNothing(cfg: Config, s: Sys, step: Step, op: OperationId, o: Outcome)
    requires s in Safe(cfg.maxWorkerLosses) && Filed(s.sched) && Enabled(s, step) && !LateError(s, step)
    requires Ending(s, op, o, 4)
    ensures step != Advance(op) && ToldOf(Apply(cfg, s, step), op) == ToldOf(s, op)
  {
    Nowhere(cfg.maxWorkerLosses, s, op, o);
    if step.TakeUnwatched? {
      NotWaiting(s.sched, step.priority, op);
      TakeUnwatchedTells(s, step.priority, step.ops, op);
    } else if step.Report? && step.op == op {
      ReportTells(cfg.maxWorkerLosses, s, op, step.outcome);
    } else {
      OthersTellNothing(cfg, s, step, op);
    }
  }

  lemma EndedStays(cfg: Config, s: Sys, step: Step, op: OperationId, o: Outcome)
    requires s in Safe(cfg.maxWorkerLosses) && Filed(s.sched) && Enabled(s, step) && !LateError(s, step)
    requires Ending(s, op, o, 4)
    ensures step != Advance(op) && Ending(Apply(cfg, s, step), op, o, 4)
  {
    EndedTellsNothing(cfg, s, step, op, o);
    StepKeepsTerminal(cfg, s, step, op);
    var t := Apply(cfg, s, step);
    assert ToldOf(t, op).finishing == Get(t.finishing, op) && ToldOf(t, op).stored == Get(t.results, op);
    assert ToldOf(t, op).cancelling == Get(t.cancelling, op);
  }

  lemma EndingBegins(max: nat, s: Sys, op: OperationId, o: Outcome)
    requires s in Safe(max) && Enabled(s, Report(op, o)) && !LateError(s, Report(op, o)) && op in s.active
    ensures Ending(ApplyReport(s, op, o), op, o, 0)
  {
    ReportTells(max, s, op, o);
    var t := ApplyReport(s, op, o);
    assert ToldOf(t, op).finishing == Get(t.finishing, op);
  }

  lemma EndingNext(cfg: Config, s: Sys, step: Step, op: OperationId, o: Outcome, writes: nat)
    requires s in Safe(cfg.maxWorkerLosses) && Filed(s.sched) && Enabled(s, step) && !LateError(s, step)
    requires writes <= 4 && Ending(s, op, o, writes)
    ensures writes + One(step == Advance(op)) <= 4
    ensures Ending(Apply(cfg, s, step), op, o, writes + One(step == Advance(op)))
  {
    if writes < 4 {
      EndingGoesOn(cfg, s, step, op, o, writes);
    } else {
      EndedStays(cfg, s, step, op, o);
    }
  }

  /** However far the ending of `op` has got before a step, the step takes it on by its own write. */
  ghost predicate TakesOn(s: Sys, step: Step, t: Sys, op: OperationId, o: Outcome) {
    forall writes: nat {:trigger Ending(s, op, o, writes)} :: writes <= 4 && Ending(s, op, o, writes) ==>
      var more := writes + One(step == Advance(op));
      more <= 4 && Ending(t, op, o, more)
  }

  lemma {:induction false} TakenOn(states: seq<Sys>, steps: seq<Step>, k: nat, n: nat, op: OperationId, o: Outcome)
    requires k < n < |states| == |steps| + 1 && Ending(states[k + 1], op, o, 0)
    requires forall i :: k < i < |steps| ==> TakesOn(states[i], steps[i], states[i + 1], op, o)
    ensures Advances(steps, k + 1, n, op) <= 4 && Ending(states[n], op, o, Advances(steps, k + 1, n, op))
  {
    if n > k + 1 {
      TakenOn(states, steps, k, n - 1, op, o);
      assert TakesOn(states[n - 1], steps[n - 1], states[n], op, o);
    }
  }

  lemma StepTakesOn(cfg: Config, s: Sys, step: Step, op: OperationId, o: Outcome)
    requires s in Safe(cfg.maxWorkerLosses) && Filed(s.sched) && Enabled(s, step) && !LateError(s, step)
    ensures TakesOn(s, step, Apply(cfg, s, step), op, o)
  {
    forall writes: nat | writes <= 4 && Ending(s, op, o, writes)
      ensures writes + One(step == Advance(op)) <= 4
      ensures Ending(Apply(cfg, s, step), op, o, writes + One(step == Advance(op)))
    {
      EndingNext(cfg, s, step, op, o, writes);
    }
  }

  lemma EndingThroughout(
      cfg: Config, states: seq<Sys>, steps: seq<Step>, k: nat, n: nat, op: OperationId, o: Outcome)
    requires IsRun(cfg, states, steps) && k < n < |states|
    requires steps[k] == Report(op, o) && op in states[k].active
    ensures Advances(steps, k + 1, n, op) <= 4 && Ending(states[n], op, o, Advances(steps, k + 1, n, op))
  {
    RunIsSafe(cfg, states, steps, k);
    EndingBegins(cfg.maxWorkerLosses, states[k], op, o);
    forall i | k < i < |steps| ensures TakesOn(states[i], steps[i], states[i + 1], op, o) {
      RunIsSafe(cfg, states, steps, i);
      StepTakesOn(cfg, states[i], steps[i], op, o);
    }
    TakenOn(states, steps, k, n, op, o);
  }

  lemma HalfWritten(max: nat, s: Sys, op: OperationId, o: Outcome, writes: nat)
    requires s in Safe(max) && writes < 4 && Ending(s, op, o, writes)
    ensures Get(s.recorded, op) == (if writes >= 1 then Some(o) else None)
    ensures Get(s.results, op) == (if writes >= 2 then Some(o) else None)
    ensures op in s.machines && s.machines[op].stage == (if writes >= 3 then FinalStage(o) else Assigned)
    ensures OwnsItsDigest(s, op)
  {
    LocalIsLegal(max, s, op);
    var l := LocalOf(s, op);
    assert l.finishing.Some? && l.machine == Get(s.machines, op) && l.action == Get(s.admitted, op);
    assert l.stored == Get(s.results, op) && l.recorded == Get(s.recorded, op);
  }

  /** A report for an active operation is what gets recorded, stored and shown, whatever
      else happens meanwhile: of the writes `Advance(op)` that follow, the first records
      that report, the second stores it, the third turns the machine to the stage it
      calls for and the fourth releases the digest; there is no fifth. */
  lemma ReportIsStored(
      cfg: Config, states: seq<Sys>, steps: seq<Step>, k: nat, n: nat, op: OperationId, o: Outcome)
    requires IsRun(cfg, states, steps) && k < n < |states|
    requires steps[k] == Report(op, o) && op in states[k].active
    ensures var s, writes := states[n], Advances(steps, k + 1, n, op);
            && writes <= 4
            && Get(s.recorded, op) == (if writes >= 1 then Some(o) else None)
            && Get(s.results, op) == (if writes >= 2 then Some(o) else None)
            && op in s.machines
            && s.machines[op].stage == (if writes < 3 then Assigned else if o.error then Failed else Completed)
            && (OwnsItsDigest(s, op) <==> writes < 4)
  {
    EndingThroughout(cfg, states, steps, k, n, op, o);
    RunIsSafe(cfg, states, steps, n);
    var writes := Advances(steps, k + 1, n, op);
    if writes < 4 {
      HalfWritten(cfg.maxWorkerLosses, states[n], op, o, writes);
    } else {
      Nowhere(cfg.maxWorkerLosses, states[n], op, o);
    }
  }
}
