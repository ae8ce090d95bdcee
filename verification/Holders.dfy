/** Which worker an operation is with, over whole runs of the protocol. */
module Holders {
  import opened Prelude
  import opened Stages
  import opened FairQueues
  import opened Scheduling
  import opened Protocol
  import opened ProtocolTheorems
  import opened Outcomes

  function HolderOf(s: Sys, op: OperationId): Option<ActiveExecution> {
    Get(s.active, op)
  }

  lemma MovedHolder(s: Sys, o: OperationId, next: Stage, op: OperationId)
    requires o in s.machines
    ensures HolderOf(Moved(s, o, next), op) == HolderOf(s, op)
  {
  }

  lemma RequeuedHolder(s: Sys, o: OperationId, a: Action, op: OperationId)
    requires o in s.machines
    ensures HolderOf(Requeued(s, o, a), op) == HolderOf(s, op)
  {
    MovedHolder(s, o, Queued, op);
  }

  lemma SubmitHolder(s: Sys, a: Action, now: nat, op: OperationId)
    requires a.op in s.machines
    ensures HolderOf(ApplySubmit(s, a, now), op) == HolderOf(s, op)
  {
    MovedHolder(s, a.op, Queued, op);
    var (sched, owner) := Enqueue(s.sched, a, now);
    var t := Moved(s, a.op, Queued).(sched := sched);
    if owner == a.op {
      assert ApplySubmit(s, a, now) == t.(admitted := s.admitted[a.op := a]);
    } else {
      assert ApplySubmit(s, a, now) == t.(registered := s.registered - {a.op});
    }
  }

  lemma SentHolder(s: Sys, o: OperationId, worker: nat, op: OperationId)
    requires o in s.dequeued && o in s.machines && CanTransition(s.machines[o].stage, Assigned)
    ensures HolderOf(ApplyDeliver(s, o, worker), op)
         == if o == op then Some(ActiveExecution(worker, s.dequeued[o])) else HolderOf(s, op)
  {
  }

  lemma UnsentHolder(s: Sys, o: OperationId, worker: nat, op: OperationId)
    requires o in s.dequeued && o in s.machines && !CanTransition(s.machines[o].stage, Assigned)
    ensures HolderOf(ApplyDeliver(s, o, worker), op) == HolderOf(s, op)
  {
  }

  lemma UndeliveredHolder(s: Sys, o: OperationId, a: Action, op: OperationId)
    requires o in s.machines
    ensures HolderOf(Requeued(Moved(s, o, Assigned), o, a), op) == HolderOf(s, op)
  {
    MovedHolder(s, o, Assigned, op);
    RequeuedHolder(Moved(s, o, Assigned), o, a, op);
  }

  lemma FailedHolder(s: Sys, o: OperationId, op: OperationId)
    requires o in s.dequeued && o in s.machines && CanTransition(s.machines[o].stage, Assigned)
    ensures HolderOf(ApplyFailDelivery(s, o), op) == HolderOf(s, op)
  {
    UndeliveredHolder(s.(dequeued := s.dequeued - {o}), o, s.dequeued[o], op);
  }

  lemma FailDeliveryHolder(s: Sys, o: OperationId, op: OperationId)
    requires o in s.dequeued && o in s.machines
    ensures HolderOf(ApplyFailDelivery(s, o), op) == HolderOf(s, op)
  {
    if CanTransition(s.machines[o].stage, Assigned) {
      FailedHolder(s, o, op);
    }
  }

  lemma TakeNextHolder(cfg: Config, s: Sys, op: OperationId)
    requires Filed(s.sched)
    ensures HolderOf(ApplyTakeNext(cfg, s), op) == HolderOf(s, op)
  {
  }

  /** The same holder, or none. */
  predicate KeptOrGone(before: Option<ActiveExecution>, after: Option<ActiveExecution>) {
    after == None || after == before
  }

  lemma LetHolder(s: Sys, o: OperationId, outcome: Outcome, op: OperationId)
    requires o in s.machines && Lets(s, o, outcome)
    ensures HolderOf(BeginFinalize(s, o, outcome), op) == if o == op then None else HolderOf(s, op)
  {
  }

  lemma UnlistedHolder(s: Sys, o: OperationId, outcome: Outcome, op: OperationId)
    requires o in s.machines && o !in s.registered
    ensures HolderOf(BeginFinalize(s, o, outcome), op) == if o == op then None else HolderOf(s, op)
  {
  }

  lemma RefusedHolder(s: Sys, o: OperationId, outcome: Outcome, op: OperationId)
    requires o in s.machines && o in s.registered && !Lets(s, o, outcome)
    ensures HolderOf(BeginFinalize(s, o, outcome), op) == HolderOf(s, op)
  {
  }

  lemma BegunHolder(s: Sys, o: OperationId, outcome: Outcome, op: OperationId)
    requires o in s.machines
    ensures o != op ==> HolderOf(BeginFinalize(s, o, outcome), op) == HolderOf(s, op)
    ensures KeptOrGone(HolderOf(s, op), HolderOf(BeginFinalize(s, o, outcome), op))
  {
    if Lets(s, o, outcome) {
      LetHolder(s, o, outcome, op);
    } else if o in s.registered {
      RefusedHolder(s, o, outcome, op);
    } else {
      UnlistedHolder(s, o, outcome, op);
    }
  }

  lemma ReportHolder(s: Sys, o: OperationId, outcome: Outcome, op: OperationId)
    requires o in s.machines
    ensures o != op ==> HolderOf(ApplyReport(s, o, outcome), op) == HolderOf(s, op)
    ensures KeptOrGone(HolderOf(s, op), HolderOf(ApplyReport(s, o, outcome), op))
  {
    BegunHolder(s, o, outcome, op);
  }

  lemma SettleHolder(max: nat, s: Sys, o: OperationId, op: OperationId)
    requires o in s.lost && o in s.machines
    ensures o != op ==> HolderOf(ApplySettleLost(max, s, o), op) == HolderOf(s, op)
    ensures KeptOrGone(HolderOf(s, op), HolderOf(ApplySettleLost(max, s, o), op))
  {
    var a, t := s.lost[o].(workerLosses := s.lost[o].workerLosses + 1), s.(lost := s.lost - {o});
    assert HolderOf(t, op) == HolderOf(s, op);
    if o in s.registered && a.workerLosses > max {
      BegunHolder(t, o, ENGINE_FAILURE, op);
    } else {
      RequeuedHolder(t, o, a, op);
    }
  }

  lemma OthersKeepHolder(cfg: Config, s: Sys, step: Step, op: OperationId)
    requires Filed(s.sched) && Enabled(s, step) && !step.Deliver?
    ensures KeptOrGone(HolderOf(s, op), HolderOf(Apply(cfg, s, step), op))
    ensures !step.LoseWorker? && !((step.Report? || step.SettleLost?) && step.op == op) ==>
              HolderOf(Apply(cfg, s, step), op) == HolderOf(s, op)
  {
    match step
    case Submit(a, now) => SubmitHolder(s, a, now, op);
    case TakeNext => TakeNextHolder(cfg, s, op);
    case FailDelivery(o) => FailDeliveryHolder(s, o, op);
    case SettleLost(o) => SettleHolder(cfg.maxWorkerLosses, s, o, op);
    case Report(o, outcome) => ReportHolder(s, o, outcome, op);
    case _ =>
  }

  /** `steps[k]` gave `op` to `worker`, and up to the `n`th state neither was the worker
      lost nor the operation given away again. */
  ghost predicate GivenAt(steps: seq<Step>, k: nat, n: nat, op: OperationId, worker: nat) {
    && k < n <= |steps| && steps[k] == Deliver(op, worker)
    && forall i :: k < i < n ==> steps[i] != LoseWorker(worker) && !(steps[i].Deliver? && steps[i].op == op)
  }

  lemma StillGiven(steps: seq<Step>, k: nat, n: nat, op: OperationId, worker: nat)
    requires n < |steps| && GivenAt(steps, k, n, op, worker)
    requires steps[n] != LoseWorker(worker) && !(steps[n].Deliver? && steps[n].op == op)
    ensures GivenAt(steps, k, n + 1, op, worker)
  {
  }

  lemma NotBoth(max: nat, s: Sys, op: OperationId)
    requires s in Safe(max) && op in s.active
    ensures op !in s.dequeued && op !in s.lost
  {
    LocalIsLegal(max, s, op);
    var l := LocalOf(s, op);
    assert l.active == Get(s.active, op) && l.dequeued == Get(s.dequeued, op) && l.lost == Get(s.lost, op);
  }

  lemma HolderStep(cfg: Config, s: Sys, step: Step, op: OperationId)
    requires s in Safe(cfg.maxWorkerLosses) && Filed(s.sched) && Enabled(s, step)
    ensures var h := HolderOf(Apply(cfg, s, step), op);
            h.Some? ==>
              if step.Deliver? && step.op == op then step.worker == h.value.worker
              else h == HolderOf(s, op) && step != LoseWorker(h.value.worker)
  {
    if op in s.active {
      NotBoth(cfg.maxWorkerLosses, s, op);
    }
    if step.Deliver? {
      if CanTransition(s.machines[step.op].stage, Assigned) {
        SentHolder(s, step.op, step.worker, op);
      } else {
        UnsentHolder(s, step.op, step.worker, op);
      }
    } else {
      OthersKeepHolder(cfg, s, step, op);
    }
  }

  /** What the table of running executions says of an operation is true: the worker
      named is the one it was last given to, and that worker was not lost since. */
  lemma {:induction false} HeldByItsWorker(cfg: Config, states: seq<Sys>, steps: seq<Step>, n: nat, op: OperationId)
    returns (k: nat)
    requires IsRun(cfg, states, steps) && n < |states| && op in states[n].active
    ensures GivenAt(steps, k, n, op, states[n].active[op].worker)
  {
    assert states[0].active == map[];
    var s, step := states[n - 1], steps[n - 1];
    RunIsSafe(cfg, states, steps, n - 1);
    HolderStep(cfg, s, step, op);
    assert HolderOf(states[n], op) == Some(states[n].active[op]) && HolderOf(s, op) == Get(s.active, op);
    if step.Deliver? && step.op == op {
      k := n - 1;
    } else {
      k := HeldByItsWorker(cfg, states, steps, n - 1, op);
      StillGiven(steps, k, n - 1, op, states[n].active[op].worker);
    }
  }

  lemma LossHolder(s: Sys, worker: nat, op: OperationId)
    requires op in s.active
    ensures HolderOf(ApplyLoseWorker(s, worker), op)
         == if s.active[op].worker == worker then None else HolderOf(s, op)
  {
  }

  lemma TakenUpLeaves(s: Sys, op: OperationId, o: Outcome)
    requires op in s.machines && Lets(s, op, o)
    ensures HolderOf(ApplyReport(s, op, o), op) == None
  {
    assert BeginFinalize(s, op, o).active == s.active - {op};
  }

  lemma ReportLeaves(max: nat, s: Sys, op: OperationId, o: Outcome)
    requires s in Safe(max) && op in s.machines && op in s.active
    ensures HolderOf(ApplyReport(s, op, o), op) == None
  {
    ActiveLets(max, s, op, o);
    TakenUpLeaves(s, op, o);
  }

  /** An operation leaves its worker exactly when that worker is lost or a result for the
      operation is reported, whoever reports it. */
  lemma LeavesIff(cfg: Config, states: seq<Sys>, steps: seq<Step>, n: nat, op: OperationId)
    requires IsRun(cfg, states, steps) && n < |steps| && op in states[n].active
    ensures op !in states[n + 1].active <==>
              steps[n] == LoseWorker(states[n].active[op].worker) || (steps[n].Report? && steps[n].op == op)
  {
    var s, step, max := states[n], steps[n], cfg.maxWorkerLosses;
    RunIsSafe(cfg, states, steps, n);
    NotBoth(max, s, op);
    assert HolderOf(states[n + 1], op) == Get(states[n + 1].active, op) && HolderOf(s, op).Some?;
    match step
    case LoseWorker(worker) => LossHolder(s, worker, op);
    case Report(o, outcome) =>
      if o == op {
        ReportLeaves(max, s, op, outcome);
      } else {
        ReportHolder(s, o, outcome, op);
      }
    case Deliver(o, worker) =>
      if CanTransition(s.machines[o].stage, Assigned) {
        SentHolder(s, o, worker, op);
      } else {
        UnsentHolder(s, o, worker, op);
      }
    case _ => OthersKeepHolder(cfg, s, step, op);
  }
}
