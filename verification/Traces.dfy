/** Runs given by their steps alone, and the steps that end an operation. */
module Traces {
  import opened Prelude
  import opened Stages
  import opened FairQueues
  import opened Scheduling
  import opened Protocol
  import opened ProtocolTheorems

  ghost predicate Ready(s: Sys, step: Step) {
    Filed(s.sched) && Enabled(s, step) && !LateError(s, step)
  }

  /** Where the steps lead from `s`, if they can all be taken in order. */
  ghost function After(cfg: Config, s: Sys, steps: seq<Step>): Option<Sys> {
    if steps == [] then Some(s)
    else
      match After(cfg, s, steps[..|steps| - 1])
      case None => None
      case Some(t) => if Ready(t, steps[|steps| - 1]) then Some(Apply(cfg, t, steps[|steps| - 1])) else None
  }

  lemma AfterStep(cfg: Config, s: Sys, steps: seq<Step>, t: Sys, step: Step)
    requires After(cfg, s, steps) == Some(t) && Ready(t, step)
    ensures After(cfg, s, steps + [step]) == Some(Apply(cfg, t, step))
  {
    assert (steps + [step])[..|steps|] == steps;
  }

  lemma {:induction false} AfterIsSafe(cfg: Config, s: Sys, steps: seq<Step>, t: Sys)
    requires s in Safe(cfg.maxWorkerLosses) && After(cfg, s, steps) == Some(t)
    ensures t in Safe(cfg.maxWorkerLosses)
    decreases |steps|
  {
    if steps != [] {
      var u := After(cfg, s, steps[..|steps| - 1]).value;
      AfterIsSafe(cfg, s, steps[..|steps| - 1], u);
      StepIsSafe(cfg, u, steps[|steps| - 1]);
    }
  }

  /** Steps that can be taken from the start are a run, and what holds in every
      run holds where they lead. */
  lemma {:induction false} AfterIsRun(cfg: Config, steps: seq<Step>, t: Sys) returns (states: seq<Sys>)
    requires After(cfg, START, steps) == Some(t)
    ensures IsRun(cfg, states, steps) && states[|steps|] == t
    decreases |steps|
  {
    if steps == [] {
      states := [START];
    } else {
      var init := steps[..|steps| - 1];
      var u := After(cfg, START, init).value;
      var before := AfterIsRun(cfg, init, u);
      states := before + [t];
      forall n | 0 <= n < |steps|
        ensures Ready(states[n], steps[n]) && states[n + 1] == Apply(cfg, states[n], steps[n])
      {
        if n < |init| {
          assert steps[n] == init[n];
        }
      }
    }
  }

  /** An operation ended: recorded, stored, turned terminal and its digest released. */
  function Ended(s: Sys, op: OperationId, o: Outcome): Sys
    requires op in s.machines
  {
    s.(recorded := s.recorded[op := o], results := s.results[op := o],
       machines := s.machines[op := s.machines[op].(stage := FinalStage(o))],
       sched := Complete(s.sched, s.machines[op].digest))
  }

  function FourTimes(step: Step): seq<Step> {
    [step, step, step, step]
  }

  function Turned(m: map<OperationId, Machine>, op: OperationId, o: Outcome, phase: Phase): map<OperationId, Machine>
    requires op in m
  {
    if phase.ToRelease? then m[op := m[op].(stage := FinalStage(o))] else m
  }

  function WrittenBy(m: map<OperationId, Outcome>, op: OperationId, o: Outcome,
      written: bool): map<OperationId, Outcome>
  {
    if written then m[op := o] else m
  }

  /** `op` while it is being finished: the writes already made and the phase it is in. */
  function Finishing(s: Sys, op: OperationId, o: Outcome, phase: Phase): Sys
    requires op in s.machines
  {
    s.(finishing := s.finishing[op := Finish(o, phase)],
       recorded := WrittenBy(s.recorded, op, o, !phase.ToRecord?),
       results := WrittenBy(s.results, op, o, !phase.ToRecord? && !phase.ToStore?),
       machines := Turned(s.machines, op, o, phase))
  }

  lemma NextFinishing(s: Sys, op: OperationId, o: Outcome)
    requires op in s.machines
    ensures ApplyAdvance(Finishing(s, op, o, ToRecord), op) == Finishing(s, op, o, ToStore)
    ensures ApplyAdvance(Finishing(s, op, o, ToStore), op) == Finishing(s, op, o, ToTurn)
  {
  }

  lemma TurnFinishing(s: Sys, op: OperationId, o: Outcome)
    requires op in s.machines && CanTransition(s.machines[op].stage, FinalStage(o))
    ensures ApplyAdvance(Finishing(s, op, o, ToTurn), op) == Finishing(s, op, o, ToRelease)
  {
  }

  lemma LastFinishing(s: Sys, op: OperationId, o: Outcome)
    requires op in s.machines && op !in s.finishing
    ensures ApplyAdvance(Finishing(s, op, o, ToRelease), op) == Ended(s, op, o)
  {
    assert s.finishing[op := Finish(o, ToRelease)] - {op} == s.finishing;
  }

  /** The same while it is being cancelled. */
  function Cancelling(s: Sys, op: OperationId, o: Outcome, phase: Phase): Sys
    requires op in s.machines
  {
    s.(cancelling := s.cancelling[op := Finish(o, phase)],
       recorded := WrittenBy(s.recorded, op, o, !phase.ToRecord?),
       results := WrittenBy(s.results, op, o, !phase.ToRecord? && !phase.ToStore?),
       machines := Turned(s.machines, op, o, phase))
  }

  lemma NextCancelling(s: Sys, op: OperationId, o: Outcome)
    requires op in s.machines
    ensures ApplyAdvanceCancel(Cancelling(s, op, o, ToRecord), op) == Cancelling(s, op, o, ToStore)
    ensures ApplyAdvanceCancel(Cancelling(s, op, o, ToStore), op) == Cancelling(s, op, o, ToTurn)
  {
  }

  lemma TurnCancelling(s: Sys, op: OperationId, o: Outcome)
    requires op in s.machines && CanTransition(s.machines[op].stage, FinalStage(o))
    ensures ApplyAdvanceCancel(Cancelling(s, op, o, ToTurn), op) == Cancelling(s, op, o, ToRelease)
  {
  }

  lemma LastCancelling(s: Sys, op: OperationId, o: Outcome)
    requires op in s.machines && op !in s.cancelling
    ensures ApplyAdvanceCancel(Cancelling(s, op, o, ToRelease), op) == Ended(s, op, o)
  {
    assert s.cancelling[op := Finish(o, ToRelease)] - {op} == s.cancelling;
  }

  ghost predicate EndsAt(cfg: Config, steps: seq<Step>, s: Sys) {
    forall n: nat {:trigger Asked(n)} :: n == |steps| ==> After(cfg, START, steps) == Some(s)
  }

  /** Where the steps lead from the start. */
  ghost function EndOf(cfg: Config, steps: seq<Step>): iset<Sys> {
    iset s: Sys | EndsAt(cfg, steps, s)
  }

  lemma EndIs(cfg: Config, steps: seq<Step>, s: Sys)
    ensures s in EndOf(cfg, steps) <==> After(cfg, START, steps) == Some(s)
  {
    assert Asked(|steps|);
  }

  lemma EndIsSafe(cfg: Config, steps: seq<Step>, s: Sys)
    requires s in EndOf(cfg, steps)
    ensures s in Safe(cfg.maxWorkerLosses) && Filed(s.sched)
  {
    EndIs(cfg, steps, s);
    StartIsSafe(cfg.maxWorkerLosses);
    AfterIsSafe(cfg, START, steps, s);
  }

  lemma Extend(cfg: Config, steps: seq<Step>, s: Sys, step: Step)
    requires s in EndOf(cfg, steps) && Filed(s.sched) && Enabled(s, step) && !LateError(s, step)
    ensures Apply(cfg, s, step) in EndOf(cfg, steps + [step])
  {
    EndIs(cfg, steps, s);
    AfterStep(cfg, START, steps, s, step);
    EndIs(cfg, steps + [step], Apply(cfg, s, step));
  }

  lemma StartEnds(cfg: Config)
    ensures START in EndOf(cfg, [])
  {
    EndIs(cfg, [], START);
  }

  lemma FourMore(steps: seq<Step>, step: Step)
    ensures steps + FourTimes(step) == steps + [step] + [step] + [step] + [step]
  {
  }

  /** The four steps of `finalize` take `op` from its stage check to its end. */
  lemma ExtendFinish(cfg: Config, steps: seq<Step>, s: Sys, op: OperationId, o: Outcome)
    requires op in s.machines && op !in s.finishing && Filed(s.sched) &&
             CanTransition(s.machines[op].stage, FinalStage(o))
    requires Finishing(s, op, o, ToRecord) in EndOf(cfg, steps)
    ensures Ended(s, op, o) in EndOf(cfg, steps + FourTimes(Advance(op)))
  {
    var step := Advance(op);
    NextFinishing(s, op, o);
    TurnFinishing(s, op, o);
    LastFinishing(s, op, o);
    ThenAdvance(cfg, steps, Finishing(s, op, o, ToRecord), op);
    ThenAdvance(cfg, steps + [step], Finishing(s, op, o, ToStore), op);
    ThenAdvance(cfg, steps + [step] + [step], Finishing(s, op, o, ToTurn), op);
    ThenAdvance(cfg, steps + [step] + [step] + [step], Finishing(s, op, o, ToRelease), op);
    FourMore(steps, step);
  }

  lemma ThenAdvance(cfg: Config, steps: seq<Step>, s: Sys, op: OperationId)
    requires s in EndOf(cfg, steps) && Filed(s.sched) && op in s.finishing && op in s.machines
    ensures ApplyAdvance(s, op) in EndOf(cfg, steps + [Advance(op)])
  {
    Extend(cfg, steps, s, Advance(op));
  }

  lemma ThenAdvanceCancel(cfg: Config, steps: seq<Step>, s: Sys, op: OperationId)
    requires s in EndOf(cfg, steps) && Filed(s.sched) && op in s.cancelling && op in s.machines
    ensures ApplyAdvanceCancel(s, op) in EndOf(cfg, steps + [AdvanceCancel(op)])
  {
    Extend(cfg, steps, s, AdvanceCancel(op));
  }

  /** The four steps of one round of `cancel_unwatched`. */
  lemma ExtendCancel(cfg: Config, steps: seq<Step>, s: Sys, op: OperationId, o: Outcome)
    requires op in s.machines && op !in s.cancelling && Filed(s.sched) &&
             CanTransition(s.machines[op].stage, FinalStage(o))
    requires Cancelling(s, op, o, ToRecord) in EndOf(cfg, steps)
    ensures Ended(s, op, o) in EndOf(cfg, steps + FourTimes(AdvanceCancel(op)))
  {
    var step := AdvanceCancel(op);
    NextCancelling(s, op, o);
    TurnCancelling(s, op, o);
    LastCancelling(s, op, o);
    ThenAdvanceCancel(cfg, steps, Cancelling(s, op, o, ToRecord), op);
    ThenAdvanceCancel(cfg, steps + [step], Cancelling(s, op, o, ToStore), op);
    ThenAdvanceCancel(cfg, steps + [step] + [step], Cancelling(s, op, o, ToTurn), op);
    ThenAdvanceCancel(cfg, steps + [step] + [step] + [step], Cancelling(s, op, o, ToRelease), op);
    FourMore(steps, step);
  }

  // One step of each kind, from where the run stands.

  lemma ThenCreate(cfg: Config, steps: seq<Step>, s: Sys, op: OperationId, digest: Digest)
    requires s in EndOf(cfg, steps) && op !in s.machines
    ensures ApplyCreate(s, op, digest) in EndOf(cfg, steps + [Create(op, digest)])
  {
    EndIsSafe(cfg, steps, s);
    Extend(cfg, steps, s, Create(op, digest));
  }

  lemma ThenSubmit(cfg: Config, steps: seq<Step>, s: Sys, a: Action, now: nat)
    requires s in EndOf(cfg, steps) && Enabled(s, Submit(a, now))
    ensures ApplySubmit(s, a, now) in EndOf(cfg, steps + [Submit(a, now)])
  {
    EndIsSafe(cfg, steps, s);
    Extend(cfg, steps, s, Submit(a, now));
  }

  lemma ThenTakeNext(cfg: Config, steps: seq<Step>, s: Sys)
    requires s in EndOf(cfg, steps)
    ensures Filed(s.sched) && ApplyTakeNext(cfg, s) in EndOf(cfg, steps + [TakeNext])
  {
    EndIsSafe(cfg, steps, s);
    Extend(cfg, steps, s, TakeNext);
  }

  lemma ThenPutBack(cfg: Config, steps: seq<Step>, s: Sys, op: OperationId)
    requires s in EndOf(cfg, steps) && op in s.dequeued
    ensures ApplyPutBack(s, op) in EndOf(cfg, steps + [PutBackUnmatched(op)])
  {
    EndIsSafe(cfg, steps, s);
    Extend(cfg, steps, s, PutBackUnmatched(op));
  }

  lemma ThenDeliver(cfg: Config, steps: seq<Step>, s: Sys, op: OperationId, worker: nat)
    requires s in EndOf(cfg, steps) && op in s.dequeued && op in s.machines
    ensures ApplyDeliver(s, op, worker) in EndOf(cfg, steps + [Deliver(op, worker)])
  {
    EndIsSafe(cfg, steps, s);
    Extend(cfg, steps, s, Deliver(op, worker));
  }

  lemma ThenFailDelivery(cfg: Config, steps: seq<Step>, s: Sys, op: OperationId)
    requires s in EndOf(cfg, steps) && op in s.dequeued && op in s.machines
    ensures ApplyFailDelivery(s, op) in EndOf(cfg, steps + [FailDelivery(op)])
  {
    EndIsSafe(cfg, steps, s);
    Extend(cfg, steps, s, FailDelivery(op));
  }

  lemma ThenLoseWorker(cfg: Config, steps: seq<Step>, s: Sys, worker: nat)
    requires s in EndOf(cfg, steps)
    ensures ApplyLoseWorker(s, worker) in EndOf(cfg, steps + [LoseWorker(worker)])
  {
    EndIsSafe(cfg, steps, s);
    Extend(cfg, steps, s, LoseWorker(worker));
  }

  lemma ThenSettleLost(cfg: Config, steps: seq<Step>, s: Sys, op: OperationId)
    requires s in EndOf(cfg, steps) && op in s.lost && op in s.machines
    ensures ApplySettleLost(cfg.maxWorkerLosses, s, op) in EndOf(cfg, steps + [SettleLost(op)])
  {
    EndIsSafe(cfg, steps, s);
    Extend(cfg, steps, s, SettleLost(op));
  }

  lemma ThenReport(cfg: Config, steps: seq<Step>, s: Sys, op: OperationId, o: Outcome)
    requires s in EndOf(cfg, steps) && Enabled(s, Report(op, o)) && !LateError(s, Report(op, o))
    ensures ApplyReport(s, op, o) in EndOf(cfg, steps + [Report(op, o)])
  {
    EndIsSafe(cfg, steps, s);
    Extend(cfg, steps, s, Report(op, o));
  }

  lemma ThenTakeUnwatched(cfg: Config, steps: seq<Step>, s: Sys, c: QueuePriority, ops: set<OperationId>)
    requires s in EndOf(cfg, steps)
    ensures ApplyTakeUnwatched(s, c, ops) in EndOf(cfg, steps + [TakeUnwatched(c, ops)])
  {
    EndIsSafe(cfg, steps, s);
    Extend(cfg, steps, s, TakeUnwatched(c, ops));
  }
}
