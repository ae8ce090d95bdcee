/** The lifecycle of one operation (src/execution/state_machine.rs). */
module Stages {
  import opened Prelude

  datatype Stage =
    | Unknown | CacheCheck | Queued | Assigned | Downloading
    | Executing | Uploading | Completed | Failed

  /** Longest transition history kept per operation. */
  const MAX_HISTORY_LEN: nat := 100

  predicate CanTransition(from: Stage, to: Stage) {
    match from
    case Unknown => to.CacheCheck? || to.Failed?
    case CacheCheck => to.Queued? || to.Completed? || to.Failed?
    case Queued => to.Assigned? || to.Failed?
    case Assigned => to.Queued? || to.Downloading? || to.Completed? || to.Failed?
    case Downloading => to.Queued? || to.Executing? || to.Completed? || to.Failed?
    case Executing => to.Queued? || to.Uploading? || to.Completed? || to.Failed?
    case Uploading => to.Queued? || to.Completed? || to.Failed?
    case Completed => false
    case Failed => false
  }

  predicate IsTerminal(s: Stage) {
    s.Completed? || s.Failed?
  }

  predicate OnWorker(s: Stage) {
    s.Assigned? || s.Downloading? || s.Executing? || s.Uploading?
  }

  /** The REAPI v2 `ExecutionStage.Value` reported to clients. */
  function ReapiStage(s: Stage): nat {
    match s
    case Unknown => 0
    case CacheCheck => 1
    case Queued => 2
    case Assigned => 3
    case Downloading => 3
    case Executing => 3
    case Uploading => 3
    case Completed => 4
    case Failed => 4
  }

  /** The stages an operation has been in, oldest first. */
  /** How far along its way to a worker and back an operation is. */
  function Progress(s: Stage): nat {
    match s
    case Unknown => 0
    case CacheCheck => 1
    case Queued => 2
    case Assigned => 3
    case Downloading => 4
    case Executing => 5
    case Uploading => 6
    case Completed => 7
    case Failed => 8
  }

  /** The legal moves: one stage on, back to the queue from a worker, to the end with a
      result from the cache or a worker, and from anywhere but an end to a failure. */
  lemma LegalMoves(from: Stage, to: Stage)
    ensures CanTransition(from, to) <==>
              && Progress(from) < 7
              && (|| Progress(to) == Progress(from) + 1
                  || (to == Queued && 3 <= Progress(from) <= 6)
                  || (to == Completed && (from == CacheCheck || 3 <= Progress(from) <= 6))
                  || to == Failed)
  {
  }

  ghost predicate LegalPath(p: seq<Stage>) {
    && p != [] && p[0] == CacheCheck
    && forall i :: 0 < i < |p| ==> CanTransition(p[i - 1], p[i])
  }

  ghost function Count(p: seq<Stage>, s: Stage): nat {
    multiset(p)[s]
  }

  /** Each stay in the queue but the last is followed by exactly one assignment:
      an operation enters the queue at most once more than it is assigned, never
      less often, and what a client sees never falls except back to `QUEUED`. */
  lemma {:induction false} QueueAndWorkerAlternate(p: seq<Stage>)
    requires LegalPath(p)
    ensures forall i :: 0 <= i < |p| - 1 ==> !IsTerminal(p[i])
    ensures Count(p, Assigned) <= Count(p, Queued) <= Count(p, Assigned) + 1
    ensures p[|p| - 1].Queued? ==> Count(p, Queued) == Count(p, Assigned) + 1
    ensures OnWorker(p[|p| - 1]) || p[|p| - 1].CacheCheck? ==> Count(p, Queued) == Count(p, Assigned)
    ensures !p[|p| - 1].Unknown?
    ensures forall i :: 0 < i < |p| && ReapiStage(p[i]) < ReapiStage(p[i - 1]) ==> p[i].Queued? && OnWorker(p[i - 1])
    decreases |p|
  {
    if |p| > 1 {
      var q := p[..|p| - 1];
      assert p == q + [p[|p| - 1]];
      forall i | 0 < i < |q| ensures CanTransition(q[i - 1], q[i]) {
        assert q[i] == p[i];
      }
      QueueAndWorkerAlternate(q);
      assert CanTransition(q[|q| - 1], p[|p| - 1]);
      forall i | 0 < i < |p| && ReapiStage(p[i]) < ReapiStage(p[i - 1])
        ensures p[i].Queued? && OnWorker(p[i - 1])
      {
        assert CanTransition(p[i - 1], p[i]);
      }
    } else {
      assert p == [CacheCheck];
    }
  }

  ghost function LastN<T>(s: seq<T>, n: nat): seq<T> {
    if |s| <= n then s else s[|s| - n..]
  }

  /** `ExecutionStateMachine`. Instants are plain numbers handed in by the caller. */
  class ExecutionStateMachine {
    const operationId: OperationId
    const actionDigest: Digest
    var stage: Stage
    var history: seq<Stage>
    var terminal: bool
    var lastHeartbeat: nat
    /** Every stage so far; `history` keeps its tail. */
    ghost var path: seq<Stage>

    ghost predicate Valid()
      reads this
    {
      && LegalPath(path)
      && path[|path| - 1] == stage
      && history == LastN(path, MAX_HISTORY_LEN)
      && (terminal <==> IsTerminal(stage))
    }

    constructor (operationId: OperationId, actionDigest: Digest, now: nat)
      ensures Valid()
      ensures this.operationId == operationId && this.actionDigest == actionDigest
      ensures stage == CacheCheck && path == [CacheCheck]
      ensures lastHeartbeat == now
    {
      this.operationId := operationId;
      this.actionDigest := actionDigest;
      stage := CacheCheck;
      history := [CacheCheck];
      terminal := false;
      lastHeartbeat := now;
      path := [CacheCheck];
    }

    /** Moves along a legal transition; an illegal one changes nothing. */
    method TransitionTo(next: Stage, now: nat) returns (ok: bool)
      requires Valid()
      modifies this
      ensures Valid()
      ensures ok <==> CanTransition(old(stage), next)
      ensures ok ==> stage == next && path == old(path) + [next] && lastHeartbeat == now
      ensures !ok ==> stage == old(stage) && path == old(path) && lastHeartbeat == old(lastHeartbeat)
      ensures old(terminal) ==> !ok
    {
      if !CanTransition(stage, next) {
        return false;
      }
      stage := next;
      if next.Completed? || next.Failed? {
        terminal := true;
      }
      lastHeartbeat := now;
      history := history + [next];
      if |history| > MAX_HISTORY_LEN {
        var excess := |history| - MAX_HISTORY_LEN;
        history := history[excess..];
      }
      path := path + [next];
      ok := true;
    }
  }

  /** `StateMachineManager`: the machines clients and the engine can look up. */
  class StateMachineManager {
    var machines: map<OperationId, ExecutionStateMachine>

    constructor ()
      ensures machines == map[]
    {
      machines := map[];
    }

    predicate Retirable(m: ExecutionStateMachine, now: nat, retention: nat)
      reads m
    {
      IsTerminal(m.stage) && now - m.lastHeartbeat >= retention
    }

    /** Retires exactly the machines terminal for at least `retention`; one in
        progress is never retired, however long it has been silent. */
    method CleanupFinishedMachines(now: nat, retention: nat) returns (removed: nat)
      modifies this
      ensures machines == map op | op in old(machines) && !Retirable(old(machines)[op], now, retention) ::
              old(machines)[op]
      ensures removed + |machines| == |old(machines)|
    {
      var todo := set op | op in machines && now - machines[op].lastHeartbeat >= retention;
      ghost var before := machines;
      removed := 0;
      while todo != {}
        invariant todo <= machines.Keys
        invariant forall op :: op in todo ==> now - before[op].lastHeartbeat >= retention
        invariant machines.Keys <= before.Keys
        invariant forall op :: op in machines ==> machines[op] == before[op]
        invariant forall op :: op in before && op !in todo ==>
                                 (op in machines <==> !Retirable(before[op], now, retention))
        invariant removed + |machines| == |before|
        decreases todo
      {
        var op :| op in todo;
        todo := todo - {op};
        if IsTerminal(machines[op].stage) {
          assert machines.Keys - {op} == (machines - {op}).Keys;
          machines := machines - {op};
          removed := removed + 1;
        }
      }
    }
  }
}
