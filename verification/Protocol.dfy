/** The execution protocol as a transition system (src/execution/engine.rs).

    The dispatcher, the result processor and the cleanup task run side by side, so
    an operation can be caught between two steps of any of them: popped but not yet
    delivered or put back (`dequeued`), taken from a lost worker (`lost`), half way
    through `finalize` (`finishing`) or through `cancel_unwatched` (`cancelling`). */
module Protocol {
  import opened Prelude
  import opened Stages
  import opened FairQueues
  import opened Scheduling
  import opened Slots

  /** A reported `ExecutionResult`: whether it carries an error, and which report it is. */
  datatype Outcome = Outcome(error: bool, report: nat)

  /** The result of an operation the engine ends by itself. */
  const ENGINE_FAILURE: Outcome := Outcome(true, 0)

  datatype Machine = Machine(digest: Digest, stage: Stage)

  datatype ActiveExecution = ActiveExecution(worker: nat, action: Action)

  /** What is left to do for an operation being finished. */
  datatype Phase = ToRecord | ToStore | ToTurn | ToRelease

  datatype Finish = Finish(outcome: Outcome, phase: Phase)

  datatype Config = Config(weight: Weight, maxWorkerLosses: nat)

  datatype Sys = Sys(
    sched: Sched,
    /** Every machine ever made; `registered` is what the manager still lists. */
    machines: map<OperationId, Machine>,
    registered: set<OperationId>,
    dequeued: map<OperationId, Action>,
    active: map<OperationId, ActiveExecution>,
    lost: map<OperationId, Action>,
    finishing: map<OperationId, Finish>,
    cancelling: map<OperationId, Finish>,
    recorded: map<OperationId, Outcome>,
    results: map<OperationId, Outcome>,
    /** History: the actions admitted, their deliveries, the success reports accepted. */
    admitted: map<OperationId, Action>,
    deliveries: map<OperationId, nat>,
    accepted: map<OperationId, nat>)

  const START: Sys := Sys(IDLE, map[], {}, map[], map[], map[], map[], map[], map[], map[], map[], map[], map[])

  datatype Step =
    | Create(op: OperationId, digest: Digest)
    | Submit(action: Action, now: nat)
    | TakeNext
    | PutBackUnmatched(op: OperationId)
    | Deliver(op: OperationId, worker: nat)
    | FailDelivery(op: OperationId)
    | LoseWorker(worker: nat)
    | SettleLost(op: OperationId)
    | Report(op: OperationId, outcome: Outcome)
    | Advance(op: OperationId)
    | TakeUnwatched(priority: QueuePriority, ops: set<OperationId>)
    | AdvanceCancel(op: OperationId)
    | Retire(op: OperationId)

  function CountOf(m: map<OperationId, nat>, op: OperationId): nat {
    if op in m then m[op] else 0
  }

  function Deliveries(s: Sys, op: OperationId): nat {
    CountOf(s.deliveries, op)
  }

  function Accepted(s: Sys, op: OperationId): nat {
    CountOf(s.accepted, op)
  }

  function FinalStage(o: Outcome): Stage {
    if o.error then Failed else Completed
  }

  /** `transition_to`: an illegal move leaves the machine alone. */
  function Moved(s: Sys, op: OperationId, next: Stage): Sys
    requires op in s.machines
  {
    if CanTransition(s.machines[op].stage, next) then
      s.(machines := s.machines[op := s.machines[op].(stage := next)])
    else
      s
  }

  /** When a step can happen. A report needs a worker the operation was once given
      to, and the result processor handles one report or loss at a time. */
  predicate Enabled(s: Sys, step: Step) {
    match step
    case Create(op, _) => op !in s.machines
    case Submit(a, _) =>
      && a.op in s.machines && a.op in s.registered && a.op !in s.admitted
      && s.machines[a.op] == Machine(a.digest, CacheCheck) && a.workerLosses == 0
    case TakeNext => true
    case PutBackUnmatched(op) => op in s.dequeued
    case Deliver(op, _) => op in s.dequeued && op in s.machines
    case FailDelivery(op) => op in s.dequeued && op in s.machines
    case LoseWorker(_) => true
    case SettleLost(op) => op in s.lost && op in s.machines
    case Report(op, _) => Deliveries(s, op) > 0 && op in s.machines && op !in s.lost && op !in s.finishing
    case Advance(op) => op in s.finishing && op in s.machines
    case TakeUnwatched(_, _) => true
    case AdvanceCancel(op) => op in s.cancelling && op in s.machines
    case Retire(op) => op in s.registered && op in s.machines && IsTerminal(s.machines[op].stage)
  }

  function ApplyCreate(s: Sys, op: OperationId, digest: Digest): Sys {
    s.(machines := s.machines[op := Machine(digest, CacheCheck)], registered := s.registered + {op})
  }

  /** `Execute` past its cache check: queue the action, or join the operation running it. */
  function ApplySubmit(s: Sys, a: Action, now: nat): Sys
    requires a.op in s.machines
  {
    var (sched, owner) := Enqueue(s.sched, a, now);
    var t := Moved(s, a.op, Queued).(sched := sched);
    if owner == a.op then
      t.(admitted := s.admitted[a.op := a])
    else
      t.(registered := s.registered - {a.op})
  }

  ghost function ApplyTakeNext(cfg: Config, s: Sys): Sys
    requires Filed(s.sched)
  {
    var (item, sched) := Dequeue(cfg.weight, s.sched);
    match item
    case None => s
    case Some(a) => s.(sched := sched, dequeued := s.dequeued[a.op := a])
  }

  function ApplyPutBack(s: Sys, op: OperationId): Sys
    requires op in s.dequeued
  {
    s.(sched := PutBack(s.sched, s.dequeued[op]), dequeued := s.dequeued - {op})
  }

  /** `dispatch` when the assignment is sent. */
  function ApplyDeliver(s: Sys, op: OperationId, worker: nat): Sys
    requires op in s.dequeued && op in s.machines
  {
    var a := s.dequeued[op];
    if CanTransition(s.machines[op].stage, Assigned) then
      Moved(s, op, Assigned).(
        dequeued := s.dequeued - {op},
        active := s.active[op := ActiveExecution(worker, a)],
        deliveries := s.deliveries[op := Deliveries(s, op) + 1])
    else
      s.(sched := Complete(s.sched, a.digest), dequeued := s.dequeued - {op})
  }

  /** `requeue`: back to the front of its queue, if its stage allows it. */
  function Requeued(s: Sys, op: OperationId, a: Action): Sys
    requires op in s.machines
  {
    if CanTransition(s.machines[op].stage, Queued) then
      Moved(s, op, Queued).(sched := PutBack(s.sched, a))
    else
      s
  }

  /** `dispatch` when the worker's channel is closed. */
  function ApplyFailDelivery(s: Sys, op: OperationId): Sys
    requires op in s.dequeued && op in s.machines
  {
    var a := s.dequeued[op];
    var t := s.(dequeued := s.dequeued - {op});
    if CanTransition(s.machines[op].stage, Assigned) then
      Requeued(Moved(t, op, Assigned), op, a)
    else
      t.(sched := Complete(s.sched, a.digest))
  }

  function ApplyLoseWorker(s: Sys, worker: nat): Sys {
    s.(active := map op | op in s.active && s.active[op].worker != worker :: s.active[op],
       lost := map op | op in s.lost.Keys + s.active.Keys && (op in s.lost || s.active[op].worker == worker)
                 :: if op in s.lost then s.lost[op] else s.active[op].action)
  }

  /** The stage check of `finalize` and its removal from `active_executions`. */
  function BeginFinalize(s: Sys, op: OperationId, outcome: Outcome): Sys
    requires op in s.machines
  {
    if op !in s.registered then
      s.(active := s.active - {op})
    else if !CanTransition(s.machines[op].stage, FinalStage(outcome)) then
      s
    else
      s.(active := s.active - {op}, finishing := s.finishing[op := Finish(outcome, ToRecord)])
  }

  /** One round of `worker_lost`'s loop. */
  function ApplySettleLost(max: nat, s: Sys, op: OperationId): Sys
    requires op in s.lost && op in s.machines
  {
    var a := s.lost[op].(workerLosses := s.lost[op].workerLosses + 1);
    var t := s.(lost := s.lost - {op});
    if op !in s.registered then
      t
    else if a.workerLosses > max then
      BeginFinalize(t, op, ENGINE_FAILURE)
    else
      Requeued(t, op, a)
  }

  /** The processor receives a result: accepted, or dropped as late. */
  function ApplyReport(s: Sys, op: OperationId, outcome: Outcome): Sys
    requires op in s.machines
  {
    var t := BeginFinalize(s, op, outcome);
    if !outcome.error && op in t.finishing && op !in s.finishing then
      t.(accepted := s.accepted[op := Accepted(s, op) + 1])
    else
      t
  }

  /** The four writes that end an operation, in the order the code makes them. */
  function FinishStep(s: Sys, op: OperationId, f: Finish): Sys
    requires op in s.machines
  {
    s.(recorded := if f.phase.ToRecord? then s.recorded[op := f.outcome] else s.recorded,
       results := if f.phase.ToStore? then s.results[op := f.outcome] else s.results,
       machines := if f.phase.ToTurn? then Moved(s, op, FinalStage(f.outcome)).machines else s.machines,
       sched := if f.phase.ToRelease? then Complete(s.sched, s.machines[op].digest) else s.sched)
  }

  function NextPhase(f: Finish): Finish {
    match f.phase
    case ToRecord => f.(phase := ToStore)
    case ToStore => f.(phase := ToTurn)
    case ToTurn => f.(phase := ToRelease)
    case ToRelease => f
  }

  /** What is still being finished once the next write of `op` is made. */
  function StillFinishing(m: map<OperationId, Finish>, op: OperationId): map<OperationId, Finish>
    requires op in m
  {
    if m[op].phase.ToRelease? then m - {op} else m[op := NextPhase(m[op])]
  }

  function ApplyAdvance(s: Sys, op: OperationId): Sys
    requires op in s.finishing && op in s.machines
  {
    FinishStep(s, op, s.finishing[op]).(finishing := StillFinishing(s.finishing, op))
  }

  function ApplyAdvanceCancel(s: Sys, op: OperationId): Sys
    requires op in s.cancelling && op in s.machines
  {
    FinishStep(s, op, s.cancelling[op]).(cancelling := StillFinishing(s.cancelling, op))
  }

  /** `op` occupies a slot of class `c`. */
  ghost predicate WaitsIn(s: Sched, c: QueuePriority, op: OperationId) {
    exists a :: IsQueued(s, a) && a.op == op && a.priority == c
  }

  ghost function ApplyTakeUnwatched(s: Sys, c: QueuePriority, ops: set<OperationId>): Sys {
    s.(sched := RemoveUnwatched(s.sched, c, ops),
       cancelling := s.cancelling + map op | op in ops && WaitsIn(s.sched, c, op) :: Finish(ENGINE_FAILURE, ToRecord))
  }

  ghost function Apply(cfg: Config, s: Sys, step: Step): Sys
    requires Filed(s.sched) && Enabled(s, step)
  {
    match step
    case Create(op, digest) => ApplyCreate(s, op, digest)
    case Submit(a, now) => ApplySubmit(s, a, now)
    case TakeNext => ApplyTakeNext(cfg, s)
    case PutBackUnmatched(op) => ApplyPutBack(s, op)
    case Deliver(op, worker) => ApplyDeliver(s, op, worker)
    case FailDelivery(op) => ApplyFailDelivery(s, op)
    case LoseWorker(worker) => ApplyLoseWorker(s, worker)
    case SettleLost(op) => ApplySettleLost(cfg.maxWorkerLosses, s, op)
    case Report(op, outcome) => ApplyReport(s, op, outcome)
    case Advance(op) => ApplyAdvance(s, op)
    case TakeUnwatched(c, ops) => ApplyTakeUnwatched(s, c, ops)
    case AdvanceCancel(op) => ApplyAdvanceCancel(s, op)
    case Retire(op) => s.(registered := s.registered - {op})
  }

  // ----- The invariant -----

  function Get<V>(m: map<OperationId, V>, op: OperationId): Option<V> {
    if op in m then Some(m[op]) else None
  }

  /** Everything the system holds about one operation. */
  datatype Local = Local(
    action: Option<Action>,
    machine: Option<Machine>,
    registered: bool,
    /** Its own in-flight entry, while it owns its digest. */
    entry: Option<InFlightEntry>,
    slots: iset<Action>,
    dequeued: Option<Action>,
    active: Option<ActiveExecution>,
    lost: Option<Action>,
    finishing: Option<Finish>,
    cancelling: Option<Finish>,
    recorded: Option<Outcome>,
    stored: Option<Outcome>,
    deliveries: nat,
    accepted: nat)

  ghost function EntryOf(s: Sys, op: OperationId): Option<InFlightEntry> {
    if op in s.admitted && s.admitted[op].digest in s.sched.inFlight && s.sched.inFlight[s.admitted[op].digest].op == op
    then Some(s.sched.inFlight[s.admitted[op].digest])
    else None
  }

  /** The queued actions of one operation. */
  ghost function SlotsIn(critical: Fair, medium: Fair, op: OperationId): iset<Action> {
    iset a: Action | a.op == op && (a in ItemsOf(critical, a.invocation) || a in ItemsOf(medium, a.invocation))
  }

  ghost function SlotsOf(s: Sched, op: OperationId): iset<Action> {
    SlotsIn(s.critical, s.medium, op)
  }

  ghost function LocalOf(s: Sys, op: OperationId): Local {
    Local(Get(s.admitted, op), Get(s.machines, op), op in s.registered, EntryOf(s, op), SlotsOf(s.sched, op),
          Get(s.dequeued, op), Get(s.active, op), Get(s.lost, op), Get(s.finishing, op), Get(s.cancelling, op),
          Get(s.recorded, op), Get(s.results, op), Deliveries(s, op), Accepted(s, op))
  }

  /** The places an operation can be in. */
  ghost function Places(l: Local): nat {
    One(l.slots != iset{}) + One(l.dequeued.Some?) + One(l.active.Some?) + One(l.lost.Some?)
    + One(l.finishing.Some?) + One(l.cancelling.Some?)
  }

  /** How far the writes that end an operation have got. */
  predicate Written(l: Local, f: Finish) {
    && l.recorded == (if f.phase.ToRecord? then None else Some(f.outcome))
    && l.stored == (if f.phase.ToRecord? || f.phase.ToStore? then None else Some(f.outcome))
  }

  predicate Untouched(l: Local) {
    l.accepted == 0 && l.recorded == None && l.stored == None
  }

  /** An operation that owns its digest: the stage, action, counters and writes
      that go with the place it is in. */
  ghost predicate Running(max: nat, l: Local)
    requires l.action.Some? && l.machine.Some? && l.entry.Some?
  {
    var stage, dispatched, n := l.machine.value.stage, l.entry.value.dispatched, l.deliveries;
    var current, atWorker := l.action.value.(workerLosses := n),
      l.action.value.(workerLosses := if n > 0 then n - 1 else 0);
    && Places(l) == 1 && (l.registered || IsTerminal(stage))
    && (l.slots != iset{} ==> l.slots == iset{current} && stage == Queued && !dispatched && n <= max && Untouched(l))
    && (l.dequeued.Some? ==> l.dequeued.value == current && stage == Queued && dispatched && n <= max && Untouched(l))
    && (l.active.Some? ==>
          l.active.value.action == atWorker && stage == Assigned && dispatched && 1 <= n <= max + 1 &&
          Untouched(l))
    && (l.lost.Some? ==>
          l.lost.value == atWorker && stage == Assigned && dispatched && 1 <= n <= max + 1 &&
          Untouched(l))
    && (l.finishing.Some? ==>
          var f := l.finishing.value;
          && stage == (if f.phase.ToRelease? then FinalStage(f.outcome) else Assigned)
          && dispatched && n <= max + 1 && l.accepted == One(!f.outcome.error) && Written(l, f))
    && (l.cancelling.Some? ==>
          var f := l.cancelling.value;
          && stage == (if f.phase.ToRelease? then Failed else Queued)
          && f.outcome == ENGINE_FAILURE && !dispatched && n <= max && l.accepted == 0 && Written(l, f))
  }

  /** Terminal, recorded and stored under one outcome. */
  predicate Finished(max: nat, l: Local) {
    && l.machine.Some? && l.stored.Some? && l.recorded == l.stored
    && l.machine.value.stage == FinalStage(l.stored.value)
    && l.accepted == One(!l.stored.value.error) && l.deliveries <= max + 1
  }

  /** An operation is unknown to the scheduler, owns its digest and is in one
      place, or is finished and nowhere. */
  ghost predicate LocalOk(max: nat, op: OperationId, l: Local) {
    match l.action
    case None => Places(l) == 0 && l.deliveries == 0 && Untouched(l)
    case Some(a) =>
      && a.op == op && l.machine.Some? && l.machine.value.digest == a.digest
      && if l.entry.Some? then Running(max, l) else Places(l) == 0 && Finished(max, l)
  }

  /** The local states an operation may be in. */
  ghost function Legal(max: nat, op: OperationId): iset<Local> {
    iset l: Local | LocalOk(max, op, l)
  }

  /** Every in-flight digest is owned by an operation admitted for it. */
  ghost predicate EntriesOwned(s: Sys) {
    forall d :: d in s.sched.inFlight ==>
                  var e := s.sched.inFlight[d];
                  e.op in s.admitted && s.admitted[e.op].digest == d && s.admitted[e.op].invocation == e.invocation
  }

  /** Always true: the term by which a proof asks for one operation's local state. */
  ghost predicate Of(s: Sys, op: OperationId) {
    true
  }

  ghost predicate Inv(max: nat, s: Sys) {
    && Slotted(s.sched) && EntriesOwned(s)
    && forall op {:trigger Of(s, op)} :: LocalOf(s, op) in Legal(max, op)
  }

  ghost function Safe(max: nat): iset<Sys> {
    iset s: Sys | Inv(max, s)
  }

  // ----- Each step keeps the invariant -----

  lemma LocalIsLegal(max: nat, s: Sys, op: OperationId)
    requires s in Safe(max)
    ensures LocalOf(s, op) in Legal(max, op)
  {
    assert Of(s, op);
  }

  /** Enough for the invariant: the operation a step is about stays in order and
      every other one is left as it was. */
  lemma StepAbout(max: nat, s: Sys, t: Sys, op: OperationId)
    requires s in Safe(max) && Slotted(t.sched) && EntriesOwned(t)
    requires LocalOf(t, op) in Legal(max, op)
    requires forall o :: o != op ==> LocalOf(t, o) == LocalOf(s, o)
    ensures t in Safe(max)
  {
    forall o ensures LocalOf(t, o) in Legal(max, o) {
      LocalIsLegal(max, s, o);
    }
  }

  // What each step does to the one operation it is about.

  lemma LocalTake(max: nat, op: OperationId, l: Local, a: Action)
    requires l in Legal(max, op) && a in l.slots
    ensures l.action.Some? && l.entry.Some? && l.slots == iset{a} && a == l.action.value.(workerLosses := l.deliveries)
    ensures l.(slots := iset{}, dequeued := Some(a),
               entry := Some(l.entry.value.(dispatched := true))) in Legal(max, op)
    ensures l.(slots := iset{}, cancelling := Some(Finish(ENGINE_FAILURE, ToRecord))) in Legal(max, op)
  {
  }

  lemma LocalDispatch(max: nat, op: OperationId, l: Local, worker: nat)
    requires l in Legal(max, op) && l.dequeued.Some?
    ensures l.action.Some? && l.entry.Some? && l.machine.Some? && l.machine.value.stage == Queued && l.slots == iset{}
    ensures l.dequeued.value == l.action.value.(workerLosses := l.deliveries) && l.action.value.op == op
    ensures l.(slots := iset{l.dequeued.value}, dequeued := None,
            entry := Some(l.entry.value.(dispatched := false))) in Legal(max, op)
    ensures l.(
        machine := Some(l.machine.value.(stage := Assigned)), dequeued := None,
        active := Some(ActiveExecution(worker, l.dequeued.value)), deliveries := l.deliveries + 1) in Legal(max, op)
  {
  }

  lemma LocalSettle(max: nat, op: OperationId, l: Local)
    requires l in Legal(max, op) && l.lost.Some?
    ensures l.action.Some? && l.entry.Some? && l.machine.Some? && l.machine.value.stage == Assigned && l.registered &&
            l.slots == iset{}
    ensures l.finishing.None? && l.lost.value.op == op && l.lost.value.digest == l.action.value.digest
    ensures var a := l.lost.value.(workerLosses := l.lost.value.workerLosses + 1);
            if a.workerLosses > max then l.(lost := None,
              finishing := Some(Finish(ENGINE_FAILURE, ToRecord))) in Legal(max, op)
            else l.(machine := Some(l.machine.value.(stage := Queued)), lost := None,
                    slots := iset{a}, entry := Some(l.entry.value.(dispatched := false))) in Legal(max, op)
  {
  }

  lemma LocalReport(max: nat, op: OperationId, l: Local, outcome: Outcome)
    requires l in Legal(max, op) && l.machine.Some? && l.registered && l.deliveries > 0 && l.lost.None? &&
             l.finishing.None?
    requires CanTransition(l.machine.value.stage, FinalStage(outcome)) &&
             !(outcome.error && l.machine.value.stage == Queued)
    ensures l.accepted == 0
    ensures l.(active := None, finishing := Some(Finish(outcome, ToRecord)),
            accepted := One(!outcome.error)) in Legal(max, op)
  {
  }

  lemma LocalRecord(max: nat, op: OperationId, l: Local, f: Finish)
    requires l in Legal(max, op) && f.phase.ToRecord? && (l.finishing == Some(f) || l.cancelling == Some(f))
    ensures l.action.Some? && l.entry.Some? && l.machine.Some? && l.machine.value.digest == l.action.value.digest
    ensures (if l.finishing.Some? then l.(recorded := Some(f.outcome), finishing := Some(NextPhase(f)))
            else l.(recorded := Some(f.outcome), cancelling := Some(NextPhase(f)))) in Legal(max, op)
  {
  }

  lemma LocalStore(max: nat, op: OperationId, l: Local, f: Finish)
    requires l in Legal(max, op) && f.phase.ToStore? && (l.finishing == Some(f) || l.cancelling == Some(f))
    ensures l.action.Some? && l.entry.Some? && l.machine.Some? && l.machine.value.digest == l.action.value.digest
    ensures (if l.finishing.Some? then l.(stored := Some(f.outcome), finishing := Some(NextPhase(f)))
            else l.(stored := Some(f.outcome), cancelling := Some(NextPhase(f)))) in Legal(max, op)
  {
  }

  lemma LocalTurn(max: nat, op: OperationId, l: Local, f: Finish)
    requires l in Legal(max, op) && f.phase.ToTurn? && (l.finishing == Some(f) || l.cancelling == Some(f))
    ensures l.action.Some? && l.entry.Some? && l.machine.Some? && l.machine.value.digest == l.action.value.digest
    ensures (if l.finishing.Some? then l.(machine := Some(l.machine.value.(stage := FinalStage(f.outcome))),
            finishing := Some(NextPhase(f))) else l.(machine := Some(l.machine.value.(stage := FinalStage(f.outcome))),
            cancelling := Some(NextPhase(f)))) in Legal(max, op)
  {
  }

  lemma LocalRelease(max: nat, op: OperationId, l: Local, f: Finish)
    requires l in Legal(max, op) && f.phase.ToRelease? && (l.finishing == Some(f) || l.cancelling == Some(f))
    ensures l.action.Some? && l.entry.Some? && l.machine.Some? && l.machine.value.digest == l.action.value.digest
    ensures l.finishing.None? || l.cancelling.None?
    ensures (if l.finishing.Some? then l.(entry := None, finishing := None)
            else l.(entry := None, cancelling := None)) in Legal(max, op)
  {
  }

  lemma CreateKeeps(max: nat, s: Sys, op: OperationId, digest: Digest)
    requires s in Safe(max) && Enabled(s, Create(op, digest))
    ensures ApplyCreate(s, op, digest) in Safe(max)
  {
    var t := ApplyCreate(s, op, digest);
    assert LocalOf(t, op) in Legal(max, op) by {
      LocalIsLegal(max, s, op);
      assert LocalOf(t, op) == LocalOf(s, op).(machine := Some(Machine(digest, CacheCheck)), registered := true);
    }
    StepAbout(max, s, t, op);
  }

  lemma SubmitKeeps(max: nat, s: Sys, a: Action, now: nat)
    requires s in Safe(max) && Enabled(s, Submit(a, now))
    ensures ApplySubmit(s, a, now) in Safe(max)
  {
    if a.digest in s.sched.inFlight {
      assert s.sched.inFlight[a.digest].op in s.admitted;
      MergeKeeps(max, s, a);
      assert ApplySubmit(s, a, now) == s.(machines := s.machines[a.op := Machine(a.digest, Queued)],
             registered := s.registered - {a.op});
    } else {
      SubmitNewKeeps(max, s, a, now);
    }
  }

  lemma SubmitNewKeeps(max: nat, s: Sys, a: Action, now: nat)
    requires s in Safe(max) && Enabled(s, Submit(a, now)) && a.digest !in s.sched.inFlight
    ensures ApplySubmit(s, a, now) in Safe(max)
  {
    var sched := Enqueue(s.sched, a, now).0;
    assert ApplySubmit(s, a, now) == AdmittedInto(s, a, sched);
    SubmitEffect(max, s, a, now);
    AdmitKeeps(max, s, a, now, sched);
  }

  /** Joining an operation in flight leaves only an unlisted machine behind. */
  lemma MergeKeeps(max: nat, s: Sys, a: Action)
    requires s in Safe(max) && a.op !in s.admitted
    ensures s.(machines := s.machines[a.op := Machine(a.digest, Queued)],
            registered := s.registered - {a.op}) in Safe(max)
  {
    var t := s.(machines := s.machines[a.op := Machine(a.digest, Queued)], registered := s.registered - {a.op});
    assert LocalOf(t, a.op) in Legal(max, a.op) by {
      LocalIsLegal(max, s, a.op);
      assert LocalOf(t, a.op) == LocalOf(s, a.op).(machine := Some(Machine(a.digest, Queued)), registered := false);
    }
    StepAbout(max, s, t, a.op);
  }

  lemma SubmitEffect(max: nat, s: Sys, a: Action, now: nat)
    requires s in Safe(max) && a.op !in s.admitted && a.digest !in s.sched.inFlight
    ensures var sched := Enqueue(s.sched, a, now).0;
            && Slotted(sched)
            && sched.inFlight == s.sched.inFlight[a.digest := InFlightEntry(a.op, now, a.invocation, false)]
            && (forall o :: SlotsOf(sched, o) == if o == a.op then iset{a} else SlotsOf(s.sched, o))
  {
    var sched := Enqueue(s.sched, a, now).0;
    var u := s.sched.(inFlight := sched.inFlight);
    LocalIsLegal(max, s, a.op);
    assert forall b :: IsQueued(u, b) <==> IsQueued(s.sched, b);
    NotQueued(s.sched, a.op);
    PushSlotted(u, a, false);
    forall o ensures SlotsOf(sched, o) == if o == a.op then iset{a} else SlotsOf(s.sched, o) {
      SlotsWith(s.sched, sched, a, o);
    }
  }

  function AdmittedInto(s: Sys, a: Action, sched: Sched): Sys {
    s.(sched := sched, machines := s.machines[a.op := Machine(a.digest, Queued)], admitted := s.admitted[a.op := a])
  }

  lemma AdmittedLocals(s: Sys, a: Action, now: nat, sched: Sched)
    requires a.op !in s.admitted && a.digest !in s.sched.inFlight
    requires sched.inFlight == s.sched.inFlight[a.digest := InFlightEntry(a.op, now, a.invocation, false)]
    requires forall o :: SlotsOf(sched, o) == if o == a.op then iset{a} else SlotsOf(s.sched, o)
    ensures LocalOf(AdmittedInto(s, a, sched), a.op) == LocalOf(s, a.op).(
        action := Some(a), machine := Some(Machine(a.digest, Queued)), slots := iset{a},
        entry := Some(InFlightEntry(a.op, now, a.invocation, false)))
    ensures forall o :: o != a.op ==> LocalOf(AdmittedInto(s, a, sched), o) == LocalOf(s, o)
    ensures EntriesOwned(s) ==> EntriesOwned(AdmittedInto(s, a, sched))
  {
  }

  lemma LocalAdmit(max: nat, op: OperationId, l: Local, a: Action, now: nat)
    requires l in Legal(max, op) && l.action.None? && l.registered && a.op == op && a.workerLosses == 0
    ensures l.(action := Some(a), machine := Some(Machine(a.digest, Queued)), slots := iset{a},
               entry := Some(InFlightEntry(a.op, now, a.invocation, false))) in Legal(max, op)
  {
  }

  lemma AdmitKeeps(max: nat, s: Sys, a: Action, now: nat, sched: Sched)
    requires s in Safe(max) && Enabled(s, Submit(a, now)) && a.digest !in s.sched.inFlight && Slotted(sched)
    requires sched.inFlight == s.sched.inFlight[a.digest := InFlightEntry(a.op, now, a.invocation, false)]
    requires forall o :: SlotsOf(sched, o) == if o == a.op then iset{a} else SlotsOf(s.sched, o)
    ensures AdmittedInto(s, a, sched) in Safe(max)
  {
    AdmittedLocals(s, a, now, sched);
    LocalIsLegal(max, s, a.op);
    LocalAdmit(max, a.op, LocalOf(s, a.op), a, now);
    StepAbout(max, s, AdmittedInto(s, a, sched), a.op);
  }

  lemma SlotsWith(s: Sched, u: Sched, a: Action, o: OperationId)
    requires forall b :: IsQueued(u, b) <==> b == a || IsQueued(s, b)
    requires SlotsOf(s, a.op) == iset{}
    ensures SlotsOf(u, o) == if o == a.op then iset{a} else SlotsOf(s, o)
  {
    forall b ensures b in SlotsOf(u, o) <==> (b == a && o == a.op) || b in SlotsOf(s, o) {
      assert IsQueued(u, b) <==> b == a || IsQueued(s, b);
    }
  }

  lemma NotQueued(s: Sched, op: OperationId)
    requires SlotsOf(s, op) == iset{}
    ensures forall b :: IsQueued(s, b) ==> b.op != op
  {
    forall b | IsQueued(s, b) ensures b.op != op {
      assert b.op == op ==> b in SlotsOf(s, op);
    }
  }

  /** A queued action is the current one of an operation that owns its digest. */
  lemma QueuedIsCurrent(max: nat, s: Sys, a: Action)
    requires s in Safe(max) && IsQueued(s.sched, a)
    ensures a.op in s.admitted && EntryOf(s, a.op).Some? && SlotsOf(s.sched, a.op) == iset{a}
    ensures a == s.admitted[a.op].(workerLosses := Deliveries(s, a.op))
  {
    LocalIsLegal(max, s, a.op);
    assert a in SlotsOf(s.sched, a.op);
    LocalTake(max, a.op, LocalOf(s, a.op), a);
  }

  /** Marking a digest touches only the entry of its owner. */
  lemma EntriesAfterMark(s: Sys, sched: Sched, op: OperationId, b: bool, o: OperationId)
    requires EntryOf(s, op).Some?
    requires sched.inFlight == SetDispatched(s.sched, s.admitted[op].digest, b).inFlight
    ensures EntryOf(s.(sched := sched), o) ==
            if o == op then Some(EntryOf(s, op).value.(dispatched := b)) else EntryOf(s, o)
  {
  }

  lemma TakeNextKeeps(cfg: Config, max: nat, s: Sys)
    requires s in Safe(max)
    ensures ApplyTakeNext(cfg, s) in Safe(max)
  {
    var c := if s.sched.critical.queues != map[] then Critical else Medium;
    var f := QueueOf(s.sched, c);
    if f.queues != map[] {
      var key := Next(cfg.weight, RunningFrom(s.sched.inFlight), f);
      var a := f.queues[key].items[0];
      var u := WithQueue(s.sched, c, TakeFrom(f, key));
      TakeSlotted(s.sched, c, key);
      TakenKeeps(max, s, a, u);
    }
  }

  /** A rescheduling: the slots and the dispatched mark of one operation change. */
  ghost predicate Rescheduled(s: Sys, sched: Sched, op: OperationId, slots: iset<Action>, dispatched: bool) {
    && EntryOf(s, op).Some? && Slotted(sched) && EntriesOwned(s.(sched := sched))
    && (forall o :: SlotsOf(sched, o) == if o == op then slots else SlotsOf(s.sched, o))
    && (forall o :: EntryOf(s.(sched := sched), o) ==
                    if o == op then Some(EntryOf(s, op).value.(dispatched := dispatched)) else EntryOf(s, o))
  }

  lemma TakenKeeps(max: nat, s: Sys, a: Action, u: Sched)
    requires s in Safe(max) && IsQueued(s.sched, a) && Slotted(u) && u.inFlight == s.sched.inFlight
    requires forall b :: IsQueued(u, b) <==> IsQueued(s.sched, b) && b != a
    ensures s.(sched := SetDispatched(u, a.digest, true), dequeued := s.dequeued[a.op := a]) in Safe(max)
  {
    QueuedIsCurrent(max, s, a);
    var sched := SetDispatched(u, a.digest, true);
    forall o ensures SlotsOf(sched, o) == if o == a.op then iset{} else SlotsOf(s.sched, o) {
      SlotsAfter(s.sched, u, a, o);
    }
    forall o ensures EntryOf(s.(sched := sched), o) == if o == a.op then Some(EntryOf(s, o).value.(dispatched := true))
      else EntryOf(s, o) {
      EntriesAfterMark(s, sched, a.op, true, o);
    }
    HeldKeeps(max, s, a, sched);
  }

  lemma HeldKeeps(max: nat, s: Sys, a: Action, sched: Sched)
    requires s in Safe(max) && SlotsOf(s.sched, a.op) == iset{a} && Rescheduled(s, sched, a.op, iset{}, true)
    ensures s.(sched := sched, dequeued := s.dequeued[a.op := a]) in Safe(max)
  {
    var t, l := s.(sched := sched, dequeued := s.dequeued[a.op := a]), LocalOf(s, a.op);
    assert LocalOf(t, a.op) in Legal(max, a.op) by {
      LocalIsLegal(max, s, a.op);
      LocalTake(max, a.op, l, a);
      assert LocalOf(t, a.op) == l.(slots := iset{}, dequeued := Some(a),
             entry := Some(l.entry.value.(dispatched := true)));
    }
    StepAbout(max, s, t, a.op);
  }

  lemma SlotsAfter(s: Sched, u: Sched, a: Action, o: OperationId)
    requires forall b :: IsQueued(u, b) <==> IsQueued(s, b) && b != a
    requires SlotsOf(s, a.op) == iset{a}
    ensures SlotsOf(u, o) == if o == a.op then iset{} else SlotsOf(s, o)
  {
    forall b ensures b in SlotsOf(u, o) <==> b in SlotsOf(s, o) && b != a {
      assert IsQueued(u, b) <==> IsQueued(s, b) && b != a;
    }
    assert SlotsOf(u, o) == SlotsOf(s, o) - iset{a};
    assert o != a.op ==> a !in SlotsOf(s, o);
  }

  /** Putting `a` back for an operation that is in none of the queues. */
  lemma PutBackEffect(max: nat, s: Sys, a: Action)
    requires s in Safe(max) && SlotsOf(s.sched, a.op) == iset{} && EntryOf(s, a.op).Some? &&
             a.digest == s.admitted[a.op].digest
    ensures Rescheduled(s, PutBack(s.sched, a), a.op, iset{a}, false)
  {
    var u, sched := SetDispatched(s.sched, a.digest, false), PutBack(s.sched, a);
    assert forall b :: IsQueued(u, b) <==> IsQueued(s.sched, b);
    NotQueued(s.sched, a.op);
    PushSlotted(u, a, true);
    forall o ensures EntryOf(s.(sched := sched), o) ==
                     if o == a.op then Some(EntryOf(s, a.op).value.(dispatched := false)) else EntryOf(s, o)
    {
      EntriesAfterMark(s, sched, a.op, false, o);
    }
    forall o ensures SlotsOf(sched, o) == if o == a.op then iset{a} else SlotsOf(s.sched, o) {
      SlotsWith(s.sched, sched, a, o);
    }
  }

  lemma PutBackKeeps(max: nat, s: Sys, op: OperationId)
    requires s in Safe(max) && Enabled(s, PutBackUnmatched(op))
    ensures ApplyPutBack(s, op) in Safe(max)
  {
    DequeuedIs(max, s, op);
    PutBackEffect(max, s, s.dequeued[op]);
    ReturnKeeps(max, s, op, PutBack(s.sched, s.dequeued[op]));
  }

  lemma ReturnLocals(s: Sys, op: OperationId, sched: Sched)
    requires op in s.dequeued && Rescheduled(s, sched, op, iset{s.dequeued[op]}, false)
    ensures var t, l := s.(sched := sched, dequeued := s.dequeued - {op}), LocalOf(s, op);
            && l.dequeued == Some(s.dequeued[op]) && l.entry.Some? && EntriesOwned(t)
            && LocalOf(t, op) == l.(slots := iset{l.dequeued.value}, dequeued := None,
                                    entry := Some(l.entry.value.(dispatched := false)))
            && forall o :: o != op ==> LocalOf(t, o) == LocalOf(s, o)
  {
    var t := s.(sched := sched, dequeued := s.dequeued - {op});
    forall o ensures EntryOf(t, o) == EntryOf(s.(sched := sched), o) {
    }
  }

  lemma ReturnKeeps(max: nat, s: Sys, op: OperationId, sched: Sched)
    requires s in Safe(max) && op in s.dequeued && Rescheduled(s, sched, op, iset{s.dequeued[op]}, false)
    ensures s.(sched := sched, dequeued := s.dequeued - {op}) in Safe(max)
  {
    LocalIsLegal(max, s, op);
    LocalDispatch(max, op, LocalOf(s, op), 0);
    ReturnLocals(s, op, sched);
    StepAbout(max, s, s.(sched := sched, dequeued := s.dequeued - {op}), op);
  }

  /** A dequeued operation is `Queued`, in no slot, and holds its digest. */
  lemma DequeuedIs(max: nat, s: Sys, op: OperationId)
    requires s in Safe(max) && op in s.dequeued
    ensures op in s.machines && s.machines[op].stage == Queued && s.dequeued[op].op == op
    ensures SlotsOf(s.sched, op) == iset{} && EntryOf(s, op).Some? && s.dequeued[op].digest == s.admitted[op].digest
  {
    LocalIsLegal(max, s, op);
    LocalDispatch(max, op, LocalOf(s, op), 0);
  }

  lemma DeliverKeeps(max: nat, s: Sys, op: OperationId, worker: nat)
    requires s in Safe(max) && Enabled(s, Deliver(op, worker))
    ensures ApplyDeliver(s, op, worker) in Safe(max)
  {
    DequeuedIs(max, s, op);
    DeliveredKeeps(max, s, op, worker);
  }

  function Delivered(s: Sys, op: OperationId, worker: nat): Sys
    requires op in s.dequeued && op in s.machines
  {
    s.(machines := s.machines[op := s.machines[op].(stage := Assigned)],
       dequeued := s.dequeued - {op},
       active := s.active[op := ActiveExecution(worker, s.dequeued[op])],
       deliveries := s.deliveries[op := Deliveries(s, op) + 1])
  }

  lemma DeliveredLocals(s: Sys, op: OperationId, worker: nat)
    requires op in s.dequeued && op in s.machines
    ensures LocalOf(Delivered(s, op, worker), op) == LocalOf(s, op).(
        machine := Some(s.machines[op].(stage := Assigned)), dequeued := None,
        active := Some(ActiveExecution(worker, s.dequeued[op])), deliveries := Deliveries(s, op) + 1)
    ensures forall o :: o != op ==> LocalOf(Delivered(s, op, worker), o) == LocalOf(s, o)
  {
  }

  lemma DeliveredKeeps(max: nat, s: Sys, op: OperationId, worker: nat)
    requires s in Safe(max) && op in s.dequeued && op in s.machines
    ensures Delivered(s, op, worker) in Safe(max)
  {
    LocalIsLegal(max, s, op);
    LocalDispatch(max, op, LocalOf(s, op), worker);
    DeliveredLocals(s, op, worker);
    StepAbout(max, s, Delivered(s, op, worker), op);
  }

  lemma FailDeliveryKeeps(max: nat, s: Sys, op: OperationId)
    requires s in Safe(max) && Enabled(s, FailDelivery(op))
    ensures ApplyFailDelivery(s, op) in Safe(max)
  {
    FailDeliveryIsPutBack(max, s, op);
    PutBackKeeps(max, s, op);
  }

  /** A delivery that fails undoes its own stage change and puts the action back. */
  lemma FailDeliveryIsPutBack(max: nat, s: Sys, op: OperationId)
    requires s in Safe(max) && Enabled(s, FailDelivery(op))
    ensures ApplyFailDelivery(s, op) == ApplyPutBack(s, op)
  {
    DequeuedIs(max, s, op);
    assert s.machines[op := s.machines[op].(stage := Assigned)][op := s.machines[op].(stage := Queued)] == s.machines;
  }

  lemma LocalLose(max: nat, op: OperationId, l: Local)
    requires l in Legal(max, op) && l.active.Some?
    ensures l.(active := None, lost := Some(l.active.value.action)) in Legal(max, op)
  {
  }

  lemma LoseLocals(s: Sys, worker: nat, op: OperationId)
    ensures LocalOf(ApplyLoseWorker(s, worker), op) ==
            if op in s.active && s.active[op].worker == worker && op !in s.lost
            then LocalOf(s, op).(active := None, lost := Some(s.active[op].action))
            else if op in s.active && s.active[op].worker == worker then LocalOf(s, op).(active := None)
            else LocalOf(s, op)
  {
  }

  lemma NotBoth(max: nat, s: Sys, op: OperationId)
    requires s in Safe(max)
    ensures !(op in s.active && op in s.lost)
  {
    LocalIsLegal(max, s, op);
    assert LocalOf(s, op).active == Get(s.active, op) && LocalOf(s, op).lost == Get(s.lost, op);
  }

  lemma LoseWorkerKeeps(max: nat, s: Sys, worker: nat)
    requires s in Safe(max)
    ensures ApplyLoseWorker(s, worker) in Safe(max)
  {
    var t := ApplyLoseWorker(s, worker);
    forall op ensures LocalOf(t, op) in Legal(max, op) {
      LocalIsLegal(max, s, op);
      LoseLocals(s, worker, op);
      NotBoth(max, s, op);
      if op in s.active && s.active[op].worker == worker {
        LocalLose(max, op, LocalOf(s, op));
      }
    }
  }

  lemma SettleLostKeeps(max: nat, s: Sys, op: OperationId)
    requires s in Safe(max) && Enabled(s, SettleLost(op))
    ensures ApplySettleLost(max, s, op) in Safe(max)
  {
    SettleLostIs(max, s, op);
    var a := s.lost[op].(workerLosses := s.lost[op].workerLosses + 1);
    if a.workerLosses > max {
      GiveUpKeeps(max, s, op);
    } else {
      PutBackEffect(max, s, a);
      RetryKeeps(max, s, op, a, PutBack(s.sched, a));
    }
  }

  lemma SettleLostIs(max: nat, s: Sys, op: OperationId)
    requires s in Safe(max) && Enabled(s, SettleLost(op))
    ensures var a := s.lost[op].(workerLosses := s.lost[op].workerLosses + 1);
            && a.op == op && SlotsOf(s.sched, op) == iset{} && EntryOf(s, op).Some? && a.digest == s.admitted[op].digest
            && ApplySettleLost(max, s, op) ==
               if a.workerLosses > max then
                 s.(lost := s.lost - {op}, active := s.active - {op},
                   finishing := s.finishing[op := Finish(ENGINE_FAILURE, ToRecord)])
               else
                 Retried(s, op, PutBack(s.sched, a))
  {
    LocalIsLegal(max, s, op);
    LocalSettle(max, op, LocalOf(s, op));
    if s.lost[op].workerLosses + 1 > max {
      GivesUp(max, s, op);
    } else {
      Retries(max, s, op);
    }
  }

  lemma GivesUp(max: nat, s: Sys, op: OperationId)
    requires op in s.lost && op in s.machines && op in s.registered && s.machines[op].stage == Assigned &&
             s.lost[op].workerLosses + 1 > max
    ensures ApplySettleLost(max, s, op) ==
            s.(lost := s.lost - {op}, active := s.active - {op},
              finishing := s.finishing[op := Finish(ENGINE_FAILURE, ToRecord)])
  {
  }

  lemma Retries(max: nat, s: Sys, op: OperationId)
    requires op in s.lost && op in s.machines && op in s.registered && s.machines[op].stage == Assigned &&
             s.lost[op].workerLosses + 1 <= max
    ensures ApplySettleLost(max, s, op) ==
            Retried(s, op, PutBack(s.sched, s.lost[op].(workerLosses := s.lost[op].workerLosses + 1)))
  {
  }

  lemma GiveUpKeeps(max: nat, s: Sys, op: OperationId)
    requires s in Safe(max) && op in s.lost && s.lost[op].workerLosses + 1 > max
    ensures s.(lost := s.lost - {op}, active := s.active - {op},
            finishing := s.finishing[op := Finish(ENGINE_FAILURE, ToRecord)]) in Safe(max)
  {
    var t := s.(lost := s.lost - {op}, active := s.active - {op},
      finishing := s.finishing[op := Finish(ENGINE_FAILURE, ToRecord)]);
    assert LocalOf(t, op) in Legal(max, op) by {
      LocalIsLegal(max, s, op);
      LocalSettle(max, op, LocalOf(s, op));
      assert LocalOf(t, op) == LocalOf(s, op).(lost := None, finishing := Some(Finish(ENGINE_FAILURE, ToRecord)));
    }
    StepAbout(max, s, t, op);
  }

  function Retried(s: Sys, op: OperationId, sched: Sched): Sys
    requires op in s.machines
  {
    s.(sched := sched, lost := s.lost - {op}, machines := s.machines[op := s.machines[op].(stage := Queued)])
  }

  lemma RetriedLocals(s: Sys, op: OperationId, a: Action, sched: Sched)
    requires op in s.machines && Rescheduled(s, sched, op, iset{a}, false)
    ensures LocalOf(Retried(s, op, sched), op) == LocalOf(s, op).(
        machine := Some(s.machines[op].(stage := Queued)), lost := None,
        slots := iset{a}, entry := Some(EntryOf(s, op).value.(dispatched := false)))
    ensures forall o :: o != op ==> LocalOf(Retried(s, op, sched), o) == LocalOf(s, o)
    ensures EntriesOwned(Retried(s, op, sched))
  {
    forall o ensures EntryOf(Retried(s, op, sched), o) == EntryOf(s.(sched := sched), o) {
    }
  }

  lemma RetryKeeps(max: nat, s: Sys, op: OperationId, a: Action, sched: Sched)
    requires s in Safe(max) && op in s.lost && op in s.machines &&
             a == s.lost[op].(workerLosses := s.lost[op].workerLosses + 1)
    requires a.workerLosses <= max && Rescheduled(s, sched, op, iset{a}, false)
    ensures Retried(s, op, sched) in Safe(max)
  {
    LocalIsLegal(max, s, op);
    LocalSettle(max, op, LocalOf(s, op));
    RetriedLocals(s, op, a, sched);
    StepAbout(max, s, Retried(s, op, sched), op);
  }

  /** A report is out of order when it is an error for an operation back in the queue:
      `Queued -> Failed` is a legal move, so the stage check lets it through. */
  predicate LateError(s: Sys, step: Step) {
    && step.Report? && step.outcome.error && step.op in s.registered
    && step.op in s.machines && s.machines[step.op].stage == Queued
  }

  lemma ReportKeeps(max: nat, s: Sys, op: OperationId, outcome: Outcome)
    requires s in Safe(max) && Enabled(s, Report(op, outcome)) && !LateError(s, Report(op, outcome))
    ensures ApplyReport(s, op, outcome) in Safe(max)
  {
    if op in s.registered && CanTransition(s.machines[op].stage, FinalStage(outcome)) {
      AcceptKeeps(max, s, op, outcome);
      assert ApplyReport(s, op, outcome) == AcceptedReport(s, op, outcome);
    } else {
      ReportDropped(max, s, op, outcome);
    }
  }

  /** A report the stage check refuses changes nothing. */
  lemma ReportDropped(max: nat, s: Sys, op: OperationId, outcome: Outcome)
    requires s in Safe(max) && Enabled(s, Report(op, outcome))
    requires op !in s.registered || !CanTransition(s.machines[op].stage, FinalStage(outcome))
    ensures ApplyReport(s, op, outcome) == s
  {
    LocalIsLegal(max, s, op);
    if op !in s.registered {
      assert LocalOf(s, op).active == None;
      assert s.active - {op} == s.active;
    }
  }

  function AcceptedReport(s: Sys, op: OperationId, outcome: Outcome): Sys {
    s.(active := s.active - {op}, finishing := s.finishing[op := Finish(outcome, ToRecord)],
       accepted := if outcome.error then s.accepted else s.accepted[op := Accepted(s, op) + 1])
  }

  lemma AcceptedLocals(s: Sys, op: OperationId, outcome: Outcome)
    ensures LocalOf(AcceptedReport(s, op, outcome), op) == LocalOf(s, op).(
        active := None, finishing := Some(Finish(outcome, ToRecord)), accepted := Accepted(s, op) + One(!outcome.error))
    ensures forall o :: o != op ==> LocalOf(AcceptedReport(s, op, outcome), o) == LocalOf(s, o)
  {
  }

  lemma AcceptKeeps(max: nat, s: Sys, op: OperationId, outcome: Outcome)
    requires s in Safe(max) && Enabled(s, Report(op, outcome)) && !LateError(s, Report(op, outcome))
    requires op in s.registered && CanTransition(s.machines[op].stage, FinalStage(outcome))
    ensures AcceptedReport(s, op, outcome) in Safe(max)
  {
    LocalIsLegal(max, s, op);
    LocalReport(max, op, LocalOf(s, op), outcome);
    AcceptedLocals(s, op, outcome);
    StepAbout(max, s, AcceptedReport(s, op, outcome), op);
  }

  /** Releasing a digest takes the entry of its owner and of no one else. */
  lemma ReleaseEffect(s: Sys, op: OperationId)
    requires EntriesOwned(s) && EntryOf(s, op).Some?
    ensures var sched := Complete(s.sched, s.admitted[op].digest);
            && EntriesOwned(s.(sched := sched))
            && (forall o :: EntryOf(s.(sched := sched), o) == if o == op then None else EntryOf(s, o))
  {
  }

  lemma EndingHoldsDigest(max: nat, s: Sys, op: OperationId)
    requires s in Safe(max) && (op in s.finishing || op in s.cancelling)
    ensures op in s.machines && EntryOf(s, op).Some? && s.machines[op].digest == s.admitted[op].digest
  {
    LocalIsLegal(max, s, op);
    assert LocalOf(s, op).finishing.Some? || LocalOf(s, op).cancelling.Some?;
  }

  function Released(s: Sys, op: OperationId): Sys
    requires op in s.machines
  {
    s.(sched := Complete(s.sched, s.machines[op].digest), finishing := s.finishing - {op},
      cancelling := s.cancelling - {op})
  }

  lemma ReleasedLocals(s: Sys, op: OperationId)
    requires EntriesOwned(s) && EntryOf(s, op).Some? && op in s.machines &&
             s.machines[op].digest == s.admitted[op].digest
    ensures LocalOf(Released(s, op), op) == LocalOf(s, op).(entry := None, finishing := None, cancelling := None)
    ensures forall o :: o != op ==> LocalOf(Released(s, op), o) == LocalOf(s, o)
    ensures EntriesOwned(Released(s, op))
  {
    ReleaseEffect(s, op);
  }

  lemma ReleaseKeeps(max: nat, s: Sys, op: OperationId)
    requires s in Safe(max) && op in s.machines && (op in s.finishing || op in s.cancelling)
    requires if op in s.finishing then s.finishing[op].phase.ToRelease? else s.cancelling[op].phase.ToRelease?
    ensures Released(s, op) in Safe(max)
  {
    EndingHoldsDigest(max, s, op);
    ReleasedLocals(s, op);
    LocalIsLegal(max, s, op);
    LocalRelease(max, op, LocalOf(s, op), if op in s.finishing then s.finishing[op] else s.cancelling[op]);
    StepAbout(max, s, Released(s, op), op);
  }

  /** The finishing or cancelling entry of `op` moves on by one phase. */
  ghost predicate Progressed(s: Sys, op: OperationId, f: Finish, fin: map<OperationId, Finish>,
      can: map<OperationId, Finish>)
  {
    || (&& op in s.finishing && op !in s.cancelling && f == s.finishing[op]
        && fin == s.finishing[op := NextPhase(f)] && can == s.cancelling)
    || (&& op in s.cancelling && op !in s.finishing && f == s.cancelling[op]
        && can == s.cancelling[op := NextPhase(f)] && fin == s.finishing)
  }

  lemma RecordKeeps(max: nat, s: Sys, op: OperationId, f: Finish, fin: map<OperationId, Finish>,
      can: map<OperationId, Finish>)
    requires s in Safe(max) && op in s.machines && f.phase.ToRecord? && Progressed(s, op, f, fin, can)
    ensures s.(recorded := s.recorded[op := f.outcome], finishing := fin, cancelling := can) in Safe(max)
  {
    var t, l := s.(recorded := s.recorded[op := f.outcome], finishing := fin, cancelling := can), LocalOf(s, op);
    assert LocalOf(t, op) in Legal(max, op) by {
      LocalIsLegal(max, s, op);
      LocalRecord(max, op, l, f);
      assert LocalOf(t, op) == l.(recorded := Some(f.outcome), finishing := Get(fin, op), cancelling := Get(can, op));
    }
    StepAbout(max, s, t, op);
  }

  lemma StoreKeeps(max: nat, s: Sys, op: OperationId, f: Finish, fin: map<OperationId, Finish>,
      can: map<OperationId, Finish>)
    requires s in Safe(max) && op in s.machines && f.phase.ToStore? && Progressed(s, op, f, fin, can)
    ensures s.(results := s.results[op := f.outcome], finishing := fin, cancelling := can) in Safe(max)
  {
    var t, l := s.(results := s.results[op := f.outcome], finishing := fin, cancelling := can), LocalOf(s, op);
    assert LocalOf(t, op) in Legal(max, op) by {
      LocalIsLegal(max, s, op);
      LocalStore(max, op, l, f);
      assert LocalOf(t, op) == l.(stored := Some(f.outcome), finishing := Get(fin, op), cancelling := Get(can, op));
    }
    StepAbout(max, s, t, op);
  }

  /** The machine of `op` at its last stage. */
  function AtFinal(s: Sys, op: OperationId, f: Finish): map<OperationId, Machine>
    requires op in s.machines
  {
    s.machines[op := s.machines[op].(stage := FinalStage(f.outcome))]
  }

  lemma TurnLocals(s: Sys, op: OperationId, f: Finish, fin: map<OperationId, Finish>, can: map<OperationId, Finish>)
    requires op in s.machines && Progressed(s, op, f, fin, can)
    ensures var t, l := s.(machines := AtFinal(s, op, f), finishing := fin, cancelling := can), LocalOf(s, op);
            && l.machine.Some?
            && LocalOf(t, op) == l.(machine := Some(l.machine.value.(stage := FinalStage(f.outcome))),
                                    finishing := Get(fin, op), cancelling := Get(can, op))
            && forall o :: o != op ==> LocalOf(t, o) == LocalOf(s, o)
  {
  }

  lemma TurnKeeps(max: nat, s: Sys, op: OperationId, f: Finish, fin: map<OperationId, Finish>,
      can: map<OperationId, Finish>)
    requires s in Safe(max) && op in s.machines && f.phase.ToTurn? && Progressed(s, op, f, fin, can)
    ensures s.(machines := AtFinal(s, op, f), finishing := fin, cancelling := can) in Safe(max)
  {
    TurnLocals(s, op, f, fin, can);
    LocalIsLegal(max, s, op);
    LocalTurn(max, op, LocalOf(s, op), f);
    StepAbout(max, s, s.(machines := AtFinal(s, op, f), finishing := fin, cancelling := can), op);
  }

  /** An operation is never finished and cancelled at once, and its last stage is open to it. */
  lemma OneEnding(max: nat, s: Sys, op: OperationId)
    requires s in Safe(max) && op in s.machines
    ensures !(op in s.finishing && op in s.cancelling)
    ensures op in s.finishing && s.finishing[op].phase.ToTurn? ==>
            CanTransition(s.machines[op].stage, FinalStage(s.finishing[op].outcome))
    ensures op in s.cancelling && s.cancelling[op].phase.ToTurn? ==>
            CanTransition(s.machines[op].stage, FinalStage(s.cancelling[op].outcome))
  {
    LocalIsLegal(max, s, op);
  }

  /** The next write made and the entry moved on. */
  function WrittenOn(s: Sys, op: OperationId, f: Finish, fin: map<OperationId, Finish>,
      can: map<OperationId, Finish>): Sys
    requires op in s.machines
  {
    FinishStep(s, op, f).(finishing := fin, cancelling := can)
  }

  lemma WrittenIs(s: Sys, op: OperationId, f: Finish, fin: map<OperationId, Finish>, can: map<OperationId, Finish>)
    requires op in s.machines && !f.phase.ToRelease?
    requires f.phase.ToTurn? ==> CanTransition(s.machines[op].stage, FinalStage(f.outcome))
    ensures WrittenOn(s, op, f, fin, can) ==
            if f.phase.ToRecord? then s.(recorded := s.recorded[op := f.outcome], finishing := fin, cancelling := can)
            else if f.phase.ToStore? then s.(results := s.results[op := f.outcome], finishing := fin, cancelling := can)
            else s.(machines := AtFinal(s, op, f), finishing := fin, cancelling := can)
  {
  }

  lemma WriteKeeps(max: nat, s: Sys, op: OperationId, f: Finish, fin: map<OperationId, Finish>,
      can: map<OperationId, Finish>)
    requires s in Safe(max) && op in s.machines && !f.phase.ToRelease? && Progressed(s, op, f, fin, can)
    ensures WrittenOn(s, op, f, fin, can) in Safe(max)
  {
    OneEnding(max, s, op);
    WrittenIs(s, op, f, fin, can);
    if f.phase.ToRecord? {
      RecordKeeps(max, s, op, f, fin, can);
    } else if f.phase.ToStore? {
      StoreKeeps(max, s, op, f, fin, can);
    } else {
      TurnKeeps(max, s, op, f, fin, can);
    }
  }

  lemma AdvanceIs(s: Sys, op: OperationId)
    requires op in s.finishing && op in s.machines && op !in s.cancelling
    ensures var f := s.finishing[op];
            ApplyAdvance(s, op) == if f.phase.ToRelease? then Released(s, op)
                                   else WrittenOn(s, op, f, s.finishing[op := NextPhase(f)], s.cancelling)
  {
    assert s.cancelling - {op} == s.cancelling;
  }

  lemma AdvanceKeeps(max: nat, s: Sys, op: OperationId)
    requires s in Safe(max) && Enabled(s, Advance(op))
    ensures ApplyAdvance(s, op) in Safe(max)
  {
    var f := s.finishing[op];
    OneEnding(max, s, op);
    AdvanceIs(s, op);
    if f.phase.ToRelease? {
      ReleaseKeeps(max, s, op);
    } else {
      WriteKeeps(max, s, op, f, s.finishing[op := NextPhase(f)], s.cancelling);
    }
  }

  lemma AdvanceCancelIs(s: Sys, op: OperationId)
    requires op in s.cancelling && op in s.machines && op !in s.finishing
    ensures var f := s.cancelling[op];
            ApplyAdvanceCancel(s, op) == if f.phase.ToRelease? then Released(s, op)
                                         else WrittenOn(s, op, f, s.finishing, s.cancelling[op := NextPhase(f)])
  {
    assert s.finishing - {op} == s.finishing;
  }

  lemma AdvanceCancelKeeps(max: nat, s: Sys, op: OperationId)
    requires s in Safe(max) && Enabled(s, AdvanceCancel(op))
    ensures ApplyAdvanceCancel(s, op) in Safe(max)
  {
    var f := s.cancelling[op];
    OneEnding(max, s, op);
    AdvanceCancelIs(s, op);
    if f.phase.ToRelease? {
      ReleaseKeeps(max, s, op);
    } else {
      WriteKeeps(max, s, op, f, s.finishing, s.cancelling[op := NextPhase(f)]);
    }
  }

  lemma TakeUnwatchedKeeps(max: nat, s: Sys, c: QueuePriority, ops: set<OperationId>)
    requires s in Safe(max)
    ensures ApplyTakeUnwatched(s, c, ops) in Safe(max)
  {
    var t := ApplyTakeUnwatched(s, c, ops);
    DrainSlotted(s.sched, c, ops);
    forall op ensures LocalOf(t, op) in Legal(max, op) {
      UnwatchedAt(max, s, c, ops, op);
    }
  }

  lemma UnwatchedAt(max: nat, s: Sys, c: QueuePriority, ops: set<OperationId>, op: OperationId)
    requires s in Safe(max)
    ensures LocalOf(ApplyTakeUnwatched(s, c, ops), op) in Legal(max, op)
  {
    var t := ApplyTakeUnwatched(s, c, ops);
    SlotsAfterDrain(s.sched, c, ops, op);
    if op in ops && WaitsIn(s.sched, c, op) {
      var a :| IsQueued(s.sched, a) && a.op == op && a.priority == c;
      QueuedIsCurrent(max, s, a);
      LocalIsLegal(max, s, op);
      LocalCancelled(max, s, t, op, a);
    } else {
      LocalIsLegal(max, s, op);
      LocalSpared(max, s, t, op);
    }
  }

  lemma LocalCancelled(max: nat, s: Sys, t: Sys, op: OperationId, a: Action)
    requires LocalOf(s, op) in Legal(max, op) && SlotsOf(s.sched, op) == iset{a}
    requires t == s.(sched := t.sched, cancelling := t.cancelling) && t.sched.inFlight == s.sched.inFlight
    requires op in t.cancelling && t.cancelling[op] == Finish(ENGINE_FAILURE, ToRecord) &&
             SlotsOf(t.sched, op) == iset{}
    ensures LocalOf(t, op) in Legal(max, op)
  {
    LocalTake(max, op, LocalOf(s, op), a);
    assert LocalOf(t, op) == LocalOf(s, op).(slots := iset{}, cancelling := Some(Finish(ENGINE_FAILURE, ToRecord)));
  }

  lemma LocalSpared(max: nat, s: Sys, t: Sys, op: OperationId)
    requires LocalOf(s, op) in Legal(max, op) && t == s.(sched := t.sched, cancelling := t.cancelling) &&
             t.sched.inFlight == s.sched.inFlight
    requires Get(t.cancelling, op) == Get(s.cancelling, op) && SlotsOf(t.sched, op) == SlotsOf(s.sched, op)
    ensures LocalOf(t, op) in Legal(max, op)
  {
    assert LocalOf(t, op) == LocalOf(s, op);
  }

  lemma SlotsAfterDrain(s: Sched, c: QueuePriority, ops: set<OperationId>, op: OperationId)
    requires Slotted(s)
    ensures op in ops && (exists a :: SlotsOf(s, op) == iset{a} && a.priority == c) ==>
            SlotsOf(RemoveUnwatched(s, c, ops), op) == iset{}
    ensures op !in ops || !WaitsIn(s, c, op) ==> SlotsOf(RemoveUnwatched(s, c, ops), op) == SlotsOf(s, op)
  {
    var t := RemoveUnwatched(s, c, ops);
    forall b ensures b in SlotsOf(t, op) <==> b in SlotsOf(s, op) && !(b.priority == c && op in ops) {
      QueuedAfterDrain(s, c, ops, b);
      assert b in SlotsOf(s, op) <==> IsQueued(s, b) && b.op == op;
      assert b in SlotsOf(t, op) <==> IsQueued(t, b) && b.op == op;
    }
    if op !in ops || !WaitsIn(s, c, op) {
      forall b ensures b in SlotsOf(t, op) <==> b in SlotsOf(s, op) {
        assert b in SlotsOf(s, op) ==> IsQueued(s, b);
      }
    }
  }

  lemma LocalRetire(max: nat, op: OperationId, l: Local)
    requires l in Legal(max, op) && l.machine.Some? && IsTerminal(l.machine.value.stage)
    ensures l.(registered := false) in Legal(max, op)
  {
  }

  lemma RetireLocals(s: Sys, op: OperationId)
    ensures LocalOf(s.(registered := s.registered - {op}), op) == LocalOf(s, op).(registered := false)
    ensures forall o :: o != op ==> LocalOf(s.(registered := s.registered - {op}), o) == LocalOf(s, o)
  {
  }

  lemma RetireKeeps(max: nat, s: Sys, op: OperationId)
    requires s in Safe(max) && Enabled(s, Retire(op))
    ensures s.(registered := s.registered - {op}) in Safe(max)
  {
    var t := s.(registered := s.registered - {op});
    LocalIsLegal(max, s, op);
    LocalRetire(max, op, LocalOf(s, op));
    RetireLocals(s, op);
    StepAbout(max, s, t, op);
  }
}
