/** The global history, the history of each label and the aggregates (src/bes/storage.rs),
    for target executions; test executions are kept the same way.

    The migration of the label index runs beside the appends. An append holds the lock
    while it writes the global file, the label file and the aggregate in turn; the
    migration holds no lock. */
module Histories {
  import opened Prelude
  import opened Aggregates

  type Files = map<string, seq<Execution>>

  /** How far an append under the lock has got. */
  datatype Hand = Free | WroteGlobal(ex: Execution) | WroteLabel(ex: Execution)

  datatype Log = Log(
    global: seq<Execution>,
    labels: Files,
    /** The migration: its buffers, the next record to copy, where it stops, and whether
        it is done. */
    buffers: Files,
    next: nat,
    limit: nat,
    ready: bool,
    hand: Hand,
    stats: map<string, Aggregate>,
    warm: bool)

  datatype Step =
    | AppendGlobal(ex: Execution)
    | AppendLabel
    | AppendStats
    | Copy
    | Flush(target: string)
    | Finish
    | Reload
    | Compact(retained: set<string>)

  /** A store opened over an old global history, with no label file yet. */
  function Opened(history: seq<Execution>): Log {
    Log(history, map[], map[], 0, |history|, false, Free, map[], false)
  }

  /** A store opened over files whose index was finished before. */
  function Reopened(history: seq<Execution>, labels: Files): Log {
    Log(history, labels, map[], 0, 0, true, Free, map[], false)
  }

  /** The label files hold the global records, each in the file of its label. */
  ghost predicate Agree(history: seq<Execution>, labels: Files) {
    && Sorted(labels)
    && forall x: Execution :: multiset(FileOf(labels, x.target))[x] == multiset(history)[x]
  }

  ghost predicate Start(s: Log) {
    s == Opened(s.global) || (Agree(s.global, s.labels) && s == Reopened(s.global, s.labels))
  }

  function FileOf(files: Files, target: string): seq<Execution> {
    if target in files then files[target] else []
  }

  function Appended(files: Files, target: string, more: seq<Execution>): Files {
    files[target := FileOf(files, target) + more]
  }

  function StatsAdd(stats: map<string, Aggregate>, ex: Execution): map<string, Aggregate> {
    stats[ex.target := Add(if ex.target in stats then stats[ex.target] else NOTHING, ex)]
  }

  /** The aggregates a scan of the history builds. */
  function Scanned(history: seq<Execution>): map<string, Aggregate> {
    if history == [] then map[] else StatsAdd(Scanned(history[..|history| - 1]), history[|history| - 1])
  }

  /** The records of retained builds, in order. */
  function Kept(history: seq<Execution>, retained: set<string>): seq<Execution> {
    if history == [] then []
    else Kept(history[..|history| - 1], retained)
         + if history[|history| - 1].invocation in retained then [history[|history| - 1]] else []
  }

  /** Every label file compacted, those left empty deleted. */
  function CompactedFiles(files: Files, retained: set<string>): Files {
    map t | t in files && Kept(files[t], retained) != [] :: Kept(files[t], retained)
  }

  predicate Enabled(s: Log, step: Step) {
    match step
    case AppendGlobal(_) => s.hand.Free?
    case AppendLabel => s.hand.WroteGlobal?
    case AppendStats => s.hand.WroteLabel?
    case Copy => !s.ready && s.next < s.limit <= |s.global|
    case Flush(t) => !s.ready && t in s.buffers
    case Finish => !s.ready && s.next == s.limit && s.buffers == map[]
    case Reload => s.hand.Free?
    case Compact(_) => s.hand.Free? && s.ready
  }

  function Apply(s: Log, step: Step): Log
    requires Enabled(s, step)
  {
    match step
    case AppendGlobal(ex) => s.(global := s.global + [ex], hand := WroteGlobal(ex))
    case AppendLabel => s.(labels := Appended(s.labels, s.hand.ex.target, [s.hand.ex]), hand := WroteLabel(s.hand.ex))
    case AppendStats => s.(stats := StatsAdd(s.stats, s.hand.ex), hand := Free)
    case Copy =>
      var ex := s.global[s.next];
      s.(buffers := Appended(s.buffers, ex.target, [ex]), next := s.next + 1)
    case Flush(t) => s.(labels := Appended(s.labels, t, s.buffers[t]), buffers := s.buffers - {t})
    case Finish => s.(ready := true)
    case Reload => s.(stats := Scanned(s.global), warm := true)
    case Compact(retained) =>
      s.(global := Kept(s.global, retained), labels := CompactedFiles(s.labels, retained),
         stats := Scanned(Kept(s.global, retained)), warm := true)
  }

  ghost predicate IsRun(states: seq<Log>, steps: seq<Step>) {
    && |states| == |steps| + 1 && Start(states[0])
    && forall n :: 0 <= n < |steps| ==> Enabled(states[n], steps[n]) && states[n + 1] == Apply(states[n], steps[n])
  }

  // ----- Records are neither lost nor copied twice -----

  /** What the migration still has to copy. */
  function ToCopy(s: Log): seq<Execution> {
    if s.ready || !(s.next <= s.limit <= |s.global|) then [] else s.global[s.next..s.limit]
  }

  function InHand(s: Log): seq<Execution> {
    if s.hand.WroteGlobal? then [s.hand.ex] else []
  }

  /** A record is in its label file, in the buffers, still to be copied or in hand as often
      as it is in the global history. */
  ghost predicate Balanced(s: Log, x: Execution) {
    multiset(FileOf(s.labels, x.target))[x] + multiset(FileOf(s.buffers, x.target))[x]
    + multiset(ToCopy(s))[x] + multiset(InHand(s))[x] == multiset(s.global)[x]
  }

  /** Every file holds records of its own label. */
  ghost predicate Sorted(files: Files) {
    forall t :: t in files ==> forall i :: 0 <= i < |files[t]| ==> files[t][i].target == t
  }

  /** The records whose append is complete. */
  function Complete(s: Log): seq<Execution> {
    if s.hand.Free? || s.global == [] then s.global else s.global[..|s.global| - 1]
  }

  ghost predicate Inv(s: Log) {
    && (!s.ready ==> s.next <= s.limit <= |s.global|) && (s.ready ==> s.buffers == map[])
    && Sorted(s.labels) && Sorted(s.buffers)
    && (!s.hand.Free? ==> s.global != [] && s.global[|s.global| - 1] == s.hand.ex)
    && (s.warm ==> s.stats == Scanned(Complete(s)))
    && forall x :: Balanced(s, x)
  }

  lemma FileAfter(files: Files, t: string, more: seq<Execution>, x: Execution)
    requires t == x.target || x !in more
    ensures multiset(FileOf(Appended(files, t, more), x.target))[x] == multiset(FileOf(files, x.target))[x]
            + multiset(more)[x]
  {
  }

  lemma OwnFile(files: Files, t: string, x: Execution)
    requires Sorted(files) && t in files && x in files[t]
    ensures x.target == t
  {
    var i :| 0 <= i < |files[t]| && files[t][i] == x;
  }

  lemma AppendGlobalBalances(s: Log, ex: Execution, x: Execution)
    requires Inv(s) && s.hand.Free?
    ensures Balanced(Apply(s, AppendGlobal(ex)), x)
  {
    assert Balanced(s, x);
    var t := Apply(s, AppendGlobal(ex));
    assert !s.ready ==> t.global[s.next..s.limit] == s.global[s.next..s.limit];
  }

  lemma AppendLabelBalances(s: Log, x: Execution)
    requires Inv(s) && s.hand.WroteGlobal?
    ensures Balanced(Apply(s, AppendLabel), x)
  {
    assert Balanced(s, x);
    FileAfter(s.labels, s.hand.ex.target, [s.hand.ex], x);
  }

  lemma OneLessToCopy(history: seq<Execution>, i: nat, j: nat)
    requires i < j <= |history|
    ensures multiset(history[i..j]) == multiset{history[i]} + multiset(history[i + 1..j])
  {
    assert history[i..j] == [history[i]] + history[i + 1..j];
  }

  lemma CopyCounts(s: Log, x: Execution)
    requires Enabled(s, Copy)
    ensures multiset(ToCopy(s))[x] == multiset(ToCopy(Apply(s, Copy)))[x] + multiset([s.global[s.next]])[x]
  {
    OneLessToCopy(s.global, s.next, s.limit);
  }

  lemma CopyBalances(s: Log, x: Execution)
    requires Balanced(s, x) && Enabled(s, Copy)
    ensures Balanced(Apply(s, Copy), x)
  {
    CopyCounts(s, x);
    FileAfter(s.buffers, s.global[s.next].target, [s.global[s.next]], x);
  }

  lemma FlushBalances(s: Log, t: string, x: Execution)
    requires Inv(s) && Enabled(s, Flush(t))
    ensures Balanced(Apply(s, Flush(t)), x)
  {
    assert Balanced(s, x);
    if x in s.buffers[t] {
      OwnFile(s.buffers, t, x);
    }
    FileAfter(s.labels, t, s.buffers[t], x);
  }

  lemma {:induction false} KeptCount(history: seq<Execution>, retained: set<string>, x: Execution)
    ensures multiset(Kept(history, retained))[x] == if x.invocation in retained then multiset(history)[x] else 0
  {
    if history != [] {
      KeptCount(history[..|history| - 1], retained, x);
      assert history == history[..|history| - 1] + [history[|history| - 1]];
    }
  }

  lemma CompactBalances(s: Log, retained: set<string>, x: Execution)
    requires Inv(s) && Enabled(s, Compact(retained))
    ensures Balanced(Apply(s, Compact(retained)), x)
  {
    assert Balanced(s, x);
    KeptCount(s.global, retained, x);
    KeptCount(FileOf(s.labels, x.target), retained, x);
    var t := Apply(s, Compact(retained));
    assert FileOf(t.labels, x.target) == Kept(FileOf(s.labels, x.target), retained);
  }

  lemma {:induction false} KeptSorted(history: seq<Execution>, retained: set<string>, t: string)
    requires forall i :: 0 <= i < |history| ==> history[i].target == t
    ensures forall i :: 0 <= i < |Kept(history, retained)| ==> Kept(history, retained)[i].target == t
  {
    if history != [] {
      KeptSorted(history[..|history| - 1], retained, t);
    }
  }

  lemma StepBalances(s: Log, step: Step, x: Execution)
    requires Inv(s) && Enabled(s, step)
    ensures Balanced(Apply(s, step), x)
  {
    match step
    case AppendGlobal(ex) => AppendGlobalBalances(s, ex, x);
    case AppendLabel => AppendLabelBalances(s, x);
    case AppendStats => assert Balanced(s, x);
    case Copy => CopyBalances(s, x);
    case Flush(t) => FlushBalances(s, t, x);
    case Finish => assert Balanced(s, x);
    case Reload => assert Balanced(s, x);
    case Compact(retained) => CompactBalances(s, retained, x);
  }

  lemma StepFiles(s: Log, step: Step)
    requires Inv(s) && Enabled(s, step)
    ensures Sorted(Apply(s, step).labels) && Sorted(Apply(s, step).buffers)
  {
    if step.Compact? {
      forall t | t in s.labels ensures forall i :: 0 <= i < |Kept(s.labels[t], step.retained)| ==>
        Kept(s.labels[t], step.retained)[i].target == t {
        KeptSorted(s.labels[t], step.retained, t);
      }
    }
  }

  lemma CompleteAfterAppend(s: Log, ex: Execution)
    requires s.hand.Free?
    ensures Complete(Apply(s, AppendGlobal(ex))) == s.global
  {
    assert (s.global + [ex])[..|s.global|] == s.global;
  }

  lemma StatsAfterAppend(s: Log)
    requires Inv(s) && s.hand.WroteLabel?
    ensures var t := Apply(s, AppendStats); t.warm ==> t.stats == Scanned(Complete(t))
  {
  }

  lemma StepStats(s: Log, step: Step)
    requires Inv(s) && Enabled(s, step)
    ensures var t := Apply(s, step); t.warm ==> t.stats == Scanned(Complete(t))
  {
    match step
    case AppendGlobal(ex) => CompleteAfterAppend(s, ex);
    case AppendStats => StatsAfterAppend(s);
    case Reload =>
    case Compact(retained) =>
    case _ => assert Complete(Apply(s, step)) == Complete(s);
  }

  lemma StepKeeps(s: Log, step: Step)
    requires Inv(s) && Enabled(s, step)
    ensures Inv(Apply(s, step))
  {
    StepFiles(s, step);
    StepStats(s, step);
    var t := Apply(s, step);
    forall x ensures Balanced(t, x) {
      StepBalances(s, step, x);
    }
  }

  lemma StartHolds(s: Log)
    requires Start(s)
    ensures Inv(s)
  {
    assert s.global[0..|s.global|] == s.global;
    forall x ensures Balanced(s, x) {
    }
  }

  lemma {:induction false} RunKeeps(states: seq<Log>, steps: seq<Step>, n: nat)
    requires IsRun(states, steps) && n < |states|
    ensures Inv(states[n])
    decreases n
  {
    if n == 0 {
      StartHolds(states[0]);
    } else {
      RunKeeps(states, steps, n - 1);
      StepKeeps(states[n - 1], steps[n - 1]);
    }
  }

  // ----- What a reader finds -----

  /** The records of one label, in order. */
  function OfTarget(history: seq<Execution>, t: string): seq<Execution> {
    if history == [] then []
    else OfTarget(history[..|history| - 1], t) + if history[|history| - 1].target == t then [history[|history| - 1]]
      else []
  }

  lemma {:induction false} OfTargetCount(history: seq<Execution>, t: string, x: Execution)
    ensures multiset(OfTarget(history, t))[x] == if x.target == t then multiset(history)[x] else 0
  {
    if history != [] {
      OfTargetCount(history[..|history| - 1], t, x);
      assert history == history[..|history| - 1] + [history[|history| - 1]];
    }
  }

  lemma {:induction false} ScannedIsFold(history: seq<Execution>, t: string)
    ensures t in Scanned(history) <==> OfTarget(history, t) != []
    ensures t in Scanned(history) ==> Scanned(history)[t] == Fold(OfTarget(history, t))
  {
    if history != [] {
      var init, ex := history[..|history| - 1], history[|history| - 1];
      ScannedIsFold(init, t);
      if ex.target == t {
        FoldOneMore(OfTarget(init, t), ex);
        assert OfTarget(history, t) == OfTarget(init, t) + [ex];
        assert OfTarget(init, t) == [] ==> Fold(OfTarget(init, t)) == NOTHING;
      } else {
        assert OfTarget(history, t) == OfTarget(init, t);
      }
    }
  }

  lemma FilesOfInv(s: Log, t: string)
    requires Inv(s) && s.ready && s.hand.Free?
    ensures multiset(FileOf(s.labels, t)) == multiset(OfTarget(s.global, t))
  {
    forall x ensures multiset(FileOf(s.labels, t))[x] == multiset(OfTarget(s.global, t))[x] {
      OfTargetCount(s.global, t, x);
      assert Balanced(s, x);
      if x in FileOf(s.labels, t) {
        OwnFile(s.labels, t, x);
      }
    }
  }

  /** Once the index is ready, and between appends, the file of a label holds exactly the
      global records of that label, each as often, whatever was appended, flushed and
      compacted on the way. */
  lemma LabelFilesAgree(states: seq<Log>, steps: seq<Step>, n: nat, t: string)
    requires IsRun(states, steps) && n < |states| && states[n].ready && states[n].hand.Free?
    ensures multiset(FileOf(states[n].labels, t)) == multiset(OfTarget(states[n].global, t))
  {
    RunKeeps(states, steps, n);
    FilesOfInv(states[n], t);
  }

  /** Once warm, and between appends, there is an aggregate for each label with records and
      for no other, and it is the fold of those records in file order. */
  lemma AggregatesAgree(states: seq<Log>, steps: seq<Step>, n: nat, t: string)
    requires IsRun(states, steps) && n < |states| && states[n].warm && states[n].hand.Free?
    ensures t in states[n].stats <==> OfTarget(states[n].global, t) != []
    ensures t in states[n].stats ==> states[n].stats[t] == Fold(OfTarget(states[n].global, t))
  {
    RunKeeps(states, steps, n);
    ScannedIsFold(states[n].global, t);
  }

  // ----- Runs given by their steps alone -----

  /** Where the steps lead from `s`, if they can all be taken in order. */
  ghost function After(s: Log, steps: seq<Step>): Option<Log> {
    if steps == [] then Some(s)
    else
      match After(s, steps[..|steps| - 1])
      case None => None
      case Some(t) => if Enabled(t, steps[|steps| - 1]) then Some(Apply(t, steps[|steps| - 1])) else None
  }

  ghost predicate EndsAt(s: Log, steps: seq<Step>, t: Log) {
    forall n: nat {:trigger Asked(n)} :: n == |steps| ==> Start(s) && After(s, steps) == Some(t)
  }

  /** The state the steps lead to, for proofs that look no further. */
  ghost function EndOf(s: Log, steps: seq<Step>): iset<Log> {
    iset t: Log | EndsAt(s, steps, t)
  }

  lemma EndIs(s: Log, steps: seq<Step>, t: Log)
    ensures t in EndOf(s, steps) <==> Start(s) && After(s, steps) == Some(t)
  {
    assert Asked(|steps|);
  }

  lemma Begins(s: Log)
    requires Start(s)
    ensures s in EndOf(s, [])
  {
    EndIs(s, [], s);
  }

  lemma Extend(s: Log, steps: seq<Step>, t: Log, step: Step)
    requires t in EndOf(s, steps) && Enabled(t, step)
    ensures Apply(t, step) in EndOf(s, steps + [step])
  {
    EndIs(s, steps, t);
    assert (steps + [step])[..|steps|] == steps;
    EndIs(s, steps + [step], Apply(t, step));
  }

  /** The steps are a run, and what holds in every run holds where they lead. */
  lemma {:induction false} AfterIsRun(s: Log, steps: seq<Step>, t: Log) returns (states: seq<Log>)
    requires Start(s) && After(s, steps) == Some(t)
    ensures IsRun(states, steps) && states[0] == s && states[|steps|] == t
    decreases |steps|
  {
    if steps == [] {
      states := [s];
    } else {
      var init := steps[..|steps| - 1];
      var before := AfterIsRun(s, init, After(s, init).value);
      states := before + [t];
      forall n | 0 <= n < |steps| ensures Enabled(states[n], steps[n]) && states[n + 1] == Apply(states[n], steps[n]) {
        if n < |init| {
          assert steps[n] == init[n];
        }
      }
    }
  }

  lemma EndHolds(s: Log, steps: seq<Step>, t: Log)
    requires t in EndOf(s, steps)
    ensures Inv(t)
  {
    EndIs(s, steps, t);
    var states := AfterIsRun(s, steps, t);
    RunKeeps(states, steps, |steps|);
  }
}
