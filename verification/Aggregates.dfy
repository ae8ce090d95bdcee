/** The running totals of one target label (`TargetAggregate` of src/bes/storage.rs). */
module Aggregates {
  import opened Prelude
  import opened Text

  datatype Status = Success | Failure | Cached | Dependency

  /** One execution of one target: a record of the history. */
  datatype Execution = Execution(
    target: string,
    invocation: string,
    status: Status,
    actionCount: nat,
    cachedActions: nat,
    failedActions: nat,
    actionMs: nat,
    buildMs: nat,
    kind: string,
    tags: seq<string>,
    start: Option<string>)

  /** What the newest records say of a target. */
  datatype Heading = Heading(kind: string, tags: seq<string>, latestStart: Option<string>, latestStatus: Option<Status>)

  datatype Counts = Counts(total: nat, success: nat, failure: nat, cached: nat)

  datatype Actions = Actions(actionCount: nat, cachedActions: nat, failedActions: nat, timed: nat, totalMs: nat,
      maxMs: nat)

  datatype Aggregate = Aggregate(heading: Heading, counts: Counts, actions: Actions)

  const NOTHING: Aggregate := Aggregate(Heading("", [], None, None), Counts(0, 0, 0, 0), Actions(0, 0, 0, 0, 0, 0))

  /** A record that counted the replayed times of a cached test. */
  predicate Replayed(ex: Execution) {
    ex.buildMs > 0 && ex.actionMs > ex.buildMs
  }

  predicate IsTimed(ex: Execution) {
    ex.actionMs > 0 && !Replayed(ex)
  }

  function Tally(n: nat, b: bool): nat {
    if b then n + 1 else n
  }

  function WithTags(tags: seq<string>, more: seq<string>): seq<string> {
    if more == [] then tags
    else
      var init := WithTags(tags, more[..|more| - 1]);
      if more[|more| - 1] in init then init else init + [more[|more| - 1]]
  }

  function AddHeading(h: Heading, ex: Execution): Heading {
    var newer := AtMost(h.latestStart, ex.start);
    Heading(
      if h.kind == "" then ex.kind else h.kind,
      WithTags(h.tags, ex.tags),
      if newer then ex.start else h.latestStart,
      if newer then Some(ex.status) else h.latestStatus)
  }

  function AddCounts(c: Counts, ex: Execution): Counts {
    Counts(
      c.total + 1,
      Tally(c.success, ex.status.Success?),
      Tally(c.failure, ex.status.Failure?),
      Tally(c.cached, ex.status.Cached?))
  }

  function AddActions(a: Actions, ex: Execution): Actions {
    Actions(
      a.actionCount + ex.actionCount,
      a.cachedActions + ex.cachedActions,
      a.failedActions + ex.failedActions,
      Tally(a.timed, IsTimed(ex)),
      if IsTimed(ex) then a.totalMs + ex.actionMs else a.totalMs,
      if IsTimed(ex) then Max(a.maxMs, ex.actionMs) else a.maxMs)
  }

  function Add(a: Aggregate, ex: Execution): Aggregate {
    Aggregate(AddHeading(a.heading, ex), AddCounts(a.counts, ex), AddActions(a.actions, ex))
  }

  /** The totals of a history, oldest record first. */
  function Fold(history: seq<Execution>): Aggregate {
    if history == [] then NOTHING else Add(Fold(history[..|history| - 1]), history[|history| - 1])
  }

  lemma FoldOneMore(history: seq<Execution>, ex: Execution)
    ensures Fold(history + [ex]) == Add(Fold(history), ex)
  {
    assert (history + [ex])[..|history|] == history;
  }

  // ----- What the totals mean -----

  function CountOf(history: seq<Execution>, status: Status): nat {
    if history == [] then 0
    else CountOf(history[..|history| - 1], status) + if history[|history| - 1].status == status then 1 else 0
  }

  lemma {:induction false} EveryStatusIsCounted(history: seq<Execution>)
    ensures var a := Fold(history).counts;
            && a.success == CountOf(history, Success) && a.failure == CountOf(history, Failure) &&
              a.cached == CountOf(history, Cached)
            && a.total == |history| == a.success + a.failure + a.cached + CountOf(history, Dependency)
  {
    if history != [] {
      EveryStatusIsCounted(history[..|history| - 1]);
    }
  }

  /** `i` is the last record among those with the latest start. */
  ghost predicate IsLatest(history: seq<Execution>, i: nat) {
    && i < |history|
    && (forall j :: 0 <= j < |history| ==> AtMost(history[j].start, history[i].start))
    && (forall j :: i < j < |history| ==> !AtMost(history[i].start, history[j].start))
  }

  /** The latest status is that of the record with the latest start, the last one on a tie. */
  lemma {:induction false} LatestIsLatest(history: seq<Execution>) returns (i: nat)
    requires history != []
    ensures IsLatest(history, i)
    ensures Fold(history).heading.latestStatus == Some(history[i].status) &&
            Fold(history).heading.latestStart == history[i].start
    decreases |history|
  {
    var init, ex := history[..|history| - 1], history[|history| - 1];
    AtMostIsTotal(ex.start, ex.start);
    if init == [] {
      i := 0;
    } else {
      var k := LatestIsLatest(init);
      AtMostIsTotal(init[k].start, ex.start);
      if AtMost(init[k].start, ex.start) {
        i := |init|;
        forall j | 0 <= j < |init| ensures AtMost(history[j].start, ex.start) {
          assert history[j] == init[j];
          AtMostIsTransitive(init[j].start, init[k].start, ex.start);
        }
      } else {
        i := k;
        forall j | 0 <= j < |init| ensures history[j] == init[j] {
        }
      }
    }
  }

  /** The times that count: of records that ran, and for no longer than their whole build. */
  function Times(history: seq<Execution>): seq<nat> {
    if history == [] then []
    else
      var ex := history[|history| - 1];
      Times(history[..|history| - 1])
      + if ex.actionMs > 0 && (ex.buildMs == 0 || ex.actionMs <= ex.buildMs) then [ex.actionMs] else []
  }

  function Sum(s: seq<nat>): nat {
    if s == [] then 0 else Sum(s[..|s| - 1]) + s[|s| - 1]
  }

  /** The number, sum and maximum of `times`. */
  ghost predicate Totals(a: Actions, times: seq<nat>) {
    && a.timed == |times| && a.totalMs == Sum(times)
    && (forall i :: 0 <= i < |times| ==> 0 < times[i] <= a.maxMs)
    && if times == [] then a.maxMs == 0 else a.maxMs in times
  }

  lemma TotalsMore(a: Actions, b: Actions, times: seq<nat>, ms: nat)
    requires Totals(a, times) && ms > 0
    requires b.timed == a.timed + 1 && b.totalMs == a.totalMs + ms && b.maxMs == Max(a.maxMs, ms)
    ensures Totals(b, times + [ms])
  {
    var more := times + [ms];
    assert more[..|times|] == times && more[|times|] == ms;
    assert forall t :: t in times ==> t in more;
  }

  /** The action time is the sum of the times that count, and the longest is one of them. */
  lemma {:induction false} TimesAreTotalled(history: seq<Execution>)
    ensures Totals(Fold(history).actions, Times(history))
  {
    if history != [] {
      var init, ex := history[..|history| - 1], history[|history| - 1];
      TimesAreTotalled(init);
      if IsTimed(ex) {
        TotalsMore(Fold(init).actions, Fold(history).actions, Times(init), ex.actionMs);
      } else {
        assert Times(history) == Times(init);
      }
    }
  }

  /** One number of every record. */
  function Each(history: seq<Execution>, number: Execution -> nat): seq<nat> {
    seq(|history|, i requires 0 <= i < |history| => number(history[i]))
  }

  lemma SumMore(history: seq<Execution>, number: Execution -> nat)
    requires history != []
    ensures Sum(Each(history, number))
         == Sum(Each(history[..|history| - 1], number)) + number(history[|history| - 1])
  {
    var all := Each(history, number);
    assert all[..|all| - 1] == Each(history[..|history| - 1], number);
  }

  /** The action counts are the sums of what the records report. */
  lemma {:induction false} ActionsAreSummed(history: seq<Execution>)
    ensures var a := Fold(history).actions;
            && a.actionCount == Sum(Each(history, (ex: Execution) => ex.actionCount))
            && a.cachedActions == Sum(Each(history, (ex: Execution) => ex.cachedActions))
            && a.failedActions == Sum(Each(history, (ex: Execution) => ex.failedActions))
  {
    if history != [] {
      ActionsAreSummed(history[..|history| - 1]);
      SumMore(history, (ex: Execution) => ex.actionCount);
      SumMore(history, (ex: Execution) => ex.cachedActions);
      SumMore(history, (ex: Execution) => ex.failedActions);
    }
  }

  /** The kind is the first one any record gives. */
  lemma {:induction false} KindIsTheFirst(history: seq<Execution>)
    ensures var kind := Fold(history).heading.kind;
            if kind == "" then forall i :: 0 <= i < |history| ==> history[i].kind == ""
            else exists i :: 0 <= i < |history| && history[i].kind == kind && forall j :: 0 <= j < i ==>
              history[j].kind == ""
  {
    if history != [] {
      var init := history[..|history| - 1];
      KindIsTheFirst(init);
      if Fold(init).heading.kind != "" {
        var i :| 0 <= i < |init| && init[i].kind == Fold(init).heading.kind && forall j :: 0 <= j < i ==>
          init[j].kind == "";
        assert history[i].kind == Fold(history).heading.kind && forall j :: 0 <= j < i ==> history[j] == init[j];
      } else {
        assert forall j :: 0 <= j < |init| ==> history[j] == init[j];
        if history[|init|].kind != "" {
          assert history[|init|].kind == Fold(history).heading.kind;
        }
      }
    }
  }

  ghost predicate NoRepeats(tags: seq<string>) {
    forall i, j :: 0 <= i < j < |tags| ==> tags[i] != tags[j]
  }

  lemma {:induction false} TagsAdded(tags: seq<string>, more: seq<string>)
    requires NoRepeats(tags)
    ensures NoRepeats(WithTags(tags, more)) && tags <= WithTags(tags, more)
    ensures forall t :: t in WithTags(tags, more) <==> t in tags || t in more
    decreases |more|
  {
    if more != [] {
      var init := more[..|more| - 1];
      TagsAdded(tags, init);
      assert more == init + [more[|more| - 1]];
    }
  }

  /** Every tag ever reported is listed, once. */
  lemma {:induction false} TagsAreTheUnion(history: seq<Execution>)
    ensures NoRepeats(Fold(history).heading.tags)
    ensures forall t :: t in Fold(history).heading.tags <==> exists i :: 0 <= i < |history| && t in history[i].tags
    decreases |history|
  {
    if history != [] {
      var init, ex := history[..|history| - 1], history[|history| - 1];
      TagsAreTheUnion(init);
      TagsAdded(Fold(init).heading.tags, ex.tags);
      forall t ensures t in Fold(history).heading.tags <==> exists i :: 0 <= i < |history| && t in history[i].tags {
        if i :| 0 <= i < |history| && t in history[i].tags {
          if i < |init| {
            assert t in init[i].tags;
          }
        }
        if t in Fold(init).heading.tags {
          var i :| 0 <= i < |init| && t in init[i].tags;
          assert t in history[i].tags;
        }
        if t in ex.tags {
          assert t in history[|init|].tags;
        }
      }
    }
  }

  /** The aggregate as `add` updates it. */
  class TargetAggregate {
    var kind: string
    var latestStatus: Option<Status>
    var latestStart: Option<string>
    var total: nat
    var success: nat
    var failure: nat
    var cached: nat
    var actionCount: nat
    var cachedActions: nat
    var failedActions: nat
    var timed: nat
    var totalMs: nat
    var maxMs: nat
    var tags: seq<string>

    ghost function Head(): Heading
      reads this`kind, this`tags, this`latestStart, this`latestStatus
    {
      Heading(kind, tags, latestStart, latestStatus)
    }

    ghost function Tallies(): Counts
      reads this`total, this`success, this`failure, this`cached
    {
      Counts(total, success, failure, cached)
    }

    ghost function Work(): Actions
      reads this`actionCount, this`cachedActions, this`failedActions, this`timed, this`totalMs, this`maxMs
    {
      Actions(actionCount, cachedActions, failedActions, timed, totalMs, maxMs)
    }

    ghost function View(): Aggregate
      reads this
    {
      Aggregate(Head(), Tallies(), Work())
    }

    constructor ()
      ensures View() == NOTHING
    {
      kind, latestStatus, latestStart, tags := "", None, None, [];
      total, success, failure, cached, actionCount, cachedActions, failedActions := 0, 0, 0, 0, 0, 0, 0;
      timed, totalMs, maxMs := 0, 0, 0;
    }

    method CountStatus(ex: Execution)
      modifies this`total, this`success, this`failure, this`cached
      ensures Tallies() == AddCounts(old(Tallies()), ex)
    {
      total := total + 1;
      match ex.status
      case Success => success := success + 1;
      case Failure => failure := failure + 1;
      case Cached => cached := cached + 1;
      case Dependency =>
    }

    method CountActions(ex: Execution)
      modifies this`actionCount, this`cachedActions, this`failedActions, this`timed, this`totalMs, this`maxMs
      ensures Work() == AddActions(old(Work()), ex)
    {
      actionCount := actionCount + ex.actionCount;
      cachedActions := cachedActions + ex.cachedActions;
      failedActions := failedActions + ex.failedActions;
      if ex.actionMs > 0 && !Replayed(ex) {
        timed := timed + 1;
        totalMs := totalMs + ex.actionMs;
        maxMs := Max(maxMs, ex.actionMs);
      }
    }

    method Describe(ex: Execution)
      modifies this`kind, this`tags, this`latestStart, this`latestStatus
      ensures Head() == AddHeading(old(Head()), ex)
    {
      if kind == "" && ex.kind != "" {
        kind := ex.kind;
      }
      tags := MergeTags(tags, ex.tags);
      if AtMost(latestStart, ex.start) {
        latestStart := ex.start;
        latestStatus := Some(ex.status);
      }
    }

    /** Folds one execution into the totals. */
    method AddExecution(ex: Execution)
      modifies this
      ensures View() == Add(old(View()), ex)
    {
      CountStatus(ex);
      CountActions(ex);
      Describe(ex);
    }
  }

  method MergeTags(tags: seq<string>, more: seq<string>) returns (all: seq<string>)
    ensures all == WithTags(tags, more)
  {
    all := tags;
    for i := 0 to |more|
      invariant all == WithTags(tags, more[..i])
    {
      assert more[..i + 1][..i] == more[..i];
      if more[i] !in all {
        all := all + [more[i]];
      }
    }
    assert more[..|more|] == more;
  }
}
