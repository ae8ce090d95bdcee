/** The order histories are served in: oldest build first (src/bes/storage.rs). */
module HistoryOrder {
  import opened Prelude
  import opened Text
  import opened Aggregates

  /** `a` is not after `b`: by start time, absent first, then by invocation. */
  predicate NotAfter(a: Execution, b: Execution) {
    if a.start == b.start then !Less(b.invocation, a.invocation) else AtMost(a.start, b.start)
  }

  /** Before another: no start time and the other has one, or an earlier one, or the same
      and an invocation that is not greater. */
  lemma NotAfterIff(a: Execution, b: Execution)
    ensures NotAfter(a, b) <==>
              || (a.start == None && b.start.Some?)
              || (a.start.Some? && b.start.Some? && Less(a.start.value, b.start.value))
              || (a.start == b.start && (a.invocation == b.invocation || Less(a.invocation, b.invocation)))
  {
    AtMostIff(a.start, b.start);
    LessIsTotal(a.invocation, b.invocation);
    LessIsStrict(a.invocation, b.invocation);
    if a.start.Some? {
      LessIsStrict(a.start.value, a.start.value);
    }
  }

  lemma AtMostBothWays(a: Option<string>, b: Option<string>)
    requires AtMost(a, b) && AtMost(b, a)
    ensures a == b
  {
    if a.Some? {
      LessIsTotal(a.value, b.value);
    }
  }

  lemma NotAfterIsTotal(a: Execution, b: Execution)
    ensures NotAfter(a, b) || NotAfter(b, a)
  {
    AtMostIsTotal(a.start, b.start);
    LessIsStrict(a.invocation, b.invocation);
  }

  lemma NotLessIsTransitive(a: string, b: string, c: string)
    requires !Less(b, a) && !Less(c, b)
    ensures !Less(c, a)
  {
    if Less(c, a) {
      LessIsTotal(a, b);
      if a != b {
        LessIsTransitive(c, a, b);
      }
      assert false;
    }
  }

  lemma NotAfterIsTransitive(a: Execution, b: Execution, c: Execution)
    requires NotAfter(a, b) && NotAfter(b, c)
    ensures NotAfter(a, c)
  {
    if a.start == b.start && b.start == c.start {
      NotLessIsTransitive(a.invocation, b.invocation, c.invocation);
    } else if a.start != b.start && b.start != c.start {
      AtMostIsTransitive(a.start, b.start, c.start);
      if a.start == c.start {
        AtMostBothWays(a.start, b.start);
      }
    }
  }

  /** Neither is after the other only for records of one build. */
  lemma NotAfterBothWays(a: Execution, b: Execution)
    requires NotAfter(a, b) && NotAfter(b, a)
    ensures a.start == b.start && a.invocation == b.invocation
  {
    if a.start != b.start {
      AtMostBothWays(a.start, b.start);
    }
    LessIsTotal(a.invocation, b.invocation);
  }

  ghost predicate OldestFirst(history: seq<Execution>) {
    forall i, j :: 0 <= i < j < |history| ==> NotAfter(history[i], history[j])
  }

  lemma InsertedMultiset(history: seq<Execution>, k: nat, ex: Execution)
    requires k <= |history|
    ensures multiset(history[..k] + [ex] + history[k..]) == multiset(history) + multiset{ex}
  {
    assert history == history[..k] + history[k..];
  }

  lemma InsertedInOrder(history: seq<Execution>, k: nat, ex: Execution)
    requires OldestFirst(history) && k <= |history|
    requires forall i :: 0 <= i < k ==> NotAfter(history[i], ex)
    requires forall i :: k <= i < |history| ==> NotAfter(ex, history[i])
    ensures OldestFirst(history[..k] + [ex] + history[k..])
  {
  }

  method Insert(history: seq<Execution>, ex: Execution) returns (r: seq<Execution>)
    requires OldestFirst(history)
    ensures OldestFirst(r) && multiset(r) == multiset(history) + multiset{ex}
  {
    var k := |history|;
    while k > 0 && !NotAfter(history[k - 1], ex)
      invariant 0 <= k <= |history|
      invariant forall i :: k <= i < |history| ==> NotAfter(ex, history[i])
    {
      NotAfterIsTotal(history[k - 1], ex);
      k := k - 1;
    }
    forall i | 0 <= i < k ensures NotAfter(history[i], ex) {
      if i < k - 1 {
        NotAfterIsTransitive(history[i], history[k - 1], ex);
      }
    }
    InsertedMultiset(history, k, ex);
    InsertedInOrder(history, k, ex);
    r := history[..k] + [ex] + history[k..];
  }

  /** `sort_by` of a served history. */
  method SortByBuild(history: seq<Execution>) returns (sorted: seq<Execution>)
    ensures OldestFirst(sorted) && multiset(sorted) == multiset(history)
  {
    sorted := [];
    for i := 0 to |history|
      invariant OldestFirst(sorted) && multiset(sorted) == multiset(history[..i])
    {
      sorted := Insert(sorted, history[i]);
      assert history[..i + 1] == history[..i] + [history[i]];
    }
    assert history[..|history|] == history;
  }

  /** No build has two records here. */
  ghost predicate OnePerBuild(history: seq<Execution>) {
    forall i, j :: 0 <= i < j < |history| && history[i].start == history[j].start ==>
      history[i].invocation != history[j].invocation
  }

  lemma OldestIsFirst(a: seq<Execution>, b: seq<Execution>)
    requires a != [] && OldestFirst(a) && OldestFirst(b) && OnePerBuild(a) && multiset(a) == multiset(b)
    ensures b != [] && a[0] == b[0]
  {
    assert a[0] in multiset(a) && a[0] in multiset(b);
    var i :| 0 <= i < |b| && b[i] == a[0];
    assert b[0] in multiset(b) && b[0] in multiset(a);
    var j :| 0 <= j < |a| && a[j] == b[0];
    if i > 0 && j > 0 {
      NotAfterBothWays(a[0], a[j]);
      assert false;
    }
  }

  /** The records decide the answer: it does not depend on the order they were read in, as long as no
      build has two of them. */
  lemma {:induction false} OneAnswer(a: seq<Execution>, b: seq<Execution>)
    requires OldestFirst(a) && OldestFirst(b) && OnePerBuild(a) && multiset(a) == multiset(b)
    ensures a == b
  {
    if a == [] {
      assert |multiset(b)| == 0;
    } else {
      OldestIsFirst(a, b);
      TailRecords(a);
      TailRecords(b);
      OneAnswer(a[1..], b[1..]);
    }
  }

  lemma TailRecords(a: seq<Execution>)
    requires a != []
    ensures a == [a[0]] + a[1..] && multiset(a[1..]) == multiset(a) - multiset{a[0]}
  {
    assert a == [a[0]] + a[1..];
  }
}
