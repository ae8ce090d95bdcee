/** One scheduling class, served fairly across invocations (src/execution/scheduler.rs). */
module FairQueues {
  import opened Prelude

  datatype QueuePriority = Critical | Medium

  /** What scheduling reads of an `ExecutableAction`; `invocation` is the
      `tool_invocation_id` it was queued under, or "". */
  datatype Action = Action(
    op: OperationId,
    digest: Digest,
    priority: QueuePriority,
    executionPriority: int,
    invocation: string,
    workerLosses: nat)

  /** The actions one invocation has waiting, and when it started waiting. */
  datatype InvocationQueue = InvocationQueue(items: seq<Action>, since: nat)

  /** The value of a `FairQueue`. */
  datatype Fair = Fair(queues: map<string, InvocationQueue>, nextSince: nat)

  const EMPTY: Fair := Fair(map[], 0)

  /** The weight `2^(p / 100)` of a priority, up to its laws. */
  type Weight = int -> real

  ghost predicate Positive(w: Weight) {
    forall p :: w(p) > 0.0
  }

  /** A hundred more points double the weight. */
  ghost predicate Doubling(w: Weight) {
    forall p, q {:trigger w(p), w(q)} :: q == p + 100 ==> w(q) == 2.0 * w(p)
  }

  function RunningOf(running: map<string, nat>, key: string): nat {
    if key in running then running[key] else 0
  }

  /** `n * x`, as repeated addition. */
  function Times(n: nat, x: real): real {
    if n == 0 then 0.0 else Times(n - 1, x) + x
  }

  lemma {:induction false} TimesIsProduct(n: nat, x: real)
    ensures Times(n, x) == n as real * x
  {
    if n > 0 {
      TimesIsProduct(n - 1, x);
    }
  }

  function Score(w: Weight, running: nat, priority: int): real {
    Times(running + 1, w(priority))
  }

  function FrontPriority(q: InvocationQueue): int {
    if q.items == [] then 0 else q.items[0].executionPriority
  }

  /** The comparison of `pop`: the lower score, then the longer wait. */
  predicate ServedBefore(w: Weight, running: map<string, nat>, queues: map<string, InvocationQueue>, a: string,
      b: string)
    requires a in queues && b in queues
  {
    var sa := Score(w, RunningOf(running, a), FrontPriority(queues[a]));
    var sb := Score(w, RunningOf(running, b), FrontPriority(queues[b]));
    sa < sb || (sa == sb && queues[a].since < queues[b].since)
  }

  ghost predicate Own(items: seq<Action>, key: string) {
    forall i :: 0 <= i < |items| ==> items[i].invocation == key
  }

  ghost predicate InClass(items: seq<Action>, c: QueuePriority) {
    forall i :: 0 <= i < |items| ==> items[i].priority == c
  }

  /** Every waiting action belongs to class `c`. */
  ghost predicate OfClass(f: Fair, c: QueuePriority) {
    forall k :: k in f.queues ==> InClass(f.queues[k].items, c)
  }

  /** Every queue holds actions of its own invocation, no queue is kept empty,
      and no two invocations carry the same stamp. */
  ghost predicate Valid(f: Fair) {
    && (forall k :: k in f.queues ==> f.queues[k].items != [] && f.queues[k].since < f.nextSince)
    && (forall k :: k in f.queues ==> Own(f.queues[k].items, k))
    && (forall j, k :: j in f.queues && k in f.queues && j != k ==> f.queues[j].since != f.queues[k].since)
  }

  /** The invocation the queue serves next. */
  ghost predicate IsNext(w: Weight, running: map<string, nat>, f: Fair, key: string) {
    && key in f.queues
    && forall k :: k in f.queues && k != key ==> ServedBefore(w, running, f.queues, key, k)
  }

  predicate Precedes(a: (real, nat), b: (real, nat)) {
    a.0 < b.0 || (a.0 == b.0 && a.1 < b.1)
  }

  lemma {:induction false} FirstExists(ranks: map<string, (real, nat)>) returns (key: string)
    requires ranks != map[]
    requires forall j, k :: j in ranks && k in ranks && j != k ==> ranks[j].1 != ranks[k].1
    ensures key in ranks && forall k :: k in ranks && k != key ==> Precedes(ranks[key], ranks[k])
    decreases |ranks|
  {
    var c :| c in ranks;
    var rest := ranks - {c};
    if rest == map[] {
      key := c;
      assert forall k :: k in ranks ==> k in rest || k == c;
    } else {
      var r := FirstExists(rest);
      key := if Precedes(ranks[c], ranks[r]) then c else r;
      forall k | k in ranks && k != key ensures Precedes(ranks[key], ranks[k]) {
        assert k in rest || k == c;
      }
    }
  }

  /** A non-empty queue has one next invocation and only one, whatever order
      the hash map is read in. */
  lemma NextExists(w: Weight, running: map<string, nat>, f: Fair) returns (key: string)
    requires Valid(f) && f.queues != map[]
    ensures IsNext(w, running, f, key)
    ensures forall k :: IsNext(w, running, f, k) ==> k == key
  {
    var ranks := map k | k in f.queues :: (Score(w, RunningOf(running, k), FrontPriority(f.queues[k])),
      f.queues[k].since);
    assert ranks.Keys == f.queues.Keys;
    key := FirstExists(ranks);
    forall k | k in f.queues && k != key ensures ServedBefore(w, running, f.queues, key, k) {
      assert Precedes(ranks[key], ranks[k]);
    }
  }

  ghost function Next(w: Weight, running: map<string, nat>, f: Fair): (key: string)
    requires Valid(f) && f.queues != map[]
    ensures IsNext(w, running, f, key)
  {
    assert exists k :: IsNext(w, running, f, k) by {
      var k := NextExists(w, running, f);
    }
    var k :| IsNext(w, running, f, k);
    k
  }

  /** The waiting actions of one invocation, in order. */
  function ItemsOf(f: Fair, key: string): seq<Action> {
    if key in f.queues then f.queues[key].items else []
  }

  function Push(f: Fair, item: Action, front: bool): Fair {
    var key := item.invocation;
    var waiting := ItemsOf(f, key);
    var items := if front then [item] + waiting else waiting + [item];
    if waiting == [] then
      Fair(f.queues[key := InvocationQueue(items, f.nextSince)], f.nextSince + 1)
    else
      Fair(f.queues[key := InvocationQueue(items, f.queues[key].since)], f.nextSince)
  }

  /** The next invocation to serve: among all that wait it has the least number of running
      actions, and one more, times the weight of its first action's priority; of several
      with the same, it has waited longest. */
  lemma NextIsLowest(w: Weight, running: map<string, nat>, f: Fair, key: string, other: string)
    requires Valid(f) && IsNext(w, running, f, key) && other in f.queues && other != key
    ensures var (q, r) := (f.queues[key], f.queues[other]);
            var a := (RunningOf(running, key) + 1) as real * w(q.items[0].executionPriority);
            var b := (RunningOf(running, other) + 1) as real * w(r.items[0].executionPriority);
            a < b || (a == b && q.since < r.since)
  {
    assert ServedBefore(w, running, f.queues, key, other);
    TimesIsProduct(RunningOf(running, key) + 1, w(f.queues[key].items[0].executionPriority));
    TimesIsProduct(RunningOf(running, other) + 1, w(f.queues[other].items[0].executionPriority));
  }

  /** An invocation that had nothing waiting is behind all the others; one that had keeps its
      place. */
  lemma NewcomerIsLast(f: Fair, item: Action, front: bool, other: string)
    requires Valid(f) && other in f.queues && other != item.invocation
    ensures var g := Push(f, item, front);
            && other in g.queues && g.queues[other] == f.queues[other] && item.invocation in g.queues
            && if item.invocation in f.queues then g.queues[item.invocation].since == f.queues[item.invocation].since
               else g.queues[other].since < g.queues[item.invocation].since
  {
  }

  /** The queue left once the first action of `key` is taken. */
  function TakeFrom(f: Fair, key: string): Fair
    requires key in f.queues && f.queues[key].items != []
  {
    var q := f.queues[key];
    if |q.items| == 1 then
      f.(queues := f.queues - {key})
    else
      f.(queues := f.queues[key := q.(items := q.items[1..])])
  }

  ghost function Pop(w: Weight, running: map<string, nat>, f: Fair): (Option<Action>, Fair)
    requires Valid(f)
  {
    if f.queues == map[] then
      (None, f)
    else
      var key := Next(w, running, f);
      (Some(f.queues[key].items[0]), TakeFrom(f, key))
  }

  /** The actions of the operations in `ops`, in order. */
  function Leaving(items: seq<Action>, ops: set<OperationId>): seq<Action> {
    if items == [] then [] else (if items[0].op in ops then [items[0]] else []) + Leaving(items[1..], ops)
  }

  /** The other actions, in order. */
  function Staying(items: seq<Action>, ops: set<OperationId>): seq<Action> {
    if items == [] then [] else (if items[0].op in ops then [] else [items[0]]) + Staying(items[1..], ops)
  }

  lemma {:induction false} LeavingAndStaying(items: seq<Action>, ops: set<OperationId>)
    ensures |Leaving(items, ops)| + |Staying(items, ops)| == |items|
    ensures forall a :: a in Leaving(items, ops) <==> a in items && a.op in ops
    ensures forall a :: a in Staying(items, ops) <==> a in items && a.op !in ops
  {
    if items != [] {
      LeavingAndStaying(items[1..], ops);
      assert items == [items[0]] + items[1..];
    }
  }

  /** The actions filed under one invocation, in order. */
  function OfInvocation(items: seq<Action>, key: string): seq<Action> {
    if items == [] then [] else (if items[0].invocation == key then [items[0]] else []) + OfInvocation(items[1..], key)
  }

  lemma {:induction false} OfInvocationConcat(a: seq<Action>, b: seq<Action>, key: string)
    ensures OfInvocation(a + b, key) == OfInvocation(a, key) + OfInvocation(b, key)
  {
    if a == [] {
      assert a + b == b;
    } else {
      ConcatTail(a, b);
      OfInvocationConcat(a[1..], b, key);
      ConcatAssoc(if a[0].invocation == key then [a[0]] else [], OfInvocation(a[1..], key), OfInvocation(b, key));
    }
  }

  lemma {:induction false} OfOneInvocation(items: seq<Action>, own: string, key: string)
    requires forall a :: a in items ==> a.invocation == own
    ensures OfInvocation(items, key) == if key == own then items else []
  {
    if items != [] {
      OfOneInvocation(items[1..], own, key);
    }
  }

  function Drain(f: Fair, ops: set<OperationId>): Fair {
    f.(queues := map k | k in f.queues && Staying(f.queues[k].items, ops) != []
                   :: f.queues[k].(items := Staying(f.queues[k].items, ops)))
  }

  lemma PushValid(f: Fair, item: Action, front: bool)
    requires Valid(f)
    ensures Valid(Push(f, item, front))
    ensures forall k :: ItemsOf(Push(f, item, front), k) ==
                        if k != item.invocation then ItemsOf(f, k)
                        else if front then [item] + ItemsOf(f, k) else ItemsOf(f, k) + [item]
  {
    assert Own(ItemsOf(f, item.invocation), item.invocation);
  }

  /** `push` on the queue found for the invocation, with the stamps left as `next`. */
  lemma PushIs(f: Fair, item: Action, front: bool, queue: InvocationQueue, next: nat)
    requires queue.items == ItemsOf(f, item.invocation)
    requires if queue.items == [] then queue.since == f.nextSince && next == f.nextSince + 1
             else queue == f.queues[item.invocation] && next == f.nextSince
    ensures var items := if front then [item] + queue.items else queue.items + [item];
            Push(f, item, front) == Fair(f.queues[item.invocation := queue.(items := items)], next)
  {
  }

  lemma PushOfClass(f: Fair, item: Action, front: bool)
    requires OfClass(f, item.priority)
    ensures OfClass(Push(f, item, front), item.priority)
  {
    assert InClass(ItemsOf(f, item.invocation), item.priority);
  }

  lemma TakeValid(f: Fair, key: string)
    requires Valid(f) && key in f.queues
    ensures Valid(TakeFrom(f, key))
    ensures forall k :: ItemsOf(TakeFrom(f, key), k) ==
                        if k == key then ItemsOf(f, k)[1..] else ItemsOf(f, k)
  {
    assert Own(f.queues[key].items[1..], key);
  }

  lemma TakeOfClass(f: Fair, key: string, c: QueuePriority)
    requires OfClass(f, c) && key in f.queues && f.queues[key].items != []
    ensures OfClass(TakeFrom(f, key), c)
  {
    assert InClass(f.queues[key].items[1..], c);
  }

  lemma {:induction false} StayingIsPart(items: seq<Action>, ops: set<OperationId>, key: string, c: QueuePriority)
    ensures Own(items, key) ==> Own(Staying(items, ops), key)
    ensures InClass(items, c) ==> InClass(Staying(items, ops), c)
  {
    if items != [] {
      StayingIsPart(items[1..], ops, key, c);
    }
  }

  lemma DrainValid(f: Fair, ops: set<OperationId>)
    requires Valid(f)
    ensures Valid(Drain(f, ops))
    ensures forall k :: ItemsOf(Drain(f, ops), k) == Staying(ItemsOf(f, k), ops)
  {
    forall k | k in f.queues ensures Own(Staying(f.queues[k].items, ops), k) {
      StayingIsPart(f.queues[k].items, ops, k, Critical);
    }
  }

  lemma DrainOfClass(f: Fair, ops: set<OperationId>, c: QueuePriority)
    requires OfClass(f, c)
    ensures OfClass(Drain(f, ops), c)
  {
    forall k | k in f.queues ensures InClass(Staying(f.queues[k].items, ops), c) {
      StayingIsPart(f.queues[k].items, ops, k, c);
    }
  }

  ghost function Lengths(queues: map<string, InvocationQueue>): map<string, nat> {
    map k | k in queues :: |queues[k].items|
  }

  /** How many actions wait in all. */
  ghost function Size(f: Fair): nat {
    SumOf(Lengths(f.queues))
  }

  lemma SizeOfPush(f: Fair, item: Action, front: bool)
    ensures Size(Push(f, item, front)) == Size(f) + 1
  {
    var key := item.invocation;
    var before, after := Lengths(f.queues), Lengths(Push(f, item, front).queues);
    assert after == before[key := |ItemsOf(f, key)| + 1];
    SumUpdate(before, key, |ItemsOf(f, key)| + 1);
    if key in before {
      SumWithout(before, key);
    } else {
      assert before - {key} == before;
    }
  }

  lemma SizeOfTake(f: Fair, key: string)
    requires key in f.queues && f.queues[key].items != []
    ensures Size(TakeFrom(f, key)) + 1 == Size(f)
  {
    var before, after := Lengths(f.queues), Lengths(TakeFrom(f, key).queues);
    SumWithout(before, key);
    if |f.queues[key].items| == 1 {
      assert after == before - {key};
    } else {
      assert after == before[key := |f.queues[key].items| - 1];
      SumUpdate(before, key, |f.queues[key].items| - 1);
    }
  }

  lemma SizeZero(f: Fair)
    requires Valid(f)
    ensures Size(f) == 0 <==> f.queues == map[]
  {
    if f.queues != map[] {
      var k :| k in f.queues;
      SumWithout(Lengths(f.queues), k);
    } else {
      assert Lengths(f.queues) == map[];
    }
  }

  function Restrict<K, V>(m: map<K, V>, keys: set<K>): map<K, V> {
    map k | k in m && k in keys :: m[k]
  }

  /** For each drained invocation, its removed actions in queue order. */
  ghost predicate RemovedSoFar(f: Fair, ops: set<OperationId>, removed: seq<Action>, done: set<string>) {
    forall k {:trigger OfInvocation(removed, k)} ::
      OfInvocation(removed, k) == if k in done then Leaving(ItemsOf(f, k), ops) else []
  }

  lemma RemovedByInvocation(f: Fair, ops: set<OperationId>, k: string, removed: seq<Action>, done: set<string>)
    requires Valid(f) && k in f.queues && k !in done && RemovedSoFar(f, ops, removed, done)
    ensures RemovedSoFar(f, ops, removed + Leaving(f.queues[k].items, ops), done + {k})
  {
    var gone := Leaving(f.queues[k].items, ops);
    forall j ensures OfInvocation(removed + gone, j) == if j in done + {k} then Leaving(ItemsOf(f, j), ops) else [] {
      RemovedAt(f, ops, k, removed, j);
    }
  }

  lemma RemovedAt(f: Fair, ops: set<OperationId>, k: string, removed: seq<Action>, j: string)
    requires Valid(f) && k in f.queues
    ensures OfInvocation(removed + Leaving(f.queues[k].items, ops), j) ==
            OfInvocation(removed, j) + if j == k then Leaving(f.queues[k].items, ops) else []
  {
    var gone := Leaving(f.queues[k].items, ops);
    LeavingAndStaying(f.queues[k].items, ops);
    OfInvocationConcat(removed, gone, j);
    OfOneInvocation(gone, k, j);
  }

  /** The drained invocations that still have something waiting. */
  ghost predicate KeptSoFar(f: Fair, ops: set<OperationId>, kept: map<string, InvocationQueue>, done: set<string>) {
    && kept.Keys <= done <= f.queues.Keys
    && forall k :: k in done ==>
                     var stay := Staying(f.queues[k].items, ops);
                     && (k in kept <==> stay != [])
                     && (k in kept ==> kept[k] == f.queues[k].(items := stay))
  }

  lemma SumInsert(m: map<string, nat>, k: string, v: nat)
    requires k !in m
    ensures SumOf(m[k := v]) == SumOf(m) + v
  {
    SumUpdate(m, k, v);
    assert m - {k} == m;
  }

  /** The invariant of `drain_where`: what is kept, what is gone, and the count. */
  ghost predicate DrainProgress(f: Fair, ops: set<OperationId>, kept: map<string, InvocationQueue>,
      removed: seq<Action>, done: set<string>)
  {
    && KeptSoFar(f, ops, kept, done)
    && RemovedSoFar(f, ops, removed, done)
    && SumOf(Lengths(kept)) + |removed| == SumOf(Lengths(Restrict(f.queues, done)))
  }

  lemma DrainStarts(f: Fair, ops: set<OperationId>)
    ensures DrainProgress(f, ops, map[], [], {})
  {
    assert Lengths(map[]) == map[];
    assert Restrict(f.queues, {}) == map[];
  }

  function KeepAlso(kept: map<string, InvocationQueue>, k: string, q: InvocationQueue): map<string, InvocationQueue> {
    if q.items == [] then kept else kept[k := q]
  }

  lemma KeepLengths(kept: map<string, InvocationQueue>, k: string, q: InvocationQueue)
    requires k !in kept
    ensures SumOf(Lengths(KeepAlso(kept, k, q))) == SumOf(Lengths(kept)) + |q.items|
  {
    if q.items != [] {
      SumInsert(Lengths(kept), k, |q.items|);
      assert Lengths(kept)[k := |q.items|] == Lengths(kept[k := q]);
    }
  }

  lemma RestrictLengths(queues: map<string, InvocationQueue>, k: string, done: set<string>)
    requires k in queues && k !in done
    ensures SumOf(Lengths(Restrict(queues, done + {k}))) == SumOf(Lengths(Restrict(queues, done))) + |queues[k].items|
  {
    var all := Lengths(Restrict(queues, done + {k}));
    SumWithout(all, k);
    assert all - {k} == Lengths(Restrict(queues, done));
  }

  lemma KeptMore(f: Fair, ops: set<OperationId>, kept: map<string, InvocationQueue>, done: set<string>, k: string)
    requires KeptSoFar(f, ops, kept, done) && k in f.queues && k !in done
    ensures KeptSoFar(f, ops, KeepAlso(kept, k, f.queues[k].(items := Staying(f.queues[k].items, ops))), done + {k})
  {
  }

  lemma DrainStep(f: Fair, ops: set<OperationId>, kept: map<string, InvocationQueue>, removed: seq<Action>,
      done: set<string>, k: string)
    requires Valid(f) && DrainProgress(f, ops, kept, removed, done) && k in f.queues && k !in done
    ensures var items := f.queues[k].items;
            DrainProgress(f, ops, KeepAlso(kept, k, f.queues[k].(items := Staying(items, ops))),
                          removed + Leaving(items, ops), done + {k})
  {
    var items := f.queues[k].items;
    KeptMore(f, ops, kept, done, k);
    RemovedByInvocation(f, ops, k, removed, done);
    assert |Leaving(items, ops)| + |Staying(items, ops)| == |items| by {
      LeavingAndStaying(items, ops);
    }
    KeepLengths(kept, k, f.queues[k].(items := Staying(items, ops)));
    RestrictLengths(f.queues, k, done);
  }

  lemma KeptAll(f: Fair, ops: set<OperationId>, kept: map<string, InvocationQueue>)
    requires KeptSoFar(f, ops, kept, f.queues.Keys)
    ensures Drain(f, ops) == f.(queues := kept)
  {
    assert Drain(f, ops).queues.Keys == kept.Keys;
    assert Drain(f, ops).queues == kept;
  }

  lemma DrainDone(f: Fair, ops: set<OperationId>, kept: map<string, InvocationQueue>, removed: seq<Action>)
    requires Valid(f) && DrainProgress(f, ops, kept, removed, f.queues.Keys)
    ensures Drain(f, ops) == f.(queues := kept) && Valid(Drain(f, ops))
    ensures forall k :: OfInvocation(removed, k) == Leaving(ItemsOf(f, k), ops)
    ensures Size(Drain(f, ops)) + |removed| == Size(f)
  {
    KeptAll(f, ops, kept);
    DrainValid(f, ops);
    assert Restrict(f.queues, f.queues.Keys) == f.queues;
  }

  class FairQueue {
    var invocations: map<string, InvocationQueue>
    var len: nat
    var nextSince: nat

    ghost function View(): Fair
      reads this
    {
      Fair(invocations, nextSince)
    }

    ghost predicate Ok()
      reads this
    {
      Valid(View()) && len == Size(View())
    }

    constructor ()
      ensures Ok() && View() == EMPTY
    {
      invocations := map[];
      len := 0;
      nextSince := 0;
      new;
      SizeZero(View());
    }

    method PushItem(item: Action, front: bool)
      requires Ok()
      modifies this
      ensures Ok() && View() == Push(old(View()), item, front)
    {
      SizeOfPush(View(), item, front);
      PushValid(View(), item, front);
      var queue := QueueFor(item.invocation);
      PushIs(old(View()), item, front, queue, nextSince);
      if front {
        queue := queue.(items := [item] + queue.items);
      } else {
        queue := queue.(items := queue.items + [item]);
      }
      invocations := invocations[item.invocation := queue];
      len := len + 1;
    }

    /** The queue of an invocation, which gets a new stamp if nothing waits in it. */
    method QueueFor(key: string) returns (queue: InvocationQueue)
      modifies this`nextSince
      ensures queue.items == ItemsOf(View(), key)
      ensures queue.items == [] ==> queue.since == old(nextSince) && nextSince == old(nextSince) + 1
      ensures queue.items != [] ==> queue == invocations[key] && nextSince == old(nextSince)
    {
      var since := nextSince;
      queue := if key in invocations then invocations[key] else InvocationQueue([], since);
      if queue.items == [] {
        queue := queue.(since := since);
        nextSince := nextSince + 1;
      }
    }

    /** The action it takes does not depend on the order the hash map is read in. */
    method PopItem(w: Weight, running: map<string, nat>) returns (item: Option<Action>)
      requires Ok()
      modifies this
      ensures Ok() && (item, View()) == Pop(w, running, old(View()))
    {
      if invocations == map[] {
        return None;
      }
      var key := MinBy(w, running, invocations);
      var unique := NextExists(w, running, View());
      assert IsNext(w, running, View(), key);
      SizeOfTake(View(), key);
      TakeValid(View(), key);
      var queue := invocations[key];
      item := Some(queue.items[0]);
      queue := queue.(items := queue.items[1..]);
      if queue.items == [] {
        invocations := invocations - {key};
      } else {
        invocations := invocations[key := queue];
      }
      len := len - 1;
    }

    /** Takes out every action of the operations in `ops`. What is left keeps its order, and
        so do the removed actions of each invocation. */
    method DrainWhere(ops: set<OperationId>) returns (removed: seq<Action>)
      requires Ok()
      modifies this
      ensures Ok() && View() == Drain(old(View()), ops)
      ensures forall k :: OfInvocation(removed, k) == Leaving(ItemsOf(old(View()), k), ops)
      ensures len + |removed| == old(len)
    {
      var kept;
      kept, removed := Retain(invocations, View(), ops);
      invocations, len := kept, len - |removed|;
    }
  }

  /** The scan of `pop`: visits the invocations in any order. */
  method MinBy(w: Weight, running: map<string, nat>, queues: map<string, InvocationQueue>) returns (key: string)
    requires queues != map[]
    requires forall j, k :: j in queues && k in queues && j != k ==> queues[j].since != queues[k].since
    ensures key in queues && forall k :: k in queues && k != key ==> ServedBefore(w, running, queues, key, k)
  {
    key :| key in queues;
    var unread := queues.Keys - {key};
    while unread != {}
      invariant key in queues && key !in unread && unread <= queues.Keys
      invariant forall k :: k in queues && k !in unread && k != key ==> ServedBefore(w, running, queues, key, k)
      decreases unread
    {
      var k :| k in unread;
      unread := unread - {k};
      if ServedBefore(w, running, queues, k, key) {
        key := k;
      }
    }
  }

  /** The scan of `drain_where`: partitions the invocations' queues in any order. */
  method Retain(queues: map<string, InvocationQueue>, ghost f: Fair, ops: set<OperationId>)
    returns (kept: map<string, InvocationQueue>, removed: seq<Action>)
    requires Valid(f) && f.queues == queues
    ensures Drain(f, ops) == f.(queues := kept) && Valid(Drain(f, ops))
    ensures forall k :: OfInvocation(removed, k) == Leaving(ItemsOf(f, k), ops)
    ensures Size(Drain(f, ops)) + |removed| == Size(f)
  {
    ghost var done := {};
    var unread := queues.Keys;
    kept, removed := map[], [];
    DrainStarts(f, ops);
    while unread != {}
      invariant unread == queues.Keys - done && done <= queues.Keys
      invariant DrainProgress(f, ops, kept, removed, done)
      decreases unread
    {
      var k :| k in unread;
      unread := unread - {k};
      DrainStep(f, ops, kept, removed, done, k);
      removed := removed + Leaving(queues[k].items, ops);
      kept := KeepAlso(kept, k, queues[k].(items := Staying(queues[k].items, ops)));
      done := done + {k};
    }
    assert done == queues.Keys;
    DrainDone(f, ops, kept, removed);
  }
}
