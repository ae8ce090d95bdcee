/** How the workers are shared between two invocations that both stay backlogged. */
module Fairness {
  import opened Prelude
  import opened FairQueues
  import opened Scheduling

  /** A call on the scheduler. */
  datatype Call =
    | EnqueueCall(action: Action, now: nat)
    | DequeueCall
    | CompleteCall(digest: Digest)
    | PutBackCall(action: Action)

  ghost function Do(w: Weight, s: Sched, call: Call): Sched
    requires Filed(s)
  {
    match call
    case EnqueueCall(a, now) => Enqueue(s, a, now).0
    case DequeueCall => Dequeue(w, s).1
    case CompleteCall(d) => Complete(s, d)
    case PutBackCall(a) => PutBack(s, a)
  }

  /** Every queued action owns an in-flight entry of its invocation. */
  ghost predicate Consistent(s: Sched) {
    && Filed(s)
    && forall a :: IsQueued(s, a) ==> a.digest in s.inFlight && s.inFlight[a.digest].invocation == a.invocation
  }

  /** `key` has work waiting in class `c`, the first of it at priority `p`. */
  ghost predicate Backlogged(s: Sched, c: QueuePriority, key: string, p: int) {
    && key in QueueOf(s, c).queues && QueueOf(s, c).queues[key].items != []
    && QueueOf(s, c).queues[key].items[0].executionPriority == p
  }

  ghost function Running(s: Sched, key: string): nat {
    RunningOf(RunningFrom(s.inFlight), key)
  }

  /** Dequeues are served from class `c`; an action that is finished is not queued, one that is
      put back is still in flight, and neither is an action of `j`. */
  ghost predicate Allowed(s: Sched, call: Call, c: QueuePriority, j: string) {
    match call
    case EnqueueCall(_, _) => true
    case DequeueCall => c.Critical? || s.critical.queues == map[]
    case CompleteCall(d) =>
      (forall a :: IsQueued(s, a) ==> a.digest != d) && (d in s.inFlight ==> s.inFlight[d].invocation != j)
    case PutBackCall(a) =>
      a.digest in s.inFlight && s.inFlight[a.digest].invocation == a.invocation && a.invocation != j
  }

  /** A run in which `i` and `j` stay backlogged in class `c` at priorities `pi` and `pj`, and
      `j` loses no running action. */
  ghost predicate ContendedRun(w: Weight, states: seq<Sched>, calls: seq<Call>, c: QueuePriority, i: string, pi: int,
      j: string, pj: int)
  {
    && |states| == |calls| + 1
    && Consistent(states[0]) && Running(states[0], i) == 0 && Running(states[0], j) == 0
    && (forall n :: 0 <= n < |states| ==>
          Filed(states[n]) && Backlogged(states[n], c, i, pi) &&
          Backlogged(states[n], c, j, pj))
    && (forall n :: 0 <= n < |calls| ==>
          Allowed(states[n], calls[n], c, j) &&
          states[n + 1] == Do(w, states[n], calls[n]))
  }

  /** `i` has at most one action more than its weighted share against `j`. */
  ghost predicate WithinShare(w: Weight, s: Sched, i: string, pi: int, j: string, pj: int) {
    Times(Running(s, i), w(pi)) <= Times(Running(s, j) + 1, w(pj))
  }

  lemma EnqueueStep(w: Weight, s: Sched, a: Action, now: nat)
    requires Consistent(s)
    ensures Consistent(Enqueue(s, a, now).0)
    ensures RunningFrom(Enqueue(s, a, now).0.inFlight) == RunningFrom(s.inFlight)
  {
    var t := Enqueue(s, a, now).0;
    EnqueueFiled(s, a, now);
    if a.digest !in s.inFlight {
      UnmarkedCountsNothing(s.inFlight, t.inFlight);
      PushValid(QueueOf(s, a.priority), a, false);
      forall b | IsQueued(t, b) ensures b.digest in t.inFlight && t.inFlight[b.digest].invocation == b.invocation {
        QueuedAfterPush(s, a, false, b);
      }
    }
  }

  /** A dequeue takes the head of the next invocation and counts at most one more
      running action, of that invocation. */
  lemma DequeueStep(w: Weight, s: Sched, c: QueuePriority) returns (key: string, more: nat)
    requires Consistent(s) && QueueOf(s, c).queues != map[]
    ensures IsNext(w, RunningFrom(s.inFlight), QueueOf(s, c), key) && more <= 1
    ensures Consistent(TryDequeue(w, s, c).1)
    ensures forall k :: Running(TryDequeue(w, s, c).1, k) == Running(s, k) + if k == key then more else 0
  {
    key := Next(w, RunningFrom(s.inFlight), QueueOf(s, c));
    var a := QueueOf(s, c).queues[key].items[0];
    assert a.invocation == key;
    assert IsQueued(s, a);
    var t := TryDequeue(w, s, c).1;
    DequeueConsistent(w, s, c);
    if s.inFlight[a.digest].dispatched {
      assert t.inFlight == s.inFlight;
      more := 0;
    } else {
      MarkCounts(s.inFlight, a.digest);
      more := 1;
    }
  }

  lemma DequeueConsistent(w: Weight, s: Sched, c: QueuePriority)
    requires Consistent(s) && QueueOf(s, c).queues != map[]
    ensures Consistent(TryDequeue(w, s, c).1)
  {
    var t := TryDequeue(w, s, c).1;
    TryDequeueFiled(w, s, c);
    forall b | IsQueued(t, b) ensures b.digest in t.inFlight && t.inFlight[b.digest].invocation == b.invocation {
      QueuedAfterTake(s, c, Next(w, RunningFrom(s.inFlight), QueueOf(s, c)), b);
    }
  }

  lemma LowestScore(w: Weight, s: Sched, c: QueuePriority, i: string, pi: int, j: string, pj: int)
    requires Backlogged(s, c, i, pi) && Backlogged(s, c, j, pj) && IsNext(w, RunningFrom(s.inFlight), QueueOf(s, c), i)
    ensures Times(Running(s, i) + 1, w(pi)) <= Times(Running(s, j) + 1, w(pj))
  {
    if i != j {
      assert ServedBefore(w, RunningFrom(s.inFlight), QueueOf(s, c).queues, i, j);
    }
  }

  lemma {:induction false} MoreIsHeavier(a: nat, b: nat, w: real)
    requires w > 0.0
    ensures a <= b <==> Times(a, w) <= Times(b, w)
    ensures Times(a, w) >= 0.0
  {
    if a > 0 && b > 0 {
      MoreIsHeavier(a - 1, b - 1, w);
    } else if a > 0 {
      MoreIsHeavier(a - 1, b, w);
    } else if b > 0 {
      MoreIsHeavier(a, b - 1, w);
    }
  }

  lemma {:induction false} TwiceTheWeight(n: nat, w: real)
    ensures Times(n, 2.0 * w) == Times(2 * n, w)
  {
    if n > 0 {
      TwiceTheWeight(n - 1, w);
      assert Times(2 * n, w) == Times(2 * n - 1, w) + w == Times(2 * n - 2, w) + w + w;
    }
  }

  lemma ShareKept(a: nat, b: nat, a': nat, b': nat, wi: real, wj: real)
    requires wj > 0.0 && Times(a, wi) <= Times(b + 1, wj) && b <= b'
    requires a' == a || (a' == a + 1 && Times(a + 1, wi) <= Times(b + 1, wj))
    ensures Times(a', wi) <= Times(b' + 1, wj)
  {
    MoreIsHeavier(b + 1, b' + 1, wj);
  }

  /** Whoever is served had the lowest score. */
  lemma ServedHasLowestScore(w: Weight, s: Sched, c: QueuePriority, i: string, pi: int, j: string, pj: int)
    requires Consistent(s) && Backlogged(s, c, i, pi) && Backlogged(s, c, j, pj)
    ensures var t := TryDequeue(w, s, c).1;
            && Consistent(t) && Running(s, j) <= Running(t, j)
            && (|| Running(t, i) == Running(s, i)
                || (&& Running(t, i) == Running(s, i) + 1
                    && Times(Running(s, i) + 1, w(pi)) <= Times(Running(s, j) + 1, w(pj))))
  {
    var key, more := DequeueStep(w, s, c);
    if key == i {
      LowestScore(w, s, c, i, pi, j, pj);
    }
  }

  /** Serving the lowest score never pushes an invocation past its share. */
  lemma DequeueKeepsShare(w: Weight, s: Sched, c: QueuePriority, i: string, pi: int, j: string, pj: int)
    requires Positive(w) && Consistent(s) && Backlogged(s, c, i, pi) && Backlogged(s, c, j, pj)
    requires WithinShare(w, s, i, pi, j, pj)
    ensures Consistent(TryDequeue(w, s, c).1) && WithinShare(w, TryDequeue(w, s, c).1, i, pi, j, pj)
  {
    ServedHasLowestScore(w, s, c, i, pi, j, pj);
    var t := TryDequeue(w, s, c).1;
    ShareKept(Running(s, i), Running(s, j), Running(t, i), Running(t, j), w(pi), w(pj));
  }

  /** Completing an action takes at most one running action from its own invocation. */
  lemma CompleteStep(s: Sched, d: Digest, k: string)
    requires Consistent(s)
    requires forall a :: IsQueued(s, a) ==> a.digest != d
    ensures Consistent(Complete(s, d)) && Running(Complete(s, d), k) <= Running(s, k)
    ensures (d in s.inFlight && s.inFlight[d].invocation == k) || Running(Complete(s, d), k) == Running(s, k)
  {
    var t := Complete(s, d);
    RunningIs(s.inFlight, k);
    RunningIs(t.inFlight, k);
    assert Dispatched(t.inFlight, k) == Dispatched(s.inFlight, k) - {d};
    forall a | IsQueued(t, a) ensures a.digest in t.inFlight && t.inFlight[a.digest].invocation == a.invocation {
      assert IsQueued(s, a);
    }
  }

  lemma PutBackConsistent(s: Sched, a: Action)
    requires Consistent(s) && a.digest in s.inFlight && s.inFlight[a.digest].invocation == a.invocation
    ensures Consistent(PutBack(s, a))
  {
    var t, u := PutBack(s, a), SetDispatched(s, a.digest, false);
    PutBackFiled(s, a);
    forall b | IsQueued(t, b) ensures b.digest in t.inFlight && t.inFlight[b.digest].invocation == b.invocation {
      QueuedAfterPush(u, a, true, b);
      assert IsQueued(u, b) ==> IsQueued(s, b);
    }
  }

  /** So does putting one back. */
  lemma PutBackStep(s: Sched, a: Action, k: string)
    requires Consistent(s) && a.digest in s.inFlight && s.inFlight[a.digest].invocation == a.invocation
    ensures Consistent(PutBack(s, a)) && Running(PutBack(s, a), k) <= Running(s, k)
    ensures a.invocation == k || Running(PutBack(s, a), k) == Running(s, k)
  {
    PutBackConsistent(s, a);
    UnmarkedRuns(s.inFlight, a.digest, k);
    assert PutBack(s, a).inFlight == s.inFlight[a.digest := s.inFlight[a.digest].(dispatched := false)];
  }

  lemma UnmarkedRuns(m: InFlight, d: Digest, k: string)
    requires d in m
    ensures var n := m[d := m[d].(dispatched := false)];
            && RunningOf(RunningFrom(n), k) <= RunningOf(RunningFrom(m), k)
            && (m[d].invocation != k ==> RunningOf(RunningFrom(n), k) == RunningOf(RunningFrom(m), k))
  {
    var n := m[d := m[d].(dispatched := false)];
    RunningIs(m, k);
    RunningIs(n, k);
    assert Dispatched(n, k) == Dispatched(m, k) - {d};
  }

  /** An invocation that loses running actions stays within its share. */
  lemma LighterShare(a: nat, a': nat, wi: real, x: real)
    requires wi > 0.0 && a' <= a && Times(a, wi) <= x
    ensures Times(a', wi) <= x
  {
    MoreIsHeavier(a', a, wi);
  }

  lemma CallKeepsShare(w: Weight, s: Sched, call: Call, c: QueuePriority, i: string, pi: int, j: string, pj: int)
    requires Positive(w) && Consistent(s) && Backlogged(s, c, i, pi) && Backlogged(s, c, j, pj)
    requires Allowed(s, call, c, j) && WithinShare(w, s, i, pi, j, pj)
    ensures Consistent(Do(w, s, call)) && WithinShare(w, Do(w, s, call), i, pi, j, pj)
  {
    match call
    case EnqueueCall(a, now) =>
      EnqueueStep(w, s, a, now);
    case DequeueCall =>
      assert Do(w, s, call) == TryDequeue(w, s, c).1;
      DequeueKeepsShare(w, s, c, i, pi, j, pj);
    case CompleteCall(d) =>
      CompleteStep(s, d, i);
      CompleteStep(s, d, j);
      LighterShare(Running(s, i), Running(Complete(s, d), i), w(pi), Times(Running(s, j) + 1, w(pj)));
    case PutBackCall(a) =>
      PutBackStep(s, a, i);
      PutBackStep(s, a, j);
      LighterShare(Running(s, i), Running(PutBack(s, a), i), w(pi), Times(Running(s, j) + 1, w(pj)));
  }

  /** Weighted fairness: in any run that starts with nothing of `i` or `j` running, keeps both
      backlogged and takes no running action from `j`, `running_i * w_i <= (running_j + 1) * w_j`
      throughout, whatever else is queued, dequeued, finished or put back. */
  lemma SharesFollowWeights(w: Weight, states: seq<Sched>, calls: seq<Call>, c: QueuePriority, i: string, pi: int,
      j: string, pj: int, n: nat)
    requires Positive(w) && ContendedRun(w, states, calls, c, i, pi, j, pj) && n < |states|
    ensures Product(Running(states[n], i), w(pi)) <= Product(Running(states[n], j) + 1, w(pj))
  {
    var a, b := SharesAt(w, states, calls, c, i, pi, j, pj, n);
    ShareAsProducts(a, w(pi), b, w(pj));
  }

  function Product(n: nat, x: real): real {
    n as real * x
  }

  lemma ShareAsProducts(a: nat, x: real, b: nat, y: real)
    requires Times(a, x) <= Times(b + 1, y)
    ensures Product(a, x) <= Product(b + 1, y)
  {
    AsProducts(a, x, b + 1, y);
  }

  lemma SharesAt(w: Weight, states: seq<Sched>, calls: seq<Call>, c: QueuePriority, i: string, pi: int,
      j: string, pj: int, n: nat) returns (a: nat, b: nat)
    requires Positive(w) && ContendedRun(w, states, calls, c, i, pi, j, pj) && n < |states|
    ensures a == Running(states[n], i) && b == Running(states[n], j) && Times(a, w(pi)) <= Times(b + 1, w(pj))
  {
    RunKeepsShare(w, states, calls, c, i, pi, j, pj, n);
    a, b := Running(states[n], i), Running(states[n], j);
  }

  lemma AsProducts(a: nat, x: real, b: nat, y: real)
    requires Times(a, x) <= Times(b, y)
    ensures a as real * x <= b as real * y
  {
    TimesIsProduct(a, x);
    TimesIsProduct(b, y);
  }

  lemma {:induction false} RunKeepsShare(w: Weight, states: seq<Sched>, calls: seq<Call>, c: QueuePriority, i: string,
      pi: int, j: string, pj: int, n: nat)
    requires Positive(w) && ContendedRun(w, states, calls, c, i, pi, j, pj) && n < |states|
    ensures Consistent(states[n]) && WithinShare(w, states[n], i, pi, j, pj)
    decreases n
  {
    if n == 0 {
      MoreIsHeavier(0, 1, w(pj));
    } else {
      RunKeepsShare(w, states, calls, c, i, pi, j, pj, n - 1);
      CallKeepsShare(w, states[n - 1], calls[n - 1], c, i, pi, j, pj);
    }
  }

  /** A hundred more priority points halve a share, and equal priorities split
      evenly, up to one action. */
  lemma HundredPointsHalveAShare(w: Weight, states: seq<Sched>, calls: seq<Call>, c: QueuePriority, i: string, pi: int,
      j: string, pj: int, n: nat)
    requires Positive(w) && Doubling(w) && n < |states|
    requires ContendedRun(w, states, calls, c, i, pi, j, pj) && ContendedRun(w, states, calls, c, j, pj, i, pi)
    ensures pj == pi + 100 ==> 2 * Running(states[n], j) <= Running(states[n], i) + 1
    ensures pj == pi + 100 ==> Running(states[n], i) <= 2 * (Running(states[n], j) + 1)
    ensures pj == pi ==>
              Running(states[n], i) <= Running(states[n], j) + 1 &&
              Running(states[n], j) <= Running(states[n], i) + 1
  {
    RunKeepsShare(w, states, calls, c, i, pi, j, pj, n);
    RunKeepsShare(w, states, calls, c, j, pj, i, pi, n);
    Shares(w, Running(states[n], i), pi, Running(states[n], j), pj);
  }

  lemma Shares(w: Weight, a: nat, pi: int, b: nat, pj: int)
    requires Positive(w) && Doubling(w)
    requires Times(a, w(pi)) <= Times(b + 1, w(pj))
    requires Times(b, w(pj)) <= Times(a + 1, w(pi))
    ensures pj == pi + 100 ==> 2 * b <= a + 1 && a <= 2 * (b + 1)
    ensures pj == pi ==> a <= b + 1 && b <= a + 1
  {
    if pj == pi + 100 {
      assert w(pj) == 2.0 * w(pi);
      TwiceTheWeight(b + 1, w(pi));
      TwiceTheWeight(b, w(pi));
      MoreIsHeavier(a, 2 * (b + 1), w(pi));
      MoreIsHeavier(2 * b, a + 1, w(pi));
    } else if pj == pi {
      MoreIsHeavier(a, b + 1, w(pi));
      MoreIsHeavier(b, a + 1, w(pi));
    }
  }

  ghost function Pow2(n: int): real
    decreases if n < 0 then -n else n
  {
    if n == 0 then 1.0 else if n > 0 then 2.0 * Pow2(n - 1) else Pow2(n + 1) / 2.0
  }

  lemma {:induction false} Pow2Positive(n: int)
    ensures Pow2(n) > 0.0
    decreases if n < 0 then -n else n
  {
    if n > 0 {
      Pow2Positive(n - 1);
    } else if n < 0 {
      Pow2Positive(n + 1);
    }
  }

  ghost function StepWeight(): Weight {
    p => Pow2(p / 100) * (1.0 + (p % 100) as real / 100.0)
  }

  /** The laws asked of a weight can be met. */
  lemma WeightsExist()
    ensures exists w: Weight :: Positive(w) && Doubling(w)
  {
    var w := StepWeight();
    forall p ensures w(p) > 0.0 {
      Pow2Positive(p / 100);
    }
    forall p, q | q == p + 100 ensures w(q) == 2.0 * w(p) {
      assert q / 100 == p / 100 + 1 && q % 100 == p % 100;
      Pow2Step(p / 100);
      assert w(q) == Pow2(p / 100 + 1) * (1.0 + (p % 100) as real / 100.0);
    }
    assert Positive(w);
    assert Doubling(w);
  }

  lemma Pow2Step(n: int)
    ensures Pow2(n + 1) == 2.0 * Pow2(n)
  {
  }
}
