/** Whole runs of the scheduler's calls (src/execution/scheduler.rs): in what order actions
    come out, and what the table of digests in flight says of them. */
module QueueRuns {
  import opened Prelude
  import opened FairQueues
  import opened Scheduling
  import opened DispatchOrder

  datatype Call =
    | Enter(action: Action, now: nat)
    | Take
    /** The last action taken goes back. */
    | Return
    | Release(digest: Digest)
    | Sweep(now: nat, maxAge: nat)

  /** The scheduler, the actions it admitted and, of those, the ones taken and not put
      back, each in order. */
  datatype Ledger = Ledger(sched: Sched, entered: seq<Action>, out: seq<Action>)

  ghost function Called(w: Weight, l: Ledger, call: Call): Ledger
    requires Filed(l.sched)
  {
    match call
    case Enter(a, now) =>
      Ledger(Enqueue(l.sched, a, now).0, l.entered + if a.digest in l.sched.inFlight then [] else [a], l.out)
    case Take =>
      var (item, sched) := Dequeue(w, l.sched);
      if item.Some? then Ledger(sched, l.entered, l.out + [item.value]) else l
    case Return =>
      if l.out == [] then l
      else Ledger(PutBack(l.sched, l.out[|l.out| - 1]), l.entered, l.out[..|l.out| - 1])
    case Release(d) => l.(sched := Complete(l.sched, d))
    case Sweep(now, maxAge) => l.(sched := CleanupStale(l.sched, now, maxAge))
  }

  ghost predicate IsRun(w: Weight, states: seq<Ledger>, calls: seq<Call>) {
    && |states| == |calls| + 1 && states[0] == Ledger(IDLE, [], [])
    && forall n :: 0 <= n < |calls| ==> Filed(states[n].sched) && states[n + 1] == Called(w, states[n], calls[n])
  }

  // ----- First in, first out -----

  lemma DequeueFiled(w: Weight, s: Sched)
    requires Filed(s)
    ensures Filed(Dequeue(w, s).1)
  {
    TryDequeueFiled(w, s, if s.critical.queues != map[] then Critical else Medium);
  }

  lemma CalledFiled(w: Weight, l: Ledger, call: Call)
    requires Filed(l.sched)
    ensures Filed(Called(w, l, call).sched)
  {
    match call
    case Enter(a, now) => EnqueueFiled(l.sched, a, now);
    case Take => DequeueFiled(w, l.sched);
    case Return =>
      if l.out != [] {
        PutBackFiled(l.sched, l.out[|l.out| - 1]);
      }
    case _ =>
  }

  lemma PushBackAt(f: Fair, a: Action, k: string)
    requires Valid(f)
    ensures ItemsOf(Push(f, a, false), k) == ItemsOf(f, k) + if k == a.invocation then [a] else []
  {
    PushValid(f, a, false);
  }

  /** An admitted action goes to the end of its invocation's queue. */
  lemma EnqueueAt(s: Sched, a: Action, now: nat, c: QueuePriority, k: string)
    requires Filed(s) && a.digest !in s.inFlight
    ensures ItemsAt(Enqueue(s, a, now).0, c, k) == ItemsAt(s, c, k) + At([a], c, k)
  {
    var f := QueueOf(s, c);
    assert QueueOf(Enqueue(s, a, now).0, c) == if c == a.priority then Push(f, a, false) else f;
    PushBackAt(f, a, k);
    AtOne(a, c, k);
  }

  /** What was admitted is what is out, in the order it was taken, and then what waits. */
  ghost predicate InOrder(l: Ledger, c: QueuePriority, k: string) {
    At(l.entered, c, k) == At(l.out, c, k) + ItemsAt(l.sched, c, k)
  }

  lemma EnterInOrder(l: Ledger, a: Action, now: nat, w: Weight, c: QueuePriority, k: string)
    requires Filed(l.sched) && InOrder(l, c, k)
    ensures InOrder(Called(w, l, Enter(a, now)), c, k)
  {
    if a.digest in l.sched.inFlight {
      assert l.entered + [] == l.entered;
    } else {
      EnqueueAt(l.sched, a, now, c, k);
      AtConcat(l.entered, [a], c, k);
      ConcatAssoc(At(l.out, c, k), ItemsAt(l.sched, c, k), At([a], c, k));
    }
  }

  lemma TakeInOrder(l: Ledger, w: Weight, c: QueuePriority, k: string)
    requires Filed(l.sched) && InOrder(l, c, k)
    ensures InOrder(Called(w, l, Take), c, k)
  {
    var (item, sched) := Dequeue(w, l.sched);
    if item.Some? {
      DequeueAt(w, l.sched, c, k);
      AtConcat(l.out, [item.value], c, k);
      ConcatAssoc(At(l.out, c, k), At([item.value], c, k), ItemsAt(sched, c, k));
    }
  }

  lemma ReturnInOrder(l: Ledger, w: Weight, c: QueuePriority, k: string)
    requires Filed(l.sched) && InOrder(l, c, k)
    ensures InOrder(Called(w, l, Return), c, k)
  {
    if l.out != [] {
      var rest, a := l.out[..|l.out| - 1], l.out[|l.out| - 1];
      PutBackAt(l.sched, a, c, k);
      assert l.out == rest + [a];
      AtConcat(rest, [a], c, k);
      ConcatAssoc(At(rest, c, k), At([a], c, k), ItemsAt(l.sched, c, k));
    }
  }

  /** Within one class and invocation, actions come out in the order they were admitted,
      none lost, none twice, whatever is enqueued, taken, put back, finished or swept. */
  lemma {:induction false} FirstInFirstOut(
      w: Weight, states: seq<Ledger>, calls: seq<Call>, n: nat, c: QueuePriority, k: string)
    requires IsRun(w, states, calls) && n < |states|
    ensures Filed(states[n].sched)
    ensures At(states[n].entered, c, k) == At(states[n].out, c, k) + ItemsAt(states[n].sched, c, k)
  {
    if n > 0 {
      var l, call := states[n - 1], calls[n - 1];
      FirstInFirstOut(w, states, calls, n - 1, c, k);
      CalledFiled(w, l, call);
      match call
      case Enter(a, now) => EnterInOrder(l, a, now, w, c, k);
      case Take => TakeInOrder(l, w, c, k);
      case Return => ReturnInOrder(l, w, c, k);
      case _ =>
    }
  }

  // ----- What is in flight -----

  /** Who a digest in flight belongs to, and since when. */
  function OwnerOf(s: Sched, d: Digest): Option<(OperationId, nat, string)> {
    if d in s.inFlight then Some((s.inFlight[d].op, s.inFlight[d].insertedAt, s.inFlight[d].invocation)) else None
  }

  /** A digest in flight after `call` was so before, for the same operation, or `call` admitted it. */
  ghost predicate KeepsOrAdmits(s: Sched, call: Call, t: Sched, d: Digest) {
    d in t.inFlight ==>
      if d in s.inFlight then OwnerOf(t, d) == OwnerOf(s, d)
      else && call.Enter? && call.action.digest == d
           && OwnerOf(t, d) == Some((call.action.op, call.now, call.action.invocation))
  }

  lemma OwnerStep(w: Weight, l: Ledger, call: Call, d: Digest)
    requires Filed(l.sched)
    ensures KeepsOrAdmits(l.sched, call, Called(w, l, call).sched, d)
  {
    if d in l.sched.inFlight {
      OwnerStays(w, l, call, d);
    } else {
      OwnerComes(w, l, call, d);
    }
  }

  lemma OwnerStays(w: Weight, l: Ledger, call: Call, d: Digest)
    requires Filed(l.sched) && d in l.sched.inFlight
    ensures OwnerOf(Called(w, l, call).sched, d) == None
         || OwnerOf(Called(w, l, call).sched, d) == OwnerOf(l.sched, d)
  {
  }

  lemma OwnerComes(w: Weight, l: Ledger, call: Call, d: Digest)
    requires Filed(l.sched) && d !in l.sched.inFlight
    ensures OwnerOf(Called(w, l, call).sched, d)
         == if call.Enter? && call.action.digest == d then Some((call.action.op, call.now, call.action.invocation))
            else None
  {
  }

  /** `calls[k]` admitted the action that `d` is in flight for ever since. */
  ghost predicate AdmittedBy(states: seq<Ledger>, calls: seq<Call>, k: nat, n: nat, d: Digest)
    requires |states| == |calls| + 1
  {
    && k < n < |states| && calls[k].Enter? && calls[k].action.digest == d && d !in states[k].sched.inFlight
    && forall i :: k < i <= n ==> d in states[i].sched.inFlight
  }

  lemma StillAdmitted(states: seq<Ledger>, calls: seq<Call>, k: nat, n: nat, d: Digest)
    requires |states| == |calls| + 1 && AdmittedBy(states, calls, k, n, d)
    requires n + 1 < |states| && d in states[n + 1].sched.inFlight
    ensures AdmittedBy(states, calls, k, n + 1, d)
  {
  }

  lemma {:induction false} OwnedSince(states: seq<Ledger>, calls: seq<Call>, n: nat, d: Digest) returns (k: nat)
    requires |states| == |calls| + 1 && n < |states| && d in states[n].sched.inFlight
    requires states[0].sched.inFlight == map[]
    requires forall i :: 0 <= i < |calls| ==> KeepsOrAdmits(states[i].sched, calls[i], states[i + 1].sched, d)
    ensures AdmittedBy(states, calls, k, n, d)
    ensures OwnerOf(states[n].sched, d) == Some((calls[k].action.op, calls[k].now, calls[k].action.invocation))
  {
    assert KeepsOrAdmits(states[n - 1].sched, calls[n - 1], states[n].sched, d);
    if d in states[n - 1].sched.inFlight {
      k := OwnedSince(states, calls, n - 1, d);
      StillAdmitted(states, calls, k, n - 1, d);
    } else {
      k := n - 1;
    }
  }

  /** A digest is in flight for the operation whose action was admitted when it last was
      not, and since that moment. */
  lemma InFlightSinceAdmitted(w: Weight, states: seq<Ledger>, calls: seq<Call>, n: nat, d: Digest) returns (k: nat)
    requires IsRun(w, states, calls) && n < |states| && d in states[n].sched.inFlight
    ensures AdmittedBy(states, calls, k, n, d)
    ensures OwnerOf(states[n].sched, d) == Some((calls[k].action.op, calls[k].now, calls[k].action.invocation))
  {
    forall i | 0 <= i < |calls| ensures KeepsOrAdmits(states[i].sched, calls[i], states[i + 1].sched, d) {
      OwnerStep(w, states[i], calls[i], d);
    }
    k := OwnedSince(states, calls, n, d);
  }

  /** So a sweep lets go of exactly the digests admitted longer ago than its limit. */
  lemma SweptByAge(w: Weight, states: seq<Ledger>, calls: seq<Call>, n: nat, d: Digest) returns (k: nat)
    requires IsRun(w, states, calls) && n < |calls| && calls[n].Sweep? && d in states[n].sched.inFlight
    ensures AdmittedBy(states, calls, k, n, d)
    ensures d in states[n + 1].sched.inFlight <==> calls[n].now <= calls[k].now + calls[n].maxAge
  {
    k := InFlightSinceAdmitted(w, states, calls, n, d);
  }
}
