/** Queue slots: that an operation never occupies two of them. */
module Slots {
  import opened Prelude
  import opened FairQueues
  import opened Scheduling

  ghost predicate DistinctOps(items: seq<Action>) {
    forall i, j :: 0 <= i < j < |items| ==> items[i].op != items[j].op
  }

  ghost predicate Single(f: Fair) {
    forall k :: k in f.queues ==> DistinctOps(f.queues[k].items)
  }

  /** No operation waits twice under one invocation of one class. */
  ghost predicate Slotted(s: Sched) {
    Filed(s) && Single(s.critical) && Single(s.medium)
  }

  lemma PushSlotted(s: Sched, a: Action, front: bool)
    requires Slotted(s)
    requires forall b :: IsQueued(s, b) ==> b.op != a.op
    ensures Slotted(WithQueue(s, a.priority, Push(QueueOf(s, a.priority), a, front)))
    ensures forall b :: IsQueued(WithQueue(s, a.priority, Push(QueueOf(s, a.priority), a, front)), b) <==>
            b == a || IsQueued(s, b)
  {
    var f := QueueOf(s, a.priority);
    PushValid(f, a, front);
    PushOfClass(f, a, front);
    NewHere(s, a);
    PushSingle(f, a, front);
    forall b ensures IsQueued(WithQueue(s, a.priority, Push(f, a, front)), b) <==> b == a || IsQueued(s, b) {
      QueuedAfterPush(s, a, front, b);
    }
  }

  /** An operation that waits nowhere does not wait in the queue of its action. */
  lemma NewHere(s: Sched, a: Action)
    requires Filed(s) && forall b :: IsQueued(s, b) ==> b.op != a.op
    ensures var items := ItemsOf(QueueOf(s, a.priority), a.invocation);
            forall i :: 0 <= i < |items| ==> items[i].op != a.op
  {
    var f := QueueOf(s, a.priority);
    var items := ItemsOf(f, a.invocation);
    forall i | 0 <= i < |items| ensures items[i].op != a.op {
      assert Own(f.queues[a.invocation].items, a.invocation);
      assert IsQueued(s, items[i]);
    }
  }

  lemma PushSingle(f: Fair, a: Action, front: bool)
    requires Single(f)
    requires forall i :: 0 <= i < |ItemsOf(f, a.invocation)| ==> ItemsOf(f, a.invocation)[i].op != a.op
    ensures Single(Push(f, a, front))
  {
    var items := ItemsOf(f, a.invocation);
    assert DistinctOps(items);
    assert DistinctOps(if front then [a] + items else items + [a]);
  }

  lemma TakeSingle(f: Fair, key: string)
    requires Single(f) && key in f.queues && f.queues[key].items != []
    ensures Single(TakeFrom(f, key)) && f.queues[key].items[0] !in f.queues[key].items[1..]
  {
    assert DistinctOps(f.queues[key].items);
    assert DistinctOps(f.queues[key].items[1..]);
  }

  lemma HeadOf(s: Sched, c: QueuePriority, key: string)
    requires Filed(s) && key in QueueOf(s, c).queues
    ensures var a := QueueOf(s, c).queues[key].items[0]; a.invocation == key && a.priority == c && IsQueued(s, a)
  {
    var items := QueueOf(s, c).queues[key].items;
    assert Own(items, key) && InClass(items, c);
  }

  lemma NoLongerQueued(s: Sched, c: QueuePriority, key: string)
    requires Slotted(s) && key in QueueOf(s, c).queues
    ensures !IsQueued(WithQueue(s, c, TakeFrom(QueueOf(s, c), key)), QueueOf(s, c).queues[key].items[0])
  {
    var f := QueueOf(s, c);
    HeadOf(s, c, key);
    TakeValid(f, key);
    TakeSingle(f, key);
    NotInOtherClass(s, f.queues[key].items[0], c);
  }

  /** Taking the head of an invocation frees its only slot. */
  lemma TakeSlotted(s: Sched, c: QueuePriority, key: string)
    requires Slotted(s) && key in QueueOf(s, c).queues
    ensures Slotted(WithQueue(s, c, TakeFrom(QueueOf(s, c), key)))
    ensures IsQueued(s, QueueOf(s, c).queues[key].items[0])
    ensures forall b :: IsQueued(WithQueue(s, c, TakeFrom(QueueOf(s, c), key)), b) <==>
                        IsQueued(s, b) && b != QueueOf(s, c).queues[key].items[0]
  {
    var f := QueueOf(s, c);
    TakeValid(f, key);
    TakeOfClass(f, key, c);
    TakeSingle(f, key);
    HeadOf(s, c, key);
    NoLongerQueued(s, c, key);
    forall b ensures IsQueued(WithQueue(s, c, TakeFrom(f, key)), b) <==> IsQueued(s, b) && b != f.queues[key].items[0] {
      QueuedAfterTake(s, c, key, b);
    }
  }

  lemma NotInOtherClass(s: Sched, a: Action, c: QueuePriority)
    requires Filed(s) && a.priority == c
    ensures a !in ItemsOf(if c.Critical? then s.medium else s.critical, a.invocation)
  {
    var other := if c.Critical? then Medium else Critical;
    if a.invocation in QueueOf(s, other).queues {
      assert InClass(QueueOf(s, other).queues[a.invocation].items, other);
    }
  }

  lemma {:induction false} StayingDistinct(items: seq<Action>, ops: set<OperationId>)
    requires DistinctOps(items)
    ensures DistinctOps(Staying(items, ops))
  {
    if items != [] {
      StayingDistinct(items[1..], ops);
      LeavingAndStaying(items[1..], ops);
      var rest := Staying(items[1..], ops);
      forall j | 0 <= j < |rest| ensures rest[j].op != items[0].op {
        assert rest[j] in items[1..];
      }
    }
  }

  /** Draining frees the slots of the named operations in that class and no other. */
  lemma DrainSlotted(s: Sched, c: QueuePriority, ops: set<OperationId>)
    requires Slotted(s)
    ensures Slotted(RemoveUnwatched(s, c, ops))
    ensures forall b :: IsQueued(RemoveUnwatched(s, c, ops), b) <==> IsQueued(s, b) && !(b.priority == c && b.op in ops)
  {
    var f := QueueOf(s, c);
    RemoveUnwatchedFiled(s, c, ops);
    DrainValid(f, ops);
    forall k | k in f.queues ensures DistinctOps(Staying(f.queues[k].items, ops)) {
      StayingDistinct(f.queues[k].items, ops);
    }
    forall b ensures IsQueued(RemoveUnwatched(s, c, ops), b) <==> IsQueued(s, b) && !(b.priority == c && b.op in ops) {
      QueuedAfterDrain(s, c, ops, b);
    }
  }

  lemma QueuedAfterDrain(s: Sched, c: QueuePriority, ops: set<OperationId>, b: Action)
    requires Filed(s)
    ensures IsQueued(RemoveUnwatched(s, c, ops), b) <==> IsQueued(s, b) && !(b.priority == c && b.op in ops)
  {
    var f := QueueOf(s, c);
    DrainValid(f, ops);
    LeavingAndStaying(ItemsOf(f, b.invocation), ops);
    if b.priority == c {
      NotInOtherClass(s, b, c);
    } else if b.invocation in f.queues {
      assert InClass(f.queues[b.invocation].items, c);
    }
  }

  /** A slot: a class, an invocation and a position in its queue. */
  datatype Slot = Slot(priority: QueuePriority, invocation: string, index: nat)

  ghost predicate Holds(s: Sched, slot: Slot, op: OperationId) {
    var items := ItemsOf(QueueOf(s, slot.priority), slot.invocation);
    slot.index < |items| && items[slot.index].op == op
  }
}
