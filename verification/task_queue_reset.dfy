/** What a reset does under producers that are still inside push. The reset looks at none of them, and each
    goes on with the values it has loaded from the ring before. */
module TaskQueueReset {
  import opened Wrappers
  import opened TaskQueue
  import opened TaskQueueProofs
  import opened TaskQueueTheorems

  /** The consumer has been handed the reserved tasks, in order. */
  predicate InOrder(q: Queue) {
    |q.popped| <= |q.reserved| && forall k :: 0 <= k < |q.popped| ==> q.popped[k] == Some(q.reserved[k])
  }

  /** Where a producer may be when the ring is reset under it: it owns no slot, and in a ring of one slot
      it is not about to exchange a tail other than zero. A tail that it has only loaded is harmless,
      however stale. */
  predicate SafeAtReset(p: Producer, capacity: nat) {
    match p
    case LoadSequence(_, _) => false
    case WriteSlot(_, _) => false
    case Publish(_, _) => false
    case CompareExchange(_, currentTail) => capacity == 1 ==> currentTail == 0
    case _ => true
  }

  predicate CanReset(q: Queue) {
    forall id :: id in q.producers ==> SafeAtReset(q.producers[id], q.capacity)
  }

  /** Every exchange that is about to be tried is for a tail that the empty ring has room for. */
  predicate ExchangesFit(q: Queue) {
    forall id :: id in q.producers && q.producers[id].CompareExchange? ==> q.producers[id].currentTail < q.capacity
  }

  lemma ResetKeepsMemory(q: Queue)
    requires q.capacity >= 1 && CanReset(q)
    ensures MemoryOk(ResetRing(q))
  {
    var r := ResetRing(q);
    InitInv(q.capacity);
    forall position | InWindow(r, position) ensures SlotOk(r, position) {
      assert SlotOk(Init(q.capacity), position);
    }
    forall id | id in r.producers ensures ProducerOk(r, id) {
      assert SafeAtReset(q.producers[id], q.capacity);
    }
  }

  lemma ResetKeepsOrdered(q: Queue)
    requires q.capacity >= 1 && CanReset(q)
    ensures Ordered(ResetRing(q))
  {
    ResetKeepsMemory(q);
    hide MemoryOk;
    if q.capacity == 1 {
      forall id | id in q.producers && q.producers[id].CompareExchange?
        ensures q.producers[id].currentTail == 0
      {
        assert SafeAtReset(q.producers[id], q.capacity);
      }
    }
  }

  lemma OrderedIsInOrder(q: Queue)
    requires Ordered(q)
    ensures InOrder(q)
  {
  }

  /* ------------------------- the ring that a run leaves behind ------------------------- */

  /** Producer f has pushed task x t times since the reset and the consumer has taken h of them, while no
      other producer has moved. */
  predicate Advanced(from: Queue, q: Queue, f: nat, x: Task, h: nat, t: nat)
    requires Shaped(from)
  {
    && Shaped(q) && q.capacity == from.capacity && !q.stopped && q.consumer.ReturnedTask?
    && q.head == h && q.tail == t && h <= t <= h + q.capacity
    && |q.reserved| == t && |q.popped| == h && (forall k :: 0 <= k < t ==> q.reserved[k] == x)
    && (forall position :: h <= position < h + q.capacity ==>
          q.sequences[Slot(q, position)] == if position < t then position + 1 else position)
    && (f in q.producers ==> !InsidePush(q.producers[f]))
    && (forall id :: id in from.producers && id != f ==> id in q.producers && q.producers[id] == from.producers[id])
  }

  /** Slots of positions less than a capacity apart are different. */
  lemma SlotsDiffer(q: Queue, h: nat, position: nat)
    requires Shaped(q) && h <= position < h + q.capacity
    ensures forall other :: h <= other < h + q.capacity && other != position ==> Slot(q, other) != Slot(q, position)
  {
    forall other | h <= other < h + q.capacity && other != position ensures Slot(q, other) != Slot(q, position) {
      if Slot(q, other) == Slot(q, position) { SameSlotSamePosition(q.capacity, other, position); }
    }
  }

  lemma OneMorePush(from: Queue, q: Queue, f: nat, x: Task, h: nat, t: nat)
    requires Shaped(from) && Advanced(from, q, f, x, h, t) && t < h + q.capacity && Reaches(from, q, {x})
    ensures Reaches(from, AfterPush(q, f, x), {x}) && Advanced(from, AfterPush(q, f, x), f, x, h, t + 1)
  {
    var r := SetProducer(q, f, CompareExchange(x, q.tail));
    SoloChecks(from, q, f, x, {x});
    assert q.sequences[Slot(q, t)] == t;
    SoloFill(from, r, f, x, {x});
    assert AfterPush(r, f, x) == AfterPush(q, f, x);
    SlotsDiffer(q, h, t);
    hide Reaches;
    var next := AfterPush(q, f, x);
    forall position | h <= position < h + next.capacity
      ensures next.sequences[Slot(next, position)] == if position < t + 1 then position + 1 else position
    {
      assert position != t ==> Slot(q, position) != Slot(q, t);
    }
  }

  lemma OneMorePop(from: Queue, q: Queue, f: nat, x: Task, h: nat, t: nat)
    requires Shaped(from) && Advanced(from, q, f, x, h, t) && h < t && Reaches(from, q, {x})
    ensures Reaches(from, AfterPop(q), {x}) && Advanced(from, AfterPop(q), f, x, h + 1, t)
  {
    SoloPop(from, q, {x});
    SlotsDiffer(q, h, h);
    hide Reaches;
    var r := AfterPop(q);
    assert Slot(q, h + q.capacity) == Slot(q, h);
    forall position | h + 1 <= position < h + 1 + r.capacity
      ensures r.sequences[Slot(r, position)] == if position < t then position + 1 else position
    {
      if position == h + q.capacity {
      } else {
        assert Slot(q, position) != Slot(q, h);
      }
    }
  }

  lemma {:induction false} Advance(from: Queue, f: nat, x: Task, h: nat, t: nat) returns (q: Queue)
    requires Shaped(from) && Advanced(from, from, f, x, 0, 0) && h <= t <= h + from.capacity
    ensures Reaches(from, q, {x}) && Advanced(from, q, f, x, h, t)
    decreases h + t
  {
    assert Advanced(from, from, f, x, 0, 0);
    hide Reaches;
    if h < t {
      q := Advance(from, f, x, h, t - 1);
      assert q.capacity == from.capacity;
      hide Advanced;
      OneMorePush(from, q, f, x, h, t - 1);
      q := AfterPush(q, f, x);
    } else if h > 0 {
      q := Advance(from, f, x, h - 1, h);
      hide Advanced;
      OneMorePop(from, q, f, x, h - 1, h);
      q := AfterPop(q);
    } else {
      q := from;
      ReachesItself(from, {x});
    }
  }

  lemma {:induction false} FreshId(ids: set<nat>) returns (f: nat)
    ensures forall id :: id in ids ==> id < f
  {
    if ids == {} {
      f := 0;
    } else {
      var id :| id in ids;
      f := FreshId(ids - {id});
      f := if f > id then f else id + 1;
      forall other | other in ids ensures other < f {
        assert other != id ==> other in ids - {id};
      }
    }
  }

  /** After a reset a producer that was outside push can bring the ring to any head and tail. */
  lemma ResetAdvances(q: Queue, stale: nat, x: Task, h: nat, t: nat) returns (r: Queue)
    requires q.capacity >= 1 && stale in q.producers && InsidePush(q.producers[stale])
    requires h <= t <= h + q.capacity
    ensures Reaches(ResetRing(q), r, {x})
    ensures Shaped(r) && r.capacity == q.capacity && r.head == h && r.tail == t
    ensures !r.stopped && r.consumer.ReturnedTask?
    ensures |r.reserved| == t && |r.popped| == h && forall k :: 0 <= k < t ==> r.reserved[k] == x
    ensures forall position :: h <= position < h + r.capacity ==>
              r.sequences[Slot(r, position)] == if position < t then position + 1 else position
    ensures stale in r.producers && r.producers[stale] == q.producers[stale]
  {
    var from := ResetRing(q);
    var f := FreshId(q.producers.Keys);
    assert f !in q.producers && stale != f;
    r := Advance(from, f, x, h, t);
    hide Reaches;
  }

  /* ------------------------- the order is broken ------------------------- */

  /** A producer that owned a slot before the reset publishes a position that nobody has reserved. */
  lemma OwnerPublishes(from: Queue, q: Queue, id: nat, pushed: set<Task>) returns (r: Queue)
    requires Shaped(from) && Shaped(q) && Reaches(from, q, pushed)
    requires id in q.producers && Owns(q.producers[id], q.head) && q.sequences[Slot(q, q.head)] == q.head
    ensures Reaches(from, r, pushed)
    ensures Shaped(r) && r.head == q.head && r.popped == q.popped && r.reserved == q.reserved
    ensures r.consumer == q.consumer && r.stopped == q.stopped && r.capacity == q.capacity
    ensures r.sequences[Slot(r, r.head)] == r.head + 1
  {
    hide Reaches, Run;
    r := q;
    if r.producers[id].LoadSequence? {
      var next := Next(r, StepPush(id, false));
      assert next == SetProducer(r, id, WriteSlot(r.producers[id].task, q.head));
      StepReaches(from, r, StepPush(id, false), next, pushed);
      r := next;
    }
    if r.producers[id].WriteSlot? {
      var next := Next(r, StepPush(id, false));
      assert next == SetProducer(r, id, Publish(r.producers[id].task, q.head))
                     .(ring := r.ring[Slot(q, q.head) := Some(r.producers[id].task)]);
      StepReaches(from, r, StepPush(id, false), next, pushed);
      r := next;
    }
    var next := Next(r, StepPush(id, false));
    StepReaches(from, r, StepPush(id, false), next, pushed);
    r := next;
  }

  lemma OwnerBreaksOrder(q: Queue, id: nat, x: Task, position: nat) returns (r: Queue)
    requires q.capacity >= 1 && id in q.producers && Owns(q.producers[id], position)
    ensures Reaches(ResetRing(q), r, {x})
    ensures !InOrder(r) && r.consumer.ReturnedTask? && !r.stopped
  {
    var from := ResetRing(q);
    r := ResetAdvances(q, id, x, position, position);
    hide Reaches;
    r := OwnerPublishes(from, r, id, {x});
    SoloPop(from, r, {x});
    r := AfterPop(r);
  }

  /** With a single slot, the sequence of a published task equals the position after it: the exchange of
      a stale tail succeeds on the full ring and the task overwrites the one that waits there. */
  lemma ExchangeBreaksOrder(q: Queue, id: nat, x: Task) returns (r: Queue)
    requires q.capacity == 1 && id in q.producers && q.producers[id].CompareExchange?
    requires q.producers[id].currentTail >= 1 && q.producers[id].task != x
    ensures Reaches(ResetRing(q), r, {x})
    ensures !InOrder(r) && r.consumer.ReturnedTask? && !r.stopped
  {
    var from, p := ResetRing(q), q.producers[id];
    var t := p.currentTail;
    r := ResetAdvances(q, id, x, t - 1, t);
    assert Slot(r, t) == 0 && Slot(r, t - 1) == 0;
    assert r.sequences[Slot(r, t - 1)] == t;
    hide Reaches, Run;
    var r1 := SetProducer(r, id, LoadSequence(p.task, t))
              .(tail := t + 1, reserved := r.reserved + [p.task], owners := r.owners + [id]);
    StepReaches(from, r, StepPush(id, false), r1, {x});
    var r2 := SetProducer(r1, id, WriteSlot(p.task, t));
    StepReaches(from, r1, StepPush(id, false), r2, {x});
    var r3 := SetProducer(r2, id, Publish(p.task, t)).(ring := r2.ring[0 := Some(p.task)]);
    StepReaches(from, r2, StepPush(id, false), r3, {x});
    SoloPop(from, r3, {x});
    r := AfterPop(r3);
    assert r.popped[t - 1] == Some(p.task) && r.reserved[t - 1] == x;
  }

  /** Each producer that is not where it may be has a run that breaks the order, in which nobody but it
      and one other producer, with tasks of any one key, moves. */
  lemma ResetBreaksOrder(q: Queue, key: nat) returns (r: Queue, x: Task)
    requires q.capacity >= 1 && !CanReset(q)
    ensures x.key == key && Reaches(ResetRing(q), r, {x})
    ensures !InOrder(r) && r.consumer.ReturnedTask? && !r.stopped
  {
    var id: nat :| id in q.producers && !SafeAtReset(q.producers[id], q.capacity);
    var p := q.producers[id];
    x := Task(key, p.task.body + 1);
    hide Reaches;
    if p.CompareExchange? {
      r := ExchangeBreaksOrder(q, id, x);
    } else {
      r := OwnerBreaksOrder(q, id, x, p.position);
    }
  }

  /** A reset is safe, in that the tasks are handed out in the order reserved whatever happens next,
      exactly when no producer owns a slot and, in a ring of one slot, none is about to exchange a stale
      tail. */
  lemma ResetKeepsOrderExactlyWhen(q: Queue)
    requires q.capacity >= 1
    ensures (forall events :: InOrder(Run(ResetRing(q), events))) <==> CanReset(q)
  {
    if CanReset(q) {
      ResetKeepsOrdered(q);
      forall events ensures InOrder(Run(ResetRing(q), events)) {
        RunKeepsOrdered(ResetRing(q), events);
        OrderedIsInOrder(Run(ResetRing(q), events));
      }
    } else {
      var r, x := ResetBreaksOrder(q, 0);
      var events :| OnlyPushes(events, {x}) && Run(ResetRing(q), events) == r;
      assert !InOrder(Run(ResetRing(q), events));
    }
  }

  /** A reset while a producer is about to publish: its push returns true, and the consumer is handed
      an empty slot in place of the task. */
  lemma ResetUnderAProducerLosesItsTask(a: Task) returns (q: Queue)
    ensures Shaped(q) && Reaches(Init(1), q, {a}) && 0 in q.producers && q.producers[0] == Publish(a, 0)
    ensures !CanReset(q)
    ensures var r := Run(ResetRing(q), [StepPush(0, false), CallPop, StepPop, StepPop, StepPop]);
            && 0 in r.producers && r.producers[0].Accepted?
            && r.popped == [None] && r.reserved == []
  {
    var q0 := Init(1);
    ReachesItself(q0, {a});
    SoloChecks(q0, q0, 0, a, {a});
    var q1 := SetProducer(q0, 0, CompareExchange(a, 0));
    SoloReserve(q0, q1, 0, a, {a});
    var q2 := SetProducer(q1, 0, WriteSlot(a, 0)).(tail := 1, reserved := [a], owners := [0]);
    assert q1.reserved + [a] == [a] && q1.owners + [0] == [0];
    q := SetProducer(q2, 0, Publish(a, 0)).(ring := [Some(a)]);
    hide Reaches, Run;
    assert Next(q2, StepPush(0, false)) == q;
    StepReaches(q0, q2, StepPush(0, false), q, {a});
    assert !SafeAtReset(q.producers[0], 1);
    AfterReset(q, a);
  }

  lemma AfterReset(q: Queue, a: Task)
    requires q.capacity == 1 && 0 in q.producers && q.producers[0] == Publish(a, 0)
    ensures var r := Run(ResetRing(q), [StepPush(0, false), CallPop, StepPop, StepPop, StepPop]);
            && 0 in r.producers && r.producers[0].Accepted?
            && r.popped == [None] && r.reserved == []
  {
    var r0 := ResetRing(q);
    var r1 := Next(r0, StepPush(0, false));
    var r2 := Next(r1, CallPop);
    var r3 := Next(r2, StepPop);
    var r4 := Next(r3, StepPop);
    var r5 := Next(r4, StepPop);
    assert r0.ring == [None] && r1.sequences == [1] && r1.ring == [None];
    assert r4.consumer == MoveOut(0) && r5.popped == [] + [None];
    RunStep(r0, StepPush(0, false), [CallPop, StepPop, StepPop, StepPop]);
    RunStep(r1, CallPop, [StepPop, StepPop, StepPop]);
    RunStep(r2, StepPop, [StepPop, StepPop]);
    RunStep(r3, StepPop, [StepPop]);
    RunStep(r4, StepPop, []);
  }

  lemma RunStep(q: Queue, e: Event, rest: seq<Event>)
    requires Shaped(q)
    ensures Run(q, [e] + rest) == Run(Next(q, e), rest)
  {
    assert ([e] + rest)[1..] == rest;
  }

  lemma OrderedAfterResetExactlyWhen(q: Queue)
    requires q.capacity >= 1
    ensures Ordered(ResetRing(q)) <==> CanReset(q)
  {
    var r := ResetRing(q);
    if CanReset(q) {
      ResetKeepsOrdered(q);
    } else if Ordered(r) {
      forall events ensures InOrder(Run(r, events)) {
        RunKeepsOrdered(r, events);
        OrderedIsInOrder(Run(r, events));
      }
      ResetKeepsOrderExactlyWhen(q);
    }
  }

  /** After a safe reset nothing is lost either: once all producers have returned and everything reserved
      has been taken, the consumer has received the tasks of exactly the acknowledged pushes. */
  lemma SafeResetLosesNothing(q: Queue, events: seq<Event>)
    requires q.capacity >= 1 && CanReset(q)
    requires var r := Run(ResetRing(q), events);
             && (forall id :: id in r.producers ==> !InsidePush(r.producers[id]))
             && |r.popped| == |r.reserved|
    ensures var r := Run(ResetRing(q), events);
            && (forall k :: 0 <= k < |r.popped| ==> r.popped[k] == Some(r.reserved[k]))
            && (forall k: nat :: k in r.acknowledged <==> k < |r.popped|)
  {
    var r := Run(ResetRing(q), events);
    ResetKeepsOrdered(q);
    RunKeepsAccounts(ResetRing(q), events);
    hide ResetRing, SlotsOk, ProducersOk, BeyondOk, ConsumerOk, Bounded;
    forall k: nat | k < |r.popped| ensures k in r.acknowledged {
      assert !OwnedAt(r, k);
    }
  }

  /* ------------------------- the bound ------------------------- */

  predicate WithinCapacity(q: Queue) {
    q.tail <= q.head + q.capacity
  }

  /** The exchange of a stale tail past the capacity succeeds on the full ring. */
  lemma ExchangeOverfills(q: Queue, id: nat, x: Task) returns (r: Queue)
    requires q.capacity >= 1 && id in q.producers && q.producers[id].CompareExchange?
    requires q.producers[id].currentTail >= q.capacity
    ensures Reaches(ResetRing(q), r, {x}) && !WithinCapacity(r)
  {
    var t := q.producers[id].currentTail;
    r := ResetAdvances(q, id, x, t - q.capacity, t);
    var next := Next(r, StepPush(id, false));
    StepReaches(ResetRing(q), r, StepPush(id, false), next, {x});
    hide Reaches;
    r := next;
  }

  lemma MisfitBreaksBound(q: Queue) returns (events: seq<Event>)
    requires q.capacity >= 1 && !ExchangesFit(q)
    ensures !WithinCapacity(Run(ResetRing(q), events))
  {
    var id: nat :| id in q.producers && q.producers[id].CompareExchange? && q.producers[id].currentTail >= q.capacity;
    var x := q.producers[id].task;
    var r := ExchangeOverfills(q, id, x);
    hide ResetRing, WithinCapacity;
    events :| OnlyPushes(events, {x}) && Run(ResetRing(q), events) == r;
  }

  /** After a safe reset the ring never holds more than its capacity exactly when no stale exchange is
      for a tail past it. In a ring of more than one slot such an exchange breaks the bound, and with it
      the assertion after the exchange, but never the order. */
  lemma ResetKeepsBoundExactlyWhen(q: Queue)
    requires q.capacity >= 1 && CanReset(q)
    ensures (forall events :: WithinCapacity(Run(ResetRing(q), events))) <==> ExchangesFit(q)
  {
    if ExchangesFit(q) {
      ResetKeepsOrdered(q);
      assert Bounded(ResetRing(q));
      forall events ensures WithinCapacity(Run(ResetRing(q), events)) {
        RunKeepsInv(ResetRing(q), events);
      }
    } else {
      var events := MisfitBreaksBound(q);
    }
  }

  /** A reset keeps the whole invariant exactly when it keeps both the order and the bound. */
  lemma ResetKeepsInvExactlyWhen(q: Queue)
    requires q.capacity >= 1
    ensures Inv(ResetRing(q)) <==> CanReset(q) && ExchangesFit(q)
  {
    var r := ResetRing(q);
    if CanReset(q) {
      forall id | id in q.producers && q.producers[id].CompareExchange?
        ensures id in r.producers && r.producers[id] == q.producers[id]
      {
      }
    }
    OrderedAfterResetExactlyWhen(q);
    hide Ordered;
  }
}
