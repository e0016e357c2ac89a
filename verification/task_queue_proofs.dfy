/** Every interleaving keeps the ring invariant. */
module TaskQueueProofs {
  import opened Wrappers
  import opened TaskQueue

  /** Steps that change one producer's local position and nothing shared. */
  lemma LocalProducerStep(q: Queue, id: nat, p: Producer)
    requires Ordered(q)
    requires id in q.producers ==> !q.producers[id].LoadSequence? && !q.producers[id].WriteSlot? && !q.producers[id].Publish?
    requires ProducerOk(SetProducer(q, id, p), id)
    ensures MemoryOk(SetProducer(q, id, p))
  {
    hide Bounded;
    var r := SetProducer(q, id, p);
    forall position | Base(r) + r.capacity <= position < r.tail ensures OwnedAt(r, position) {
      assert OwnedAt(q, position);
    }
    forall position | InWindow(r, position) ensures SlotOk(r, position) {
      assert SlotOk(q, position);
    }
    forall other | other in r.producers ensures ProducerOk(r, other) {
      if other != id { assert ProducerOk(q, other); }
    }
  }

  lemma ExchangeSlots(q: Queue, id: nat)
    requires Ordered(q) && id in q.producers && q.producers[id].CompareExchange?
    requires q.tail == q.producers[id].currentTail
    ensures var r := ProducerStep(q, id, false); CountersOk(r) && PoppedOk(r) && SlotsOk(r) && BeyondOk(r)
  {
    hide ProducersOk, Bounded, ConsumerOk;
    var r := ProducerStep(q, id, false);
    forall position | InWindow(r, position) ensures SlotOk(r, position) {
      assert SlotOk(q, position);
    }
    forall position | Base(r) + r.capacity <= position < r.tail ensures OwnedAt(r, position) {
      assert position < q.tail ==> OwnedAt(q, position);
    }
  }

  lemma ExchangeProducers(q: Queue, id: nat)
    requires Ordered(q) && id in q.producers && q.producers[id].CompareExchange?
    requires q.tail == q.producers[id].currentTail && CountersOk(ProducerStep(q, id, false))
    ensures ProducersOk(ProducerStep(q, id, false))
  {
    if InWindow(q, q.tail) { assert SlotOk(q, q.tail); }
    hide SlotsOk, BeyondOk, Bounded, PoppedOk;
    var r := ProducerStep(q, id, false);
    forall other | other in r.producers ensures ProducerOk(r, other) {
      if other != id { assert ProducerOk(q, other); }
    }
  }

  /** A successful compare-exchange finds a slot that is already free for the claimed position, or
      claims a position beyond the window. */
  lemma ExchangeStep(q: Queue, id: nat)
    requires Ordered(q) && id in q.producers && q.producers[id].CompareExchange?
    requires q.tail == q.producers[id].currentTail
    ensures MemoryOk(ProducerStep(q, id, false))
  {
    ExchangeSlots(q, id);
    ExchangeProducers(q, id);
    hide SlotsOk, BeyondOk, ProducersOk, Bounded, PoppedOk;
  }

  /** A producer that sees its own position in the slot is inside the window. */
  lemma SeenIsInWindow(q: Queue, id: nat)
    requires Ordered(q) && id in q.producers && q.producers[id].LoadSequence?
    requires q.sequences[Slot(q, q.producers[id].position)] == q.producers[id].position
    ensures InWindow(q, q.producers[id].position)
  {
    var position := q.producers[id].position;
    assert ProducerOk(q, id);
    var inside := SharesSlot(q, position);
    assert SlotOk(q, inside);
    if inside != position && q.capacity > 1 {
      SameSlotSamePosition(q.capacity, inside, inside + 1);
    }
  }

  lemma LoadSequenceStep(q: Queue, id: nat)
    requires Ordered(q) && id in q.producers && q.producers[id].LoadSequence?
    ensures MemoryOk(ProducerStep(q, id, false))
  {
    hide Bounded;
    var r := ProducerStep(q, id, false);
    assert ProducerOk(q, id);
    if q.sequences[Slot(q, q.producers[id].position)] == q.producers[id].position { SeenIsInWindow(q, id); }
    forall position | Base(r) + r.capacity <= position < r.tail ensures OwnedAt(r, position) {
      assert OwnedAt(q, position);
    }
    forall position | InWindow(r, position) ensures SlotOk(r, position) {
      assert SlotOk(q, position);
    }
    forall other | other in r.producers ensures ProducerOk(r, other) {
      if other != id { assert ProducerOk(q, other); }
    }
  }

  lemma WriteSlotStep(q: Queue, id: nat)
    requires Ordered(q) && id in q.producers && q.producers[id].WriteSlot?
    ensures MemoryOk(ProducerStep(q, id, false))
  {
    var r := ProducerStep(q, id, false);
    assert ProducerOk(q, id);
    OtherSlots(q, q.producers[id].position);
    forall position | Base(r) + r.capacity <= position < r.tail ensures OwnedAt(r, position) {
      assert OwnedAt(q, position);
    }
    forall position | InWindow(r, position) ensures SlotOk(r, position) {
      assert SlotOk(q, position);
    }
    forall other | other in r.producers ensures ProducerOk(r, other) {
      if other != id { assert ProducerOk(q, other); }
    }
  }

  lemma PublishStep(q: Queue, id: nat)
    requires Ordered(q) && id in q.producers && q.producers[id].Publish?
    ensures MemoryOk(ProducerStep(q, id, false))
  {
    var r := ProducerStep(q, id, false);
    var mine := q.producers[id].position;
    assert ProducerOk(q, id);
    assert SlotOk(q, mine);
    OtherSlots(q, mine);
    forall position | Base(r) + r.capacity <= position < r.tail ensures OwnedAt(r, position) {
      assert OwnedAt(q, position);
    }
    forall position | InWindow(r, position) ensures SlotOk(r, position) {
      assert SlotOk(q, position);
    }
    forall other | other in r.producers ensures ProducerOk(r, other) {
      if other != id { assert ProducerOk(q, other); }
    }
    assert ConsumerOk(r);
  }

  lemma ProducerStepKeepsMemory(q: Queue, id: nat, exchangeFails: bool)
    requires Ordered(q) && id in q.producers && InsidePush(q.producers[id])
    ensures MemoryOk(ProducerStep(q, id, exchangeFails))
  {
    hide SlotsOk, BeyondOk, ProducersOk, PoppedOk, ConsumerOk, Bounded;
    var p := q.producers[id];
    match p
    case CompareExchange(task, currentTail) =>
      if exchangeFails || q.tail != currentTail {
        LocalProducerStep(q, id, LoadStopped(task));
      } else {
        ExchangeStep(q, id);
      }
    case LoadSequence(_, _) => LoadSequenceStep(q, id);
    case WriteSlot(_, _) => WriteSlotStep(q, id);
    case Publish(_, _) => PublishStep(q, id);
    case LoadStopped(task) => LocalProducerStep(q, id, if q.stopped then Rejected else LoadTail(task));
    case LoadTail(task) => LocalProducerStep(q, id, LoadHead(task, q.tail));
    case LoadHead(task, currentTail) =>
      LocalProducerStep(q, id, if Sub64(currentTail, q.head) >= q.capacity then Rejected else CompareExchange(task, currentTail));
  }

  /** Consumer steps that change only its local position. */
  lemma LocalConsumerStep(q: Queue, c: Consumer)
    requires Ordered(q) && !MidPop(q.consumer) && !MidPop(c)
    requires ConsumerOk(q.(consumer := c))
    ensures MemoryOk(q.(consumer := c))
  {
    var r := q.(consumer := c);
    forall position | Base(r) + r.capacity <= position < r.tail ensures OwnedAt(r, position) {
      assert OwnedAt(q, position);
    }
    forall position | InWindow(r, position) ensures SlotOk(r, position) {
      assert SlotOk(q, position);
    }
    forall id | id in r.producers ensures ProducerOk(r, id) {
      assert ProducerOk(q, id);
    }
  }

  /** The task taken is the one reserved at head: nobody owns or overwrote its slot. */
  lemma MoveOutStep(q: Queue)
    requires Ordered(q) && q.consumer.MoveOut?
    ensures MemoryOk(ConsumerStep(q))
    ensures ConsumerStep(q).popped == q.popped + [Some(q.reserved[q.head])]
  {
    var r := ConsumerStep(q);
    assert SlotOk(q, q.head);
    forall position | Base(r) + r.capacity <= position < r.tail ensures OwnedAt(r, position) {
      assert OwnedAt(q, position);
    }
    forall position | InWindow(r, position) ensures SlotOk(r, position) {
      assert SlotOk(q, position);
    }
    forall id | id in r.producers ensures ProducerOk(r, id) {
      assert ProducerOk(q, id);
    }
  }

  lemma ClearSlotStep(q: Queue)
    requires Ordered(q) && q.consumer.ClearSlot?
    ensures MemoryOk(ConsumerStep(q))
  {
    var r := ConsumerStep(q);
    OtherSlots(q, q.head);
    forall position | Base(r) + r.capacity <= position < r.tail ensures OwnedAt(r, position) {
      assert OwnedAt(q, position);
    }
    forall position | InWindow(r, position) ensures SlotOk(r, position) {
      assert SlotOk(q, position);
    }
    forall id | id in r.producers ensures ProducerOk(r, id) {
      assert ProducerOk(q, id);
    }
  }

  lemma ReleaseSlotSlots(q: Queue)
    requires Ordered(q) && q.consumer.ReleaseSlot?
    ensures var r := ConsumerStep(q); CountersOk(r) && PoppedOk(r) && SlotsOk(r) && BeyondOk(r)
  {
    hide ProducersOk, Bounded;
    var r := ConsumerStep(q);
    OtherSlots(q, q.head);
    var next := q.head + q.capacity;
    assert Slot(q, next) == Slot(q, q.head);
    assert next < q.tail ==> OwnedAt(q, next);
    forall position | InWindow(r, position) ensures SlotOk(r, position) {
      if position != next { assert SlotOk(q, position); }
    }
    forall position | Base(r) + r.capacity <= position < r.tail ensures OwnedAt(r, position) {
      assert OwnedAt(q, position);
    }
  }

  lemma ReleaseSlotProducers(q: Queue)
    requires Ordered(q) && q.consumer.ReleaseSlot? && CountersOk(ConsumerStep(q))
    ensures ProducersOk(ConsumerStep(q))
  {
    hide SlotsOk, BeyondOk, Bounded, PoppedOk;
    OtherSlots(q, q.head);
    assert Slot(q, q.head + q.capacity) == Slot(q, q.head);
    var r := ConsumerStep(q);
    forall id | id in r.producers ensures ProducerOk(r, id) {
      assert ProducerOk(q, id);
    }
  }

  /** Releasing the slot of head opens the window at head + capacity; if that position is reserved
      already, its producer has been waiting for this. */
  lemma ReleaseSlotStep(q: Queue)
    requires Ordered(q) && q.consumer.ReleaseSlot?
    ensures MemoryOk(ConsumerStep(q))
  {
    ReleaseSlotSlots(q);
    ReleaseSlotProducers(q);
    hide SlotsOk, BeyondOk, ProducersOk, Bounded, PoppedOk;
  }

  lemma StoreHeadStep(q: Queue)
    requires Ordered(q) && q.consumer.StoreHead?
    ensures MemoryOk(ConsumerStep(q))
  {
    var r := ConsumerStep(q);
    forall position | Base(r) + r.capacity <= position < r.tail ensures OwnedAt(r, position) {
      assert OwnedAt(q, position);
    }
    forall position | InWindow(r, position) ensures SlotOk(r, position) {
      assert SlotOk(q, position);
    }
    forall id | id in r.producers ensures ProducerOk(r, id) {
      assert ProducerOk(q, id);
    }
  }

  lemma ConsumerStepKeepsMemory(q: Queue)
    requires Ordered(q) && InsidePop(q.consumer)
    ensures MemoryOk(ConsumerStep(q))
  {
    match q.consumer
    case MoveOut(_) => MoveOutStep(q);
    case ClearSlot(_, _) => ClearSlotStep(q);
    case ReleaseSlot(_, _) => ReleaseSlotStep(q);
    case StoreHead(_, _) => StoreHeadStep(q);
    case TryLoadSequence(h) =>
      assert SlotOk(q, h);
      LocalConsumerStep(q, if q.sequences[Slot(q, h)] != h + 1 then CheckStopped else MoveOut(h));
    case TryLoadHead => LocalConsumerStep(q, TryLoadSequence(q.head));
    case CheckStopped => LocalConsumerStep(q, if q.stopped then EmptyLoadHead else Parked);
    case EmptyLoadHead => LocalConsumerStep(q, EmptyLoadTail(q.head));
    case EmptyLoadTail(h) => LocalConsumerStep(q, if h == q.tail then ReturnedFalse(q.tail) else Parked);
    case Parked => LocalConsumerStep(q, TryLoadHead);
  }

  lemma StopKeepsMemory(q: Queue)
    requires Ordered(q)
    ensures MemoryOk(q.(stopped := true))
  {
    var r := q.(stopped := true);
    forall position | Base(r) + r.capacity <= position < r.tail ensures OwnedAt(r, position) {
      assert OwnedAt(q, position);
    }
    forall position | InWindow(r, position) ensures SlotOk(r, position) {
      assert SlotOk(q, position);
    }
    forall id | id in r.producers ensures ProducerOk(r, id) {
      assert ProducerOk(q, id);
    }
  }

  lemma NextKeepsMemory(q: Queue, e: Event)
    requires Ordered(q)
    ensures MemoryOk(Next(q, e))
  {
    match e
    case CallPush(id, task) =>
      if !(id in q.producers && InsidePush(q.producers[id])) {
        LocalProducerStep(q, id, if task.None? then Rejected else LoadStopped(task.value));
      }
    case StepPush(id, exchangeFails) =>
      if id in q.producers && InsidePush(q.producers[id]) {
        ProducerStepKeepsMemory(q, id, exchangeFails);
      }
    case CallPop =>
      if !InsidePop(q.consumer) { LocalConsumerStep(q, TryLoadHead); }
    case StepPop =>
      if InsidePop(q.consumer) { ConsumerStepKeepsMemory(q); }
    case RequestStop => StopKeepsMemory(q);
  }

  lemma NextKeepsBounded(q: Queue, e: Event)
    requires MemoryOk(q) && Bounded(q)
    ensures Bounded(Next(q, e))
  {
    assert q.consumer.StoreHead? ==> q.consumer.currentHead == q.head;
    assert Shaped(q);
    hide MemoryOk;
    var r := Next(q, e);
    assert q.head <= r.head && q.capacity == r.capacity;
    forall id | id in r.producers && r.producers[id].CompareExchange?
      ensures r.producers[id].currentTail < r.head + r.capacity
    {
      if id in q.producers && q.producers[id].CompareExchange? {
        assert q.producers[id].currentTail < q.head + q.capacity;
      }
    }
  }

  /** Every step keeps the tasks in order, and keeps the bound where it holds. */
  lemma NextKeepsOrdered(q: Queue, e: Event)
    requires Ordered(q)
    ensures Ordered(Next(q, e)) && (Bounded(q) ==> Bounded(Next(q, e)))
  {
    assert Shaped(q);
    NextKeepsMemory(q, e);
    NextKeepsCapacity(q, e);
    hide MemoryOk, Bounded, Next;
    if Bounded(q) { NextKeepsBounded(q, e); }
  }

  lemma NextKeepsCapacity(q: Queue, e: Event)
    requires Shaped(q)
    ensures Next(q, e).capacity == q.capacity
  {
  }

  lemma OrderedIsShaped(q: Queue)
    requires Ordered(q)
    ensures Shaped(q)
  {
  }

  lemma NextKeepsInv(q: Queue, e: Event)
    requires Inv(q)
    ensures Inv(Next(q, e))
  {
    hide Ordered, Bounded;
    NextKeepsOrdered(q, e);
  }

  lemma {:induction false} RunKeepsOrdered(q: Queue, events: seq<Event>)
    requires Ordered(q)
    ensures Ordered(Run(q, events))
    decreases |events|
  {
    hide Ordered, Bounded, Next;
    OrderedIsShaped(q);
    if events != [] {
      NextKeepsOrdered(q, events[0]);
      RunKeepsOrdered(Next(q, events[0]), events[1..]);
    }
  }

  lemma {:induction false} RunKeepsInv(q: Queue, events: seq<Event>)
    requires Inv(q)
    ensures Inv(Run(q, events))
    decreases |events|
  {
    hide Ordered, Bounded, Next;
    OrderedIsShaped(q);
    if events != [] {
      NextKeepsInv(q, events[0]);
      RunKeepsInv(Next(q, events[0]), events[1..]);
    }
  }
}
