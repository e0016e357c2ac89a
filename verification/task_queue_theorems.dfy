/** What the ring promises over every interleaving of its threads. */
module TaskQueueTheorems {
  import opened Wrappers
  import opened TaskQueue
  import opened TaskQueueProofs

  /* ------------------------- refinement of a bounded FIFO ------------------------- */

  /** The abstract queue: the reserved tasks that the consumer has not taken yet. */
  function Contents(q: Queue): seq<Task>
    requires |q.popped| <= |q.reserved|
  {
    q.reserved[|q.popped|..]
  }

  /** One move of a first-in first-out queue that holds at most capacity tasks;
      given lists what the move hands to the consumer. */
  predicate FifoMove(before: seq<Task>, after: seq<Task>, capacity: nat, given: seq<Option<Task>>) {
    || (given == [] && after == before)
    || (given == [] && |before| < capacity && |after| == |before| + 1 && after[..|before|] == before)
    || (|before| > 0 && given == [Some(before[0])] && after == before[1..])
  }

  /** Producers only ever append to the reserved tasks, and only below a full window. */
  lemma ProducerStepIsFifoMove(q: Queue, id: nat, exchangeFails: bool)
    requires Inv(q) && id in q.producers && InsidePush(q.producers[id])
    ensures var r := ProducerStep(q, id, exchangeFails);
            && r.popped == q.popped && r.consumer == q.consumer && r.head == q.head
            && (r.reserved == q.reserved ||
                (q.tail < q.head + q.capacity && r.reserved == q.reserved + [q.producers[id].task]))
  {
    assert ProducerOk(q, id);
  }

  lemma ConsumerStepIsFifoMove(q: Queue)
    requires Inv(q) && InsidePop(q.consumer)
    ensures ConsumerStep(q).reserved == q.reserved
    ensures if q.consumer.MoveOut? then ConsumerStep(q).popped == q.popped + [Some(q.reserved[q.head])]
            else ConsumerStep(q).popped == q.popped
  {
    if q.consumer.MoveOut? {
      MoveOutStep(q);
    }
  }

  /** Each atomic step of any thread is a move of the bounded FIFO: nothing is lost,
      duplicated, reordered or overwritten, and a task is never added to a full queue. */
  lemma StepRefinesFifo(q: Queue, e: Event) returns (given: seq<Option<Task>>)
    requires Inv(q)
    ensures Inv(Next(q, e))
    ensures Next(q, e).popped == q.popped + given
    ensures FifoMove(Contents(q), Contents(Next(q, e)), q.capacity, given)
    ensures |Contents(Next(q, e))| <= q.capacity
  {
    NextKeepsInv(q, e);
    hide SlotsOk, ProducersOk, ConsumerOk;
    var r := Next(q, e);
    given := [];
    if e.StepPush? && e.id in q.producers && InsidePush(q.producers[e.id]) {
      ProducerStepIsFifoMove(q, e.id, e.exchangeFails);
    } else if e.StepPop? && InsidePop(q.consumer) {
      ConsumerStepIsFifoMove(q);
      if q.consumer.MoveOut? {
        given := [Some(q.reserved[q.head])];
      }
    } else {
      assert r.popped == q.popped && r.reserved == q.reserved;
    }
  }

  /** The ring after some interleaving of its threads. */
  function After(capacity: nat, events: seq<Event>): Queue
    requires capacity >= 1
  {
    Run(Init(capacity), events)
  }

  lemma AfterInv(capacity: nat, events: seq<Event>)
    requires capacity >= 1
    ensures Inv(After(capacity, events))
  {
    InitInv(capacity);
    RunKeepsInv(Init(capacity), events);
  }

  /** Whatever the interleaving, the consumer has received exactly the first reserved tasks,
      in compare-exchange order, and the counters stay within one capacity of each other. */
  lemma PoppedIsPrefixOfReserved(capacity: nat, events: seq<Event>)
    requires capacity >= 1
    ensures var q := After(capacity, events);
            && |q.popped| <= |q.reserved|
            && (forall k :: 0 <= k < |q.popped| ==> q.popped[k] == Some(q.reserved[k]))
            && |q.reserved| == q.tail
            && q.head <= q.tail <= q.head + q.capacity
  {
    AfterInv(capacity, events);
  }

  /* ------------------------- the reservation protocol ------------------------- */

  /** The assertion after a successful compare-exchange holds: the claimed slot is already free
      for the claimed position, so the defensive wait loop never waits. */
  lemma ClaimedSlotIsReady(capacity: nat, events: seq<Event>, id: nat)
    requires capacity >= 1
    requires var q := After(capacity, events); id in q.producers && q.producers[id].LoadSequence?
    ensures var q := After(capacity, events);
            var p := q.producers[id];
            && q.sequences[Slot(q, p.position)] == p.position
            && ProducerStep(q, id, false).producers[id] == WriteSlot(p.task, p.position)
  {
    AfterInv(capacity, events);
    assert ProducerOk(After(capacity, events), id);
  }

  /** No two producers own one slot at the same time. */
  lemma SlotsHaveOneOwner(capacity: nat, events: seq<Event>, i: nat, j: nat, a: nat, b: nat)
    requires capacity >= 1
    requires var q := After(capacity, events);
             && i in q.producers && j in q.producers && i != j
             && Owns(q.producers[i], a) && Owns(q.producers[j], b)
    ensures var q := After(capacity, events);
            Slot(q, a) != Slot(q, b)
  {
    var q := After(capacity, events);
    AfterInv(capacity, events);
    assert ProducerOk(q, i) && ProducerOk(q, j);
    assert q.owners[a] == i && q.owners[b] == j;
    OtherSlots(q, a);
  }

  /** No producer owns the slot that the consumer is emptying. */
  lemma ConsumerSlotHasNoProducer(capacity: nat, events: seq<Event>, i: nat, a: nat)
    requires capacity >= 1
    requires var q := After(capacity, events);
             && i in q.producers && Owns(q.producers[i], a)
             && (q.consumer.MoveOut? || MidPop(q.consumer))
    ensures var q := After(capacity, events);
            Slot(q, a) != Slot(q, q.consumer.currentHead)
  {
    var q := After(capacity, events);
    AfterInv(capacity, events);
    assert ProducerOk(q, i);
    assert q.consumer.currentHead == q.head;
    if InWindow(q, q.head) { assert SlotOk(q, q.head); }
    if Slot(q, a) == Slot(q, q.head) { SameSlotSamePosition(q.capacity, a, q.head); }
  }

  /** A compare-exchange that succeeds proves that the capacity check, made earlier against
      counters read at two different instants, still holds now. */
  lemma ExchangeNeverOverfills(capacity: nat, events: seq<Event>, id: nat)
    requires capacity >= 1
    requires var q := After(capacity, events);
             id in q.producers && q.producers[id].CompareExchange?
    ensures var q := After(capacity, events);
            var r := ProducerStep(q, id, false);
            r.tail != q.tail ==> q.tail - q.head < q.capacity && r.tail == q.tail + 1
  {
    var q := After(capacity, events);
    AfterInv(capacity, events);
    assert ProducerOk(q, id);
  }

  /** Every tail that a producer has loaded lies behind the tail. */
  predicate TailsBehind(q: Queue) {
    forall id :: id in q.producers && (q.producers[id].LoadHead? || q.producers[id].CompareExchange?) ==>
      q.producers[id].currentTail <= q.tail
  }

  lemma NextKeepsTails(q: Queue, e: Event)
    requires Shaped(q) && TailsBehind(q)
    ensures TailsBehind(Next(q, e))
  {
    forall id | id in Next(q, e).producers
      ensures var p := Next(q, e).producers[id];
              p.LoadHead? || p.CompareExchange? ==> p.currentTail <= Next(q, e).tail
    {
      assert q.tail <= Next(q, e).tail;
    }
  }

  lemma {:induction false} RunKeepsTails(q: Queue, events: seq<Event>)
    requires Shaped(q) && TailsBehind(q)
    ensures TailsBehind(Run(q, events))
    decreases |events|
  {
    hide TailsBehind, Next;
    if events != [] {
      NextKeepsTails(q, events[0]);
      RunKeepsTails(Next(q, events[0]), events[1..]);
    }
  }

  /** What the capacity check decides, for counters below 2^64 - capacity: it rejects when the
      queue is full at that instant, and also whenever head has passed the stale tail. */
  lemma CapacityCheckRejectsExactly(capacity: nat, events: seq<Event>, id: nat)
    requires capacity >= 1
    requires var q := After(capacity, events);
             && id in q.producers && q.producers[id].LoadHead?
             && q.head + q.capacity <= TWO_TO_THE_64
    ensures var q := After(capacity, events);
            ProducerStep(q, id, false).producers[id] == Rejected
            <==> q.producers[id].currentTail < q.head || q.producers[id].currentTail == q.head + q.capacity
    ensures var q := After(capacity, events);
            q.producers[id].currentTail == q.head + q.capacity ==> q.tail == q.head + q.capacity
  {
    var q := After(capacity, events);
    AfterInv(capacity, events);
    RunKeepsTails(Init(capacity), events);
    assert q.producers[id].currentTail <= q.tail;
  }

  /* ------------------------- stopping ------------------------- */

  /** When wait_pop returns false, every position reserved before its final load of tail has been
      handed out, in order; later reservations have not. */
  lemma FalseMeansDrained(capacity: nat, events: seq<Event>)
    requires capacity >= 1
    requires After(capacity, events).consumer.ReturnedFalse?
    ensures var q := After(capacity, events);
            var drained := q.consumer.drained;
            && q.stopped
            && drained <= |q.reserved|
            && |q.popped| == drained
            && (forall k :: 0 <= k < drained ==> q.popped[k] == Some(q.reserved[k]))
  {
    AfterInv(capacity, events);
  }

  /** The final check returns false exactly when every reservation made so far was handed out. */
  lemma FinalCheckDecides(capacity: nat, events: seq<Event>)
    requires capacity >= 1
    requires After(capacity, events).consumer.EmptyLoadTail?
    ensures var q := After(capacity, events);
            ConsumerStep(q).consumer == ReturnedFalse(|q.reserved|) <==> |q.popped| == |q.reserved|
    ensures var q := After(capacity, events);
            ConsumerStep(q).consumer == Parked <==> |q.popped| < |q.reserved|
  {
    var q := After(capacity, events);
    AfterInv(capacity, events);
  }

  /** A reserved slot that is not yet published always keeps wait_pop from returning false. */
  lemma UnpublishedPreventsFalse(capacity: nat, events: seq<Event>, id: nat, position: nat)
    requires capacity >= 1
    requires var q := After(capacity, events);
             && q.consumer.EmptyLoadTail?
             && id in q.producers && Owns(q.producers[id], position)
    ensures var q := After(capacity, events);
            ConsumerStep(q).consumer == Parked
  {
    var q := After(capacity, events);
    AfterInv(capacity, events);
    assert ProducerOk(q, id);
  }

  /* ------------------------- acknowledged pushes ------------------------- */

  /** Each reserved position either still belongs to the producer that reserved it
      or has been acknowledged by a push that returned true, never both. */
  predicate Accounted(q: Queue)
    requires |q.owners| == q.tail
  {
    && (forall position :: 0 <= position < q.tail ==> (position in q.acknowledged <==> !OwnedAt(q, position)))
    && (forall position :: position in q.acknowledged ==> position < q.tail)
  }

  lemma PublishAccounts(q: Queue, id: nat)
    requires Ordered(q) && Accounted(q)
    requires id in q.producers && q.producers[id].Publish?
    ensures Accounted(ProducerStep(q, id, false))
    ensures q.producers[id].position !in q.acknowledged
  {
    var r := ProducerStep(q, id, false);
    var p := q.producers[id];
    assert ProducerOk(q, id);
    assert OwnedAt(q, p.position);
    hide MemoryOk, Bounded;
    forall position | 0 <= position < r.tail
      ensures position in r.acknowledged <==> !OwnedAt(r, position)
    {
      assert position in q.acknowledged <==> !OwnedAt(q, position);
    }
  }

  lemma ProducerStepKeepsAccounts(q: Queue, id: nat, exchangeFails: bool)
    requires Ordered(q) && Accounted(q)
    requires id in q.producers && InsidePush(q.producers[id])
    ensures |ProducerStep(q, id, exchangeFails).owners| == ProducerStep(q, id, exchangeFails).tail
    ensures Accounted(ProducerStep(q, id, exchangeFails))
  {
    if q.producers[id].Publish? {
      PublishAccounts(q, id);
    } else {
      var r := ProducerStep(q, id, exchangeFails);
      assert |q.owners| == q.tail;
      hide MemoryOk, Bounded, Ordered;
      assert r.acknowledged == q.acknowledged;
      forall position | 0 <= position < r.tail
        ensures position in r.acknowledged <==> !OwnedAt(r, position)
      {
        if position < q.tail {
          assert position in q.acknowledged <==> !OwnedAt(q, position);
        }
      }
    }
  }

  lemma NextKeepsAccounts(q: Queue, e: Event)
    requires Ordered(q) && Accounted(q)
    ensures Ordered(Next(q, e)) && Accounted(Next(q, e))
  {
    NextKeepsOrdered(q, e);
    var r := Next(q, e);
    if e.StepPush? && e.id in q.producers && InsidePush(q.producers[e.id]) {
      ProducerStepKeepsAccounts(q, e.id, e.exchangeFails);
    } else {
      assert r.tail == q.tail && r.owners == q.owners && r.acknowledged == q.acknowledged;
      hide MemoryOk, Bounded;
      forall position | 0 <= position < r.tail
        ensures position in r.acknowledged <==> !OwnedAt(r, position)
      {
        assert position in q.acknowledged <==> !OwnedAt(q, position);
      }
    }
  }

  /** Over every interleaving: a push that returned true accounts for exactly one position, a
      rejected push for none, and the remaining positions are those of producers that have
      reserved and not yet returned. */
  lemma {:induction false} RunKeepsAccounts(q: Queue, events: seq<Event>)
    requires Ordered(q) && Accounted(q)
    ensures Ordered(Run(q, events)) && Accounted(Run(q, events))
    decreases |events|
  {
    if events != [] {
      NextKeepsAccounts(q, events[0]);
      RunKeepsAccounts(Next(q, events[0]), events[1..]);
    }
  }

  /** No task is lost: once every producer has returned and the consumer has taken everything that
      was reserved, it has received the tasks of exactly the acknowledged positions, in order. */
  lemma QuiescentQueueDeliveredEverything(capacity: nat, events: seq<Event>)
    requires capacity >= 1
    requires var q := Run(Init(capacity), events);
             && (forall id :: id in q.producers ==> !InsidePush(q.producers[id]))
             && |q.popped| == |q.reserved|
    ensures var q := Run(Init(capacity), events);
            && (forall k :: 0 <= k < |q.popped| ==> q.popped[k] == Some(q.reserved[k]))
            && (forall k: nat :: k in q.acknowledged <==> k < |q.popped|)
  {
    var q := Run(Init(capacity), events);
    InitInv(capacity);
    RunKeepsAccounts(Init(capacity), events);
    forall k: nat | k < |q.popped| ensures k in q.acknowledged {
      assert !OwnedAt(q, k);
    }
  }

  /** While wait_pop has returned false, an accepted task has been handed out exactly when its
      position was reserved before the final load of tail. */
  lemma AcceptedIsPoppedExactlyWhen(capacity: nat, events: seq<Event>, id: nat)
    requires capacity >= 1
    requires var q := After(capacity, events);
             && q.consumer.ReturnedFalse?
             && id in q.producers && q.producers[id].Accepted?
    ensures var q := After(capacity, events);
            var p := q.producers[id];
            && (p.position < |q.popped| <==> p.position < q.consumer.drained)
            && (p.position < q.consumer.drained ==> q.popped[p.position] == Some(p.task))
  {
    var q := After(capacity, events);
    AfterInv(capacity, events);
    assert ProducerOk(q, id);
  }

  /* ------------------------- uninterrupted calls ------------------------- */

  /** push is called with tasks of the set only. */
  predicate OnlyPushes(events: seq<Event>, pushed: set<Task>) {
    forall k :: 0 <= k < |events| && events[k].CallPush? ==> events[k].task.Some? && events[k].task.value in pushed
  }

  /** Some sequence of events that pushes tasks of the set only leads from the one queue to the other. */
  ghost predicate Reaches(from: Queue, q: Queue, pushed: set<Task>)
    requires Shaped(from)
  {
    exists events :: OnlyPushes(events, pushed) && Run(from, events) == q
  }

  lemma ReachesItself(q: Queue, pushed: set<Task>)
    requires Shaped(q)
    ensures Reaches(q, q, pushed)
  {
    assert Run(q, []) == q;
    assert OnlyPushes([], pushed);
  }

  lemma {:induction false} RunOneMore(q: Queue, events: seq<Event>, e: Event)
    requires Shaped(q)
    ensures Run(q, events + [e]) == Next(Run(q, events), e)
    decreases |events|
  {
    if events == [] {
      assert Run(Next(q, e), []) == Next(q, e);
    } else {
      assert (events + [e])[1..] == events[1..] + [e];
      RunOneMore(Next(q, events[0]), events[1..], e);
    }
  }

  lemma StepReaches(from: Queue, q: Queue, e: Event, r: Queue, pushed: set<Task>)
    requires Shaped(from) && Shaped(q) && Reaches(from, q, pushed) && Next(q, e) == r
    requires e.CallPush? ==> e.task.Some? && e.task.value in pushed
    ensures Reaches(from, r, pushed)
  {
    hide Next;
    var events :| OnlyPushes(events, pushed) && Run(from, events) == q;
    RunOneMore(from, events, e);
    assert OnlyPushes(events + [e], pushed);
  }

  lemma ReachesInv(from: Queue, q: Queue, pushed: set<Task>)
    requires Inv(from) && Reaches(from, q, pushed)
    ensures Inv(q)
  {
    var events :| OnlyPushes(events, pushed) && Run(from, events) == q;
    RunKeepsInv(from, events);
  }

  /** An uninterrupted producer passes its checks when the queue runs and is not full. */
  lemma SoloChecks(from: Queue, q: Queue, id: nat, task: Task, pushed: set<Task>)
    requires task in pushed
    requires Shaped(from) && Shaped(q) && Reaches(from, q, pushed)
    requires id in q.producers ==> !InsidePush(q.producers[id])
    requires !q.stopped && q.head <= q.tail < q.head + q.capacity
    ensures Reaches(from, SetProducer(q, id, CompareExchange(task, q.tail)), pushed)
  {
    hide Reaches, Run, Init;
    var r1, r2 := SetProducer(q, id, LoadStopped(task)), SetProducer(q, id, LoadTail(task));
    var r3 := SetProducer(q, id, LoadHead(task, q.tail));
    StepReaches(from, q, CallPush(id, Some(task)), r1, pushed);
    StepReaches(from, r1, StepPush(id, false), r2, pushed);
    StepReaches(from, r2, StepPush(id, false), r3, pushed);
    StepReaches(from, r3, StepPush(id, false), SetProducer(q, id, CompareExchange(task, q.tail)), pushed);
  }

  /** The queue after producer id, at its compare-exchange with the current tail, has returned. */
  function AfterPush(q: Queue, id: nat, task: Task): Queue
    requires Shaped(q)
  {
    var k := Slot(q, q.tail);
    SetProducer(q, id, Accepted(task, q.tail))
    .(tail := q.tail + 1, reserved := q.reserved + [task], owners := q.owners + [id],
      ring := q.ring[k := Some(task)], sequences := q.sequences[k := q.tail + 1],
      acknowledged := q.acknowledged + {q.tail})
  }

  lemma SoloReserve(from: Queue, q: Queue, id: nat, task: Task, pushed: set<Task>)
    requires Shaped(from) && Shaped(q) && Reaches(from, q, pushed)
    requires id in q.producers && q.producers[id] == CompareExchange(task, q.tail)
    requires q.sequences[Slot(q, q.tail)] == q.tail
    ensures Reaches(from, SetProducer(q, id, WriteSlot(task, q.tail))
                          .(tail := q.tail + 1, reserved := q.reserved + [task], owners := q.owners + [id]), pushed)
  {
    hide Reaches, Run, Init;
    var r1 := SetProducer(q, id, LoadSequence(task, q.tail))
              .(tail := q.tail + 1, reserved := q.reserved + [task], owners := q.owners + [id]);
    StepReaches(from, q, StepPush(id, false), r1, pushed);
    var r2 := SetProducer(q, id, WriteSlot(task, q.tail))
              .(tail := q.tail + 1, reserved := q.reserved + [task], owners := q.owners + [id]);
    assert r1.producers[id := WriteSlot(task, q.tail)] == r2.producers;
    StepReaches(from, r1, StepPush(id, false), r2, pushed);
  }

  lemma SoloFill(from: Queue, q: Queue, id: nat, task: Task, pushed: set<Task>)
    requires Shaped(from) && Shaped(q) && Reaches(from, q, pushed)
    requires id in q.producers && q.producers[id] == CompareExchange(task, q.tail)
    requires q.sequences[Slot(q, q.tail)] == q.tail
    ensures Reaches(from, AfterPush(q, id, task), pushed)
  {
    hide Reaches, Run, Init;
    SoloReserve(from, q, id, task, pushed);
    var r2 := SetProducer(q, id, WriteSlot(task, q.tail))
              .(tail := q.tail + 1, reserved := q.reserved + [task], owners := q.owners + [id]);
    var r3 := SetProducer(r2, id, Publish(task, q.tail)).(ring := q.ring[Slot(q, q.tail) := Some(task)]);
    StepReaches(from, r2, StepPush(id, false), r3, pushed);
    StepReaches(from, r3, StepPush(id, false), AfterPush(q, id, task), pushed);
  }

  /** An uninterrupted push is accepted when the queue runs and is not full. */
  lemma SoloPush(from: Queue, q: Queue, id: nat, task: Task, pushed: set<Task>)
    requires task in pushed
    requires Inv(from) && Reaches(from, q, pushed)
    requires id in q.producers ==> !InsidePush(q.producers[id])
    requires Inv(q) && !q.stopped && q.tail < q.head + q.capacity
    ensures Reaches(from, AfterPush(q, id, task), pushed)
    ensures Inv(AfterPush(q, id, task))
  {
    var r := SetProducer(q, id, CompareExchange(task, q.tail));
    SoloChecks(from, q, id, task, pushed);
    assert SlotOk(q, q.tail);
    SoloFill(from, r, id, task, pushed);
    assert AfterPush(r, id, task) == AfterPush(q, id, task);
    ReachesInv(from, AfterPush(q, id, task), pushed);
  }

  /** The queue after an uninterrupted wait_pop has taken the task at head. */
  function AfterPop(q: Queue): Queue
    requires Shaped(q)
  {
    var k := Slot(q, q.head);
    q.(head := q.head + 1, consumer := ReturnedTask(q.ring[k]), popped := q.popped + [q.ring[k]],
       ring := q.ring[k := None], sequences := q.sequences[k := q.head + q.capacity])
  }

  lemma SoloTake(from: Queue, q: Queue, pushed: set<Task>)
    requires Shaped(from) && Shaped(q) && Reaches(from, q, pushed) && !InsidePop(q.consumer)
    requires q.sequences[Slot(q, q.head)] == q.head + 1
    ensures var moved := q.ring[Slot(q, q.head)];
            Reaches(from, q.(consumer := ClearSlot(q.head, moved), popped := q.popped + [moved]), pushed)
  {
    hide Reaches, Run, Init;
    var h, moved := q.head, q.ring[Slot(q, q.head)];
    var r1, r2, r3 := q.(consumer := TryLoadHead), q.(consumer := TryLoadSequence(h)), q.(consumer := MoveOut(h));
    StepReaches(from, q, CallPop, r1, pushed);
    StepReaches(from, r1, StepPop, r2, pushed);
    StepReaches(from, r2, StepPop, r3, pushed);
    StepReaches(from, r3, StepPop, q.(consumer := ClearSlot(h, moved), popped := q.popped + [moved]), pushed);
  }

  lemma SoloRelease(from: Queue, q: Queue, pushed: set<Task>)
    requires Shaped(from) && Shaped(q) && Reaches(from, q, pushed)
    requires q.consumer.ClearSlot?
    ensures var k := Slot(q, q.consumer.currentHead);
            Reaches(from, q.(head := q.consumer.currentHead + 1, consumer := ReturnedTask(q.consumer.moved),
                             ring := q.ring[k := None],
                             sequences := q.sequences[k := q.consumer.currentHead + q.capacity]), pushed)
  {
    hide Reaches, Run, Init;
    var h, moved := q.consumer.currentHead, q.consumer.moved;
    var k := Slot(q, h);
    var r1 := q.(consumer := ReleaseSlot(h, moved), ring := q.ring[k := None]);
    StepReaches(from, q, StepPop, r1, pushed);
    var r2 := r1.(consumer := StoreHead(h, moved), sequences := q.sequences[k := h + q.capacity]);
    StepReaches(from, r1, StepPop, r2, pushed);
    StepReaches(from, r2, StepPop, r2.(head := h + 1, consumer := ReturnedTask(moved)), pushed);
  }

  /** An uninterrupted wait_pop takes the task at head when it has been published. */
  lemma SoloPop(from: Queue, q: Queue, pushed: set<Task>)
    requires Shaped(from) && Shaped(q) && Reaches(from, q, pushed) && !InsidePop(q.consumer)
    requires q.sequences[Slot(q, q.head)] == q.head + 1
    ensures Reaches(from, AfterPop(q), pushed)
  {
    hide Reaches, Run, Init;
    var moved := q.ring[Slot(q, q.head)];
    SoloTake(from, q, pushed);
    SoloRelease(from, q.(consumer := ClearSlot(q.head, moved), popped := q.popped + [moved]), pushed);
  }

  /** An uninterrupted wait_pop on a stopped and empty queue returns false. */
  lemma SoloDrain(from: Queue, q: Queue, pushed: set<Task>)
    requires Shaped(from) && Shaped(q) && Reaches(from, q, pushed) && !InsidePop(q.consumer)
    requires q.sequences[Slot(q, q.head)] != q.head + 1 && q.stopped && q.head == q.tail
    ensures Reaches(from, q.(consumer := ReturnedFalse(q.tail)), pushed)
  {
    hide Reaches, Run, Init;
    var r1, r2 := q.(consumer := TryLoadHead), q.(consumer := TryLoadSequence(q.head));
    var r3, r4 := q.(consumer := CheckStopped), q.(consumer := EmptyLoadHead);
    var r5 := q.(consumer := EmptyLoadTail(q.head));
    StepReaches(from, q, CallPop, r1, pushed);
    StepReaches(from, r1, StepPop, r2, pushed);
    StepReaches(from, r2, StepPop, r3, pushed);
    StepReaches(from, r3, StepPop, r4, pushed);
    StepReaches(from, r4, StepPop, r5, pushed);
    StepReaches(from, r5, StepPop, q.(consumer := ReturnedFalse(q.tail)), pushed);
  }

  /* ------------------------- two runs that show the limits ------------------------- */

  /** push may reject although the queue is empty: between its load of tail and its load of head
      another task was pushed and popped, and the unsigned difference wraps. */
  lemma RejectionMayBeSpurious(a: Task, b: Task) returns (q: Queue)
    ensures Shaped(q) && Reaches(Init(1), q, {a, b})
    ensures q.head == q.tail && |q.reserved| == |q.popped| == 1 && !q.stopped
    ensures 0 in q.producers && q.producers[0] == LoadHead(a, 0)
    ensures ProducerStep(q, 0, false).producers[0] == Rejected
  {
    var q0 := Init(1);
    ReachesItself(q0, {a, b});
    InitInv(1);
    hide Reaches, Run, Inv;
    var q1, q2 := SetProducer(q0, 0, LoadStopped(a)), SetProducer(q0, 0, LoadTail(a));
    var q3 := SetProducer(q0, 0, LoadHead(a, 0));
    StepReaches(q0, q0, CallPush(0, Some(a)), q1, {a, b});
    StepReaches(q0, q1, StepPush(0, false), q2, {a, b});
    StepReaches(q0, q2, StepPush(0, false), q3, {a, b});
    ReachesInv(q0, q3, {a, b});
    SoloPush(q0, q3, 1, b, {a, b});
    var q4 := AfterPush(q3, 1, b);
    SoloPop(q0, q4, {a, b});
    q := AfterPop(q4);
  }

  /** A producer that saw the queue running may reserve after the consumer has returned false:
      its push returns true and its task stays in the ring. */
  lemma PushMaySucceedAfterDrain(a: Task) returns (q: Queue)
    ensures Shaped(q) && Reaches(Init(1), q, {a})
    ensures q.stopped && q.consumer == ReturnedFalse(0) && q.popped == []
    ensures 0 in q.producers && q.producers[0] == Accepted(a, 0) && q.reserved == [a]
  {
    var q0 := Init(1);
    ReachesItself(q0, {a});
    hide Reaches, Run;
    SoloChecks(q0, q0, 0, a, {a});
    var q1 := SetProducer(q0, 0, CompareExchange(a, 0));
    var q2 := q1.(stopped := true);
    StepReaches(q0, q1, RequestStop, q2, {a});
    SoloDrain(q0, q2, {a});
    var q3 := q2.(consumer := ReturnedFalse(0));
    SoloFill(q0, q3, 0, a, {a});
    q := AfterPush(q3, 0, a);
  }

  /* ------------------------- pushes after stop ------------------------- */

  /** Producer id has not passed the stopped check of its push. */
  predicate BeforeStoppedCheck(q: Queue, id: nat) {
    id in q.producers && (q.producers[id].LoadStopped? || q.producers[id].Rejected?)
  }

  lemma StoppedStepRejects(q: Queue, id: nat, e: Event)
    requires Shaped(q) && q.stopped && BeforeStoppedCheck(q, id) && !(e.CallPush? && e.id == id)
    ensures Next(q, e).stopped && BeforeStoppedCheck(Next(q, e), id)
  {
  }

  lemma {:induction false} StoppedRunRejects(q: Queue, id: nat, events: seq<Event>)
    requires Shaped(q) && q.stopped && BeforeStoppedCheck(q, id)
    requires forall k :: 0 <= k < |events| && events[k].CallPush? ==> events[k].id != id
    ensures Run(q, events).stopped && BeforeStoppedCheck(Run(q, events), id)
    decreases |events|
  {
    hide BeforeStoppedCheck, Next;
    if events != [] {
      StoppedStepRejects(q, id, events[0]);
      StoppedRunRejects(Next(q, events[0]), id, events[1..]);
    }
  }

  /** A push called once the ring is stopped is never accepted, whatever the other threads do: until it
      returns it waits at its stopped check, and it returns false. So only pushes that were past that
      check when stop was called can still be accepted. */
  lemma PushAfterStopIsRejected(capacity: nat, before: seq<Event>, id: nat, task: Option<Task>, events: seq<Event>)
    requires capacity >= 1 && After(capacity, before).stopped
    requires var q := After(capacity, before); id in q.producers ==> !InsidePush(q.producers[id])
    requires forall k :: 0 <= k < |events| && events[k].CallPush? ==> events[k].id != id
    ensures var q := Run(Next(After(capacity, before), CallPush(id, task)), events);
            && BeforeStoppedCheck(q, id)
            && (q.producers[id].LoadStopped? ==> ProducerStep(q, id, false).producers[id] == Rejected)
  {
    var q := After(capacity, before);
    AfterInv(capacity, before);
    assert Shaped(q);
    hide Inv, After, Run;
    StoppedRunRejects(Next(q, CallPush(id, task)), id, events);
  }
}
