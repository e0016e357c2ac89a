/** How the calls on the ring end: from any point of any interleaving, when one thread goes on alone. */
module TaskQueueProgress {
  import opened Wrappers
  import opened TaskQueue
  import opened TaskQueueProofs
  import opened TaskQueueTheorems

  /* ------------------------- why a push is rejected ------------------------- */

  /** A push comes to its false return in three ways only: it was given no task, it finds the ring
      stopped, or its capacity check sees that head has passed the loaded tail or that the ring is full. */
  lemma RejectedOnlyWhen(capacity: nat, events: seq<Event>, id: nat, e: Event)
    requires capacity >= 1
    requires var q := After(capacity, events);
             && q.head + q.capacity <= TWO_TO_THE_64
             && !(id in q.producers && q.producers[id].Rejected?)
             && id in Next(q, e).producers && Next(q, e).producers[id].Rejected?
    ensures var q := After(capacity, events);
            || e == CallPush(id, None)
            || (&& e.StepPush? && e.id == id && id in q.producers
                && ((q.producers[id].LoadStopped? && q.stopped)
                    || (q.producers[id].LoadHead?
                        && (q.producers[id].currentTail < q.head || q.tail == q.head + q.capacity))))
  {
    var q := After(capacity, events);
    hide After, Run;
    if id in q.producers && q.producers[id].LoadHead? {
      CapacityCheckRejectsExactly(capacity, events, id);
    }
    RejectedByOwnStep(q, id, e);
  }

  lemma RejectedByOwnStep(q: Queue, id: nat, e: Event)
    requires Shaped(q) && !(id in q.producers && q.producers[id].Rejected?)
    requires id in Next(q, e).producers && Next(q, e).producers[id].Rejected?
    ensures || e == CallPush(id, None)
            || (&& e.StepPush? && e.id == id && id in q.producers && InsidePush(q.producers[id])
                && ProducerStep(q, id, false).producers[id].Rejected?
                && ((q.producers[id].LoadStopped? && q.stopped) || q.producers[id].LoadHead?))
  {
    hide Slot;
  }

  /** A failed exchange, also one that has lost to another producer, goes round the loop. */
  lemma FailedExchangeRetries(q: Queue, id: nat, exchangeFails: bool)
    requires Shaped(q) && id in q.producers && q.producers[id].CompareExchange?
    ensures var p := q.producers[id];
            if !exchangeFails && q.tail == p.currentTail then
              var r := Next(q, StepPush(id, exchangeFails));
              r.producers[id] == LoadSequence(p.task, p.currentTail) && r.reserved == q.reserved + [p.task]
            else Next(q, StepPush(id, exchangeFails)) == q.(producers := q.producers[id := LoadStopped(p.task)])
  {
  }

  /** Until its next call, producer id has the task it was called with, or has returned false. */
  predicate Carries(q: Queue, id: nat, task: Task) {
    id in q.producers && (q.producers[id].Rejected? || q.producers[id].task == task)
  }

  lemma {:induction false} RunCarries(q: Queue, id: nat, task: Task, events: seq<Event>)
    requires Shaped(q) && Carries(q, id, task)
    requires forall k :: 0 <= k < |events| && events[k].CallPush? ==> events[k].id != id
    ensures Carries(Run(q, events), id, task)
    decreases |events|
  {
    if events != [] {
      assert Carries(Next(q, events[0]), id, task);
      hide Next, Carries;
      RunCarries(Next(q, events[0]), id, task, events[1..]);
    }
  }

  /** A push that returns true has reserved the position with the task it was called with, whatever the
      other threads did in between. */
  lemma AcceptedIsTheTaskPushed(capacity: nat, before: seq<Event>, id: nat, task: Task, events: seq<Event>)
    requires capacity >= 1
    requires var q := After(capacity, before); id in q.producers ==> !InsidePush(q.producers[id])
    requires forall k :: 0 <= k < |events| && events[k].CallPush? ==> events[k].id != id
    ensures var q := Run(Next(After(capacity, before), CallPush(id, Some(task))), events);
            && Carries(q, id, task)
            && (q.producers[id].Accepted? ==>
                  q.producers[id].position < |q.reserved| && q.reserved[q.producers[id].position] == task)
  {
    var q := After(capacity, before);
    AfterInv(capacity, before);
    var q1 := Next(q, CallPush(id, Some(task)));
    NextKeepsInv(q, CallPush(id, Some(task)));
    RunKeepsInv(q1, events);
    RunCarries(q1, id, task, events);
    hide After, Run;
    assert ProducerOk(Run(q1, events), id);
  }

  /* ------------------------- a producer goes on alone ------------------------- */

  /** n steps of producer id, with no exchange that fails for no reason. */
  function Alone(id: nat, n: nat): (events: seq<Event>)
    ensures |events| == n
  {
    if n == 0 then [] else [StepPush(id, false)] + Alone(id, n - 1)
  }

  predicate NotFull(q: Queue) {
    q.tail < q.head + q.capacity
  }

  /** How the push of producer p ends when the other threads stand still: it is accepted when the ring is
      neither stopped nor full; a check already made is not made again unless the exchange fails. */
  predicate WillAccept(q: Queue, p: Producer) {
    match p
    case LoadStopped(_) => !q.stopped && NotFull(q)
    case LoadTail(_) => NotFull(q)
    case LoadHead(_, currentTail) =>
      q.head <= currentTail && NotFull(q) && (currentTail == q.tail || !q.stopped)
    case CompareExchange(_, currentTail) => currentTail == q.tail || (!q.stopped && NotFull(q))
    case Rejected => false
    case _ => true
  }

  /** The queue in which producer id has ended its push as it must. */
  predicate Ended(q: Queue, r: Queue, id: nat)
    requires id in q.producers && InsidePush(q.producers[id])
  {
    var p := q.producers[id];
    && id in r.producers && r.popped == q.popped && r.head == q.head
    && if p.LoadSequence? || p.WriteSlot? || p.Publish? then
         r.producers[id] == Accepted(p.task, p.position) && r.reserved == q.reserved
       else if WillAccept(q, p) then
         r.producers[id] == Accepted(p.task, q.tail) && r.reserved == q.reserved + [p.task]
       else
         r.producers[id] == Rejected && r.reserved == q.reserved
  }

  lemma AloneFirst(q: Queue, id: nat, n: nat)
    requires Shaped(q) && n >= 1
    ensures Run(q, Alone(id, n)) == Run(Next(q, StepPush(id, false)), Alone(id, n - 1))
  {
    assert Alone(id, n)[1..] == Alone(id, n - 1);
  }

  lemma {:induction false} ReturnedStays(q: Queue, id: nat, n: nat)
    requires Shaped(q) && id in q.producers && !InsidePush(q.producers[id])
    ensures Run(q, Alone(id, n)) == q
    decreases n
  {
    if n > 0 {
      AloneFirst(q, id, n);
      ReturnedStays(q, id, n - 1);
    }
  }

  function OwnerSteps(p: Producer): nat {
    match p
    case LoadSequence(_, _) => 3
    case WriteSlot(_, _) => 2
    case _ => 1
  }

  /** An owner alone publishes and returns true. */
  lemma {:induction false} OwnerEnds(q: Queue, id: nat, n: nat)
    requires Inv(q) && id in q.producers && n >= OwnerSteps(q.producers[id])
    requires q.producers[id].LoadSequence? || q.producers[id].WriteSlot? || q.producers[id].Publish?
    ensures Ended(q, Run(q, Alone(id, n)), id)
    decreases n
  {
    var r := Next(q, StepPush(id, false));
    assert ProducerOk(q, id);
    NextKeepsInv(q, StepPush(id, false));
    hide MemoryOk, Bounded, Run;
    AloneFirst(q, id, n);
    if q.producers[id].Publish? {
      ReturnedStays(r, id, n - 1);
    } else {
      OwnerEnds(r, id, n - 1);
    }
  }

  /** The steps that a push needs alone from the point where producer p is. */
  function StepsLeft(q: Queue, p: Producer): nat {
    match p
    case LoadStopped(_) => 7
    case LoadTail(_) => 6
    case LoadHead(_, currentTail) => if currentTail == q.tail then 5 else 9
    case CompareExchange(_, currentTail) => if currentTail == q.tail then 4 else 8
    case _ => OwnerSteps(p)
  }

  /** A step before the claim brings the push nearer to its end and leaves its outcome as it is. */
  lemma StepBeforeClaim(q: Queue, id: nat)
    requires CountersOk(q) && q.tail <= q.head + q.capacity && q.head + q.capacity <= TWO_TO_THE_64
    requires id in q.producers && InsidePush(q.producers[id])
    requires var p := q.producers[id];
             && !p.LoadSequence? && !p.WriteSlot? && !p.Publish?
             && (p.LoadHead? || p.CompareExchange? ==> p.currentTail <= q.tail)
    ensures var r := Next(q, StepPush(id, false));
            if r.producers[id].Rejected? then Ended(q, r, id)
            else
              && InsidePush(r.producers[id]) && r.head == q.head && r.capacity == q.capacity
              && StepsLeft(r, r.producers[id]) <= StepsLeft(q, q.producers[id]) - 1
              && forall x: Queue :: Ended(r, x, id) ==> Ended(q, x, id)
  {
    hide Slot;
    var r := Next(q, StepPush(id, false));
    assert Claims(q, q.producers[id], false) || r == SetProducer(q, id, ProducerNext(q, q.producers[id], false));
  }

  lemma {:induction false} PushEnds(q: Queue, id: nat, n: nat)
    requires Inv(q) && TailsBehind(q) && id in q.producers && InsidePush(q.producers[id])
    requires q.head + q.capacity <= TWO_TO_THE_64 && n >= StepsLeft(q, q.producers[id])
    ensures Ended(q, Run(q, Alone(id, n)), id)
    decreases n
  {
    var p := q.producers[id];
    if p.LoadSequence? || p.WriteSlot? || p.Publish? {
      OwnerEnds(q, id, n);
    } else {
      var r := Next(q, StepPush(id, false));
      hide MemoryOk, Run, Next;
      InvParts(q);
      NextKeepsInv(q, StepPush(id, false));
      NextKeepsTails(q, StepPush(id, false));
      assert p.LoadHead? || p.CompareExchange? ==> p.currentTail <= q.tail;
      hide Inv, TailsBehind, Ended, StepsLeft;
      StepBeforeClaim(q, id);
      AloneFirst(q, id, n);
      if r.producers[id].Rejected? {
        ReturnedStays(r, id, n - 1);
      } else {
        PushEnds(r, id, n - 1);
      }
    }
  }

  lemma InvParts(q: Queue)
    requires Inv(q)
    ensures CountersOk(q) && q.tail <= q.head + q.capacity
  {
  }

  /** From any point of any interleaving, a producer that goes on alone returns within nine steps, and how
      is decided by the state it starts from: an owner returns true; before its claim it returns true
      exactly when WillAccept holds, having reserved the next position with its task, and otherwise it
      returns false and reserves nothing. */
  lemma PushEndsExactly(capacity: nat, events: seq<Event>, id: nat)
    requires capacity >= 1
    requires var q := After(capacity, events);
             && id in q.producers && InsidePush(q.producers[id]) && q.head + q.capacity <= TWO_TO_THE_64
    ensures var q := After(capacity, events); Ended(q, Run(q, Alone(id, 9)), id)
  {
    AfterInv(capacity, events);
    RunKeepsTails(Init(capacity), events);
    hide Inv, TailsBehind;
    PushEnds(After(capacity, events), id, 9);
  }

  /* ------------------------- the consumer goes on alone ------------------------- */

  /** n steps of the consumer. */
  function ConsumerAlone(n: nat): (events: seq<Event>)
    ensures |events| == n
  {
    if n == 0 then [] else [StepPop] + ConsumerAlone(n - 1)
  }

  /** The task reserved at head has been published. */
  predicate Available(q: Queue)
    requires |q.owners| == q.tail
  {
    q.head < q.tail && !OwnedAt(q, q.head)
  }

  /** How wait_pop ends when the other threads stand still: a pop that has begun is finished, a task that
      is available is taken, a stopped ring without reservations left ends in false, and otherwise it
      waits. */
  predicate PopEnded(q: Queue, r: Queue)
    requires |q.owners| == q.tail && |q.reserved| == q.tail
  {
    && r.reserved == q.reserved
    && if q.consumer.MoveOut? || MidPop(q.consumer) || Available(q) then
         && q.head < q.tail && r.head == q.head + 1
         && r.consumer == ReturnedTask(Some(q.reserved[q.head]))
         && |r.popped| == q.head + 1 && r.popped[q.head] == Some(q.reserved[q.head])
       else
         && r.popped == q.popped && r.head == q.head
         && if q.stopped && q.head == q.tail then r.consumer == ReturnedFalse(q.tail)
            else InsidePop(r.consumer)
  }

  lemma ConsumerAloneFirst(q: Queue, n: nat)
    requires Shaped(q) && n >= 1
    ensures Run(q, ConsumerAlone(n)) == Run(Next(q, StepPop), ConsumerAlone(n - 1))
  {
    assert ConsumerAlone(n)[1..] == ConsumerAlone(n - 1);
  }

  lemma {:induction false} PoppedStays(q: Queue, n: nat)
    requires Shaped(q) && !InsidePop(q.consumer)
    ensures Run(q, ConsumerAlone(n)) == q
    decreases n
  {
    if n > 0 {
      ConsumerAloneFirst(q, n);
      PoppedStays(q, n - 1);
    }
  }

  /** The sequence of the head slot tells whether the task reserved there is available. */
  lemma AvailableIsSeen(q: Queue)
    requires Ordered(q) && !q.consumer.StoreHead?
    ensures Available(q) <==> q.sequences[Slot(q, q.head)] == q.head + 1
  {
    assert SlotOk(q, q.head);
    if Available(q) {
      assert q.sequences[Slot(q, q.head)] == q.head + 1;
    }
    if q.head < q.tail && OwnedAt(q, q.head) {
      assert ProducerOk(q, q.owners[q.head]);
    }
  }

  /** The steps that wait_pop needs alone to return, if it does. */
  function PopStepsLeft(c: Consumer, available: bool): nat {
    match c
    case StoreHead(_, _) => 1
    case ReleaseSlot(_, _) => 2
    case ClearSlot(_, _) => 3
    case MoveOut(_) => 4
    case TryLoadSequence(_) => 5
    case TryLoadHead => 6
    case Parked => 7
    case EmptyLoadTail(_) => if available then 8 else 1
    case EmptyLoadHead => if available then 9 else 2
    case CheckStopped => if available then 10 else 3
    case _ => 0
  }

  /** A pop that has begun. */
  lemma {:induction false} BegunPopEnds(q: Queue, n: nat)
    requires Ordered(q) && (q.consumer.MoveOut? || MidPop(q.consumer)) && n >= PopStepsLeft(q.consumer, true)
    ensures PopEnded(q, Run(q, ConsumerAlone(n)))
    decreases n
  {
    var r := Next(q, StepPop);
    if q.consumer.MoveOut? { MoveOutStep(q); }
    NextKeepsOrdered(q, StepPop);
    BegunPopStep(q);
    hide Ordered, Run, Next;
    ConsumerAloneFirst(q, n);
    if q.consumer.StoreHead? {
      PoppedStays(r, n - 1);
    } else {
      BegunPopEnds(r, n - 1);
    }
  }

  /** A step of a pop that has begun ends it, or leaves its end as it is. */
  lemma BegunPopStep(q: Queue)
    requires Ordered(q) && (q.consumer.MoveOut? || MidPop(q.consumer)) && Ordered(Next(q, StepPop))
    ensures Shaped(q) && |q.owners| == q.tail && |q.reserved| == q.tail
    ensures var r := Next(q, StepPop);
            && |r.owners| == r.tail && |r.reserved| == r.tail
            && if q.consumer.StoreHead? then !InsidePop(r.consumer) && PopEnded(q, r)
               else
                 && MidPop(r.consumer) && PopStepsLeft(r.consumer, true) <= PopStepsLeft(q.consumer, true) - 1
                 && forall x: Queue :: PopEnded(r, x) ==> PopEnded(q, x)
  {
    hide SlotsOk, BeyondOk, ProducersOk, Bounded;
  }

  /** Away from a pop that has begun, a step of wait_pop changes only its position, unless it decides. */
  lemma WaitStep(q: Queue)
    requires Ordered(q) && InsidePop(q.consumer) && !q.consumer.MoveOut? && !MidPop(q.consumer)
    ensures var r := Next(q, StepPop);
            && r == q.(consumer := r.consumer) && Ordered(r)
            && (q.consumer.TryLoadSequence? && Available(q) ==> r.consumer == MoveOut(q.head))
            && (r.consumer.MoveOut? ==> Available(q))
            && (r.consumer.ReturnedFalse? ==> q.stopped && q.head == q.tail && r.consumer == ReturnedFalse(q.tail))
            && (q.consumer.EmptyLoadTail? && q.head == q.tail ==> r.consumer.ReturnedFalse?)
            && !MidPop(r.consumer) && !r.consumer.ReturnedTask?
  {
    NextKeepsOrdered(q, StepPop);
    AvailableIsSeen(q);
    hide SlotsOk, BeyondOk, ProducersOk, Bounded, PoppedOk;
  }

  lemma {:induction false} AvailablePopEnds(q: Queue, n: nat)
    requires Ordered(q) && InsidePop(q.consumer) && Available(q) && n >= PopStepsLeft(q.consumer, true)
    ensures PopEnded(q, Run(q, ConsumerAlone(n)))
    decreases n
  {
    if q.consumer.MoveOut? || MidPop(q.consumer) {
      BegunPopEnds(q, n);
    } else {
      var r := Next(q, StepPop);
      WaitStep(q);
      assert PopStepsLeft(r.consumer, true) <= n - 1;
      hide Ordered, Run, Next;
      ConsumerAloneFirst(q, n);
      assert Available(r);
      AvailablePopEnds(r, n - 1);
    }
  }

  /** The steps to the false return of a stopped and empty ring. */
  function FalseStepsLeft(c: Consumer): nat {
    match c
    case EmptyLoadTail(_) => 1
    case EmptyLoadHead => 2
    case CheckStopped => 3
    case TryLoadSequence(_) => 4
    case TryLoadHead => 5
    case _ => 6
  }

  lemma {:induction false} WaitingPopEnds(q: Queue, n: nat)
    requires Ordered(q) && InsidePop(q.consumer) && !Available(q) && !q.consumer.MoveOut? && !MidPop(q.consumer)
    requires q.stopped && q.head == q.tail ==> n >= FalseStepsLeft(q.consumer)
    ensures PopEnded(q, Run(q, ConsumerAlone(n)))
    decreases n
  {
    WaitStep(q);
    var r := Next(q, StepPop);
    if n > 0 {
      assert q.stopped && q.head == q.tail && !r.consumer.ReturnedFalse? ==> n - 1 >= FalseStepsLeft(r.consumer);
      hide Ordered, Run, Next;
      ConsumerAloneFirst(q, n);
      assert !Available(r);
      if r.consumer.ReturnedFalse? {
        PoppedStays(r, n - 1);
      } else {
        WaitingPopEnds(r, n - 1);
      }
    }
  }

  lemma PopEnds(q: Queue)
    requires Ordered(q) && InsidePop(q.consumer)
    ensures |q.owners| == q.tail && |q.reserved| == q.tail
    ensures PopEnded(q, Run(q, ConsumerAlone(10)))
  {
    hide SlotsOk, BeyondOk, ProducersOk, Bounded, PoppedOk, ConsumerOk;
    if q.consumer.MoveOut? || MidPop(q.consumer) {
      BegunPopEnds(q, 10);
    } else if Available(q) {
      AvailablePopEnds(q, 10);
    } else {
      WaitingPopEnds(q, 10);
    }
  }

  /** From any point of any interleaving, a consumer inside wait_pop that goes on alone for ten steps has
      returned the task reserved at head, if it is published, or false, if the ring is stopped and nothing
      is reserved that it has not taken, and otherwise it still waits. */
  lemma PopEndsExactly(capacity: nat, events: seq<Event>)
    requires capacity >= 1 && InsidePop(After(capacity, events).consumer)
    ensures var q := After(capacity, events);
            && |q.owners| == q.tail && |q.reserved| == q.tail
            && PopEnded(q, Run(q, ConsumerAlone(10)))
  {
    AfterInv(capacity, events);
    hide Bounded, MemoryOk, After, Run;
    PopEnds(After(capacity, events));
  }

  /** wait_pop comes to its false return only by a step of its own that finds the ring stopped and every
      reservation handed out. */
  lemma FalseOnlyWhenDrained(capacity: nat, events: seq<Event>, e: Event)
    requires capacity >= 1
    requires !After(capacity, events).consumer.ReturnedFalse? && Next(After(capacity, events), e).consumer.ReturnedFalse?
    ensures var q := After(capacity, events);
            e.StepPop? && q.stopped && |q.popped| == |q.reserved|
            && Next(q, e).consumer == ReturnedFalse(|q.reserved|)
  {
    AfterInv(capacity, events);
    hide After, Run, SlotsOk, ProducersOk, BeyondOk;
  }
}
