/** The ring over its two arrays: each method performs one atomic step in place, and the
    uninterrupted calls run the source's loops over those steps. */
module BoundedTaskQueues {
  import opened Wrappers
  import opened TaskQueue
  import opened TaskQueueProofs
  import opened TaskQueueTheorems

  class BoundedTaskQueue {
    const capacity: nat
    const ring: array<Option<Task>>
    const sequences: array<nat>
    var head: nat
    var tail: nat
    var stopped: bool
    // the program counter and local variables of each thread
    var producers: map<nat, Producer>
    var consumer: Consumer
    // what has happened so far; no step reads these
    ghost var reserved: seq<Task>
    ghost var owners: seq<nat>
    ghost var popped: seq<Option<Task>>
    ghost var acknowledged: set<nat>

    ghost predicate Valid() {
      capacity >= 1 && ring.Length == capacity && sequences.Length == capacity
    }

    ghost function View(): (q: Queue)
      reads this, ring, sequences
      requires Valid()
      ensures Shaped(q)
    {
      Queue(capacity, ring[..], sequences[..], head, tail, stopped, producers, consumer,
            reserved, owners, popped, acknowledged)
    }

    constructor (requested: nat)
      ensures Valid() && fresh(ring) && fresh(sequences)
      ensures capacity == (if requested >= 1 then requested else 1)
      ensures View() == Init(capacity)
      ensures Inv(View())
    {
      var size := if requested >= 1 then requested else 1;
      capacity := size;
      ring := new Option<Task>[size](_ => None);
      sequences := new nat[size](i => i);
      producers := map[];
      new;
      Reset();
      InitInv(capacity);
    }

    /** Re-initialises the ring for a new worker thread, whoever is inside push. */
    method Reset()
      requires Valid()
      modifies this, ring, sequences
      ensures Valid() && View() == ResetRing(old(View()))
    {
      var inside := map id | id in producers && InsidePush(producers[id]) :: producers[id];
      head, tail, stopped := 0, 0, false;
      for i := 0 to ring.Length
        invariant forall k :: 0 <= k < i ==> ring[k] == None
        modifies ring
      {
        ring[i] := None;
      }
      for i := 0 to capacity
        invariant forall k :: 0 <= k < i ==> sequences[k] == k
        modifies sequences
      {
        sequences[i] := i;
      }
      producers, consumer := inside, ReturnedTask(None);
      reserved, owners, popped, acknowledged := [], [], [], {};
      EmptyArrays(capacity, ring[..], sequences[..]);
    }

    method CallPush(id: nat, task: Option<Task>)
      requires Valid()
      modifies this`producers
      ensures View() == Next(old(View()), Event.CallPush(id, task))
    {
      if !(id in producers && InsidePush(producers[id])) {
        producers := producers[id := if task.None? then Rejected else LoadStopped(task.value)];
      }
    }

    /** One atomic step of a producer. */
    method StepPush(id: nat, exchangeFails: bool)
      requires Valid() && id in producers && InsidePush(producers[id])
      modifies this, ring, sequences
      ensures Valid() && View() == Next(old(View()), Event.StepPush(id, exchangeFails))
    {
      ghost var before := View();
      var p := producers[id];
      var next := p;
      match p {
        case LoadStopped(task) =>
          next := if stopped then Rejected else LoadTail(task);
        case LoadTail(task) =>
          next := LoadHead(task, tail);
        case LoadHead(task, currentTail) =>
          next := if Sub64(currentTail, head) >= capacity then Rejected else CompareExchange(task, currentTail);
        case CompareExchange(task, currentTail) =>
          if !exchangeFails && tail == currentTail {
            tail := tail + 1;
            reserved, owners := reserved + [task], owners + [id];
            next := LoadSequence(task, currentTail);
          } else {
            next := LoadStopped(task);
          }
        case LoadSequence(task, position) =>
          if sequences[Remainder(position, capacity)] == position {
            next := WriteSlot(task, position);
          }
        case WriteSlot(task, position) =>
          ring[Remainder(position, capacity)] := Some(task);
          next := Publish(task, position);
        case Publish(task, position) =>
          sequences[Remainder(position, capacity)] := position + 1;
          acknowledged := acknowledged + {position};
          next := Accepted(task, position);
      }
      producers := producers[id := next];
      assert View() == ProducerStep(before, id, exchangeFails);
    }

    method CallPop()
      requires Valid()
      modifies this`consumer
      ensures View() == Next(old(View()), Event.CallPop)
    {
      if !InsidePop(consumer) {
        consumer := TryLoadHead;
      }
    }

    /** One atomic step of the consumer. */
    method StepPop()
      requires Valid() && InsidePop(consumer)
      modifies this, ring, sequences
      ensures Valid() && View() == Next(old(View()), Event.StepPop)
    {
      ghost var before := View();
      match consumer {
        case TryLoadHead =>
          consumer := TryLoadSequence(head);
        case TryLoadSequence(currentHead) =>
          consumer := if sequences[Remainder(currentHead, capacity)] != currentHead + 1
                      then CheckStopped else MoveOut(currentHead);
        case MoveOut(currentHead) =>
          var moved := ring[Remainder(currentHead, capacity)];
          popped := popped + [moved];
          consumer := ClearSlot(currentHead, moved);
        case ClearSlot(currentHead, moved) =>
          ring[Remainder(currentHead, capacity)] := None;
          consumer := ReleaseSlot(currentHead, moved);
        case ReleaseSlot(currentHead, moved) =>
          sequences[Remainder(currentHead, capacity)] := currentHead + capacity;
          consumer := StoreHead(currentHead, moved);
        case StoreHead(currentHead, moved) =>
          head := currentHead + 1;
          consumer := ReturnedTask(moved);
        case CheckStopped =>
          consumer := if stopped then EmptyLoadHead else Parked;
        case EmptyLoadHead =>
          consumer := EmptyLoadTail(head);
        case EmptyLoadTail(currentHead) =>
          consumer := if currentHead == tail then ReturnedFalse(tail) else Parked;
        case Parked =>
          consumer := TryLoadHead;
      }
      assert View() == ConsumerStep(before);
    }

    method RequestStop()
      requires Valid()
      modifies this`stopped
      ensures View() == Next(old(View()), Event.RequestStop)
    {
      stopped := true;
    }

    /** Executes one interleaving of all threads. */
    method Execute(events: seq<Event>)
      requires Valid() && Inv(View())
      modifies this, ring, sequences
      ensures Valid() && View() == Run(old(View()), events)
      ensures Inv(View())
    {
      ghost var start := View();
      RunKeepsInv(start, events);
      var i := 0;
      while i < |events|
        invariant 0 <= i <= |events|
        invariant Valid() && Run(View(), events[i..]) == Run(start, events)
      {
        match events[i] {
          case CallPush(id, task) => CallPush(id, task);
          case StepPush(id, exchangeFails) =>
            if id in producers && InsidePush(producers[id]) { StepPush(id, exchangeFails); }
          case CallPop => CallPop();
          case StepPop => if InsidePop(consumer) { StepPop(); }
          case RequestStop => RequestStop();
        }
        i := i + 1;
      }
    }

    /** push without interference from other threads; the weak compare-exchange fails the given
        number of times for no reason before it succeeds. */
    method Push(id: nat, task: Option<Task>, spuriousFailures: nat) returns (accepted: bool)
      requires Valid() && Inv(View())
      requires id in producers ==> !InsidePush(producers[id])
      modifies this, ring, sequences
      ensures Valid() && Inv(View())
      ensures accepted == (task.Some? && !old(stopped) && old(tail) < old(head) + capacity)
      ensures View() == if accepted then AfterPush(old(View()), id, task.value)
                        else SetProducer(old(View()), id, Rejected)
    {
      ghost var start := View();
      NextKeepsInv(start, Event.CallPush(id, task));
      CallPush(id, task);
      var failures := spuriousFailures;
      while InsidePush(producers[id])
        invariant Valid() && Inv(View())
        invariant id in producers && InsidePush(producers[id]) ==> task.Some?
        invariant id in producers && PushProgress(start, View(), id, task)
        decreases failures, Distance(producers[id])
      {
        var fails := failures > 0 && producers[id].CompareExchange?;
        ghost var q := View();
        NextKeepsInv(q, Event.StepPush(id, fails));
        assert ProducerOk(q, id);
        PushProgressStep(start, q, id, task, fails);
        StepPush(id, fails);
        if fails {
          failures := failures - 1;
        }
      }
      accepted := producers[id].Accepted?;
    }

    /** The four steps that take the task out of the slot at head. */
    method TakeHead()
      requires Valid() && consumer == MoveOut(head)
      modifies this, ring, sequences
      ensures Valid() && View() == AfterPop(old(View()))
    {
      TakeHeadSteps(View());
      hide Next, AfterPop;
      StepPop();
      StepPop();
      StepPop();
      StepPop();
    }

    /** try_pop without interference: succeeds exactly when the task at head has been published. */
    method TryPop() returns (ok: bool)
      requires Valid() && Inv(View()) && !InsidePop(consumer)
      modifies this, ring, sequences
      ensures Valid() && Inv(View())
      ensures ok == (old(View()).sequences[Slot(old(View()), old(head))] == old(head) + 1)
      ensures View() == if ok then AfterPop(old(View())) else old(View()).(consumer := CheckStopped)
      ensures ok ==> old(head) < |old(reserved)| && consumer == ReturnedTask(Some(old(reserved)[old(head)]))
    {
      ghost var q := View();
      TryPopLeavesInv(q);
      hide Inv;
      CallPop();
      StepPop();
      assert View() == q.(consumer := TryLoadSequence(q.head));
      StepPop();
      ok := consumer.MoveOut?;
      if ok {
        TakeHead();
      }
    }
  }

  lemma TakeHeadSteps(q: Queue)
    requires Shaped(q) && q.consumer == MoveOut(q.head)
    ensures var q1 := Next(q, Event.StepPop);
            var q2 := Next(q1, Event.StepPop);
            var q3 := Next(q2, Event.StepPop);
            && q1.consumer.ClearSlot? && q2.consumer.ReleaseSlot? && q3.consumer.StoreHead?
            && Shaped(q1) && Shaped(q2) && Shaped(q3)
            && Next(q3, Event.StepPop) == AfterPop(q)
  {
  }

  lemma EmptyArrays(capacity: nat, ring: seq<Option<Task>>, sequences: seq<nat>)
    requires capacity >= 1 && |ring| == |sequences| == capacity
    requires forall k :: 0 <= k < capacity ==> ring[k] == None && sequences[k] == k
    ensures Init(capacity).ring == ring && Init(capacity).sequences == sequences
  {
  }

  lemma TryPopLeavesInv(q: Queue)
    requires Inv(q) && !InsidePop(q.consumer)
    ensures if q.sequences[Slot(q, q.head)] == q.head + 1 then
              && Inv(AfterPop(q)) && q.head < |q.reserved|
              && q.ring[Slot(q, q.head)] == Some(q.reserved[q.head])
            else
              Inv(q.(consumer := CheckStopped))
  {
    if q.sequences[Slot(q, q.head)] == q.head + 1 {
      assert SlotOk(q, q.head);
      ReachesItself(q, {});
      SoloPop(q, q, {});
      ReachesInv(q, AfterPop(q), {});
    } else {
      LocalConsumerStep(q, CheckStopped);
    }
  }

  function Distance(p: Producer): nat {
    match p
    case LoadStopped(_) => 7
    case LoadTail(_) => 6
    case LoadHead(_, _) => 5
    case CompareExchange(_, _) => 4
    case LoadSequence(_, _) => 3
    case WriteSlot(_, _) => 2
    case Publish(_, _) => 1
    case _ => 0
  }

  /** How far an uninterrupted push has come since the queue start. */
  predicate PushProgress(start: Queue, q: Queue, id: nat, task: Option<Task>)
    requires Shaped(start) && id in q.producers
  {
    match q.producers[id]
    case Rejected =>
      (task.None? || start.stopped || start.tail >= start.head + start.capacity)
      && q == SetProducer(start, id, Rejected)
    case LoadStopped(t) => task == Some(t) && q == SetProducer(start, id, LoadStopped(t))
    case LoadTail(t) => !start.stopped && task == Some(t) && q == SetProducer(start, id, LoadTail(t))
    case LoadHead(t, tail) =>
      !start.stopped && task == Some(t) && q == SetProducer(start, id, LoadHead(t, start.tail))
    case CompareExchange(t, tail) =>
      !start.stopped && start.tail < start.head + start.capacity && task == Some(t)
      && q == SetProducer(start, id, CompareExchange(t, start.tail))
    case LoadSequence(t, position) =>
      Fits(start, task, t) && q == Reserved(start, id, LoadSequence(t, start.tail))
    case WriteSlot(t, position) =>
      Fits(start, task, t) && q == Reserved(start, id, WriteSlot(t, start.tail))
    case Publish(t, position) =>
      Fits(start, task, t)
      && q == Reserved(start, id, Publish(t, start.tail))
              .(ring := start.ring[Slot(start, start.tail) := Some(t)])
    case Accepted(t, position) => Fits(start, task, t) && q == AfterPush(start, id, t)
  }

  predicate Fits(start: Queue, task: Option<Task>, t: Task) {
    !start.stopped && start.tail < start.head + start.capacity && task == Some(t)
  }

  function Reserved(start: Queue, id: nat, p: Producer): Queue
    requires InsidePush(p)
  {
    SetProducer(start, id, p)
    .(tail := start.tail + 1, reserved := start.reserved + [p.task], owners := start.owners + [id])
  }

  lemma PushProgressStep(start: Queue, q: Queue, id: nat, task: Option<Task>, exchangeFails: bool)
    requires Shaped(start) && start.head <= start.tail
    requires Shaped(q) && id in q.producers && InsidePush(q.producers[id])
    requires q.producers[id].LoadSequence? ==>
               q.sequences[Slot(q, q.producers[id].position)] == q.producers[id].position
    requires PushProgress(start, q, id, task)
    requires exchangeFails ==> q.producers[id].CompareExchange?
    ensures var r := ProducerStep(q, id, exchangeFails);
            && id in r.producers && PushProgress(start, r, id, task)
            && (!exchangeFails ==> Distance(r.producers[id]) < Distance(q.producers[id]))
  {
    var r := ProducerStep(q, id, exchangeFails);
    assert r.producers == start.producers[id := r.producers[id]];
    match q.producers[id]
    case LoadStopped(_) =>
    case LoadTail(_) =>
    case LoadHead(_, _) =>
    case CompareExchange(_, _) =>
    case LoadSequence(_, _) =>
    case WriteSlot(t, _) =>
      assert r == Reserved(start, id, Publish(t, start.tail))
                  .(ring := start.ring[Slot(start, start.tail) := Some(t)]);
    case Publish(t, _) =>
      assert r == AfterPush(start, id, t);
  }
}
