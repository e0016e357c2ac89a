/** The bounded multi-producer single-consumer ring as a machine of atomic steps.

    Every atomic load, store and compare-exchange of the source is one step. Each producer thread
    and the one consumer thread has its own position inside push or wait_pop, together with the
    values it has already loaded, so that any interleaving of the threads is a sequence of events. */
module TaskQueue {
  import opened Wrappers

  /** A runtime task: an opaque body posted under a routing key. */
  datatype Task = Task(key: nat, body: nat)

  const TWO_TO_THE_64: nat := 0x1_0000_0000_0000_0000

  /** Unsigned 64-bit subtraction of counters below 2^64: a negative difference wraps. */
  function Sub64(a: nat, b: nat): int {
    if a >= b then a - b else a - b + TWO_TO_THE_64
  }

  /** The remainder n % m, computed by subtraction. */
  function Remainder(n: nat, m: nat): (r: nat)
    requires m >= 1
    ensures r < m
  {
    if n < m then n else Remainder(n - m, m)
  }

  /** Where a producer is inside push, with its local variables. */
  datatype Producer =
    | Rejected                                // push returned false
    | Accepted(task: Task, position: nat)     // push returned true
    | LoadStopped(task: Task)
    | LoadTail(task: Task)
    | LoadHead(task: Task, currentTail: nat)
    | CompareExchange(task: Task, currentTail: nat)
    | LoadSequence(task: Task, position: nat)
    | WriteSlot(task: Task, position: nat)
    | Publish(task: Task, position: nat)

  /** Where the consumer is inside wait_pop, with its local variables. */
  datatype Consumer =
    | ReturnedTask(result: Option<Task>)      // wait_pop returned true
    | ReturnedFalse(drained: nat)             // wait_pop returned false; the tail it saw
    | TryLoadHead
    | TryLoadSequence(currentHead: nat)
    | MoveOut(currentHead: nat)
    | ClearSlot(currentHead: nat, moved: Option<Task>)
    | ReleaseSlot(currentHead: nat, moved: Option<Task>)
    | StoreHead(currentHead: nat, moved: Option<Task>)
    | CheckStopped
    | EmptyLoadHead
    | EmptyLoadTail(currentHead: nat)
    | Parked

  /** The shared memory, the threads, and four histories that no step reads:
      the tasks in compare-exchange order, the producer of each, the tasks handed to the consumer,
      and the positions whose push has returned true. */
  datatype Queue = Queue(
    capacity: nat,
    ring: seq<Option<Task>>,
    sequences: seq<nat>,
    head: nat,
    tail: nat,
    stopped: bool,
    producers: map<nat, Producer>,
    consumer: Consumer,
    reserved: seq<Task>,
    owners: seq<nat>,
    popped: seq<Option<Task>>,
    acknowledged: set<nat>)

  datatype Event =
    | CallPush(id: nat, task: Option<Task>)
    | StepPush(id: nat, exchangeFails: bool)  // the weak exchange may fail for no reason
    | CallPop
    | StepPop
    | RequestStop

  predicate InsidePush(p: Producer) {
    !p.Rejected? && !p.Accepted?
  }

  predicate InsidePop(c: Consumer) {
    !c.ReturnedTask? && !c.ReturnedFalse?
  }

  /** The state after the constructor. */
  function Init(capacity: nat): Queue
    requires capacity >= 1
  {
    Queue(capacity, seq(capacity, _ => None), seq(capacity, i => i), 0, 0, false, map[],
          ReturnedTask(None), [], [], [], {})
  }

  /** The state after reset. A producer inside push goes on with what it has loaded. */
  function ResetRing(q: Queue): Queue
    requires q.capacity >= 1
  {
    Init(q.capacity).(producers := map id | id in q.producers && InsidePush(q.producers[id]) :: q.producers[id])
  }

  predicate Shaped(q: Queue) {
    q.capacity >= 1 && |q.ring| == q.capacity && |q.sequences| == q.capacity
  }

  /** position % capacity, as RemainderIsModulo shows. */
  function Slot(q: Queue, position: nat): (k: nat)
    requires q.capacity >= 1
    ensures k < q.capacity
  {
    Remainder(position, q.capacity)
  }

  function SetProducer(q: Queue, id: nat, p: Producer): Queue {
    q.(producers := q.producers[id := p])
  }

  /** The compare-exchange of a producer succeeds: it claims the current tail. */
  predicate Claims(q: Queue, p: Producer, exchangeFails: bool) {
    p.CompareExchange? && !exchangeFails && q.tail == p.currentTail
  }

  /** The position inside push after one atomic step of a producer at position p. */
  function ProducerNext(q: Queue, p: Producer, exchangeFails: bool): Producer
    requires Shaped(q) && InsidePush(p)
  {
    match p
    case LoadStopped(task) => if q.stopped then Rejected else LoadTail(task)
    case LoadTail(task) => LoadHead(task, q.tail)
    case LoadHead(task, currentTail) =>
      if Sub64(currentTail, q.head) >= q.capacity then Rejected else CompareExchange(task, currentTail)
    case CompareExchange(task, currentTail) =>
      if Claims(q, p, exchangeFails) then LoadSequence(task, currentTail) else LoadStopped(task)
    case LoadSequence(task, position) =>
      if q.sequences[Slot(q, position)] != position then p else WriteSlot(task, position)
    case WriteSlot(task, position) => Publish(task, position)
    case Publish(task, position) => Accepted(task, position)
  }

  /** What that step does to the shared memory and the histories. */
  function ProducerEffect(q: Queue, id: nat, p: Producer, exchangeFails: bool): Queue
    requires Shaped(q)
  {
    match p
    case CompareExchange(task, _) =>
      if Claims(q, p, exchangeFails) then
        q.(tail := q.tail + 1, reserved := q.reserved + [task], owners := q.owners + [id])
      else q
    case WriteSlot(task, position) =>
      q.(ring := q.ring[Slot(q, position) := Some(task)])
    case Publish(task, position) =>
      q.(sequences := q.sequences[Slot(q, position) := position + 1],
         acknowledged := q.acknowledged + {position})
    case _ => q
  }

  /** One atomic step of the producer id, which is inside push. */
  function ProducerStep(q: Queue, id: nat, exchangeFails: bool): Queue
    requires Shaped(q) && id in q.producers && InsidePush(q.producers[id])
  {
    var p := q.producers[id];
    SetProducer(ProducerEffect(q, id, p, exchangeFails), id, ProducerNext(q, p, exchangeFails))
  }

  /** The position inside wait_pop after one atomic step of the consumer at position c.
      Waiting on the condition variable is a retry: a parked consumer may always look again. */
  function ConsumerNext(q: Queue, c: Consumer): Consumer
    requires Shaped(q) && InsidePop(c)
  {
    match c
    case TryLoadHead => TryLoadSequence(q.head)
    case TryLoadSequence(currentHead) =>
      if q.sequences[Slot(q, currentHead)] != currentHead + 1 then CheckStopped else MoveOut(currentHead)
    case MoveOut(currentHead) => ClearSlot(currentHead, q.ring[Slot(q, currentHead)])
    case ClearSlot(currentHead, moved) => ReleaseSlot(currentHead, moved)
    case ReleaseSlot(currentHead, moved) => StoreHead(currentHead, moved)
    case StoreHead(currentHead, moved) => ReturnedTask(moved)
    case CheckStopped => if q.stopped then EmptyLoadHead else Parked
    case EmptyLoadHead => EmptyLoadTail(q.head)
    case EmptyLoadTail(currentHead) => if currentHead == q.tail then ReturnedFalse(q.tail) else Parked
    case Parked => TryLoadHead
  }

  /** What that step does to the shared memory and the histories. */
  function ConsumerEffect(q: Queue, c: Consumer): Queue
    requires Shaped(q)
  {
    match c
    case MoveOut(currentHead) =>
      q.(popped := q.popped + [q.ring[Slot(q, currentHead)]])
    case ClearSlot(currentHead, _) =>
      q.(ring := q.ring[Slot(q, currentHead) := None])
    case ReleaseSlot(currentHead, _) =>
      q.(sequences := q.sequences[Slot(q, currentHead) := currentHead + q.capacity])
    case StoreHead(currentHead, _) =>
      q.(head := currentHead + 1)
    case _ => q
  }

  /** One atomic step of the consumer, which is inside wait_pop. */
  function ConsumerStep(q: Queue): Queue
    requires Shaped(q) && InsidePop(q.consumer)
  {
    ConsumerEffect(q, q.consumer).(consumer := ConsumerNext(q, q.consumer))
  }

  /** The effect of one event; an event of a thread that is not there leaves the queue alone. */
  function Next(q: Queue, e: Event): (r: Queue)
    requires Shaped(q)
    ensures Shaped(r)
  {
    match e
    case CallPush(id, task) =>
      if id in q.producers && InsidePush(q.producers[id]) then q
      else SetProducer(q, id, if task.None? then Rejected else LoadStopped(task.value))
    case StepPush(id, exchangeFails) =>
      if id in q.producers && InsidePush(q.producers[id]) then ProducerStep(q, id, exchangeFails)
      else q
    case CallPop =>
      if InsidePop(q.consumer) then q else q.(consumer := TryLoadHead)
    case StepPop =>
      if InsidePop(q.consumer) then ConsumerStep(q) else q
    case RequestStop =>
      q.(stopped := true)
  }

  /** A whole interleaving. */
  function Run(q: Queue, events: seq<Event>): (r: Queue)
    requires Shaped(q)
    ensures Shaped(r)
    decreases |events|
  {
    if events == [] then q else Run(Next(q, events[0]), events[1..])
  }

  /* ---------------------------------- the invariant ---------------------------------- */

  /** Producer p has reserved the position and has not yet published it. */
  predicate Owns(p: Producer, position: nat) {
    (p.LoadSequence? || p.WriteSlot? || p.Publish?) && p.position == position
  }

  predicate OwnedAt(q: Queue, position: nat)
    requires position < |q.owners|
  {
    q.owners[position] in q.producers && Owns(q.producers[q.owners[position]], position)
  }

  /** The consumer has taken the task at head and has not yet advanced head. */
  predicate MidPop(c: Consumer) {
    c.ClearSlot? || c.ReleaseSlot? || c.StoreHead?
  }

  /** The first position whose slot the consumer has not given up: head, or the one after it once the
      slot of head has been released. */
  function Base(q: Queue): nat {
    q.head + (if q.consumer.StoreHead? then 1 else 0)
  }

  predicate CountersOk(q: Queue) {
    && Shaped(q)
    && |q.reserved| == q.tail && |q.owners| == q.tail
    && q.head <= q.tail
    && |q.popped| == q.head + (if MidPop(q.consumer) then 1 else 0)
    && |q.popped| <= q.tail
  }

  /** Every task handed out is the one reserved at that position. */
  predicate PoppedOk(q: Queue)
    requires CountersOk(q)
  {
    forall k :: 0 <= k < |q.popped| ==> q.popped[k] == Some(q.reserved[k])
  }

  /** The position's slot is the one it has in the ring at present. */
  predicate InWindow(q: Queue, position: int) {
    Base(q) <= position < Base(q) + q.capacity
  }

  /** What the slot of a position in the window holds. */
  predicate SlotOk(q: Queue, position: nat)
    requires CountersOk(q)
  {
    var k := Slot(q, position);
    if position >= q.tail then
      q.sequences[k] == position
    else if q.sequences[k] == position then
      OwnedAt(q, position)
    else
      && q.sequences[k] == position + 1
      && ((position == q.head && MidPop(q.consumer)) || q.ring[k] == Some(q.reserved[position]))
  }

  predicate SlotsOk(q: Queue)
    requires CountersOk(q)
  {
    forall position :: Base(q) <= position < Base(q) + q.capacity ==> SlotOk(q, position)
  }

  /** A position reserved beyond the window still belongs to its producer. */
  predicate BeyondOk(q: Queue)
    requires CountersOk(q)
  {
    forall position :: Base(q) + q.capacity <= position < q.tail ==> OwnedAt(q, position)
  }

  /** What a producer's local variables say about the shared memory. Nothing is said of a loaded tail,
      however stale it is. */
  predicate ProducerOk(q: Queue, id: nat)
    requires CountersOk(q) && id in q.producers
  {
    match q.producers[id]
    case LoadSequence(task, position) =>
      Claimed(q, id, task, position)
      && (InWindow(q, position) ==> q.sequences[Slot(q, position)] == position)
    case WriteSlot(task, position) => Holds(q, id, task, position)
    case Publish(task, position) =>
      Holds(q, id, task, position) && q.ring[Slot(q, position)] == Some(task)
    case Accepted(task, position) =>
      position < q.tail && q.reserved[position] == task && q.owners[position] == id
    case _ => true
  }

  /** Producer id has reserved the position. */
  predicate Claimed(q: Queue, id: nat, task: Task, position: nat)
    requires CountersOk(q)
  {
    Base(q) <= position < q.tail && q.reserved[position] == task && q.owners[position] == id
  }

  /** Producer id owns the slot of its reserved position. */
  predicate Holds(q: Queue, id: nat, task: Task, position: nat)
    requires CountersOk(q)
  {
    Claimed(q, id, task, position) && InWindow(q, position) && q.sequences[Slot(q, position)] == position
  }

  predicate ProducersOk(q: Queue)
    requires CountersOk(q)
  {
    forall id :: id in q.producers ==> ProducerOk(q, id)
  }

  predicate ConsumerOk(q: Queue)
    requires CountersOk(q)
  {
    match q.consumer
    case TryLoadSequence(h) => h == q.head
    case MoveOut(h) => h == q.head && h < q.tail && q.sequences[Slot(q, h)] == h + 1
    case ClearSlot(h, moved) => MidPopOk(q, h, moved) && q.sequences[Slot(q, h)] == h + 1
    case ReleaseSlot(h, moved) => MidPopOk(q, h, moved) && q.sequences[Slot(q, h)] == h + 1
    case StoreHead(h, moved) => MidPopOk(q, h, moved)
    case EmptyLoadTail(h) => h == q.head && q.stopped
    case ReturnedFalse(drained) => q.stopped && drained == q.head
    case EmptyLoadHead => q.stopped
    case _ => true
  }

  predicate MidPopOk(q: Queue, h: nat, moved: Option<Task>)
    requires CountersOk(q) && MidPop(q.consumer)
  {
    h == q.head && moved == q.popped[h]
  }

  /** The tail is within one capacity of the head, and no exchange that can still succeed would leave
      it further away. */
  predicate Bounded(q: Queue) {
    && q.tail <= q.head + q.capacity
    && forall id :: id in q.producers && q.producers[id].CompareExchange? ==>
         q.producers[id].currentTail < q.head + q.capacity
  }

  predicate MemoryOk(q: Queue) {
    CountersOk(q) && PoppedOk(q) && SlotsOk(q) && BeyondOk(q) && ProducersOk(q) && ConsumerOk(q)
  }

  /** What keeps the tasks in order. With a capacity of at least two this does not need the bound: a
      producer that reserves too far ahead waits for its slot. With a single slot the sequence of a
      published task is also that of the next free one, and only the bound tells them apart. */
  predicate Ordered(q: Queue) {
    MemoryOk(q) && (q.capacity == 1 ==> Bounded(q))
  }

  predicate Inv(q: Queue) {
    Ordered(q) && Bounded(q)
  }

  lemma {:induction false} NextMultiple(m: nat, a: nat, b: nat)
    requires a < b
    ensures m * a + m <= m * b
    decreases b
  {
    if a + 1 < b {
      NextMultiple(m, a, b - 1);
    }
  }

  /** Quotient and remainder are unique. */
  lemma SameRemainder(m: nat, a: nat, r: nat, b: nat, s: nat)
    requires r < m && s < m && m * a + r == m * b + s
    ensures r == s
  {
    if a < b { NextMultiple(m, a, b); }
    if b < a { NextMultiple(m, b, a); }
  }

  /** The slot of a position is position % capacity. */
  lemma {:induction false} RemainderIsModulo(n: nat, m: nat)
    requires m >= 1
    ensures Remainder(n, m) == n % m
    decreases n
  {
    if n >= m {
      RemainderIsModulo(n - m, m);
      var quotient := (n - m) / m;
      assert m * (quotient + 1) == m * quotient + m;
      SameRemainder(m, quotient + 1, (n - m) % m, n / m, n % m);
    }
  }

  /** Two positions less than a capacity apart that share a slot are the same position. */
  lemma {:induction false} SameSlotSamePosition(capacity: nat, p: nat, q: nat)
    requires capacity >= 1 && Remainder(p, capacity) == Remainder(q, capacity)
    requires p < q + capacity && q < p + capacity
    ensures p == q
    decreases p
  {
    if p >= capacity && q >= capacity {
      SameSlotSamePosition(capacity, p - capacity, q - capacity);
    }
  }

  /** The slots of the other positions of the window are different slots. */
  lemma OtherSlots(q: Queue, position: nat)
    requires CountersOk(q) && InWindow(q, position)
    ensures forall other :: InWindow(q, other) && other != position ==> Slot(q, other) != Slot(q, position)
  {
    forall other: nat | InWindow(q, other) && other != position
      ensures Slot(q, other) != Slot(q, position)
    {
      if Slot(q, other) == Slot(q, position) {
        SameSlotSamePosition(q.capacity, other, position);
      }
    }
  }

  /** A position beyond the window shares its slot with one inside. */
  lemma {:induction false} SharesSlot(q: Queue, position: nat) returns (inside: nat)
    requires q.capacity >= 1 && position >= Base(q)
    ensures InWindow(q, inside) && inside <= position && Slot(q, inside) == Slot(q, position)
    decreases position
  {
    if position < Base(q) + q.capacity {
      inside := position;
    } else {
      inside := SharesSlot(q, position - q.capacity);
    }
  }

  lemma InitInv(capacity: nat)
    requires capacity >= 1
    ensures Inv(Init(capacity))
  {
    var q := Init(capacity);
    forall position | InWindow(q, position) ensures SlotOk(q, position) {
    }
  }
}
