/** The sharded executor: one ring and one worker thread per shard, and one thread that starts and
    stops them. Tasks are routed by key % shard_count. */
module TaskExecutors {
  import opened Wrappers
  import opened TaskQueue
  import opened TaskQueueProofs
  import opened TaskQueueReset

  /** Where a worker thread is inside its run loop. */
  datatype Thread =
    | NotRunning
    | Calling                          // about to call wait_pop
    | Popping                          // inside wait_pop, or it has just returned
    | Executing(task: Option<Task>)
    | Exited

  /** executed lists the tasks that have run since the worker was last started. */
  datatype Worker = Worker(queue: Queue, started: bool, thread: Thread, executed: seq<Option<Task>>)

  /** Where the controlling thread is inside start or stop. */
  datatype Control = Idle | Starting(next: nat) | Requesting(next: nat) | Joining(next: nat)

  datatype Executor = Executor(workers: seq<Worker>, started: bool, control: Control)

  datatype Event =
    | CallStart
    | CallStop
    | StepControl
    | Post(id: nat, key: nat, body: Option<nat>)
    | StepProducer(shard: nat, id: nat, exchangeFails: bool)
    | StepWorker(shard: nat)

  function Fresh(shardCount: nat, capacity: nat): (e: Executor)
    requires shardCount >= 1 && capacity >= 1
    ensures ExecutorInv(e) && AllShaped(e) && |e.workers| == shardCount
  {
    InitInv(capacity);
    Executor(seq(shardCount, _ => Worker(Init(capacity), false, NotRunning, [])), false, Idle)
  }

  function ShardOf(key: nat, shardCount: nat): (shard: nat)
    requires shardCount >= 1
    ensures shard < shardCount
  {
    Remainder(key, shardCount)
  }

  /** Starting a worker resets its ring, whoever is inside push. */
  function StartWorker(w: Worker): Worker
    requires Shaped(w.queue)
  {
    if w.started then w else Worker(ResetRing(w.queue), true, Calling, [])
  }

  function RequestWorkerStop(w: Worker): Worker {
    if w.started then w.(queue := w.queue.(stopped := true)) else w
  }

  /** join blocks until the thread has left its run loop. */
  predicate CanJoin(w: Worker) {
    w.started ==> w.thread.Exited?
  }

  function JoinWorker(w: Worker): Worker {
    if w.started then w.(started := false, thread := NotRunning) else w
  }

  /** One atomic step of the worker thread's run loop. */
  function WorkerStep(w: Worker): Worker
    requires Shaped(w.queue)
  {
    match w.thread
    case Calling => w.(queue := Next(w.queue, CallPop), thread := Popping)
    case Popping =>
      if InsidePop(w.queue.consumer) then w.(queue := Next(w.queue, StepPop))
      else if w.queue.consumer.ReturnedTask? then w.(thread := Executing(w.queue.consumer.result))
      else w.(thread := Exited)
    case Executing(task) => w.(executed := w.executed + [task], thread := Calling)
    case _ => w
  }

  predicate AllShaped(e: Executor) {
    |e.workers| >= 1 && forall s :: 0 <= s < |e.workers| ==> Shaped(e.workers[s].queue)
  }

  function StepOfControl(e: Executor): (r: Executor)
    requires AllShaped(e)
    ensures AllShaped(r) && |r.workers| == |e.workers|
  {
    match e.control
    case Idle => e
    case Starting(k) =>
      if k < |e.workers| then e.(workers := e.workers[k := StartWorker(e.workers[k])], control := Starting(k + 1))
      else e.(started := true, control := Idle)
    case Requesting(k) =>
      if k < |e.workers| then
        e.(workers := e.workers[k := RequestWorkerStop(e.workers[k])], control := Requesting(k + 1))
      else e.(control := Joining(0))
    case Joining(k) =>
      if k >= |e.workers| then e.(started := false, control := Idle)
      else if CanJoin(e.workers[k]) then
        e.(workers := e.workers[k := JoinWorker(e.workers[k])], control := Joining(k + 1))
      else e
  }

  function ExecutorNext(e: Executor, event: Event): (r: Executor)
    requires AllShaped(e)
    ensures AllShaped(r) && |r.workers| == |e.workers|
  {
    match event
    case CallStart =>
      if e.control.Idle? && !e.started then e.(control := Starting(0)) else e
    case CallStop => if e.control.Idle? then e.(control := Requesting(0)) else e
    case StepControl => StepOfControl(e)
    case Post(id, key, body) =>
      var shard := ShardOf(key, |e.workers|);
      var w := e.workers[shard];
      if !e.started || body.None? || !w.started then e
      else e.(workers := e.workers[shard := w.(queue := Next(w.queue, CallPush(id, Some(Task(key, body.value)))))])
    case StepProducer(shard, id, exchangeFails) =>
      if shard >= |e.workers| then e
      else
        var w := e.workers[shard];
        e.(workers := e.workers[shard := w.(queue := Next(w.queue, StepPush(id, exchangeFails)))])
    case StepWorker(shard) =>
      if shard >= |e.workers| then e
      else e.(workers := e.workers[shard := WorkerStep(e.workers[shard])])
  }

  function RunExecutor(e: Executor, events: seq<Event>): (r: Executor)
    requires AllShaped(e)
    ensures AllShaped(r) && |r.workers| == |e.workers|
    decreases |events|
  {
    if events == [] then e else RunExecutor(ExecutorNext(e, events[0]), events[1..])
  }

  /* ---------------------------------- the invariant ---------------------------------- */

  /** The task a producer carries is routed to this shard. */
  predicate CarriesOwn(p: Producer, shard: nat, shardCount: nat)
    requires shardCount >= 1
  {
    InsidePush(p) || p.Accepted? ==> ShardOf(p.task.key, shardCount) == shard
  }

  predicate Routed(q: Queue, shard: nat, shardCount: nat)
    requires shardCount >= 1
  {
    && (forall id :: id in q.producers ==> CarriesOwn(q.producers[id], shard, shardCount))
    && (forall k :: 0 <= k < |q.reserved| ==> ShardOf(q.reserved[k].key, shardCount) == shard)
  }

  /** The executed tasks and the one in hand are the popped ones. */
  predicate ThreadOk(w: Worker) {
    var q := w.queue;
    match w.thread
    case NotRunning => q.popped == w.executed && !InsidePop(q.consumer) && (q.consumer.ReturnedTask? ==> q.popped == [])
    case Calling => q.popped == w.executed && q.consumer.ReturnedTask?
    case Popping =>
      (match q.consumer
       case ReturnedTask(task) => q.popped == w.executed + [task]
       case ClearSlot(_, moved) => q.popped == w.executed + [moved]
       case ReleaseSlot(_, moved) => q.popped == w.executed + [moved]
       case StoreHead(_, moved) => q.popped == w.executed + [moved]
       case _ => q.popped == w.executed)
    case Executing(task) => q.popped == w.executed + [task] && q.consumer.ReturnedTask?
    case Exited => q.popped == w.executed && q.consumer.ReturnedFalse?
  }

  /** What holds of a worker whoever was inside push when its ring was reset. */
  predicate Sound(w: Worker, shard: nat, shardCount: nat)
    requires shardCount >= 1
  {
    && Shaped(w.queue) && Routed(w.queue, shard, shardCount) && ThreadOk(w)
    && (w.started <==> !w.thread.NotRunning?)
  }

  predicate WorkerOk(w: Worker, shard: nat, shardCount: nat)
    requires shardCount >= 1
  {
    Sound(w, shard, shardCount) && Ordered(w.queue)
  }

  predicate ControlOk(e: Executor) {
    match e.control
    case Starting(k) => !e.started
    case Joining(k) => forall j :: 0 <= j < k && j < |e.workers| ==> !e.workers[j].started
    case _ => true
  }

  predicate ExecutorSound(e: Executor) {
    && AllShaped(e)
    && (forall s :: 0 <= s < |e.workers| ==> Sound(e.workers[s], s, |e.workers|))
    && ControlOk(e)
  }

  predicate ExecutorInv(e: Executor) {
    ExecutorSound(e) && forall s :: 0 <= s < |e.workers| ==> WorkerOk(e.workers[s], s, |e.workers|)
  }

  lemma RoutedNext(q: Queue, e: TaskQueue.Event, shard: nat, shardCount: nat)
    requires Shaped(q) && shardCount >= 1 && Routed(q, shard, shardCount)
    requires e.CallPush? && e.task.Some? ==> ShardOf(e.task.value.key, shardCount) == shard
    ensures Routed(Next(q, e), shard, shardCount)
  {
    hide ShardOf;
    var r := Next(q, e);
    if e.StepPush? && e.id in q.producers && InsidePush(q.producers[e.id]) {
      var p := q.producers[e.id];
      assert CarriesOwn(p, shard, shardCount);
      assert r.producers == q.producers[e.id := ProducerNext(q, p, e.exchangeFails)];
      assert CarriesOwn(ProducerNext(q, p, e.exchangeFails), shard, shardCount);
      assert r.reserved == q.reserved || r.reserved == q.reserved + [p.task];
    } else {
      assert r.reserved == q.reserved;
    }
  }

  lemma RoutedReset(q: Queue, shard: nat, shardCount: nat)
    requires Shaped(q) && shardCount >= 1 && Routed(q, shard, shardCount)
    ensures Routed(ResetRing(q), shard, shardCount)
  {
    hide ShardOf;
  }

  lemma ThreadStepOk(w: Worker)
    requires Shaped(w.queue) && ThreadOk(w)
    ensures Shaped(WorkerStep(w).queue) && ThreadOk(WorkerStep(w))
  {
  }

  lemma WorkerStepSound(w: Worker, shard: nat, shardCount: nat)
    requires shardCount >= 1 && Sound(w, shard, shardCount)
    ensures Sound(WorkerStep(w), shard, shardCount)
  {
    ThreadStepOk(w);
    RoutedNext(w.queue, CallPop, shard, shardCount);
    RoutedNext(w.queue, StepPop, shard, shardCount);
    hide Routed, ThreadOk;
  }

  lemma WorkerStepOrdered(w: Worker)
    requires Ordered(w.queue)
    ensures Shaped(w.queue) && Ordered(WorkerStep(w).queue)
  {
    OrderedIsShaped(w.queue);
    NextKeepsOrdered(w.queue, CallPop);
    NextKeepsOrdered(w.queue, StepPop);
    hide Ordered;
  }

  /** Steps of producers leave the consumer side of the worker alone. */
  lemma ProducerSideSound(w: Worker, e: TaskQueue.Event, shard: nat, shardCount: nat)
    requires shardCount >= 1 && Sound(w, shard, shardCount)
    requires e.StepPush? || e.RequestStop? || (e.CallPush? && (e.task.Some? ==> ShardOf(e.task.value.key, shardCount) == shard))
    ensures Sound(w.(queue := Next(w.queue, e)), shard, shardCount)
  {
    RoutedNext(w.queue, e, shard, shardCount);
    hide Routed;
    var r := Next(w.queue, e);
    assert r.popped == w.queue.popped && r.consumer == w.queue.consumer;
  }

  /** Starting a worker leaves its tasks in order exactly when it is running in order already, or its
      ring can be reset. */
  lemma StartWorkerOkExactlyWhen(w: Worker, shard: nat, shardCount: nat)
    requires shardCount >= 1 && Sound(w, shard, shardCount)
    ensures Sound(StartWorker(w), shard, shardCount)
    ensures WorkerOk(StartWorker(w), shard, shardCount) <==> if w.started then Ordered(w.queue) else CanReset(w.queue)
  {
    RoutedReset(w.queue, shard, shardCount);
    OrderedAfterResetExactlyWhen(w.queue);
    hide Ordered, CanReset, Routed;
  }

  /** The step resets the ring of worker s. */
  predicate Resets(e: Executor, event: Event, s: nat)
    requires s < |e.workers|
  {
    event.StepControl? && e.control == Starting(s) && !e.workers[s].started
  }

  lemma ControlStepKeepsSound(e: Executor)
    requires ExecutorSound(e)
    ensures ExecutorSound(StepOfControl(e))
  {
    match e.control
    case Idle =>
    case Starting(k) =>
      if k < |e.workers| { StartWorkerOkExactlyWhen(e.workers[k], k, |e.workers|); }
    case Requesting(k) =>
      if k < |e.workers| { ProducerSideSound(e.workers[k], RequestStop, k, |e.workers|); }
    case Joining(k) =>
  }

  /** Replacing one worker by another that is sound keeps the executor sound. */
  lemma ReplaceWorker(e: Executor, shard: nat, w: Worker)
    requires ExecutorSound(e) && shard < |e.workers| && Sound(w, shard, |e.workers|)
    requires w.started == e.workers[shard].started
    ensures ExecutorSound(e.(workers := e.workers[shard := w]))
  {
    var r := e.(workers := e.workers[shard := w]);
    forall s | 0 <= s < |r.workers| ensures Sound(r.workers[s], s, |r.workers|) {
      assert s != shard ==> Sound(e.workers[s], s, |e.workers|);
    }
    hide Sound;
  }

  lemma ExecutorNextKeepsSound(e: Executor, event: Event)
    requires ExecutorSound(e)
    ensures ExecutorSound(ExecutorNext(e, event))
  {
    match event
    case CallStart =>
    case CallStop =>
    case StepControl => ControlStepKeepsSound(e);
    case Post(id, key, body) =>
      var shard := ShardOf(key, |e.workers|);
      var w := e.workers[shard];
      if e.started && body.Some? && w.started {
        var event' := CallPush(id, Some(Task(key, body.value)));
        ProducerSideSound(w, event', shard, |e.workers|);
        ReplaceWorker(e, shard, w.(queue := Next(w.queue, event')));
      }
    case StepProducer(shard, id, exchangeFails) =>
      if shard < |e.workers| {
        var w := e.workers[shard];
        ProducerSideSound(w, StepPush(id, exchangeFails), shard, |e.workers|);
        ReplaceWorker(e, shard, w.(queue := Next(w.queue, StepPush(id, exchangeFails))));
      }
    case StepWorker(shard) =>
      if shard < |e.workers| {
        var w := e.workers[shard];
        WorkerStepSound(w, shard, |e.workers|);
        WorkerStepFrame(w);
        ReplaceWorker(e, shard, WorkerStep(w));
      }
  }

  lemma WorkerStepFrame(w: Worker)
    requires Shaped(w.queue)
    ensures WorkerStep(w).started == w.started
  {
  }

  lemma {:induction false} RunKeepsSound(e: Executor, events: seq<Event>)
    requires ExecutorSound(e)
    ensures ExecutorSound(RunExecutor(e, events))
    decreases |events|
  {
    assert AllShaped(e);
    hide ExecutorSound, ExecutorNext;
    if events != [] {
      ExecutorNextKeepsSound(e, events[0]);
      RunKeepsSound(ExecutorNext(e, events[0]), events[1..]);
    }
  }

  /** Nothing but a reset takes a ring out of order, and only the reset of that ring. */
  lemma NextKeepsRingOrdered(e: Executor, event: Event, s: nat)
    requires AllShaped(e) && s < |e.workers| && Ordered(e.workers[s].queue) && !Resets(e, event, s)
    ensures Ordered(ExecutorNext(e, event).workers[s].queue)
  {
    var q := e.workers[s].queue;
    hide Ordered;
    WorkerStepOrdered(e.workers[s]);
    NextKeepsOrdered(q, RequestStop);
    match event
    case Post(id, key, Some(body)) => NextKeepsOrdered(q, CallPush(id, Some(Task(key, body))));
    case StepProducer(_, id, exchangeFails) => NextKeepsOrdered(q, StepPush(id, exchangeFails));
    case _ =>
  }

  /** The ring of worker s is in order after its reset exactly when it could be reset. */
  lemma NextResetsRing(e: Executor, event: Event, s: nat)
    requires AllShaped(e) && s < |e.workers| && Resets(e, event, s)
    ensures Ordered(ExecutorNext(e, event).workers[s].queue) <==> CanReset(e.workers[s].queue)
  {
    OrderedAfterResetExactlyWhen(e.workers[s].queue);
    hide Ordered, CanReset;
  }

  /** A step keeps the whole executor in order exactly when the ring it resets, if it resets one, can be
      reset. */
  lemma ExecutorNextKeepsInvExactlyWhen(e: Executor, event: Event)
    requires ExecutorInv(e)
    ensures ExecutorInv(ExecutorNext(e, event))
            <==> forall s :: 0 <= s < |e.workers| && Resets(e, event, s) ==> CanReset(e.workers[s].queue)
  {
    ExecutorNextKeepsSound(e, event);
    var r := ExecutorNext(e, event);
    forall s | 0 <= s < |e.workers|
      ensures WorkerOk(r.workers[s], s, |e.workers|) <==> Resets(e, event, s) ==> CanReset(e.workers[s].queue)
    {
      assert WorkerOk(e.workers[s], s, |e.workers|);
      if Resets(e, event, s) { NextResetsRing(e, event, s); } else { NextKeepsRingOrdered(e, event, s); }
      assert Sound(r.workers[s], s, |e.workers|);
    }
    hide WorkerOk, ExecutorNext, CanReset, Resets, Sound;
  }

  /** Two executors with the rings in order in the same places. */
  lemma StillInOrder(before: Executor, after: Executor)
    requires ExecutorSound(after) && |before.workers| == |after.workers|
    requires forall s :: 0 <= s < |after.workers| && Ordered(before.workers[s].queue) ==> Ordered(after.workers[s].queue)
    ensures ExecutorInv(before) ==> ExecutorInv(after)
  {
    hide Ordered, Sound;
    if ExecutorInv(before) {
      forall s | 0 <= s < |after.workers| ensures WorkerOk(after.workers[s], s, |after.workers|) {
        assert WorkerOk(before.workers[s], s, |before.workers|);
      }
    }
  }

  /** The last reset of ring s in the run, if there is one, finds every producer where it may be; safe says
      so of the resets before the run. */
  predicate LastResetSafe(e: Executor, events: seq<Event>, s: nat, safe: bool)
    requires AllShaped(e) && s < |e.workers|
    decreases |events|
  {
    if events == [] then safe
    else
      LastResetSafe(ExecutorNext(e, events[0]), events[1..], s,
                    if Resets(e, events[0], s) then CanReset(e.workers[s].queue) else safe)
  }

  lemma {:induction false} RunKeepsRingOrdered(e: Executor, events: seq<Event>, s: nat, safe: bool)
    requires AllShaped(e) && s < |e.workers| && (safe ==> Ordered(e.workers[s].queue))
    requires LastResetSafe(e, events, s, safe)
    ensures Ordered(RunExecutor(e, events).workers[s].queue)
    decreases |events|
  {
    hide Ordered, ExecutorNext, CanReset, Resets;
    if events != [] {
      if Resets(e, events[0], s) {
        NextResetsRing(e, events[0], s);
        RunKeepsRingOrdered(ExecutorNext(e, events[0]), events[1..], s, CanReset(e.workers[s].queue));
      } else {
        if safe { NextKeepsRingOrdered(e, events[0], s); }
        RunKeepsRingOrdered(ExecutorNext(e, events[0]), events[1..], s, safe);
      }
    }
  }

  /** A worker of any run whose ring was last reset safely is in order. */
  lemma ReachedWorkerOk(shardCount: nat, capacity: nat, events: seq<Event>, s: nat)
    requires shardCount >= 1 && capacity >= 1 && s < shardCount
    requires LastResetSafe(Fresh(shardCount, capacity), events, s, true)
    ensures var e := RunExecutor(Fresh(shardCount, capacity), events);
            WorkerOk(e.workers[s], s, shardCount) && ControlOk(e)
  {
    var e := Fresh(shardCount, capacity);
    assert WorkerOk(e.workers[s], s, shardCount);
    RunKeepsSound(e, events);
    RunKeepsRingOrdered(e, events, s, true);
    hide Sound, Ordered, Fresh, RunExecutor, ControlOk;
  }

  /* ---------------------------------- theorems ---------------------------------- */

  /** The tasks of one key, in order. */
  function OfKey(tasks: seq<Task>, key: nat): seq<Task> {
    if tasks == [] then []
    else
      var rest := OfKey(tasks[..|tasks| - 1], key);
      if tasks[|tasks| - 1].key == key then rest + [tasks[|tasks| - 1]] else rest
  }

  lemma {:induction false} OfKeyPrefix(tasks: seq<Task>, n: nat, key: nat)
    requires n <= |tasks|
    ensures OfKey(tasks[..n], key) <= OfKey(tasks, key)
    decreases |tasks|
  {
    if n < |tasks| {
      OfKeyPrefix(tasks[..|tasks| - 1], n, key);
      assert tasks[..|tasks| - 1][..n] == tasks[..n];
    } else {
      assert tasks[..n] == tasks;
    }
  }

  lemma {:induction false} OfKeyOnlyThere(tasks: seq<Task>, key: nat)
    requires forall k :: 0 <= k < |tasks| ==> tasks[k].key != key
    ensures OfKey(tasks, key) == []
  {
    if tasks != [] {
      OfKeyOnlyThere(tasks[..|tasks| - 1], key);
    }
  }

  /** The worker has executed a prefix of its tasks in reservation order, the task in hand is the
      next one, and a key of another shard has no task here. */
  predicate WorkerInOrder(w: Worker, s: nat, shardCount: nat, key: nat)
    requires shardCount >= 1
  {
    && |w.executed| <= |w.queue.reserved|
    && (forall k :: 0 <= k < |w.executed| ==> w.executed[k] == Some(w.queue.reserved[k]))
    && (w.thread.Executing? ==>
          |w.executed| < |w.queue.reserved| && w.thread.task == Some(w.queue.reserved[|w.executed|]))
    && OfKey(w.queue.reserved[..|w.executed|], key) <= OfKey(w.queue.reserved, key)
    && (ShardOf(key, shardCount) != s ==> OfKey(w.queue.reserved, key) == [])
  }

  lemma ExecutedIsPrefix(w: Worker, s: nat, shardCount: nat)
    requires shardCount >= 1 && WorkerOk(w, s, shardCount)
    ensures |w.executed| <= |w.queue.reserved|
    ensures forall k :: 0 <= k < |w.executed| ==> w.executed[k] == Some(w.queue.reserved[k])
    ensures w.thread.Executing? ==>
              |w.executed| < |w.queue.reserved| && w.thread.task == Some(w.queue.reserved[|w.executed|])
  {
    hide SlotsOk, ProducersOk, ConsumerOk, Routed;
    var q := w.queue;
    assert w.executed <= q.popped;
    forall k | 0 <= k < |w.executed| ensures w.executed[k] == Some(q.reserved[k]) {
      assert w.executed[k] == q.popped[k];
    }
    if w.thread.Executing? {
      assert q.popped[|w.executed|] == w.thread.task;
    }
  }

  lemma WorkerOkIsInOrder(w: Worker, s: nat, shardCount: nat, key: nat)
    requires shardCount >= 1 && WorkerOk(w, s, shardCount)
    ensures WorkerInOrder(w, s, shardCount, key)
  {
    ExecutedIsPrefix(w, s, shardCount);
    OfKeyPrefix(w.queue.reserved, |w.executed|, key);
    if ShardOf(key, shardCount) != s {
      OfKeyOnlyThere(w.queue.reserved, key);
    }
  }

  /** Over every run of producers, workers, starts and stops, as long as the ring was last reset safely: a
      shard has executed exactly a prefix of its tasks in reservation order, and the task in hand is the
      next one. So the tasks of a key run one at a time in reservation order, and only on the shard of
      that key. */
  lemma TasksOfAKeyRunInOrder(shardCount: nat, capacity: nat, events: seq<Event>, s: nat, key: nat)
    requires shardCount >= 1 && capacity >= 1 && s < shardCount
    requires LastResetSafe(Fresh(shardCount, capacity), events, s, true)
    ensures WorkerInOrder(RunExecutor(Fresh(shardCount, capacity), events).workers[s], s, shardCount, key)
  {
    ReachedWorkerOk(shardCount, capacity, events, s);
    hide WorkerOk, RunExecutor, Fresh;
    WorkerOkIsInOrder(RunExecutor(Fresh(shardCount, capacity), events).workers[s], s, shardCount, key);
  }

  /** The worker has left its loop with every task reserved before its final check executed. */
  predicate Drained(w: Worker) {
    && w.thread.NotRunning?
    && (w.queue.consumer.ReturnedFalse? ==>
          && w.queue.stopped
          && |w.executed| == w.queue.consumer.drained <= |w.queue.reserved|
          && forall k :: 0 <= k < |w.executed| ==> w.executed[k] == Some(w.queue.reserved[k]))
    && (!w.queue.consumer.ReturnedFalse? ==> w.executed == [] && w.queue.popped == [])
  }

  /** stop returns only after every worker that was started has left its loop. A worker whose ring was
      last reset safely has then executed every task reserved before its final emptiness check. */
  lemma StopReturnsDrained(shardCount: nat, capacity: nat, events: seq<Event>, s: nat)
    requires shardCount >= 1 && capacity >= 1 && s < shardCount
    requires RunExecutor(Fresh(shardCount, capacity), events).control == Joining(shardCount)
    ensures var e := RunExecutor(Fresh(shardCount, capacity), events);
            && ExecutorNext(e, StepControl) == e.(started := false, control := Idle)
            && !e.workers[s].started && e.workers[s].thread.NotRunning?
    ensures LastResetSafe(Fresh(shardCount, capacity), events, s, true) ==>
              Drained(RunExecutor(Fresh(shardCount, capacity), events).workers[s])
  {
    var e := RunExecutor(Fresh(shardCount, capacity), events);
    RunKeepsSound(Fresh(shardCount, capacity), events);
    assert Sound(e.workers[s], s, shardCount) && !e.workers[s].started;
    if LastResetSafe(Fresh(shardCount, capacity), events, s, true) {
      ReachedWorkerOk(shardCount, capacity, events, s);
      hide RunExecutor, Fresh, LastResetSafe;
      ExecutedIsPrefix(e.workers[s], s, shardCount);
    }
  }

  lemma AllStarted(before: seq<Worker>, after: seq<Worker>)
    requires |after| == |before| >= 1
    requires forall s :: 0 <= s < |before| ==> Sound(before[s], s, |before|)
    requires forall s :: 0 <= s < |before| ==> Shaped(before[s].queue) && after[s] == StartWorker(before[s])
    ensures ExecutorSound(Executor(after, true, Idle))
    ensures ExecutorInv(Executor(after, true, Idle))
            <==> forall s :: 0 <= s < |before| ==> CanStart(before[s])
  {
    forall s | 0 <= s < |before|
      ensures Sound(after[s], s, |before|) && (WorkerOk(after[s], s, |before|) <==> CanStart(before[s]))
      ensures Shaped(after[s].queue)
    {
      StartWorkerOkExactlyWhen(before[s], s, |before|);
    }
    hide WorkerOk, CanStart, StartWorker, Sound;
  }

  /** The worker is running in order, or its ring can be reset. */
  predicate CanStart(w: Worker) {
    if w.started then Ordered(w.queue) else CanReset(w.queue)
  }

  /* ---------------------------------- the class ---------------------------------- */

  class TaskExecutor {
    var workers: seq<Worker>
    var started: bool
    ghost var control: Control

    ghost function View(): Executor
      reads this
    {
      Executor(workers, started, control)
    }

    constructor (shardCount: nat, capacity: nat)
      ensures View() == Fresh(if shardCount >= 1 then shardCount else 1, if capacity >= 1 then capacity else 1)
      ensures ExecutorInv(View())
    {
      var shards, size := if shardCount >= 1 then shardCount else 1, if capacity >= 1 then capacity else 1;
      workers := seq(shards, _ => Worker(Init(size), false, NotRunning, []));
      started, control := false, Idle;
      new;
      assert View() == Fresh(shards, size);
    }

    /** start with no other thread running: every worker that is not running gets an empty ring. The
        executor is in order afterwards exactly when each of these rings could be reset and the rest are in
        order. */
    method Start()
      requires ExecutorSound(View()) && control.Idle?
      modifies this
      ensures control.Idle? && started
      ensures old(started) ==> View() == old(View())
      ensures !old(started) ==>
                && |workers| == |old(workers)|
                && forall s :: 0 <= s < |workers| ==> workers[s] == StartWorker(old(workers)[s])
      ensures ExecutorSound(View())
      ensures !old(started) ==> (ExecutorInv(View()) <==> forall s :: 0 <= s < |old(workers)| ==> CanStart(old(workers)[s]))
    {
      if started { return; }
      ghost var before := workers;
      var i := 0;
      while i < |workers|
        invariant 0 <= i <= |workers| == |before| && control.Idle?
        invariant forall s :: 0 <= s < |workers| ==> Shaped(workers[s].queue)
        invariant forall s :: 0 <= s < i ==> workers[s] == StartWorker(before[s])
        invariant forall s :: i <= s < |workers| ==> workers[s] == before[s]
      {
        workers := workers[i := StartWorker(workers[i])];
        i := i + 1;
      }
      started := true;
      AllStarted(before, workers);
    }

    /** The first half of stop: ask every running worker to stop. */
    method RequestStopAll()
      requires ExecutorSound(View()) && control.Idle?
      modifies this
      ensures old(ExecutorInv(View())) ==> ExecutorInv(View())
      ensures ExecutorSound(View()) && control == Joining(0) && started == old(started)
      ensures |workers| == |old(workers)|
      ensures forall s :: 0 <= s < |workers| ==> workers[s] == RequestWorkerStop(old(workers)[s])
    {
      hide Ordered;
      ghost var before := workers;
      control := Requesting(0);
      var i := 0;
      while i < |workers|
        invariant 0 <= i <= |workers| == |before|
        invariant ExecutorSound(View()) && control == Requesting(i) && started == old(started)
        invariant forall s :: 0 <= s < i ==> workers[s] == RequestWorkerStop(before[s])
        invariant forall s :: i <= s < |workers| ==> workers[s] == before[s]
      {
        ControlStepKeepsSound(View());
        workers := workers[i := RequestWorkerStop(workers[i])];
        i := i + 1;
        control := Requesting(i);
      }
      ControlStepKeepsSound(View());
      control := Joining(0);
      forall s | 0 <= s < |workers| && Ordered(before[s].queue) ensures Ordered(workers[s].queue) {
        NextKeepsOrdered(before[s].queue, RequestStop);
      }
      StillInOrder(old(View()), View());
    }

    /** The second half of stop, once every running worker has left its loop. */
    method JoinAll()
      requires ExecutorSound(View()) && control == Joining(0)
      requires forall s :: 0 <= s < |workers| ==> CanJoin(workers[s])
      modifies this
      ensures old(ExecutorInv(View())) ==> ExecutorInv(View())
      ensures ExecutorSound(View()) && control.Idle? && !started
      ensures |workers| == |old(workers)|
      ensures forall s :: 0 <= s < |workers| ==>
                && !workers[s].started
                && workers[s].executed == old(workers)[s].executed
                && workers[s].queue == old(workers)[s].queue
    {
      hide Ordered;
      ghost var before := workers;
      var i := 0;
      while i < |workers|
        invariant 0 <= i <= |workers| == |before|
        invariant ExecutorSound(View()) && control == Joining(i)
        invariant forall s :: 0 <= s < i ==> workers[s] == JoinWorker(before[s])
        invariant forall s :: i <= s < |workers| ==> workers[s] == before[s]
      {
        ControlStepKeepsSound(View());
        workers := workers[i := JoinWorker(workers[i])];
        i := i + 1;
        control := Joining(i);
      }
      ControlStepKeepsSound(View());
      started, control := false, Idle;
      StillInOrder(old(View()), View());
    }

    /** post enters push on the ring of the key's shard, and on no other. */
    method Post(id: nat, key: nat, body: Option<nat>) returns (entered: bool)
      requires ExecutorSound(View())
      modifies this`workers
      ensures ExecutorSound(View())
      ensures old(ExecutorInv(View())) ==> ExecutorInv(View())
      ensures View() == ExecutorNext(old(View()), Event.Post(id, key, body))
      ensures entered == (started && body.Some? && old(workers)[ShardOf(key, |old(workers)|)].started)
      ensures forall s :: 0 <= s < |workers| && s != ShardOf(key, |workers|) ==> workers[s] == old(workers)[s]
    {
      ExecutorNextKeepsSound(View(), Event.Post(id, key, body));
      if ExecutorInv(View()) { ExecutorNextKeepsInvExactlyWhen(View(), Event.Post(id, key, body)); }
      var shard := ShardOf(key, |workers|);
      entered := started && body.Some? && workers[shard].started;
      if entered {
        workers := workers[shard := workers[shard].(
          queue := Next(workers[shard].queue, CallPush(id, Some(Task(key, body.value)))))];
      }
    }
  }
}
