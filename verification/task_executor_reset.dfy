/** What starting the executor does under producers that are still inside push since before it was
    stopped. */
module TaskExecutorReset {
  import opened Wrappers
  import TQ = TaskQueue
  import opened TaskQueueReset
  import TaskQueueTheorems
  import opened TaskExecutors

  /* ------------------------- runs without another reset of a ring ------------------------- */

  predicate NoReset(e: Executor, events: seq<Event>, s: nat)
    requires AllShaped(e) && s < |e.workers|
    decreases |events|
  {
    events == [] || (!Resets(e, events[0], s) && NoReset(ExecutorNext(e, events[0]), events[1..], s))
  }

  lemma {:induction false} NoResetIsSafe(e: Executor, events: seq<Event>, s: nat, safe: bool)
    requires AllShaped(e) && s < |e.workers| && NoReset(e, events, s)
    ensures LastResetSafe(e, events, s, safe) == safe
    decreases |events|
  {
    hide ExecutorNext, Resets;
    if events != [] {
      NoResetIsSafe(ExecutorNext(e, events[0]), events[1..], s, safe);
    }
  }

  /** Some run that does not reset ring s leads from the one executor to the other. */
  ghost predicate Drives(from: Executor, e: Executor, s: nat)
    requires AllShaped(from) && s < |from.workers|
  {
    exists events :: NoReset(from, events, s) && RunExecutor(from, events) == e
  }

  lemma {:induction false} OneMoreEvent(from: Executor, events: seq<Event>, event: Event, s: nat)
    requires AllShaped(from) && s < |from.workers| && NoReset(from, events, s)
    requires !Resets(RunExecutor(from, events), event, s)
    ensures NoReset(from, events + [event], s)
    ensures RunExecutor(from, events + [event]) == ExecutorNext(RunExecutor(from, events), event)
    decreases |events|
  {
    hide ExecutorNext, Resets;
    if events == [] {
      assert RunExecutor(ExecutorNext(from, event), []) == ExecutorNext(from, event);
      assert NoReset(ExecutorNext(from, event), [], s);
    } else {
      assert (events + [event])[1..] == events[1..] + [event];
      OneMoreEvent(ExecutorNext(from, events[0]), events[1..], event, s);
    }
  }

  lemma DrivesItself(e: Executor, s: nat)
    requires AllShaped(e) && s < |e.workers|
    ensures Drives(e, e, s)
  {
    assert NoReset(e, [], s) && RunExecutor(e, []) == e;
  }

  lemma DrivesOneMore(from: Executor, e: Executor, event: Event, s: nat)
    requires AllShaped(from) && s < |from.workers| && AllShaped(e) && |e.workers| == |from.workers|
    requires Drives(from, e, s) && !Resets(e, event, s)
    ensures Drives(from, ExecutorNext(e, event), s)
  {
    hide ExecutorNext, Resets;
    var events :| NoReset(from, events, s) && RunExecutor(from, events) == e;
    OneMoreEvent(from, events, event, s);
  }

  /* ------------------------- a run of the ring is a run of the executor ------------------------- */

  /** The consumer has not seen the ring stopped. */
  predicate Awake(q: TQ.Queue) {
    !q.stopped && !q.consumer.EmptyLoadHead? && !q.consumer.EmptyLoadTail? && !q.consumer.ReturnedFalse?
  }

  lemma AwakeNext(q: TQ.Queue, event: TQ.Event)
    requires TQ.Shaped(q) && Awake(q) && !event.RequestStop?
    ensures Awake(TQ.Next(q, event))
  {
  }

  /** The executor runs and worker s serves its ring. */
  predicate Running(e: Executor, s: nat) {
    && ExecutorSound(e) && s < |e.workers|
    && e.control.Idle? && e.started && e.workers[s].started && Awake(e.workers[s].queue)
  }

  /** The thread of a running worker steps its consumer, or is on its way back to wait_pop. */
  lemma RunningThread(e: Executor, s: nat)
    requires Running(e, s)
    ensures var w := e.workers[s];
            || (w.thread.Calling? && w.queue.consumer.ReturnedTask?)
            || (w.thread.Executing? && w.queue.consumer.ReturnedTask?)
            || (w.thread.Popping? && (TQ.InsidePop(w.queue.consumer) || w.queue.consumer.ReturnedTask?))
  {
    assert Sound(e.workers[s], s, |e.workers|);
  }

  /** An event that drives ring s alone. */
  lemma RingEvent(from: Executor, e: Executor, s: nat, event: Event, ringEvent: TQ.Event)
    requires AllShaped(from) && s < |from.workers| == |e.workers| && Running(e, s) && Drives(from, e, s)
    requires !event.CallStart? && !event.CallStop? && !ringEvent.RequestStop?
    requires var r := ExecutorNext(e, event);
             r.workers[s].queue == TQ.Next(e.workers[s].queue, ringEvent) && r.workers[s].started
    ensures var r := ExecutorNext(e, event); Running(r, s) && Drives(from, r, s)
  {
    ExecutorNextKeepsSound(e, event);
    DrivesOneMore(from, e, event, s);
    AwakeNext(e.workers[s].queue, ringEvent);
    hide Drives, ExecutorSound, Awake;
  }

  /** A step of the thread outside wait_pop. */
  lemma ThreadEvent(from: Executor, e: Executor, s: nat) returns (r: Executor)
    requires AllShaped(from) && s < |from.workers| == |e.workers| && Running(e, s) && Drives(from, e, s)
    requires !TQ.InsidePop(e.workers[s].queue.consumer) && !e.workers[s].thread.Calling?
    ensures |r.workers| == |e.workers| && Running(r, s) && Drives(from, r, s)
    ensures r.workers[s].queue == e.workers[s].queue
    ensures r.workers[s].thread == if e.workers[s].thread.Popping? then Executing(e.workers[s].queue.consumer.result) else Calling
  {
    RunningThread(e, s);
    r := ExecutorNext(e, StepWorker(s));
    ExecutorNextKeepsSound(e, StepWorker(s));
    DrivesOneMore(from, e, StepWorker(s), s);
    hide Drives, ExecutorSound, Awake;
  }

  /** The thread of a running worker that is outside wait_pop comes back to call it. */
  lemma BackToCall(from: Executor, e: Executor, s: nat) returns (r: Executor)
    requires AllShaped(from) && s < |from.workers| == |e.workers| && Running(e, s) && Drives(from, e, s)
    requires !TQ.InsidePop(e.workers[s].queue.consumer)
    ensures |r.workers| == |e.workers| && Running(r, s) && Drives(from, r, s)
    ensures r.workers[s].queue == e.workers[s].queue && r.workers[s].thread.Calling?
  {
    hide Drives, Running;
    r := e;
    RunningThread(e, s);
    if r.workers[s].thread.Popping? { r := ThreadEvent(from, r, s); }
    if r.workers[s].thread.Executing? { r := ThreadEvent(from, r, s); }
  }

  /** Each event of ring s is a run of the executor, when the tasks pushed are those of the shard. */
  lemma LiftEvent(from: Executor, e: Executor, s: nat, ringEvent: TQ.Event) returns (r: Executor)
    requires AllShaped(from) && s < |from.workers| == |e.workers| && Running(e, s) && Drives(from, e, s)
    requires !ringEvent.RequestStop?
    requires ringEvent.CallPush? ==> ringEvent.task.Some? && ShardOf(ringEvent.task.value.key, |e.workers|) == s
    ensures |r.workers| == |e.workers| && Running(r, s) && Drives(from, r, s)
    ensures TQ.Shaped(e.workers[s].queue) && r.workers[s].queue == TQ.Next(e.workers[s].queue, ringEvent)
  {
    hide Drives;
    match ringEvent
    case CallPush(id, Some(task)) =>
      r := ExecutorNext(e, Post(id, task.key, Some(task.body)));
      RingEvent(from, e, s, Post(id, task.key, Some(task.body)), ringEvent);
    case StepPush(id, exchangeFails) =>
      r := ExecutorNext(e, StepProducer(s, id, exchangeFails));
      RingEvent(from, e, s, StepProducer(s, id, exchangeFails), ringEvent);
    case CallPop =>
      if TQ.InsidePop(e.workers[s].queue.consumer) {
        r := e;
      } else {
        var c := BackToCall(from, e, s);
        r := ExecutorNext(c, StepWorker(s));
        RingEvent(from, c, s, StepWorker(s), ringEvent);
      }
    case StepPop =>
      if TQ.InsidePop(e.workers[s].queue.consumer) {
        RunningThread(e, s);
        r := ExecutorNext(e, StepWorker(s));
        RingEvent(from, e, s, StepWorker(s), ringEvent);
      } else {
        r := e;
      }
  }

  lemma {:induction false} StoppedStays(q: TQ.Queue, events: seq<TQ.Event>)
    requires TQ.Shaped(q) && q.stopped
    ensures TQ.Run(q, events).stopped
    decreases |events|
  {
    if events != [] {
      assert TQ.Next(q, events[0]).stopped;
      hide TQ.Next;
      StoppedStays(TQ.Next(q, events[0]), events[1..]);
    }
  }

  /** A run of ring s that stops nothing and pushes tasks of one key only. */
  lemma {:induction false} LiftRun(from: Executor, e: Executor, s: nat, ringEvents: seq<TQ.Event>, x: TQ.Task)
    returns (r: Executor)
    requires AllShaped(from) && s < |from.workers| == |e.workers| && Running(e, s) && Drives(from, e, s)
    requires TaskQueueTheorems.OnlyPushes(ringEvents, {x}) && ShardOf(x.key, |e.workers|) == s
    requires TQ.Shaped(e.workers[s].queue) && !TQ.Run(e.workers[s].queue, ringEvents).stopped
    ensures |r.workers| == |e.workers| && Running(r, s) && Drives(from, r, s)
    ensures r.workers[s].queue == TQ.Run(e.workers[s].queue, ringEvents)
    decreases |ringEvents|
  {
    hide Drives, Running, TQ.Next;
    if ringEvents == [] {
      r := e;
    } else {
      var ringEvent, rest := ringEvents[0], ringEvents[1..];
      if ringEvent.RequestStop? {
        StopStops(e.workers[s].queue);
        StoppedStays(TQ.Next(e.workers[s].queue, ringEvent), rest);
        assert false;
      }
      r := LiftEvent(from, e, s, ringEvent);
      NextShaped(e.workers[s].queue, ringEvent);
      r := LiftRun(from, r, s, rest, x);
    }
  }

  lemma StopStops(q: TQ.Queue)
    requires TQ.Shaped(q)
    ensures TQ.Shaped(TQ.Next(q, TQ.RequestStop)) && TQ.Next(q, TQ.RequestStop).stopped
  {
  }

  lemma NextShaped(q: TQ.Queue, event: TQ.Event)
    requires TQ.Shaped(q)
    ensures TQ.Shaped(TQ.Next(q, event))
  {
  }

  /* ------------------------- the order after a start ------------------------- */

  /** The start goes on to its end and leaves worker s alone. */
  lemma {:induction false} StartEnds(from: Executor, e: Executor, s: nat) returns (r: Executor)
    requires AllShaped(from) && s < |from.workers| == |e.workers| && ExecutorSound(e) && Drives(from, e, s)
    requires e.control.Starting? && e.control.next > s
    ensures |r.workers| == |e.workers| && ExecutorSound(r) && Drives(from, r, s)
    ensures r.control.Idle? && r.started && r.workers[s] == e.workers[s]
    decreases |e.workers| - e.control.next
  {
    r := ExecutorNext(e, StepControl);
    ExecutorNextKeepsSound(e, StepControl);
    DrivesOneMore(from, e, StepControl, s);
    hide Drives, ExecutorSound;
    if e.control.next < |e.workers| {
      r := StartEnds(from, r, s);
    }
  }

  /** When the consumer has been handed something else than the reserved tasks, the worker runs it. */
  lemma DisorderIsExecuted(from: Executor, e: Executor, s: nat) returns (r: Executor)
    requires AllShaped(from) && s < |from.workers| == |e.workers| && Running(e, s) && Drives(from, e, s)
    requires !InOrder(e.workers[s].queue) && e.workers[s].queue.consumer.ReturnedTask?
    ensures |r.workers| == |e.workers| && Drives(from, r, s)
    ensures !WorkerInOrder(r.workers[s], s, |r.workers|, 0)
  {
    hide Drives;
    r := BackToCall(from, e, s);
    var w := r.workers[s];
    assert Sound(w, s, |r.workers|);
    assert w.queue.popped == w.executed;
    hide Running, Sound;
  }

  lemma UnsafeResetBreaksOrder(e: Executor, s: nat) returns (events: seq<Event>)
    requires ExecutorSound(e) && s < |e.workers| && Resets(e, StepControl, s)
    requires !CanReset(e.workers[s].queue)
    ensures var next := ExecutorNext(e, StepControl);
            && NoReset(next, events, s)
            && !WorkerInOrder(RunExecutor(next, events).workers[s], s, |e.workers|, 0)
  {
    var next, q := ExecutorNext(e, StepControl), e.workers[s].queue;
    ExecutorNextKeepsSound(e, StepControl);
    DrivesItself(next, s);
    var started := StartEnds(next, next, s);
    assert started.workers[s] == StartWorker(e.workers[s]);
    assert Awake(started.workers[s].queue);
    var broken, x := ResetBreaksOrder(q, s);
    assert ShardOf(x.key, |e.workers|) == s;
    hide Drives, WorkerInOrder, ExecutorNext, CanReset, NoReset;
    var ringEvents :| TaskQueueTheorems.OnlyPushes(ringEvents, {x}) && TQ.Run(TQ.ResetRing(q), ringEvents) == broken;
    var r := LiftRun(next, started, s, ringEvents, x);
    r := DisorderIsExecuted(next, r, s);
    events := EventsOf(next, r, s);
  }

  lemma EventsOf(from: Executor, e: Executor, s: nat) returns (events: seq<Event>)
    requires AllShaped(from) && s < |from.workers| && Drives(from, e, s)
    ensures NoReset(from, events, s) && RunExecutor(from, events) == e
  {
    events :| NoReset(from, events, s) && RunExecutor(from, events) == e;
  }

  lemma SafeResetKeepsOrder(e: Executor, s: nat, events: seq<Event>, key: nat)
    requires ExecutorSound(e) && s < |e.workers| && Resets(e, StepControl, s)
    requires CanReset(e.workers[s].queue) && NoReset(ExecutorNext(e, StepControl), events, s)
    ensures WorkerInOrder(RunExecutor(ExecutorNext(e, StepControl), events).workers[s], s, |e.workers|, key)
  {
    var next := ExecutorNext(e, StepControl);
    ExecutorNextKeepsSound(e, StepControl);
    NextResetsRing(e, StepControl, s);
    NoResetIsSafe(next, events, s, true);
    RunKeepsSound(next, events);
    hide CanReset, NoReset;
    RunKeepsRingOrdered(next, events, s, true);
    var r := RunExecutor(next, events);
    assert Sound(r.workers[s], s, |r.workers|);
    hide RunExecutor, ExecutorNext, Sound;
    WorkerOkIsInOrder(r.workers[s], s, |r.workers|, key);
  }

  /** Any run that is about to reset the ring of a worker, whatever happened in it before: until that ring
      is reset again the worker runs its tasks in the order reserved, whatever happens, exactly when the
      reset finds every producer where it may be. */
  lemma StartKeepsOrderExactlyWhen(shardCount: nat, capacity: nat, before: seq<Event>, s: nat)
    requires shardCount >= 1 && capacity >= 1 && s < shardCount
    requires Resets(RunExecutor(Fresh(shardCount, capacity), before), StepControl, s)
    ensures var e := RunExecutor(Fresh(shardCount, capacity), before);
            var next := ExecutorNext(e, StepControl);
            (forall events, key :: NoReset(next, events, s) ==>
               WorkerInOrder(RunExecutor(next, events).workers[s], s, shardCount, key))
            <==> CanReset(e.workers[s].queue)
  {
    var e := RunExecutor(Fresh(shardCount, capacity), before);
    RunKeepsSound(Fresh(shardCount, capacity), before);
    var next := ExecutorNext(e, StepControl);
    if CanReset(e.workers[s].queue) {
      forall events, key | NoReset(next, events, s)
        ensures WorkerInOrder(RunExecutor(next, events).workers[s], s, shardCount, key)
      {
        SafeResetKeepsOrder(e, s, events, key);
      }
    } else {
      var events := UnsafeResetBreaksOrder(e, s);
    }
  }

  /* ------------------------- a task lost by a restart ------------------------- */

  /** Some run of an executor with one shard and one slot leads to it. */
  ghost predicate Reached(e: Executor) {
    exists events :: RunExecutor(Fresh(1, 1), events) == e
  }

  lemma {:induction false} RunOneMore(e: Executor, events: seq<Event>, event: Event)
    requires AllShaped(e)
    ensures RunExecutor(e, events + [event]) == ExecutorNext(RunExecutor(e, events), event)
    decreases |events|
  {
    hide ExecutorNext;
    if events == [] {
      assert RunExecutor(ExecutorNext(e, event), []) == ExecutorNext(e, event);
    } else {
      assert (events + [event])[1..] == events[1..] + [event];
      RunOneMore(ExecutorNext(e, events[0]), events[1..], event);
    }
  }

  lemma ReachedNext(e: Executor, event: Event, r: Executor)
    requires AllShaped(e) && Reached(e) && ExecutorNext(e, event) == r
    ensures Reached(r)
  {
    hide ExecutorNext, Fresh;
    var events :| RunExecutor(Fresh(1, 1), events) == e;
    RunOneMore(Fresh(1, 1), events, event);
  }

  const Lost: TQ.Task := TQ.Task(0, 7)

  function Single(w: Worker, started: bool, control: Control): (e: Executor)
    requires TQ.Shaped(w.queue)
    ensures AllShaped(e) && |e.workers| == 1
  {
    Executor([w], started, control)
  }

  /** The ring of one slot, with producer 0 inside push. */
  function Ring(p: TQ.Producer, consumer: TQ.Consumer, stopped: bool): (q: TQ.Queue)
    ensures TQ.Shaped(q)
  {
    TQ.Init(1).(producers := map[0 := p], consumer := consumer, stopped := stopped)
  }

  lemma ProducerMoves(w: Worker, started: bool, control: Control, r: TQ.Queue)
    requires TQ.Shaped(w.queue) && Reached(Single(w, started, control))
    requires r == TQ.Next(w.queue, TQ.StepPush(0, false))
    ensures Reached(Single(w.(queue := r), started, control))
  {
    hide Reached;
    ReachedNext(Single(w, started, control), StepProducer(0, 0, false), Single(w.(queue := r), started, control));
  }

  lemma WorkerMoves(w: Worker, started: bool, control: Control, r: Worker)
    requires TQ.Shaped(w.queue) && Reached(Single(w, started, control)) && r == WorkerStep(w)
    ensures TQ.Shaped(r.queue) && Reached(Single(r, started, control))
  {
    hide Reached;
    ReachedNext(Single(w, started, control), StepWorker(0), Single(r, started, control));
  }

  lemma Starts(w: Worker)
    requires TQ.Shaped(w.queue) && !w.started && Reached(Single(w, false, Idle))
    ensures Reached(Single(StartWorker(w), true, Idle))
  {
    hide Reached;
    var r := StartWorker(w);
    assert TQ.Shaped(r.queue);
    ReachedNext(Single(w, false, Idle), CallStart, Single(w, false, Starting(0)));
    ReachedNext(Single(w, false, Starting(0)), StepControl, Single(r, false, Starting(1)));
    ReachedNext(Single(r, false, Starting(1)), StepControl, Single(r, true, Idle));
  }

  lemma FreshStarts()
    ensures Reached(Single(Worker(TQ.Init(1), true, Calling, []), true, Idle))
  {
    var w := Worker(TQ.Init(1), false, NotRunning, []);
    assert Fresh(1, 1) == Single(w, false, Idle);
    assert RunExecutor(Fresh(1, 1), []) == Fresh(1, 1);
    hide Reached, RunExecutor, Fresh;
    Starts(w);
    assert TQ.ResetRing(TQ.Init(1)) == TQ.Init(1);
  }

  lemma PushIsPosted()
    ensures Reached(Single(Worker(Ring(TQ.LoadStopped(Lost), TQ.ReturnedTask(None), false), true, Calling, []), true, Idle))
  {
    FreshStarts();
    hide Reached;
    var w := Worker(TQ.Init(1), true, Calling, []);
    var q := Ring(TQ.LoadStopped(Lost), TQ.ReturnedTask(None), false);
    assert TQ.Next(w.queue, TQ.CallPush(0, Some(Lost))) == q;
    assert ShardOf(0, 1) == 0;
    ReachedNext(Single(w, true, Idle), Post(0, 0, Some(7)), Single(w.(queue := q), true, Idle));
  }

  /** A push comes as far as its exchange. */
  lemma PushStarts()
    ensures Reached(Single(Worker(Ring(TQ.CompareExchange(Lost, 0), TQ.ReturnedTask(None), false), true, Calling, []), true, Idle))
  {
    PushIsPosted();
    hide Reached;
    var none := TQ.ReturnedTask(None);
    var w := Worker(Ring(TQ.LoadStopped(Lost), none, false), true, Calling, []);
    ProducerMoves(w, true, Idle, Ring(TQ.LoadTail(Lost), none, false));
    ProducerMoves(w.(queue := Ring(TQ.LoadTail(Lost), none, false)), true, Idle, Ring(TQ.LoadHead(Lost, 0), none, false));
    ProducerMoves(w.(queue := Ring(TQ.LoadHead(Lost, 0), none, false)), true, Idle,
                  Ring(TQ.CompareExchange(Lost, 0), none, false));
  }

  /** The executor is asked to stop. */
  lemma StopIsRequested()
    ensures Reached(Single(Worker(Ring(TQ.CompareExchange(Lost, 0), TQ.ReturnedTask(None), true), true, Calling, []), true, Joining(0)))
  {
    PushStarts();
    hide Reached;
    var w := Worker(Ring(TQ.CompareExchange(Lost, 0), TQ.ReturnedTask(None), false), true, Calling, []);
    var r := w.(queue := w.queue.(stopped := true));
    ReachedNext(Single(w, true, Idle), CallStop, Single(w, true, Requesting(0)));
    ReachedNext(Single(w, true, Requesting(0)), StepControl, Single(r, true, Requesting(1)));
    ReachedNext(Single(r, true, Requesting(1)), StepControl, Single(r, true, Joining(0)));
  }

  /** The worker finds the ring empty and leaves its loop. */
  lemma WorkerExits()
    ensures Reached(Single(Worker(Ring(TQ.CompareExchange(Lost, 0), TQ.ReturnedFalse(0), true), true, Exited, []), true, Joining(0)))
  {
    StopIsRequested();
    hide Reached;
    var w := Worker(Ring(TQ.CompareExchange(Lost, 0), TQ.ReturnedTask(None), true), true, Popping, []);
    var c := Joining(0);
    WorkerMoves(w.(thread := Calling), true, c, w.(queue := w.queue.(consumer := TQ.TryLoadHead)));
    WorkerMoves(w.(queue := w.queue.(consumer := TQ.TryLoadHead)), true, c,
                w.(queue := w.queue.(consumer := TQ.TryLoadSequence(0))));
    WorkerMoves(w.(queue := w.queue.(consumer := TQ.TryLoadSequence(0))), true, c,
                w.(queue := w.queue.(consumer := TQ.CheckStopped)));
    WorkerMoves(w.(queue := w.queue.(consumer := TQ.CheckStopped)), true, c,
                w.(queue := w.queue.(consumer := TQ.EmptyLoadHead)));
    WorkerMoves(w.(queue := w.queue.(consumer := TQ.EmptyLoadHead)), true, c,
                w.(queue := w.queue.(consumer := TQ.EmptyLoadTail(0))));
    var last := w.queue.(consumer := TQ.ReturnedFalse(0));
    WorkerMoves(w.(queue := w.queue.(consumer := TQ.EmptyLoadTail(0))), true, c, w.(queue := last));
    WorkerMoves(w.(queue := last), true, c, w.(queue := last, thread := Exited));
  }

  function Reserved(): (q: TQ.Queue)
    ensures TQ.Shaped(q)
  {
    Ring(TQ.Publish(Lost, 0), TQ.ReturnedFalse(0), true)
    .(tail := 1, reserved := [Lost], owners := [0], ring := [Some(Lost)])
  }

  /** Once the worker is joined the exchange succeeds and the slot is written. */
  lemma PushReservesTooLate()
    ensures Reached(Single(Worker(Reserved(), false, NotRunning, []), false, Idle))
  {
    WorkerExits();
    hide Reached;
    var w := Worker(Ring(TQ.CompareExchange(Lost, 0), TQ.ReturnedFalse(0), true), false, NotRunning, []);
    ReachedNext(Single(w.(started := true, thread := Exited), true, Joining(0)), StepControl, Single(w, true, Joining(1)));
    ReachedNext(Single(w, true, Joining(1)), StepControl, Single(w, false, Idle));
    var q1 := Ring(TQ.LoadSequence(Lost, 0), TQ.ReturnedFalse(0), true).(tail := 1, reserved := [Lost], owners := [0]);
    assert w.queue.reserved + [Lost] == [Lost] && w.queue.owners + [0] == [0];
    ProducerMoves(w, false, Idle, q1);
    var q2 := q1.(producers := map[0 := TQ.WriteSlot(Lost, 0)]);
    ProducerMoves(w.(queue := q1), false, Idle, q2);
    ProducerMoves(w.(queue := q2), false, Idle, Reserved());
  }

  function Published(): (q: TQ.Queue)
    ensures TQ.Shaped(q)
  {
    Ring(TQ.Accepted(Lost, 0), TQ.ReturnedTask(None), false).(sequences := [1], acknowledged := {0})
  }

  /** The executor is started again, and the push returns true. */
  lemma PushReturnsAfterRestart()
    ensures Reached(Single(Worker(Published(), true, Calling, []), true, Idle))
  {
    PushReservesTooLate();
    hide Reached;
    var w := Worker(Reserved(), false, NotRunning, []);
    Starts(w);
    var q := Ring(TQ.Publish(Lost, 0), TQ.ReturnedTask(None), false);
    assert TQ.ResetRing(Reserved()).producers == map[0 := TQ.Publish(Lost, 0)];
    assert StartWorker(w) == Worker(q, true, Calling, []);
    ProducerMoves(Worker(q, true, Calling, []), true, Idle, Published());
  }

  /** The worker takes the slot of a position that nobody has reserved. */
  lemma WorkerTakesNothing()
    ensures Reached(Single(Worker(Published().(consumer := TQ.ClearSlot(0, None), popped := [None]), true, Popping, []), true, Idle))
  {
    PushReturnsAfterRestart();
    hide Reached;
    var q, w := Published(), Worker(Published(), true, Popping, []);
    WorkerMoves(w.(thread := Calling), true, Idle, w.(queue := q.(consumer := TQ.TryLoadHead)));
    WorkerMoves(w.(queue := q.(consumer := TQ.TryLoadHead)), true, Idle, w.(queue := q.(consumer := TQ.TryLoadSequence(0))));
    WorkerMoves(w.(queue := q.(consumer := TQ.TryLoadSequence(0))), true, Idle, w.(queue := q.(consumer := TQ.MoveOut(0))));
    assert q.popped + [None] == [None];
    WorkerMoves(w.(queue := q.(consumer := TQ.MoveOut(0))), true, Idle,
                w.(queue := q.(consumer := TQ.ClearSlot(0, None), popped := [None])));
  }

  /** wait_pop returns with nothing in hand. */
  lemma WorkerReturnsNothing()
    ensures Reached(Single(Worker(Published().(consumer := TQ.ReturnedTask(None), popped := [None], head := 1), true, Popping, []),
                           true, Idle))
  {
    WorkerTakesNothing();
    hide Reached;
    var q := Published().(consumer := TQ.ClearSlot(0, None), popped := [None]);
    var w := Worker(q, true, Popping, []);
    var q1 := q.(consumer := TQ.ReleaseSlot(0, None));
    assert q.ring[0 := None] == q.ring;
    WorkerMoves(w, true, Idle, w.(queue := q1));
    var q2 := q1.(consumer := TQ.StoreHead(0, None));
    assert q.sequences[0 := 1] == q.sequences;
    WorkerMoves(w.(queue := q1), true, Idle, w.(queue := q2));
    WorkerMoves(w.(queue := q2), true, Idle, w.(queue := q2.(consumer := TQ.ReturnedTask(None), head := 1)));
  }

  /** A run of the executor that loses an accepted task: its push was at its exchange when the worker was
      stopped, and about to publish when it was started again. The push returns true; the worker executes
      an empty task that nobody has reserved. */
  lemma RestartMayLoseATask() returns (events: seq<Event>)
    ensures var w := RunExecutor(Fresh(1, 1), events).workers[0];
            && w.executed == [None] && w.queue.reserved == []
            && 0 in w.queue.producers && w.queue.producers[0] == TQ.Accepted(Lost, 0)
            && forall key :: !WorkerInOrder(w, 0, 1, key)
  {
    WorkerReturnsNothing();
    hide Reached, RunExecutor, Fresh;
    var w := Worker(Published().(consumer := TQ.ReturnedTask(None), popped := [None], head := 1), true, Popping, []);
    WorkerMoves(w, true, Idle, w.(thread := Executing(None)));
    assert w.executed + [None] == [None];
    var r := w.(thread := Calling, executed := [None]);
    WorkerMoves(w.(thread := Executing(None)), true, Idle, r);
    events := RunTo(Single(r, true, Idle));
  }

  lemma RunTo(e: Executor) returns (events: seq<Event>)
    requires Reached(e)
    ensures RunExecutor(Fresh(1, 1), events) == e
  {
    events :| RunExecutor(Fresh(1, 1), events) == e;
  }
}
