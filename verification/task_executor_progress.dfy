/** What the calls on the executor achieve: a post enters the ring of its shard, a worker that is left alone
    runs everything that was pushed, and stop returns. */
module TaskExecutorProgress {
  import opened Wrappers
  import TQ = TaskQueue
  import TaskQueueProofs
  import opened TaskQueueProgress
  import opened TaskExecutors
  import TaskExecutorReset

  /** A post to a running worker enters push with its own key and body on shard key % shard_count and
      touches nothing else; any other post changes nothing. */
  lemma PostEntersItsShard(e: Executor, id: nat, key: nat, body: Option<nat>)
    requires AllShaped(e)
    ensures var s := key % |e.workers|;
            var q := e.workers[s].queue;
            var r := ExecutorNext(e, Post(id, key, body));
            if e.started && body.Some? && e.workers[s].started && !(id in q.producers && TQ.InsidePush(q.producers[id])) then
              && r.workers[s] == e.workers[s].(queue := q.(
                   producers := q.producers[id := TQ.LoadStopped(TQ.Task(key, body.value))]))
              && r == e.(workers := e.workers[s := r.workers[s]])
            else r == e
  {
    TQ.RemainderIsModulo(key, |e.workers|);
    var s := ShardOf(key, |e.workers|);
    assert e.workers[s := e.workers[s]] == e.workers;
  }

  /** A worker that is started again begins on an empty ring that takes tasks, with every slot free for its
      first position, and has executed nothing; producers inside push are still there. */
  lemma StartedWorkerIsFresh(w: Worker)
    requires TQ.Shaped(w.queue) && !w.started
    ensures var r := StartWorker(w);
            && r.started && r.thread.Calling? && r.executed == []
            && r.queue.head == 0 && r.queue.tail == 0 && !r.queue.stopped && r.queue.capacity == w.queue.capacity
            && r.queue.reserved == [] && r.queue.popped == []
            && |r.queue.ring| == |r.queue.sequences| == w.queue.capacity
            && (forall k :: 0 <= k < w.queue.capacity ==> r.queue.ring[k] == None && r.queue.sequences[k] == k)
            && (forall id :: id in w.queue.producers && TQ.InsidePush(w.queue.producers[id]) ==>
                  id in r.queue.producers && r.queue.producers[id] == w.queue.producers[id])
  {
  }

  /* ------------------------- a worker goes on alone ------------------------- */

  /** No producer owns a slot. */
  predicate NoOwner(q: TQ.Queue) {
    forall id :: id in q.producers ==>
      !q.producers[id].LoadSequence? && !q.producers[id].WriteSlot? && !q.producers[id].Publish?
  }

  /** n steps of the worker thread. */
  function Served(w: Worker, n: nat): (r: Worker)
    requires TQ.Shaped(w.queue)
    ensures TQ.Shaped(r.queue)
    decreases n
  {
    if n == 0 then w else Served(WorkerStep(w), n - 1)
  }

  /** Everything reserved has been executed, in order, and a worker of a stopped ring has left its loop. */
  predicate RanAll(w: Worker) {
    && |w.executed| == |w.queue.reserved|
    && (forall k :: 0 <= k < |w.executed| ==> w.executed[k] == Some(w.queue.reserved[k]))
    && (w.queue.stopped ==> w.thread.Exited?)
  }

  /** How far the thread is from the end of its round, when a task is available or, on a stopped ring
      without one, from its exit. */
  function RoundLeft(w: Worker): nat
    requires |w.queue.owners| == w.queue.tail
  {
    match w.thread
    case Calling => 13
    case Popping =>
      if w.queue.consumer.ReturnedTask? then 2
      else if w.queue.consumer.ReturnedFalse? then 1
      else if TQ.MidPop(w.queue.consumer) || w.queue.consumer.MoveOut? || Available(w.queue)
      then 2 + PopStepsLeft(w.queue.consumer, true)
      else 2 + FalseStepsLeft(w.queue.consumer)
    case Executing(_) => 1
    case _ => 0
  }

  function WorkLeft(w: Worker): int
    requires |w.queue.owners| == w.queue.tail
  {
    20 * (|w.queue.reserved| - |w.executed|) + RoundLeft(w)
  }

  /** A started worker in order, on a ring whose reserved tasks have all been published; if its wait_pop has
      returned false, nothing has been reserved since. */
  predicate Serving(w: Worker, s: nat, shardCount: nat)
    requires shardCount >= 1
  {
    && WorkerOk(w, s, shardCount) && w.started && NoOwner(w.queue)
    && (w.queue.consumer.ReturnedFalse? ==> w.queue.head == w.queue.tail)
  }

  lemma ServingParts(w: Worker, s: nat, shardCount: nat)
    requires shardCount >= 1 && Serving(w, s, shardCount)
    ensures TQ.Shaped(w.queue) && |w.queue.owners| == w.queue.tail == |w.queue.reserved|
    ensures Available(w.queue) <==> w.queue.head < w.queue.tail
    ensures |w.executed| <= |w.queue.reserved| && !w.thread.NotRunning?
    ensures w.thread.Calling? || (w.thread.Popping? && TQ.InsidePop(w.queue.consumer)
                                  && !w.queue.consumer.MoveOut? && !TQ.MidPop(w.queue.consumer)) ==>
              |w.executed| == w.queue.head
    ensures w.thread.Exited? ==> w.queue.stopped
  {
    ExecutedIsPrefix(w, s, shardCount);
    hide TQ.SlotsOk, TQ.BeyondOk, TQ.ProducersOk, TQ.Bounded;
  }

  /** What the consumer's own steps leave alone, and when wait_pop returns false. */
  lemma ConsumerFrame(q: TQ.Queue, event: TQ.Event)
    requires TQ.Ordered(q) && (event.CallPop? || event.StepPop?)
    ensures var r := TQ.Next(q, event);
            && r.reserved == q.reserved && r.stopped == q.stopped && r.producers == q.producers && r.tail == q.tail
            && (r.consumer.ReturnedFalse? && !q.consumer.ReturnedFalse? ==> r.head == r.tail)
            && (q.consumer.ReturnedFalse? && event.StepPop? ==> r == q)
  {
    hide TQ.SlotsOk, TQ.BeyondOk, TQ.ProducersOk, TQ.Bounded, TQ.PoppedOk;
  }

  lemma ServingStep(w: Worker, s: nat, shardCount: nat)
    requires shardCount >= 1 && Serving(w, s, shardCount)
    ensures TQ.Shaped(w.queue) && Serving(WorkerStep(w), s, shardCount)
    ensures WorkerStep(w).queue.reserved == w.queue.reserved && WorkerStep(w).queue.stopped == w.queue.stopped
    ensures WorkerStep(w).queue.producers == w.queue.producers
  {
    hide TQ.Ordered, TQ.Next;
    WorkerStepSound(w, s, shardCount);
    WorkerStepOrdered(w);
    ConsumerFrame(w.queue, TQ.CallPop);
    ConsumerFrame(w.queue, TQ.StepPop);
    hide Sound;
  }

  lemma PopStepAdvances(q: TQ.Queue)
    requires TQ.Ordered(q) && TQ.InsidePop(q.consumer)
    ensures var r := TQ.Next(q, TQ.StepPop);
            && |r.owners| == r.tail && r.reserved == q.reserved
            && (q.consumer.MoveOut? || TQ.MidPop(q.consumer) ==>
                  (q.consumer.StoreHead? && r.consumer.ReturnedTask?)
                  || (TQ.MidPop(r.consumer) && PopStepsLeft(r.consumer, true) < PopStepsLeft(q.consumer, true)))
  {
    TaskQueueProofs.NextKeepsOrdered(q, TQ.StepPop);
    hide TQ.SlotsOk, TQ.BeyondOk, TQ.ProducersOk, TQ.Bounded, TQ.PoppedOk, TQ.ConsumerOk;
  }

  /** Inside wait_pop the round comes nearer to its end. */
  lemma PoppingAdvances(w: Worker, s: nat, shardCount: nat)
    requires shardCount >= 1 && Serving(w, s, shardCount) && !RanAll(w)
    requires w.thread.Popping? && TQ.InsidePop(w.queue.consumer)
    ensures |w.queue.owners| == w.queue.tail && TQ.Shaped(w.queue)
    ensures var r := WorkerStep(w);
            && |r.queue.owners| == r.queue.tail && r.executed == w.executed && r.thread.Popping?
            && RoundLeft(r) < RoundLeft(w)
  {
    var q := w.queue;
    ServingParts(w, s, shardCount);
    PopStepAdvances(q);
    if q.consumer.MoveOut? || TQ.MidPop(q.consumer) {
      hide Serving, TQ.Next;
    } else {
      assert |w.executed| == q.head && w.executed <= q.popped;
      WaitStep(q);
      ServingExecuted(w, s, shardCount);
      hide Serving, TQ.Next;
    }
  }

  lemma ServingExecuted(w: Worker, s: nat, shardCount: nat)
    requires shardCount >= 1 && Serving(w, s, shardCount)
    ensures |w.executed| <= |w.queue.reserved|
    ensures forall k :: 0 <= k < |w.executed| ==> w.executed[k] == Some(w.queue.reserved[k])
    ensures w.thread.Executing? ==> |w.executed| < |w.queue.reserved|
  {
    ExecutedIsPrefix(w, s, shardCount);
  }

  lemma WorkAdvances(w: Worker, s: nat, shardCount: nat)
    requires shardCount >= 1 && Serving(w, s, shardCount) && !RanAll(w)
    ensures |w.queue.owners| == w.queue.tail && TQ.Shaped(w.queue)
    ensures var r := WorkerStep(w);
            |r.queue.owners| == r.queue.tail && 0 <= WorkLeft(r) < WorkLeft(w)
  {
    ServingParts(w, s, shardCount);
    ServingExecuted(w, s, shardCount);
    ServingStep(w, s, shardCount);
    ServingParts(WorkerStep(w), s, shardCount);
    ServingExecuted(WorkerStep(w), s, shardCount);
    if w.thread.Popping? && TQ.InsidePop(w.queue.consumer) {
      PoppingAdvances(w, s, shardCount);
      hide Serving, WorkerStep, RoundLeft;
    } else {
      if w.queue.consumer.ReturnedFalse? { FalseIsTheEnd(w, s, shardCount); }
      hide Serving;
    }
  }

  lemma FalseIsTheEnd(w: Worker, s: nat, shardCount: nat)
    requires shardCount >= 1 && Serving(w, s, shardCount) && w.queue.consumer.ReturnedFalse?
    ensures |w.executed| == w.queue.tail && w.queue.stopped
  {
  }

  /** A worker that goes on alone runs everything that was reserved, in order, and leaves its loop when its
      ring has been stopped. */
  lemma {:induction false} WorkerRunsAll(w: Worker, s: nat, shardCount: nat) returns (n: nat)
    requires shardCount >= 1 && Serving(w, s, shardCount)
    ensures TQ.Shaped(w.queue)
    ensures Serving(Served(w, n), s, shardCount) && RanAll(Served(w, n))
    ensures Served(w, n).queue.reserved == w.queue.reserved
    decreases if |w.queue.owners| == w.queue.tail then WorkLeft(w) else 0
  {
    ServingParts(w, s, shardCount);
    if RanAll(w) {
      n := 0;
    } else {
      WorkAdvances(w, s, shardCount);
      ServingStep(w, s, shardCount);
      hide Serving, RanAll, WorkLeft, WorkerStep;
      var m := WorkerRunsAll(WorkerStep(w), s, shardCount);
      n := m + 1;
    }
  }

  /** A worker of a stopped ring leaves its loop. */
  lemma WorkerExits(w: Worker, s: nat, shardCount: nat) returns (n: nat)
    requires shardCount >= 1 && WorkerOk(w, s, shardCount) && w.started && NoOwner(w.queue) && w.queue.stopped
    ensures TQ.Shaped(w.queue) && Served(w, n).thread.Exited?
  {
    if w.queue.consumer.ReturnedFalse? {
      n := if w.thread.Exited? then 0 else 1;
      assert Served(WorkerStep(w), 0) == WorkerStep(w);
    } else {
      n := WorkerRunsAll(w, s, shardCount);
      ServedStaysStopped(w, s, shardCount, n);
    }
  }

  lemma {:induction false} ServedStaysStopped(w: Worker, s: nat, shardCount: nat, n: nat)
    requires shardCount >= 1 && Serving(w, s, shardCount)
    ensures TQ.Shaped(w.queue) && Served(w, n).queue.stopped == w.queue.stopped
    decreases n
  {
    ServingStep(w, s, shardCount);
    hide Serving, WorkerStep;
    if n > 0 { ServedStaysStopped(WorkerStep(w), s, shardCount, n - 1); }
  }

  /* ------------------------- stop returns ------------------------- */

  /** While the executor is being stopped, the rings of the workers asked so far are stopped. */
  predicate StopOk(e: Executor) {
    match e.control
    case Requesting(k) =>
      forall s :: 0 <= s < k && s < |e.workers| && e.workers[s].started ==> e.workers[s].queue.stopped
    case Joining(_) =>
      forall s :: 0 <= s < |e.workers| && e.workers[s].started ==> e.workers[s].queue.stopped
    case _ => true
  }

  lemma StopOkNext(e: Executor, event: Event)
    requires AllShaped(e) && StopOk(e)
    ensures StopOk(ExecutorNext(e, event))
  {
  }

  lemma {:induction false} StopOkRun(e: Executor, events: seq<Event>)
    requires AllShaped(e) && StopOk(e)
    ensures StopOk(RunExecutor(e, events))
    decreases |events|
  {
    hide StopOk, ExecutorNext;
    if events != [] {
      StopOkNext(e, events[0]);
      StopOkRun(ExecutorNext(e, events[0]), events[1..]);
    }
  }

  /** Steps of the controlling thread and of the workers only. */
  predicate Inside(events: seq<Event>) {
    forall k :: 0 <= k < |events| ==> events[k].StepControl? || events[k].StepWorker?
  }

  ghost predicate Leads(from: Executor, e: Executor)
    requires AllShaped(from)
  {
    exists events :: Inside(events) && RunExecutor(from, events) == e
  }

  lemma LeadsNext(from: Executor, e: Executor, event: Event)
    requires AllShaped(from) && AllShaped(e) && Leads(from, e) && (event.StepControl? || event.StepWorker?)
    ensures Leads(from, ExecutorNext(e, event))
  {
    hide ExecutorNext;
    var events :| Inside(events) && RunExecutor(from, events) == e;
    TaskExecutorReset.RunOneMore(from, events, event);
    assert Inside(events + [event]);
  }

  /** Every ring is in order and no producer owns a slot. */
  predicate Quiet(e: Executor) {
    ExecutorInv(e) && forall s :: 0 <= s < |e.workers| ==> NoOwner(e.workers[s].queue)
  }

  /** Stopping goes on: the executor is quiet and on its way from Requesting to Idle. */
  ghost predicate Stopping(from: Executor, e: Executor)
    requires AllShaped(from)
  {
    Quiet(e) && StopOk(e) && Leads(from, e) && |e.workers| == |from.workers|
  }

  /** The workers and the controlling thread leave the producers where they are. */
  lemma ProducersStay(e: Executor, event: Event, s: nat)
    requires AllShaped(e) && s < |e.workers| && TQ.Ordered(e.workers[s].queue)
    requires event.StepWorker? || (event.StepControl? && !e.control.Starting?)
    ensures ExecutorNext(e, event).workers[s].queue.producers == e.workers[s].queue.producers
  {
    var q := e.workers[s].queue;
    hide TQ.Ordered, TQ.Next;
    ConsumerFrame(q, TQ.CallPop);
    ConsumerFrame(q, TQ.StepPop);
  }

  lemma QuietNext(e: Executor, event: Event)
    requires Quiet(e) && (event.StepWorker? || (event.StepControl? && !e.control.Starting?))
    ensures Quiet(ExecutorNext(e, event))
  {
    var r := ExecutorNext(e, event);
    ExecutorNextKeepsInvExactlyWhen(e, event);
    forall s | 0 <= s < |e.workers| ensures NoOwner(r.workers[s].queue) {
      assert WorkerOk(e.workers[s], s, |e.workers|);
      ProducersStay(e, event, s);
      assert NoOwner(e.workers[s].queue);
    }
    hide ExecutorInv, ExecutorNext;
  }

  lemma StoppingNext(from: Executor, e: Executor, event: Event)
    requires AllShaped(from) && Stopping(from, e) && !e.control.Starting? && (event.StepWorker? || event.StepControl?)
    ensures AllShaped(e) && Stopping(from, ExecutorNext(e, event))
  {
    assert AllShaped(e);
    QuietNext(e, event);
    hide Quiet, StopOk, Leads, ExecutorNext;
    StopOkNext(e, event);
    LeadsNext(from, e, event);
  }

  lemma {:induction false} StoppingServed(from: Executor, e: Executor, s: nat, n: nat)
    requires AllShaped(from) && Stopping(from, e) && !e.control.Starting? && s < |e.workers|
    ensures AllShaped(e) && Stopping(from, e.(workers := e.workers[s := Served(e.workers[s], n)]))
    decreases n
  {
    StoppingNext(from, e, StepWorker(s));
    var r := ExecutorNext(e, StepWorker(s));
    hide Stopping;
    if n == 0 {
      assert e.workers[s := e.workers[s]] == e.workers;
    } else {
      StoppingServed(from, r, s, n - 1);
      assert e.workers[s := Served(e.workers[s], n)] == r.workers[s := Served(r.workers[s], n - 1)];
    }
  }

  lemma {:induction false} RequestsEnd(from: Executor, e: Executor) returns (r: Executor)
    requires AllShaped(from) && Stopping(from, e) && e.control.Requesting?
    ensures Stopping(from, r) && r.control == Joining(0)
    decreases |e.workers| - e.control.next
  {
    StoppingNext(from, e, StepControl);
    hide Stopping;
    r := ExecutorNext(e, StepControl);
    if e.control.next < |e.workers| {
      r := RequestsEnd(from, r);
    }
  }

  /** The next worker to be joined leaves its loop if it is still running. */
  lemma NextCanJoin(from: Executor, e: Executor) returns (r: Executor)
    requires AllShaped(from) && Stopping(from, e) && e.control.Joining? && e.control.next < |e.workers|
    ensures Stopping(from, r) && r.control == e.control && |r.workers| == |e.workers|
    ensures CanJoin(r.workers[e.control.next])
  {
    r := e;
    var k := e.control.next;
    var w := e.workers[k];
    if !CanJoin(w) {
      assert WorkerOk(w, k, |e.workers|) && NoOwner(w.queue);
      hide Stopping, WorkerOk, NoOwner;
      assert w.queue.stopped by { StoppingStopped(from, e, k); }
      var n := WorkerExits(w, k, |e.workers|);
      StoppingServed(from, e, k, n);
      r := e.(workers := e.workers[k := Served(w, n)]);
    }
  }

  lemma StoppingStopped(from: Executor, e: Executor, s: nat)
    requires AllShaped(from) && Stopping(from, e) && e.control.Joining? && s < |e.workers| && e.workers[s].started
    ensures e.workers[s].queue.stopped
  {
  }

  lemma {:induction false} JoinsEnd(from: Executor, e: Executor) returns (r: Executor)
    requires AllShaped(from) && Stopping(from, e) && e.control.Joining?
    ensures Stopping(from, r) && r.control.Idle? && !r.started
    decreases |from.workers| - e.control.next
  {
    SameWorkers(from, e);
    hide Stopping;
    r := e;
    if e.control.next < |e.workers| {
      r := NextCanJoin(from, e);
    }
    StoppingNext(from, r, StepControl);
    r := ExecutorNext(r, StepControl);
    if e.control.next < |e.workers| {
      r := JoinsEnd(from, r);
    }
  }

  lemma SameWorkers(from: Executor, e: Executor)
    requires AllShaped(from) && Stopping(from, e)
    ensures AllShaped(e) && |e.workers| == |from.workers|
  {
  }

  /** From any point of any run at which the executor is being stopped, its rings were last reset safely and
      no push owns a slot: the controlling thread and the workers alone can bring stop to its end. */
  lemma StopCanReturn(shardCount: nat, capacity: nat, before: seq<Event>) returns (events: seq<Event>)
    requires shardCount >= 1 && capacity >= 1
    requires forall s :: 0 <= s < shardCount ==> LastResetSafe(Fresh(shardCount, capacity), before, s, true)
    requires var e := RunExecutor(Fresh(shardCount, capacity), before);
             && (e.control.Requesting? || e.control.Joining?)
             && forall s :: 0 <= s < shardCount ==> NoOwner(e.workers[s].queue)
    ensures Inside(events)
    ensures var r := RunExecutor(RunExecutor(Fresh(shardCount, capacity), before), events);
            r.control.Idle? && !r.started
  {
    var e := RunExecutor(Fresh(shardCount, capacity), before);
    forall s | 0 <= s < shardCount ensures WorkerOk(e.workers[s], s, shardCount) {
      ReachedWorkerOk(shardCount, capacity, before, s);
    }
    RunKeepsSound(Fresh(shardCount, capacity), before);
    StopOkRun(Fresh(shardCount, capacity), before);
    hide WorkerOk, NoOwner, StopOk, LastResetSafe, Fresh;
    assert RunExecutor(e, []) == e && Inside([]);
    assert Leads(e, e);
    hide RunExecutor, Leads;
    var r := e;
    if r.control.Requesting? { r := RequestsEnd(e, r); }
    r := JoinsEnd(e, r);
    events := LeadingEvents(e, r);
  }

  lemma LeadingEvents(from: Executor, e: Executor) returns (events: seq<Event>)
    requires AllShaped(from) && Leads(from, e)
    ensures Inside(events) && RunExecutor(from, events) == e
  {
    events :| Inside(events) && RunExecutor(from, events) == e;
  }

  /** From any point of any run, a started worker whose ring was last reset safely, on which every reserved
      task is published, needs only to be left alone to have executed all of them in the order reserved. */
  lemma WorkerExecutesEverything(shardCount: nat, capacity: nat, before: seq<Event>, s: nat) returns (n: nat)
    requires shardCount >= 1 && capacity >= 1 && s < shardCount
    requires LastResetSafe(Fresh(shardCount, capacity), before, s, true)
    requires var w := RunExecutor(Fresh(shardCount, capacity), before).workers[s];
             && w.started && NoOwner(w.queue)
             && (w.queue.consumer.ReturnedFalse? ==> w.queue.head == w.queue.tail)
    ensures var w := RunExecutor(Fresh(shardCount, capacity), before).workers[s];
            RanAll(Served(w, n)) && Served(w, n).queue.reserved == w.queue.reserved
  {
    ReachedWorkerOk(shardCount, capacity, before, s);
    hide WorkerOk, RunExecutor, Fresh, RanAll;
    n := WorkerRunsAll(RunExecutor(Fresh(shardCount, capacity), before).workers[s], s, shardCount);
  }
}
