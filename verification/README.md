# Camera HAL: a verified model

The project models four connected parts of the camera HAL and proves what they promise.

* **The task ring and the sharded executor.** `TaskQueue` describes the multi-producer,
  single-consumer ring as an interleaving of atomic steps: each producer has its own program counter
  (load stopped, tail, head, check, compare-exchange, load sequence, write, publish), the consumer has
  one (check sequence, move out, clear, release, store head, and the checks of `wait_pop`), and any
  number of producers and any capacity of at least one are allowed. `TaskQueueProofs` keeps the
  invariant through every step, `TaskQueueTheorems` draws the results, `TaskQueueReset` decides when a
  reset is safe, `TaskQueueProgress` says how every call ends once its thread goes on alone, and
  `BoundedTaskQueues` holds the ring as a class over its two arrays. `TaskExecutors` puts one ring and one
  worker behind each shard, `TaskExecutorReset` carries the resets over to the runs of the executor, and
  `TaskExecutorProgress` shows that workers run what was pushed and that stop returns.
* **The session and its in-flight tables.** `InFlightTracker` and `CameraSession` give the tables and
  the critical sections as functions; `InFlightRequestTrackers` and `CameraDeviceSessions` are the
  classes whose methods compute them in place. `SessionConsistency` proves that each critical section
  keeps the tables matched, `SessionHistory` and `SessionLaws` account for rows, results, fences and
  preview buffers over any interleaving, `SessionPreviews` for the frame numbers and the orphans of the
  preview, and `SessionTheorems` states the results for every run. `SessionSubmissions` balances
  submissions against rows and results, `SessionCompletion` follows the completions of one request
  among everything else, and `SessionReports` says what every section reports, in terms of the requests as
  the framework made them, and which state it leaves.
* **The V4L2 slot table and router.** `V4L2Driver` is the slot table of one device against an abstract
  kernel queue: QBUF adds a free index with its dma-buf, DQBUF hands back any index the kernel holds.
  `V4L2Router` puts several devices behind one token counter. `V4L2DriverAdapters` and
  `V4L2MultiStreamDriverAdapters` are the classes. `HalSystem`, `HalRouting` and `HalTheorems` drive
  the router from the session, so that the driver's answers are computed and no longer assumed, and
  prove the end-to-end routing of buffers whatever fences and system calls answer. `V4L2Admission` decides
  when each driver call succeeds, `HalAdmission` which requests and leases are taken and what a flush and a
  close leave, and `HalRestart` when the session can be started again. `HalPreviews` and `HalLostLease` decide which setups lose a preview lease. `HalExample` runs the composition from
  configuration to an Ok result, and to a failed STREAMON and STREAMOFF.
* **The dma-buf pool.** `DmaBufPools` knows buffers by address and lets an address come back after
  its buffer is gone; `DmaBufLaws` says what its callers get, and `DmaBufObjects` holds the pool and lease
  classes.

`MockDriverAdapters` is the mock driver with the session's drain loop over it. `Bags` and `Wrappers`
are helpers.

Where the code does something a reader might not expect, the model keeps it and says exactly when:

* `push` can reject although the ring is empty: `head_` may pass the stale tail and the unsigned
  difference wraps (`RejectionMayBeSpurious`, `CapacityCheckRejectsExactly`).
* A push that saw the ring running can succeed after `wait_pop` has returned false
  (`PushMaySucceedAfterDrain`, `AcceptedIsPoppedExactlyWhen`).
* A push whose exchange loses to another producer goes round its loop. From any point a producer that goes
  on alone returns within nine steps, accepted or rejected as `PushEndsExactly` says; there are three ways
  to a rejection (`RejectedOnlyWhen`).
* A push called after `stop` is always rejected (`PushAfterStopIsRejected`).
* `reset` looks at no producer. Afterwards tasks are handed out in the order reserved, whatever happens,
  exactly when no producer owned a slot and, in a ring of one slot, none was about to exchange a tail
  other than zero (`ResetKeepsOrderExactlyWhen`); for every other position of a producer there is a run
  that breaks the order. A tail that is only loaded is harmless, however stale. In a larger ring an
  exchange of a tail past the capacity breaks only the capacity bound and the assertion after the
  exchange (`ResetKeepsBoundExactlyWhen`). The executor resets rings when it is started again:
  `StartKeepsOrderExactlyWhen` gives the same condition for its runs, and `RestartMayLoseATask` is a run
  that executes an empty task while an accepted one is lost.
* A duplicate frame number, or a failed preflight check for a frame in flight, removes the row that
  was there and reports its outputs (`SubmitRemovesRowExactlyWhen`, `CollisionReportsTheOtherRow`). A
  submission is conserved exactly when it is rejected or its frame is not in flight
  (`SubmitConservedExactlyWhen`, `SubmissionsAreAccounted`); `DuplicateFrameRemovesTheFirstRow` is a run
  that loses one.
* A preview buffer may carry another stream type than the preview. When that type has an endpoint of its
  own, the returned lease is answered with token 0, and a streaming row is left that no token reaches
  (`ReturnAnswersZeroExactlyWhen`, `ReturnLosesExactlyWhen`). `BijectionHoldsExactlyWhen` says which
  setups keep tokens and outputs in bijection in every run; the default stream type of a buffer, Still,
  next to a still endpoint is one that does not (`DefaultStreamTypeLosesLeases`).
* A client may choose a frame number of the preview. When its submission fails, the streaming row of that
  number is left without a token (`SubmitOrphansExactlyWhen`).
* When STREAMON fails after a successful QBUF, the slot is cleared while the kernel keeps the index,
  and every later attempt fails until the device is closed (`QueueAgreesExactlyWhen`,
  `FailedStreamOnSticks`, `StuckStaysStuck`; `AStreamOnFailureIsReached` is a run that gets there). An
  ignored failure of STREAMOFF leaves the kernel with every index that was queued (`StopAgreesExactlyWhen`,
  `AStreamOffFailureIsReached`). Later attempts fail when their first free slot has an index that the
  kernel still holds, and only then (`AttemptFailsExactlyWhen`); they all do exactly when the first slot
  was queued (`FailedStreamOffSticksExactlyWhen`). Neither breaks the routing of buffers.

The atomics are sequentially consistent steps. What system calls, fences, processors, callbacks and
allocators answer are parameters of the steps, free to take any value unless a lemma says otherwise.

## Model

| member | source | states |
|---|---|---|
| TaskQueueTheorems.StepRefinesFifo | hal/bounded_task_queue.cpp:16-133 | every atomic step of any thread is a move of a FIFO holding at most capacity tasks: nothing, one task appended below capacity, or the oldest task handed out |
| TaskQueueTheorems.PoppedIsPrefixOfReserved | hal/bounded_task_queue.cpp:16-121 | in every run the consumer has received exactly the first tasks in compare-exchange order, and head <= tail <= head + capacity |
| TaskQueueTheorems.ClaimedSlotIsReady | hal/bounded_task_queue.cpp:32-49 | in every run, after a successful compare-exchange the slot's sequence equals the claimed tail: the assertion holds and the wait loop never waits |
| TaskQueueTheorems.SlotsHaveOneOwner | hal/bounded_task_queue.cpp:36-49 | in every run two producers never own the same slot at once |
| TaskQueueTheorems.ConsumerSlotHasNoProducer | hal/bounded_task_queue.cpp:116-119 | in every run no producer owns the slot the consumer is emptying |
| TaskQueueTheorems.ExchangeNeverOverfills | hal/bounded_task_queue.cpp:26-35 | in every run a compare-exchange that succeeds proves that the earlier capacity check, made on stale counters, still holds |
| TaskQueueTheorems.CapacityCheckRejectsExactly | hal/bounded_task_queue.cpp:26-30 | in every run, for counters below 2^64, the unsigned check rejects exactly when head has passed the stale tail or the ring is full at that instant |
| TaskQueueTheorems.RejectionMayBeSpurious | hal/bounded_task_queue.cpp:26-30 | a reachable empty ring in which push rejects |
| TaskQueueTheorems.FalseMeansDrained | hal/bounded_task_queue.cpp:56-76 | when wait_pop returns false, everything reserved before its final load of tail has been popped, in order |
| TaskQueueTheorems.FinalCheckDecides | hal/bounded_task_queue.cpp:129-133 | in every run the final check returns false exactly when every reservation has been popped |
| TaskQueueTheorems.UnpublishedPreventsFalse | hal/bounded_task_queue.cpp:65-67 | in every run a reserved slot that is not yet published keeps wait_pop from returning false |
| TaskQueueTheorems.RunKeepsAccounts | hal/bounded_task_queue.cpp:16-54 | in every run each reserved position is either still owned by its producer or acknowledged by a push that returned true, never both |
| TaskQueueTheorems.QuiescentQueueDeliveredEverything | hal/bounded_task_queue.cpp:16-121 | once all producers have returned and the ring is empty, exactly the acknowledged tasks were delivered, in order |
| TaskQueueTheorems.AcceptedIsPoppedExactlyWhen | hal/bounded_task_queue.cpp:56-76 | after a false return, an accepted task was handed out exactly when it was reserved before the final check |
| TaskQueueTheorems.PushMaySucceedAfterDrain | hal/bounded_task_queue.cpp:22-51 | a reachable run in which a push is accepted after wait_pop has returned false |
| TaskQueueTheorems.PushAfterStopIsRejected | hal/bounded_task_queue.cpp:22-24 | in every run a push called once the ring is stopped waits at its stopped check until it returns false |
| TaskQueueProgress.RejectedOnlyWhen | hal/bounded_task_queue.cpp:16-35 | in every run push returns false only for a null task, at a stopped check with the ring stopped, or at a capacity check that finds head past the loaded tail or the ring full |
| TaskQueueProgress.FailedExchangeRetries | hal/bounded_task_queue.cpp:21-53 | an exchange that fails, for no reason or because another producer was first, leads back to the stopped check; one that succeeds reserves the task at the loaded tail |
| TaskQueueProgress.AcceptedIsTheTaskPushed | hal/bounded_task_queue.cpp:16-51 | in every run a push that returned true has reserved its position with the task it was called with |
| TaskQueueProgress.PushEndsExactly | hal/bounded_task_queue.cpp:21-53 | from any point of any run a producer alone returns within nine steps: an owner true; before its claim true, at the current tail, exactly when the ring is neither stopped nor full, a check already made not being repeated unless the exchange fails |
| TaskQueueProgress.PopEndsExactly | hal/bounded_task_queue.cpp:56-121 | from any point of any run a consumer alone has, after ten steps, returned the task reserved at head if it is published, or false if the ring is stopped and everything reserved was taken, and otherwise waits |
| TaskQueueProgress.FalseOnlyWhenDrained | hal/bounded_task_queue.cpp:65-67 | in every run the step that makes wait_pop return false finds the ring stopped and every reservation handed out |
| TaskQueueTheorems.RunKeepsTails | hal/bounded_task_queue.cpp:26-35 | in every run without a reset the tails that producers have loaded lie behind the tail |
| TaskQueueReset.ResetKeepsOrderExactlyWhen | hal/bounded_task_queue.cpp:83-93 | after a reset every run hands out the tasks in the order reserved, exactly when no producer owned a slot and, in a ring of one slot, none was about to exchange a tail other than zero |
| TaskQueueReset.SafeResetLosesNothing | hal/bounded_task_queue.cpp:83-121 | after such a reset, once all producers have returned and the ring is empty, exactly the acknowledged tasks were delivered, in order |
| TaskQueueReset.ResetKeepsBoundExactlyWhen | hal/bounded_task_queue.cpp:26-35 | after such a reset every run stays within the capacity, exactly when no producer was about to exchange a tail past the capacity |
| TaskQueueReset.ResetKeepsInvExactlyWhen | hal/bounded_task_queue.cpp:83-93 | a reset keeps the ring's invariant exactly when it keeps both the order and the bound |
| TaskQueueReset.OwnerBreaksOrder | hal/bounded_task_queue.cpp:48-51 | for every producer that owned a slot, whichever of its three steps it was at, a run after the reset that hands out a position nobody has reserved |
| TaskQueueReset.ExchangeBreaksOrder | hal/bounded_task_queue.cpp:32-51 | in a ring of one slot, for every producer about to exchange a tail other than zero, a run after the reset that overwrites a waiting task |
| TaskQueueReset.ResetUnderAProducerLosesItsTask | hal/bounded_task_queue.cpp:83-93 | a reachable ring whose reset under a producer makes an accepted push hand the consumer an empty task |
| TaskQueue.RemainderIsModulo | hal/bounded_task_queue.cpp:36-36 | the slot of a position is position % capacity |
| TaskQueue.SameSlotSamePosition | hal/bounded_task_queue.cpp:36-36 | two positions less than one capacity apart that share a slot are equal |
| TaskQueueProofs.NextKeepsInv | hal/bounded_task_queue.cpp:16-133 | every step of any thread keeps the ring's invariant: slot generations, owners and counters |
| TaskQueueProofs.NextKeepsOrdered | hal/bounded_task_queue.cpp:16-133 | every step keeps the part of it that orders the tasks, which in a ring of more than one slot does without the capacity bound |
| TaskQueueProofs.RunKeepsInv | hal/bounded_task_queue.cpp:16-133 | every run keeps the invariant |
| BoundedTaskQueues.BoundedTaskQueue.constructor | hal/bounded_task_queue.cpp:9-14 | a requested capacity of zero becomes one, and the ring starts empty |
| BoundedTaskQueues.BoundedTaskQueue.Reset | hal/bounded_task_queue.cpp:83-93 | the loops over both arrays leave the initial ring, and producers inside push go on with what they have loaded |
| BoundedTaskQueues.BoundedTaskQueue.StepPush | hal/bounded_task_queue.cpp:21-53 | one atomic step of push on the arrays is the producer's step |
| BoundedTaskQueues.BoundedTaskQueue.StepPop | hal/bounded_task_queue.cpp:109-133 | one atomic step of wait_pop on the arrays is the consumer's step |
| BoundedTaskQueues.BoundedTaskQueue.Execute | hal/bounded_task_queue.cpp:16-133 | any interleaving on the arrays computes the abstract run and keeps its invariant |
| BoundedTaskQueues.BoundedTaskQueue.Push | hal/bounded_task_queue.cpp:16-54 | an undisturbed push, with any number of spurious exchange failures, accepts exactly when there is a task, the ring is not stopped and not full |
| BoundedTaskQueues.BoundedTaskQueue.TryPop | hal/bounded_task_queue.cpp:109-121 | an undisturbed try_pop succeeds exactly when the head slot is published, and then yields the task reserved first |
| TaskExecutors.TasksOfAKeyRunInOrder | hal/task_executor.cpp:46-113 | in every run each shard whose ring was last reset safely, whatever the other shards and earlier resets did, has executed a prefix of its tasks in reservation order, one at a time, and a key has tasks on its own shard only |
| TaskExecutors.StopReturnsDrained | hal/task_executor.cpp:98-106 | when stop returns no worker runs, and each whose ring was last reset safely has executed all tasks reserved before its final emptiness check |
| TaskExecutorReset.StartKeepsOrderExactlyWhen | hal/task_executor.cpp:13-21 | in every run that is about to reset a ring: until that ring is reset again its worker runs its tasks in the order reserved in every continuation, exactly when no producer inside push owns a slot or, with one slot, is about to exchange a tail other than zero |
| TaskExecutorReset.RestartMayLoseATask | hal/task_executor.cpp:83-106 | a run of a fresh executor in which a push that spans a stop and a start returns true, its task is lost, and the worker executes an empty task |
| TaskExecutors.StartWorkerOkExactlyWhen | hal/task_executor.cpp:13-21 | starting a worker leaves it in order exactly when it is running in order or its ring can be reset |
| TaskExecutors.ExecutorNextKeepsSound | hal/task_executor.cpp:13-113 | every step of posting, working, starting and stopping, whatever it resets, keeps routing, worker loops and control in order |
| TaskExecutors.ExecutorNextKeepsInvExactlyWhen | hal/task_executor.cpp:13-113 | a step keeps the rings in order as well exactly when the ring it resets, if any, can be reset |
| TaskExecutorProgress.PostEntersItsShard | hal/task_executor.cpp:108-113 | a post to a running worker starts a push of its own key and body on shard key % shard_count and touches nothing else; any other post changes nothing |
| TaskExecutorProgress.StartedWorkerIsFresh | hal/task_executor.cpp:13-21 | a worker that is started has an empty, running ring with every slot free, and has executed nothing |
| TaskExecutorProgress.WorkerExecutesEverything | hal/task_executor.cpp:46-52 | from any point of any run, a worker in order whose reserved tasks are all published executes all of them, in order, when it is left alone, and leaves its loop if the ring is stopped |
| TaskExecutorProgress.StopCanReturn | hal/task_executor.cpp:98-106 | from any point of any run inside stop, with the rings in order and no push owning a slot, the controlling thread and the workers alone bring stop to its end |
| TaskExecutors.TaskExecutor.constructor | hal/task_executor.cpp:66-77 | shard count and capacity are at least one |
| TaskExecutors.TaskExecutor.Start | hal/task_executor.cpp:83-96 | every worker that is not running gets an empty ring, a started executor is left alone, and the executor is in order afterwards exactly when those rings could be reset and the rest were in order |
| TaskExecutors.TaskExecutor.RequestStopAll | hal/task_executor.cpp:98-101 | stop asks every running worker before it joins any |
| TaskExecutors.TaskExecutor.JoinAll | hal/task_executor.cpp:102-106 | joining leaves rings and executed tasks as they are and no worker running |
| TaskExecutors.TaskExecutor.Post | hal/task_executor.cpp:108-113 | a post enters the ring of shard key % shard_count and no other |
| InFlightTracker.TakeThenComplete | hal/in_flight_request_tracker.cpp:49-158 | a bound request token leads to its own output, completing it never answers NotFound, and the tables stay matched with the same orphans |
| InFlightTracker.TakeStreaming | hal/in_flight_request_tracker.cpp:105-146 | a bound streaming token removes its streaming row and nothing else |
| InFlightTracker.RegisterKeepsConsistent | hal/in_flight_request_tracker.cpp:96-124 | registering a streaming output under a fresh frame keeps the tables matched, and makes an orphan exactly when the token does not bind |
| InFlightTracker.RegisterBijectiveExactlyWhen | hal/in_flight_request_tracker.cpp:96-124 | the tables are in bijection afterwards exactly when they were and the token binds |
| InFlightTracker.FailKeepsConsistent | hal/in_flight_request_tracker.cpp:160-200 | removing a row together with the tokens of its frame keeps the tables matched with the same orphans |
| InFlightTracker.RowIsStartedAndMarkedOnce | hal/in_flight_request_tracker.cpp:5-34 | a frame is taken up once, with at least one output, and marked queued once; failing it restores the table |
| InFlightTracker.FirstWithIndex | hal/in_flight_request_tracker.cpp:126-158 | the target found for an index is that of the first output that carries it, if any does |
| InFlightTracker.TokenIsTakenOnce | hal/in_flight_request_tracker.cpp:126-158 | in any tables the first lookup of a token consumes it, finds what it leads to if that is still there, and takes a streaming row with it; every later lookup finds nothing |
| InFlightTracker.CompletionIsExact | hal/in_flight_request_tracker.cpp:49-94 | completing an output either finds nothing and changes nothing, or leaves the row with this output completed while another is owed, or hands the row out as completed at this time with every target and fence |
| InFlightTracker.RowsLeaveMarked | hal/in_flight_request_tracker.cpp:160-190 | a row that fails or is flushed leaves as it was but for its state, which says how it left |
| InFlightRequestTrackers.InFlightRequestTracker.Start | hal/in_flight_request_tracker.cpp:5-25 | inserts the row unless the frame is in flight or there is no output |
| InFlightRequestTrackers.InFlightRequestTracker.MarkQueuedToDriver | hal/in_flight_request_tracker.cpp:27-34 | marks a submitted row, and only such a row |
| InFlightRequestTrackers.InFlightRequestTracker.CompleteOutput | hal/in_flight_request_tracker.cpp:49-94 | the loop over the outputs computes the completion and the new row table |
| InFlightRequestTrackers.InFlightRequestTracker.RegisterStreamingOutput | hal/in_flight_request_tracker.cpp:96-103 | refuses a frame number already registered |
| InFlightRequestTrackers.InFlightRequestTracker.BindDriverOutput | hal/in_flight_request_tracker.cpp:116-124 | refuses token zero and a token already bound |
| InFlightRequestTrackers.InFlightRequestTracker.FindOutputTarget | hal/in_flight_request_tracker.cpp:175-188 | the target of the first output with the index, if the frame is in flight |
| InFlightRequestTrackers.InFlightRequestTracker.TakeDriverOutputContext | hal/in_flight_request_tracker.cpp:126-158 | consumes the token and finds what it stands for |
| InFlightRequestTrackers.InFlightRequestTracker.ClearDriverOutputsForFrame | hal/in_flight_request_tracker.cpp:160-169 | removes exactly the tokens of the frame |
| InFlightRequestTrackers.InFlightRequestTracker.ClearStreamingOutputs | hal/in_flight_request_tracker.cpp:171-173 | empties the streaming table and leaves the others |
| InFlightRequestTrackers.InFlightRequestTracker.Fail | hal/in_flight_request_tracker.cpp:190-200 | takes the row out, marked failed, when there is one |
| InFlightRequestTrackers.InFlightRequestTracker.FlushAll | hal/in_flight_request_tracker.cpp:202-214 | hands out every row once, marked flushed, and empties rows and tokens |
| CameraSession.FencesChain | hal/camera_device_session.cpp:583-605 | each intermediate fence goes to exactly the next processor that is not null, and the last one leaves the chain |
| CameraDeviceSessions.CameraDeviceSession.ConfigureStreams | hal/camera_device_session.cpp:180-201 | configures once, and ends in Error when the driver or the registration fails |
| CameraDeviceSessions.CameraDeviceSession.StartStreaming | hal/camera_device_session.cpp:203-259 | the loop registers and binds the preview buffers, or ends in Error |
| CameraDeviceSessions.CameraDeviceSession.SubmitRequestToDriver | hal/camera_device_session.cpp:536-562 | binds the tokens in order, and clears the frame's tokens when one output fails |
| CameraDeviceSessions.CameraDeviceSession.FillFailedResult | hal/camera_device_session.cpp:647-673 | removes the row of the frame with its tokens and reports its outputs, or the fallback |
| CameraDeviceSessions.CameraDeviceSession.SubmitCaptureRequest | hal/camera_device_session.cpp:451-514 | rejects, fails the preflight, fails a duplicate, rolls back, or leaves the request in flight |
| CameraDeviceSessions.CameraDeviceSession.RunProcessors | hal/camera_device_session.cpp:583-605 | the loop over the processors makes the chained calls |
| CameraDeviceSessions.CameraDeviceSession.TryFillResultFromCompletion | hal/camera_device_session.cpp:564-645 | resolves one completion to nothing, a request's result or a preview result |
| CameraDeviceSessions.CameraDeviceSession.ReturnStreamLease | hal/camera_device_session.cpp:330-353 | re-registers the returned preview buffer under the next streaming frame number |
| CameraDeviceSessions.CameraDeviceSession.FlushSession | hal/camera_device_session.cpp:361-388 | reports every row once as flushed, empties all tables and returns to Configured |
| CameraDeviceSessions.CameraDeviceSession.CloseSession | hal/camera_device_session.cpp:397-429 | reports every row once as flushed, empties all tables and stops for good |
| SessionConsistency.StartStreamingOk | hal/camera_device_session.cpp:203-259 | starting keeps the tables matched without orphans, and empty when it fails |
| SessionConsistency.AcceptedSubmitOk | hal/camera_device_session.cpp:536-562 | a fully accepted request adds one row and one token per output and keeps the tables matched |
| SessionConsistency.RollbackIsExact | hal/camera_device_session.cpp:536-562 | when the driver accepts only some outputs of a fresh frame, the tables end equal to those before the request |
| SessionConsistency.SubmitOk | hal/camera_device_session.cpp:451-514 | every outcome of a submission keeps the tables matched with the same orphans |
| SessionConsistency.ResolveOk | hal/camera_device_session.cpp:564-645 | resolving any token keeps the tables matched with the same orphans |
| SessionConsistency.ReturnLeaseOk | hal/camera_device_session.cpp:330-353 | returning a lease keeps the tables matched whatever the driver answers, and adds an orphan exactly when the answer does not bind |
| SessionConsistency.ReturnLeaseExactlyWhen | hal/camera_device_session.cpp:330-353 | after a returned lease the tables are in bijection exactly when they were and the driver's token binds |
| SessionLaws.NextKeepsWorldInv | hal/camera_device_session.cpp:180-673 | every critical section, in any order, keeps the tables, rows, results, fences and preview buffers accounted for |
| SessionReports.EveryReportIsRight | hal/camera_device_session.cpp:180-673 | in every run each section reports exactly what it must, said of the requests as the framework made them: which results, with which status, entries, fences, size and format; it counts its failures and leaves the session in the right state |
| SessionReports.SubmitReports | hal/camera_device_session.cpp:451-514 | an accepted request reports nothing; a rejected one its frame number; a failed preflight or a duplicate the row of that number or the request's own outputs; a refusal by the driver the request's own outputs; with the status of each case |
| SessionReports.ResolveReports | hal/camera_device_session.cpp:564-645 | the last completion of a request reports every output of the request with its fence, in the size and format of the target completed last; a preview completion its buffer; any other nothing |
| SessionReports.FlushReports | hal/camera_device_session.cpp:373-383 | flush and close report each row in flight once, every output of its request with the fence stored so far |
| SessionReports.FlushedSessionStartsAgain | hal/camera_device_session.cpp:203-259 | from any run, after a flush of a session that streams or is configured a start streams again, with each preview buffer registered under a new frame number and its own token |
| SessionTheorems.TablesStayInBijection | hal/in_flight_request_tracker.cpp:5-214 | in every run each bound token stands for one owed output, the owed outputs without a token are the streaming rows of leases whose answer did not bind, and outside streaming all tables are empty |
| SessionTheorems.EveryRowHasOneResult | hal/camera_device_session.cpp:361-673 | in every run each inserted row is in flight or has left with exactly one result, and completed() counts the Ok results |
| SessionTheorems.EveryFenceIsHeldOnce | hal/camera_device_session.cpp:583-643 | in every run each release fence is stored in one completed output in flight or delivered in one result |
| SessionTheorems.PreviewTargetsAreConserved | hal/camera_device_session.cpp:307-359 | in every run the preview buffers in the table, at callbacks and refused are those the epoch began with and those of older leases taken back |
| SessionTheorems.StreamingFramesAreFresh | hal/camera_device_session.cpp:203-355 | in every run, restarts included, each streaming frame number is registered at most once |
| SessionSubmissions.SubmitRemovesRowExactlyWhen | hal/camera_device_session.cpp:451-514 | a submission removes a row from the table exactly when it is not rejected and carries the row's frame number |
| SessionSubmissions.CollisionReportsTheOtherRow | hal/camera_device_session.cpp:647-673 | such a submission reports the outputs of the row it removes, not its own |
| SessionSubmissions.SubmitOrphansExactlyWhen | hal/camera_device_session.cpp:451-514 | for any frame number, a submission leaves a streaming row without a token exactly when it is taken up, fails, and its number is that of the row |
| SessionSubmissions.SubmitConservedExactlyWhen | hal/camera_device_session.cpp:451-514 | a submission becomes one more row or one more result exactly when it is rejected or its frame is not in flight |
| SessionSubmissions.SubmissionsAreAccounted | hal/camera_device_session.cpp:361-673 | in every run the submissions are the request results, the rows in flight and the submissions that met a row of their own frame |
| SessionSubmissions.DuplicateFrameRemovesTheFirstRow | hal/camera_device_session.cpp:492-498 | a run in which the second submission of a frame removes the first row and reports its buffer: two submissions, one result, no row |
| SessionTheorems.FlushedCompletionsProduceNothing | hal/camera_device_session.cpp:284-440 | a token bound before a flush or close never resolves to anything afterwards, in any later run |
| SessionTheorems.RolledBackTokensNeverResolve | hal/camera_device_session.cpp:536-562 | after a rolled-back submission its tokens never resolve to any frame, in any later run |
| SessionTheorems.SubmitAcceptedExactlyWhen | hal/camera_device_session.cpp:451-514 | a request is taken without a result exactly when the session streams, the preflight passes, the frame is not in flight and every output is accepted |
| SessionTheorems.LifecycleIsKept | hal/camera_device_session.cpp:180-440 | in every run of the critical sections, whatever anyone answers, the tables are empty outside Streaming and Error, and after a close the session is stopped for good |
| SessionCompletion.CompletionOrderIsIrrelevant | hal/in_flight_request_tracker.cpp:49-94 | among any other requests, previews and callbacks: nothing is reported for the frame until its last completion, in whatever order they come, and then exactly one Ok result in request order |
| SessionCompletion.AcceptedRequestCompletesInAnyOrder | hal/camera_device_session.cpp:128-149 | the same for every accepted request and every later run without a flush, a close or a resubmission of its frame: entry i is the i-th output that the framework listed |
| MockDriverAdapters.MockDriverAdapter.StartContinuousStream | hal/mock_driver_adapter.cpp:54-94 | one completion with its own token for each preview buffer, or one fallback, until a wake-up write fails; that completion stays queued |
| MockDriverAdapters.MockDriverAdapter.SubmitCapture | hal/mock_driver_adapter.cpp:124-152 | a capture is completed at once under a new token, unless told to fail; a failed wake-up write loses the token but not the completion |
| MockDriverAdapters.MockDriverAdapter.DequeueCompletion | hal/mock_driver_adapter.cpp:154-170 | completions come out in order |
| MockDriverAdapters.OnDriverBufferComplete | hal/camera_device_session.cpp:307-359 | resolves one completion, reports what resolving it reports and, after any calls of other threads during the callback, hands a preview lease back while the session streams; counts every Ok result |
| MockDriverAdapters.OnDriverFdReady | hal/camera_device_session.cpp:284-305 | the loop does nothing without an event; otherwise, with any submissions, starts, flushes and closes of other threads in between, it ends once they have made their last call, with no request in flight and one Ok result per count |
| V4L2Driver.QueueAgreesExactlyWhen | hal/v4l2_driver_adapter.cpp:276-339 | one queueing attempt keeps slot table and kernel in agreement exactly when STREAMON does not fail after a successful QBUF |
| V4L2Driver.FailedStreamOnSticks | hal/v4l2_driver_adapter.cpp:327-336 | after that failure the kernel holds the index that the table calls free |
| V4L2Driver.StuckStaysStuck | hal/v4l2_driver_adapter.cpp:221-339 | from then on no attempt succeeds, also after stop_streaming; closing repairs it |
| V4L2Driver.DequeueFindsItsSlot | hal/v4l2_driver_adapter.cpp:349-385 | a dequeued index always finds its queued slot, and the completion carries that slot's token |
| V4L2Driver.OtherOperationsAgree | hal/v4l2_driver_adapter.cpp:87-248 | configuring, starting, closing and dequeueing keep table and kernel in agreement |
| V4L2Driver.StopAgreesExactlyWhen | hal/v4l2_driver_adapter.cpp:221-232 | stop_streaming keeps table and kernel in agreement exactly when STREAMOFF does not fail on a streaming device |
| V4L2Driver.FailedStreamOffSticksExactlyWhen | hal/v4l2_driver_adapter.cpp:221-232 | after a failed STREAMOFF the kernel holds the indices that were queued, and every later attempt fails until close exactly when the first slot was queued |
| V4L2Driver.AttemptFailsExactlyWhen | hal/v4l2_driver_adapter.cpp:302-339 | when the calls succeed, an attempt with a fitting buffer fails exactly when there is no free slot or the kernel holds the index of the first one |
| V4L2Driver.QueueKeepsCovered | hal/v4l2_driver_adapter.cpp:276-339 | whatever the calls answer, the kernel holds every queued slot's index with the slot's dma-buf |
| V4L2Driver.DequeueIsCovered | hal/v4l2_driver_adapter.cpp:349-385 | whatever failed before, a completion carries the token of the slot whose dma-buf the kernel held for the dequeued index |
| V4L2Driver.QueueSucceeds | hal/v4l2_driver_adapter.cpp:276-339 | with a free slot and calls that succeed a fitting dma-buf is queued and one slot fewer is free |
| V4L2Router.SubmitTargetsGrows | hal/v4l2_driver_adapter.cpp:612-626 | every accepted output is queued at the endpoint of its stream type under its own increasing token, and no slot queued before changes |
| V4L2Router.PreflightIsSufficient | hal/v4l2_driver_adapter.cpp:592-626 | an accepted list is queued in full, each output at the right endpoint, under pairwise different new tokens |
| V4L2Admission.PreflightAcceptsExactlyWhen | hal/v4l2_driver_adapter.cpp:592-610 | while tables and kernels agree, the preflight check accepts a list exactly when calls that succeed queue every output of it |
| V4L2Admission.RefusedIsNotAnswered | hal/v4l2_driver_adapter.cpp:592-626 | in any state and whatever the calls answer, a list that the preflight check refuses is not queued in full |
| V4L2Admission.SubmissionStopsAtFirstFailure | hal/camera_device_session.cpp:540-559 | no output after the first one refused is submitted, and no token is drawn for it |
| V4L2Admission.QueuedExactlyWhen | hal/v4l2_driver_adapter.cpp:276-347 | in agreement, with calls that succeed, a dma-buf is queued exactly when the device streams, it fits, and a slot is free |
| V4L2Admission.TokenIsSpentExactlyWhen | hal/v4l2_driver_adapter.cpp:281-302 | an attempt draws a token exactly when it passes the argument checks and the acquire fence |
| V4L2Admission.DequeuedExactlyWhen | hal/v4l2_driver_adapter.cpp:349-391 | in agreement a completion comes out exactly when the descriptor is the device's, it streams, and the kernel hands back an index it holds |
| V4L2Admission.OpenedDeviceAccepts | hal/v4l2_driver_adapter.cpp:87-180 | a device just opened and started accepts as many outputs as it has buffers, each with a descriptor and at least its frame size |
| V4L2Admission.StoppedDevice | hal/v4l2_driver_adapter.cpp:221-232 | after stop_streaming nothing is queued, dequeued or accepted until the next start, and then every slot is free |
| V4L2Admission.PreviewStartsExactlyWhen | hal/v4l2_driver_adapter.cpp:188-219 | in agreement, with calls that succeed, a preview starts exactly when its endpoint streams and has a free slot for each buffer, which all fit |
| V4L2Admission.FailedPreviewIsNotContinuous | hal/v4l2_driver_adapter.cpp:206-209 | a preview that does not start leaves its endpoint not continuous |
| V4L2Admission.LeaseIsQueuedExactlyWhen | hal/v4l2_driver_adapter.cpp:393-407 | in agreement, with calls that succeed, a returned lease gets a new token exactly when its endpoint is continuous, it fits, and a slot is free |
| V4L2Admission.ConfigureSucceedsExactlyWhen | hal/v4l2_driver_adapter.cpp:526-540 | configuring succeeds exactly when every endpoint is or can be opened, each then with its own buffer count and frame size; otherwise all end closed |
| V4L2Admission.StartSucceedsExactlyWhen | hal/v4l2_driver_adapter.cpp:542-550 | starting succeeds exactly when every endpoint is open and has buffers, and then all stream |
| V4L2Router.DequeueAtEffect | hal/v4l2_driver_adapter.cpp:628-640 | a completion carries the token of the dma-buf the kernel held for the dequeued index, and that token is in no slot afterwards |
| V4L2Router.StartContinuousTokens | hal/v4l2_driver_adapter.cpp:561-578 | each preview buffer is queued under its own new token |
| V4L2Router.StopAllEffect | hal/v4l2_driver_adapter.cpp:580-584 | stopping leaves nothing queued in any table, whatever STREAMOFF answers |
| V4L2Router.ReturnAnswersZeroExactlyWhen | hal/v4l2_driver_adapter.cpp:642-656 | a returned lease is answered with token 0 exactly when the endpoint of its stream type exists and is not streaming continuously |
| V4L2DriverAdapters.TokenCounter.NextToken | hal/v4l2_driver_adapter.cpp:483-492 | each token is handed out once, in order |
| V4L2DriverAdapters.V4L2DriverAdapter.FreeQueuedRequestCount | hal/v4l2_driver_adapter.cpp:434-440 | the number of free slots |
| V4L2DriverAdapters.V4L2DriverAdapter.BindFreeQueuedRequest | hal/v4l2_driver_adapter.cpp:442-459 | the first free slot is bound, and no other |
| V4L2DriverAdapters.V4L2DriverAdapter.QueuedRequestForIndex | hal/v4l2_driver_adapter.cpp:424-432 | the first slot with the index |
| V4L2DriverAdapters.V4L2DriverAdapter.ClearQueuedRequest | hal/v4l2_driver_adapter.cpp:461-471 | the slot of the index becomes free, and no other |
| V4L2DriverAdapters.V4L2DriverAdapter.ResetQueuedRequests | hal/v4l2_driver_adapter.cpp:473-481 | every slot becomes free |
| V4L2DriverAdapters.V4L2DriverAdapter.ConfigureStream | hal/v4l2_driver_adapter.cpp:87-171 | an open device is left alone; otherwise the slots are built in index order, or the device is closed again |
| V4L2DriverAdapters.V4L2DriverAdapter.StopStreaming | hal/v4l2_driver_adapter.cpp:221-232 | empties the slots and, on a streaming device whose STREAMOFF succeeds, the kernel queue |
| V4L2DriverAdapters.V4L2DriverAdapter.Close | hal/v4l2_driver_adapter.cpp:234-248 | nothing is left of the device |
| V4L2DriverAdapters.V4L2DriverAdapter.CanSubmitCaptureOutputs | hal/v4l2_driver_adapter.cpp:263-274 | accepts exactly when the device streams, every output fits and enough slots are free |
| V4L2DriverAdapters.V4L2DriverAdapter.QueueCaptureBuffer | hal/v4l2_driver_adapter.cpp:276-347 | every check and failure path of one queueing attempt, and which of them draw a token |
| V4L2DriverAdapters.V4L2DriverAdapter.DequeueCompletion | hal/v4l2_driver_adapter.cpp:349-391 | hands out the token of the dequeued index and frees its slot |
| V4L2DriverAdapters.V4L2DriverAdapter.StartContinuousStream | hal/v4l2_driver_adapter.cpp:188-219 | the loop queues the buffers until one is refused |
| V4L2DriverAdapters.V4L2DriverAdapter.ReturnStreamBuffer | hal/v4l2_driver_adapter.cpp:393-407 | a stream that is not continuous answers with token zero and queues nothing |
| V4L2MultiStreamDriverAdapters.V4L2MultiStreamDriverAdapter.constructor | hal/v4l2_driver_adapter.cpp:509-520 | the endpoints are different devices sharing one counter that starts at one |
| V4L2MultiStreamDriverAdapters.V4L2MultiStreamDriverAdapter.EndpointFor | hal/v4l2_driver_adapter.cpp:672-690 | the first endpoint of the stream type |
| V4L2MultiStreamDriverAdapters.V4L2MultiStreamDriverAdapter.EndpointForFd | hal/v4l2_driver_adapter.cpp:692-710 | the first endpoint with the fd |
| V4L2MultiStreamDriverAdapters.V4L2MultiStreamDriverAdapter.CanSubmitCaptureOutputs | hal/v4l2_driver_adapter.cpp:592-610 | grouping by endpoint and asking each group decides the preflight check of the whole list |
| V4L2MultiStreamDriverAdapters.V4L2MultiStreamDriverAdapter.SubmitCapture | hal/v4l2_driver_adapter.cpp:612-626 | only the endpoint of the stream type and the counter change |
| V4L2MultiStreamDriverAdapters.V4L2MultiStreamDriverAdapter.DequeueCompletion | hal/v4l2_driver_adapter.cpp:628-640 | only the endpoint of the ready fd changes |
| V4L2MultiStreamDriverAdapters.V4L2MultiStreamDriverAdapter.StartContinuousStream | hal/v4l2_driver_adapter.cpp:561-578 | the buffers go to the endpoint of the preview stream |
| V4L2MultiStreamDriverAdapters.V4L2MultiStreamDriverAdapter.ReturnStreamBuffer | hal/v4l2_driver_adapter.cpp:642-656 | the lease goes back to the endpoint of its stream type |
| V4L2MultiStreamDriverAdapters.V4L2MultiStreamDriverAdapter.ConfigureStream | hal/v4l2_driver_adapter.cpp:526-540 | the endpoints are configured in order, and all are closed when one fails |
| V4L2MultiStreamDriverAdapters.V4L2MultiStreamDriverAdapter.StartStreaming | hal/v4l2_driver_adapter.cpp:542-550 | the endpoints are started in order until one refuses |
| V4L2MultiStreamDriverAdapters.V4L2MultiStreamDriverAdapter.StopStreaming | hal/v4l2_driver_adapter.cpp:580-584 | every endpoint stops |
| V4L2MultiStreamDriverAdapters.V4L2MultiStreamDriverAdapter.Close | hal/v4l2_driver_adapter.cpp:586-590 | every endpoint closes |
| HalTheorems.NextKeepsSystemInv | hal/camera_device_session.cpp:180-673 | every critical section with the driver calls made inside it keeps tokens, slots, kernel queues and tables linked |
| HalTheorems.EveryRunIsASessionRun | hal/camera_device_session.cpp:180-673 | with the V4L2 adapter behind it every run is an admissible run of the session: the tokens it sees are always fresh |
| HalTheorems.EveryEntryNamesItsBuffer | hal/camera_device_session.cpp:564-645 | in every run entry i of an Ok result names the buffer of output i of the request as the framework gave it, whose dma-buf the kernel held for the dequeued index, each filled by a token of its own; the result has the size and format of the target completed last, and a preview result those of its buffer |
| HalTheorems.TokensAreCarriedOnce | hal/v4l2_driver_adapter.cpp:359-385 | in every run no token is carried by two completions, across endpoints and restarts |
| HalTheorems.EveryOwedOutputIsBacked | hal/v4l2_driver_adapter.cpp:302-326 | in every run each owed output, unless its lease was answered with token 0, has a token for which the kernel holds its dma-buf or whose completion was dequeued with it |
| HalTheorems.FaultlessRunAgrees | hal/v4l2_driver_adapter.cpp:221-339 | in every run in which STREAMON and STREAMOFF have not failed tables and kernels agree |
| HalTheorems.PreflightedRequestIsAccepted | hal/camera_device_session.cpp:481-514 | in every such run a new frame that passes the preflight becomes a row in flight when its fences and calls succeed |
| HalAdmission.AcceptedRequestIsQueued | hal/camera_device_session.cpp:536-562 | in every run each output of an accepted request, as the framework gave it, is queued at the endpoint of its stream type under a token whose completion it waits for; a request without outputs is never accepted |
| HalAdmission.RequestIsAcceptedExactlyWhen | hal/camera_device_session.cpp:451-514 | in every run in which STREAMON and STREAMOFF have not failed, a request whose calls succeed is accepted exactly when the session streams, its frame is new, it names outputs, and each endpoint has room for its share, which fits |
| HalAdmission.RefusedRequestTouchesNoDevice | hal/camera_device_session.cpp:460-505 | a request that is rejected, fails the preflight or repeats a frame leaves every device as it was |
| HalAdmission.OnlyStreamingDequeues | hal/camera_device_session.cpp:290-298 | outside streaming no completion is dequeued |
| HalAdmission.LeaseIsQueuedAgainExactlyWhen | hal/camera_device_session.cpp:330-353 | in every such run a returned lease is registered anew and queued exactly when its device is continuous and has a free slot it fits |
| HalAdmission.FlushStopsEverything | hal/camera_device_session.cpp:361-388 | a flush of a session that streams or is configured stops every device, empties tables and, when STREAMOFF succeeds, kernels, and leaves the session configured; any other touches nothing |
| HalAdmission.CloseClosesEverything | hal/camera_device_session.cpp:397-433 | a close leaves every device closed, the tables empty and the session stopped |
| HalRestart.SystemStartsAgainExactlyWhen | hal/camera_device_session.cpp:203-259 | from every run in which STREAMON and STREAMOFF have not failed, a flush and a start bring the session back to streaming, with a preview exactly when it has buffers and they fit its endpoint |
| HalTheorems.SystemConservesRows | hal/camera_device_session.cpp:361-673 | rows and results are conserved with the V4L2 adapter behind the session, and the orphans are those of the leases answered with token 0 |
| HalPreviews.ReturnLosesExactlyWhen | hal/camera_device_session.cpp:330-353 | a returned lease leaves a row without a token exactly when its buffer's stream type is not the preview's and has an endpoint |
| HalPreviews.RunLosesNothing | hal/camera_device_session.cpp:203-355 | a setup without such a buffer, or whose preview cannot start, never leaves one |
| HalLostLease.LeaseIsLost | hal/camera_device_session.cpp:203-355 | for every other setup, a run from configuration that leaves one |
| HalLostLease.BijectionHoldsExactlyWhen | hal/in_flight_request_tracker.cpp:96-158 | tokens and owed outputs are in bijection in every run exactly for the setups that cannot lose a lease |
| HalLostLease.DefaultStreamTypeLosesLeases | hal/v4l2_driver_adapter.cpp:393-407 | a preview buffer of type Still next to a preview and a still endpoint is such a setup |
| HalExample.AStreamOnFailureIsReached | hal/v4l2_driver_adapter.cpp:327-336 | a run in which STREAMON fails after its QBUF and table and kernel disagree from then on |
| HalExample.AStreamOffFailureIsReached | hal/v4l2_driver_adapter.cpp:221-232 | a run in which STREAMOFF fails in a flush while a capture is queued, and table and kernel disagree from then on |
| HalExample.ARequestIsDelivered | hal/camera_device_session.cpp:180-645 | a run from configuration to an Ok result exists |
| DmaBufPools.PoolIsAccounted | hal/dma_buf_allocator.cpp:113-320 | after any sequence of operations the free queue is duplicate-free, a buffer is free exactly when not acquired, live leases hold different buffers, and available() plus live leases is capacity() |
| DmaBufPools.NextKeepsInv | hal/dma_buf_allocator.cpp:113-320 | initialize (also failed), acquire, move, reset and close keep pool and leases accounted for |
| DmaBufPools.LiveLeaseIsGivenBack | hal/dma_buf_allocator.cpp:302-320 | giving back a lease of the current generation always frees its buffer |
| DmaBufPools.ResetChangesPoolExactlyWhenLive | hal/dma_buf_allocator.cpp:154-161 | after any sequence of operations, giving back a lease changes the pool exactly when its generation is the current one |
| DmaBufPools.StaleLeaseNeverChangesThePool | hal/dma_buf_allocator.cpp:302-310 | a lease of an earlier generation never changes the pool again, also when its address has been reused |
| DmaBufPools.StartingOverMakesStale | hal/dma_buf_allocator.cpp:170-266 | initialize past its argument checks, and close, make every lease stale |
| DmaBufPools.ReusedAddressNeedsTheGeneration | hal/dma_buf_allocator.cpp:308-310 | a run in which an address comes back and releasing without the generation check would free another lease's buffer |
| DmaBufLaws.InitializeFillsThePool | hal/dma_buf_allocator.cpp:170-205 | a successful initialize gives exactly the buffers asked for: that many, different, of that size, all free; a failed allocation gives an empty pool; bad arguments change nothing |
| DmaBufLaws.CloseEmptiesThePool | hal/dma_buf_allocator.cpp:249-266 | close leaves an empty pool of a new generation |
| DmaBufLaws.EveryBufferHasTheSizeAskedFor | hal/dma_buf_allocator.cpp:170-217 | after any sequence of operations every buffer of the pool and of a live lease has the size of the last initialize past its checks |
| DmaBufLaws.AcquireSucceedsExactlyWhen | hal/dma_buf_allocator.cpp:207-217 | after any sequence of operations acquire gives a buffer no live lease holds exactly when fewer leases are live than there are buffers |
| DmaBufLaws.BuffersAreFirstInFirstOut | hal/dma_buf_allocator.cpp:207-320 | a buffer given back is leased again after exactly those that were free before it |
| DmaBufLaws.MovesHandOver | hal/dma_buf_allocator.cpp:122-136 | a move hands over what the lease holds and empties it, after giving back what the target held; no other lease is touched |
| DmaBufObjects.DmaBufPool.Initialize | hal/dma_buf_allocator.cpp:170-205 | invalid arguments change nothing; otherwise the pool starts over, empty when one allocation fails |
| DmaBufObjects.DmaBufPool.Acquire | hal/dma_buf_allocator.cpp:207-217 | hands out the front of the free queue under the current generation, or an empty lease |
| DmaBufObjects.DmaBufPool.Release | hal/dma_buf_allocator.cpp:302-320 | the three guards and the return to the back of the free queue |
| DmaBufObjects.DmaBufPool.Close | hal/dma_buf_allocator.cpp:249-266 | nothing is left and every lease is stale |
| DmaBufObjects.DmaBufLease.MoveFrom | hal/dma_buf_allocator.cpp:122-125 | the new lease holds what the other held, and the other is empty |
| DmaBufObjects.DmaBufLease.Reset | hal/dma_buf_allocator.cpp:154-161 | gives back what the lease holds and empties it |
| DmaBufObjects.DmaBufLease.MoveAssign | hal/dma_buf_allocator.cpp:127-136 | gives back what this lease held before taking over the other; self-assignment does nothing |

## Left out

- Condition-variable wakeups and the liveness of `wait_pop`: the wait is a retry that changes nothing.
- Weak memory: the atomics are sequentially consistent steps.
- The ring's counters, frame numbers, tokens and generations are mathematical integers; only the unsigned difference of the capacity check wraps.
- `wait_pop` with a null out-parameter, `size`, `capacity` and `stopped` of the ring.
- TasksOfAKeyRunInOrder: covers the shards whose last reset was safe, because RestartMayLoseATask fails it otherwise; StartKeepsOrderExactlyWhen says that no other reset is safe.
- A reset is one step; the executor resets a ring only while its worker does not run and posts are refused, but pushes begun before could fall between its stores. The race of `post` with a non-atomic `started_` flag is not modelled.
- Client frame numbers from 1000000000000 on: the runs of SessionLaws and HalSystem take smaller ones, because larger ones can meet the numbers of the preview; SubmitOrphansExactlyWhen says what a submission then does.
- Acquire fences: who closes them on failed submissions and restarts; waiting for one succeeds or fails.
- Latency, error strings, sensor metadata and submission times; metrics are counters.
- `complete` of the tracker, which the session does not use.
- AcceptedRequestCompletesInAnyOrder: says nothing of width, height and format, which are those of the target completed last (ResolveReports) and so depend on the order.
- PreviewTargetsAreConserved: leases of an earlier streaming epoch that the driver takes back are counted apart, because the code queues them again after a restart.
- EveryEntryNamesItsBuffer: a callback hands back the buffer of its own lease; another one is not modelled.
- FlushSession: the driver's stop_streaming inside the same critical section is in HalSystem, not in the method.
- CloseSession: the driver's stop and close inside the same critical section are in HalSystem, not in the method; unregistering from the runtime is not part of this model.
- V4L2DriverAdapter.ConfigureStream: capability and format checks are one answer, the device or none.
- RunKeepsAccounts: a push that is rejected accounts for no position; that it may be retried is the caller's policy.
- The abstract kernel refuses QBUF for an index it already holds and hands every buffer back on a successful STREAMOFF and on close, as section 3.4 "Streaming I/O (DMA buffer importing)" of the V4L2 API describes; everything else its calls answer is a parameter.
- V4L2 capability checks, format negotiation and timestamp conversion: opening a device either fails or gives a descriptor, a buffer count and a frame size.
- The mock driver's stored last lease.
- The epoll loop, the runtime that owns sessions, `process_capture_request` admission, and everything under `app/`.
- `DmaBuf` itself (mapping and closing descriptors); a pool's leases are all of that one pool.
- The worker loop of the executor is a sequence of atomic steps of one thread, because it interleaves with producers; the class methods cover construction, start, stop and post.
