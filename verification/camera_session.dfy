/** The critical sections of a camera session, as functions of the session and of what the driver
    and the output processors answer. */
module CameraSession {
  import opened Wrappers
  import opened CameraTypes
  import opened InFlightTracker

  datatype SessionState = Created | Configured | Streaming | Flushing | Stopping | Stopped | Error

  const FIRST_STREAMING_FRAME: nat := 1000000000000

  /** processors tells, in order, which entries of the processor list are not null. */
  datatype Config = Config(
    hasDriver: bool,
    continuousPreview: bool,
    previewBuffers: seq<Target>,
    processors: seq<bool>)

  datatype Session = Session(
    state: SessionState,
    tracker: Tracker,
    completed: nat,
    failed: nat,
    nextStreamingFrame: nat)

  const NEW_SESSION := Session(Created, EMPTY, 0, 0, FIRST_STREAMING_FRAME)

  /** Where a result comes from: a row leaving the table, a streaming output,
      or a submission that never had a row. */
  datatype Origin = FromRow | FromStream | FromNothing

  datatype Outcome = Outcome(origin: Origin, result: Result)

  /* ---------------------------------- pure builders ---------------------------------- */

  function RequestOutputs(request: Request): (targets: seq<Target>)
    ensures targets != []
  {
    if request.outputs != [] then request.outputs
    else [Target(0, -1, -1, -1, 0, Still, request.width, request.height, Rgb24)]
  }

  /** How many targets a request names; one when it names none. */
  function TargetCount(request: Request): nat {
    if request.outputs == [] then 1 else |request.outputs|
  }

  /** Target i of a request is its i-th output, or the fallback target when it names none. */
  predicate IsTarget(request: Request, i: nat, target: Target) {
    if request.outputs != [] then i < |request.outputs| && target == request.outputs[i]
    else
      && i == 0
      && target.streamId == 0 && target.bufferId == -1 && target.bufferFd == -1 && target.acquireFence == -1
      && target.bufferSize == 0 && target.streamType.Still?
      && target.width == request.width && target.height == request.height && target.format.Rgb24?
  }

  lemma RequestOutputsAreTargets(request: Request)
    ensures |RequestOutputs(request)| == TargetCount(request)
    ensures forall i :: 0 <= i < TargetCount(request) ==> IsTarget(request, i, RequestOutputs(request)[i])
  {
  }

  function MakeOutputs(targets: seq<Target>): (outputs: seq<Output>)
    ensures |outputs| == |targets|
  {
    seq(|targets|, i requires 0 <= i < |targets| => Output(targets[i], i, false, -1))
  }

  function CompletedBufferOf(output: Output, status: CaptureStatus): CompletedBuffer {
    CompletedBuffer(output.target.streamId, output.target.bufferId, output.outputIndex, status, output.releaseFence)
  }

  function CompletedBuffers(outputs: seq<Output>, status: CaptureStatus): (buffers: seq<CompletedBuffer>)
    ensures |buffers| == |outputs|
  {
    seq(|outputs|, i requires 0 <= i < |outputs| => CompletedBufferOf(outputs[i], status))
  }

  function MakeResult(frame: nat, status: CaptureStatus, buffers: seq<CompletedBuffer>): Result {
    Result(frame, status, buffers, 0, 0, NoPayload)
  }

  function PreviewResult(output: StreamingOutput, fence: int): Result {
    Result(output.frameNumber, Ok,
           [CompletedBuffer(output.target.streamId, output.target.bufferId, -1, Ok, fence)],
           output.target.width, output.target.height, PayloadFor(output.target.format))
  }

  /** The result of a completed row; its size and format are those of the last completed target. */
  function RowResult(row: Row, last: Target): Result {
    Result(row.frameNumber, Ok, CompletedBuffers(row.outputs, Ok), last.width, last.height, PayloadFor(last.format))
  }

  /* ---------------------------------- output processors ---------------------------------- */

  /** One call of a processor: its index in the list and the fence it is given. */
  datatype ProcessorCall = ProcessorCall(index: nat, inputFence: int)

  /** The calls made for one completed buffer, and the fence left at the end. fences lists the fence
      that each processor returns. */
  function Process(processors: seq<bool>, fences: seq<int>): (r: (seq<ProcessorCall>, int))
    requires |fences| >= |processors|
    decreases |processors|
  {
    if processors == [] then ([], -1)
    else
      var last := |processors| - 1;
      var (calls, fence) := Process(processors[..last], fences);
      if processors[last] then (calls + [ProcessorCall(last, fence)], fences[last]) else (calls, fence)
  }

  /** The release fence of the last processor that is not null, or -1. */
  function ReleaseFence(processors: seq<bool>, fences: seq<int>): int
    requires |fences| >= |processors|
  {
    Process(processors, fences).1
  }

  /** The indices of the processors that are not null, in order. */
  function NonNull(processors: seq<bool>): (indices: seq<nat>)
    ensures forall k :: 0 <= k < |indices| ==> indices[k] < |processors| && processors[indices[k]]
    ensures forall k, l :: 0 <= k < l < |indices| ==> indices[k] < indices[l]
    ensures forall p :: 0 <= p < |processors| && processors[p] ==> p in indices
    decreases |processors|
  {
    if processors == [] then []
    else
      var last := |processors| - 1;
      var before := NonNull(processors[..last]);
      assert forall p :: 0 <= p < last && processors[p] ==> processors[..last][p];
      if processors[last] then before + [last] else before
  }

  /** Each fence goes to exactly the next processor that is not null: the calls visit those
      processors in order, the first is given no fence, each later one the fence of the call before
      it, and the fence of the last call is the one that leaves the chain. */
  lemma {:induction false} FencesChain(processors: seq<bool>, fences: seq<int>)
    requires |fences| >= |processors|
    ensures var (calls, fence) := Process(processors, fences);
            var indices := NonNull(processors);
            && |calls| == |indices|
            && (forall k :: 0 <= k < |calls| ==>
                  calls[k] == ProcessorCall(indices[k], if k == 0 then -1 else fences[indices[k - 1]]))
            && fence == if indices == [] then -1 else fences[indices[|indices| - 1]]
    decreases |processors|
  {
    if processors != [] {
      FencesChain(processors[..|processors| - 1], fences);
    }
  }

  /* ---------------------------------- critical sections ---------------------------------- */

  function Configure(s: Session, c: Config, driverConfigured: bool, registered: bool): Session {
    if !c.hasDriver || !s.state.Created? then s
    else s.(state := if driverConfigured && registered then Configured else Error)
  }

  /** Registers the preview buffers from the i-th on; each has drawn the next streaming frame number. */
  function RegisterPreview(t: Tracker, buffers: seq<Target>, tokens: seq<nat>, first: nat, i: nat): (Tracker, bool)
    requires i <= |buffers| == |tokens|
    decreases |buffers| - i
  {
    if i == |buffers| then (t, true)
    else
      var output := StreamingOutput(first + i, buffers[i], buffers[i].streamType);
      if first + i in t.streaming then (t, false)
      else if !CanBind(t, tokens[i]) then (RegisterStreaming(t, output), false)
      else RegisterPreview(RegisterAndBind(t, output, tokens[i]), buffers, tokens, first, i + 1)
  }

  /** tokens is what start_continuous_stream returned, if anything. */
  function StartStreaming(s: Session, c: Config, driverStarted: bool, tokens: Option<seq<nat>>): Session {
    if !c.hasDriver || !s.state.Configured? then s
    else if !driverStarted then s.(state := Error)
    else if !c.continuousPreview then s.(state := Streaming)
    else if c.previewBuffers == [] then s.(state := Error)
    else
      var s' := s.(nextStreamingFrame := s.nextStreamingFrame + |c.previewBuffers|);
      if tokens.None? || |tokens.value| != |c.previewBuffers| then s'.(state := Error)
      else
        var (t, ok) := RegisterPreview(s.tracker, c.previewBuffers, tokens.value, s.nextStreamingFrame, 0);
        s'.(tracker := t, state := if ok then Streaming else Error)
  }

  predicate Rejects(s: Session, c: Config) {
    !s.state.Streaming? || !c.hasDriver
  }

  /** Submits the outputs from the i-th on to the driver and binds the returned tokens;
      responses[k] is the driver's answer for output k. */
  function BindOutputs(t: Tracker, frame: nat, count: nat, responses: seq<Option<nat>>, i: nat): (Tracker, bool)
    decreases count - i
  {
    if i >= count then (t, true)
    else if i >= |responses| || responses[i].None? || !CanBind(t, responses[i].value) then (t, false)
    else BindOutputs(Bind(t, responses[i].value, Context(frame, i)), frame, count, responses, i + 1)
  }

  function SubmitToDriver(t: Tracker, frame: nat, count: nat, responses: seq<Option<nat>>): (Tracker, bool) {
    var (t', submittedAll) := BindOutputs(t, frame, count, responses, 0);
    if !submittedAll then (ClearFrame(t', frame), false)
    else (MarkQueued(t', frame), CanMarkQueued(t', frame))
  }

  /** Removes the row of the frame, if there is one, and reports its outputs; otherwise the fallback. */
  function FillFailed(s: Session, frame: nat, status: CaptureStatus, fallback: seq<CompletedBuffer>)
    : (Session, Outcome)
  {
    var row := FailedRow(s.tracker, frame);
    var buffers := if row.Some? then CompletedBuffers(row.value.outputs, status) else fallback;
    (s.(tracker := ClearFrame(Fail(s.tracker, frame), frame), failed := s.failed + 1),
     Outcome(if row.Some? then FromRow else FromNothing, MakeResult(frame, status, buffers)))
  }

  function Submit(s: Session, c: Config, request: Request, preflight: bool, responses: seq<Option<nat>>)
    : (Session, Option<Outcome>)
  {
    var frame := request.frameNumber;
    if Rejects(s, c) then
      (s.(failed := s.failed + 1), Some(Outcome(FromNothing, MakeResult(frame, FlushedStatus, []))))
    else
      var outputs := MakeOutputs(RequestOutputs(request));
      var fallback := CompletedBuffers(outputs, ProcessingError);
      if !preflight then
        var (s', o) := FillFailed(s, frame, SensorError, fallback);
        (s', Some(o))
      else if !CanStart(s.tracker, frame, outputs) then
        var (s', o) := FillFailed(s, frame, ProcessingError, fallback);
        (s', Some(o))
      else
        var (t, submitted) := SubmitToDriver(Start(s.tracker, request, outputs), frame, |outputs|, responses);
        if submitted then (s.(tracker := t), None)
        else
          var (s', o) := FillFailed(s.(tracker := t), frame, SensorError, []);
          (s', Some(o))
  }

  /** What resolving one driver completion produces: nothing, a row's result, or a preview result
      together with the streaming output that goes out to the callback. */
  datatype Resolution = Nothing | RowDone(outcome: Outcome) | PreviewDone(outcome: Outcome, output: StreamingOutput)

  function Resolve(s: Session, c: Config, token: nat, timestamp: int, fences: seq<int>): (Session, Resolution)
    requires |fences| >= |c.processors|
  {
    var (t, resolved) := Take(s.tracker, token);
    if resolved.None? then (s.(tracker := t, failed := s.failed + 1), Nothing)
    else
      var fence := ReleaseFence(c.processors, fences);
      if resolved.value.streaming.Some? then
        var output := resolved.value.streaming.value;
        (s.(tracker := t, completed := s.completed + 1),
         PreviewDone(Outcome(FromStream, PreviewResult(output, fence)), output))
      else
        var (t', completion) :=
          CompleteOutput(t, resolved.value.frameNumber, resolved.value.outputIndex, fence, timestamp);
        match completion
        case WaitingForMoreOutputs => (s.(tracker := t'), Nothing)
        case NotFound => (s.(tracker := t', failed := s.failed + 1), Nothing)
        case RequestComplete(row) =>
          (s.(tracker := t', completed := s.completed + 1),
           RowDone(Outcome(FromRow, RowResult(row, resolved.value.target))))
  }

  /** The second critical section of a preview completion: the callback has handed its lease back,
      and token is what return_stream_buffer answered. */
  function ReturnLease(s: Session, c: Config, output: StreamingOutput, token: Option<nat>): Session {
    if !c.hasDriver || !s.state.Streaming? then s
    else if token.None? then s.(failed := s.failed + 1)
    else
      var next := output.(frameNumber := s.nextStreamingFrame);
      var s' := s.(nextStreamingFrame := s.nextStreamingFrame + 1);
      if next.frameNumber in s.tracker.streaming then s'.(failed := s.failed + 1)
      else
        s'.(tracker := RegisterAndBind(s.tracker, next, token.value),
            failed := if CanBind(s.tracker, token.value) then s.failed else s.failed + 1)
  }

  /** The results of the rows that flush or close takes out of the table, in the given order. */
  function FlushOutcomes(t: Tracker, order: seq<nat>): (outcomes: seq<Outcome>)
    requires forall i :: 0 <= i < |order| ==> order[i] in t.requests
    ensures |outcomes| == |order|
  {
    seq(|order|, i requires 0 <= i < |order| =>
      Outcome(FromRow, MakeResult(t.requests[order[i]].frameNumber, FlushedStatus,
                                  CompletedBuffers(t.requests[order[i]].outputs, FlushedStatus))))
  }

  predicate CanFlush(s: Session) {
    s.state.Streaming? || s.state.Configured?
  }

  function Emptied(s: Session, rows: nat, state: SessionState): Session {
    s.(tracker := ClearStreaming(FlushAll(s.tracker)), failed := s.failed + rows, state := state)
  }

  /** order is the order in which the row table is visited. */
  function Flush(s: Session, order: seq<nat>): Session {
    if !CanFlush(s) then s else Emptied(s, |order|, Configured)
  }

  function Close(s: Session, order: seq<nat>): Session {
    if s.state.Stopped? then s else Emptied(s, |order|, Stopped)
  }
}
