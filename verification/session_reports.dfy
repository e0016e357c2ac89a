/** What each critical section reports to the framework, said of the requests as the framework made them,
    and where it leaves the session. */
module SessionReports {
  import opened Wrappers
  import opened CameraTypes
  import opened InFlightTracker
  import opened CameraSession
  import opened SessionConsistency
  import opened SessionHistory
  import opened SessionLaws
  import opened SessionTheorems
  import opened SessionPreviews

  /* ------------------------- what a result says ------------------------- */

  /** Entry i of a result names the buffer of target i of the request. */
  predicate IsEntry(b: CompletedBuffer, request: Request, i: nat, status: CaptureStatus, fence: int) {
    && b.outputIndex == i && b.status == status && b.releaseFence == fence
    && if request.outputs != [] then
         i < |request.outputs|
         && b.streamId == request.outputs[i].streamId && b.bufferId == request.outputs[i].bufferId
       else i == 0 && b.streamId == 0 && b.bufferId == -1
  }

  /** The result lists every target of the request, in order, each with its fence. */
  predicate Lists(result: Result, request: Request, status: CaptureStatus, fences: seq<int>)
    requires |fences| == TargetCount(request)
  {
    |result.buffers| == TargetCount(request)
    && forall i :: 0 <= i < TargetCount(request) ==> IsEntry(result.buffers[i], request, i, status, fences[i])
  }

  /** A result that carries no picture. */
  predicate IsFailure(result: Result, frame: nat, status: CaptureStatus) {
    && result.frameNumber == frame && result.status == status && !status.Ok?
    && result.width == 0 && result.height == 0 && result.payload.NoPayload?
  }

  /** The result has the size and the format of this target. */
  predicate HasFormatOf(result: Result, width: int, height: int, format: PixelFormat) {
    && result.width == width && result.height == height
    && (format.Rgb24? <==> result.payload.Rgb24Payload?)
    && (format.Yuyv422? <==> result.payload.Yuyv422Payload?)
  }

  function NoFence(request: Request): (fences: seq<int>)
    ensures |fences| == TargetCount(request)
  {
    seq(TargetCount(request), _ => -1)
  }

  /** The fences stored in a row. */
  function StoredFences(outputs: seq<Output>): (fences: seq<int>)
    ensures |fences| == |outputs|
  {
    seq(|outputs|, i requires 0 <= i < |outputs| => outputs[i].releaseFence)
  }

  /** The row stands for the targets of its request, in order. */
  predicate StandsFor(row: Row) {
    && |row.outputs| == TargetCount(row.request)
    && forall i :: 0 <= i < |row.outputs| ==>
         row.outputs[i].outputIndex == i && IsTarget(row.request, i, row.outputs[i].target)
  }

  predicate AllStandFor(t: Tracker) {
    forall f :: f in t.requests ==>
      t.requests[f].frameNumber == t.requests[f].request.frameNumber == f && StandsFor(t.requests[f])
  }

  lemma ListsOutputs(row: Row, frame: nat, status: CaptureStatus)
    requires StandsFor(row)
    ensures var result := MakeResult(frame, status, CompletedBuffers(row.outputs, status));
            Lists(result, row.request, status, StoredFences(row.outputs)) && (!status.Ok? ==> IsFailure(result, frame, status))
  {
    var result := MakeResult(frame, status, CompletedBuffers(row.outputs, status));
    forall i | 0 <= i < TargetCount(row.request)
      ensures IsEntry(result.buffers[i], row.request, i, status, StoredFences(row.outputs)[i])
    {
      assert IsTarget(row.request, i, row.outputs[i].target);
    }
  }

  lemma NewRowStandsFor(request: Request, state: InFlightState)
    ensures StandsFor(Row(request.frameNumber, request, MakeOutputs(RequestOutputs(request)), 0, state))
    ensures StoredFences(MakeOutputs(RequestOutputs(request))) == NoFence(request)
  {
    RequestOutputsAreTargets(request);
    hide RequestOutputs;
  }

  /* ------------------------- the reports of each section ------------------------- */

  /** A submission reports at once unless it is accepted: nothing but its frame number when the session does
      not take requests; the row of its frame number, if there is one, when its preflight fails or the
      number is in flight; its own targets otherwise. */
  predicate SubmitReport(s: Session, c: Config, request: Request, preflight: bool, responses: seq<Option<nat>>,
                         reported: seq<Outcome>)
  {
    var frame := request.frameNumber;
    if !s.state.Streaming? || !c.hasDriver then
      |reported| == 1 && IsFailure(reported[0].result, frame, FlushedStatus) && reported[0].result.buffers == []
    else if !preflight || frame in s.tracker.requests then
      var status := if preflight then ProcessingError else SensorError;
      && |reported| == 1 && IsFailure(reported[0].result, frame, status)
      && if frame in s.tracker.requests then
           var row := s.tracker.requests[frame];
           StandsFor(row) && Lists(reported[0].result, row.request, status, StoredFences(row.outputs))
         else Lists(reported[0].result, request, ProcessingError, NoFence(request))
    else if forall j :: 0 <= j < TargetCount(request) ==> Answered(responses, j) then reported == []
    else
      && |reported| == 1 && IsFailure(reported[0].result, frame, SensorError)
      && Lists(reported[0].result, request, SensorError, NoFence(request))
  }

  /** A completion reports its request when it is the last one: every target with the fence of its own
      processing, and the size and the format of the target whose completion this is. A completion of the
      preview reports its buffer. Any other reports nothing. */
  predicate ResolveReport(s: Session, c: Config, token: nat, fences: seq<int>, reported: seq<Outcome>)
    requires |fences| >= |c.processors|
  {
    var t := s.tracker;
    var fence := ReleaseFence(c.processors, fences);
    if token !in t.tokens then reported == []
    else if t.tokens[token].outputIndex < 0 then
      var frame := t.tokens[token].frameNumber;
      && frame in t.streaming && |reported| == 1 && PreviewReport(t.streaming[frame], frame, fence, reported[0].result)
    else
      var x := t.tokens[token];
      && x.frameNumber in t.requests
      && var row := t.requests[x.frameNumber];
      && StandsFor(row) && x.outputIndex < |row.outputs|
      && if forall i :: 0 <= i < |row.outputs| && i != x.outputIndex ==> row.outputs[i].completed then
           |reported| == 1 && RowReport(row, x.frameNumber, x.outputIndex, fence, reported[0].result)
         else reported == []
  }

  predicate PreviewReport(output: StreamingOutput, frame: nat, fence: int, result: Result) {
    && result.frameNumber == frame && result.status.Ok?
    && result.buffers == [CompletedBuffer(output.target.streamId, output.target.bufferId, -1, Ok, fence)]
    && HasFormatOf(result, output.target.width, output.target.height, output.target.format)
  }

  predicate RowReport(row: Row, frame: nat, last: nat, fence: int, result: Result)
    requires StandsFor(row) && last < |row.outputs|
  {
    var request := row.request;
    && result.frameNumber == frame && result.status.Ok?
    && Lists(result, request, Ok, StoredFences(row.outputs)[last := fence])
    && if request.outputs != [] then
         HasFormatOf(result, request.outputs[last].width, request.outputs[last].height, request.outputs[last].format)
       else HasFormatOf(result, request.width, request.height, Rgb24)
  }

  /** A flush or close reports every row in flight once, in some order. */
  predicate FlushReport(s: Session, order: seq<nat>, reported: seq<Outcome>) {
    && |reported| == |order| && multiset(order) == multiset(s.tracker.requests.Keys)
    && forall k :: 0 <= k < |order| ==> order[k] in s.tracker.requests && FlushedRow(s.tracker.requests[order[k]], order[k], reported[k].result)
  }

  predicate FlushedRow(row: Row, frame: nat, result: Result) {
    && StandsFor(row) && IsFailure(result, frame, FlushedStatus)
    && Lists(result, row.request, FlushedStatus, StoredFences(row.outputs))
  }

  predicate Report(s: Session, c: Config, e: Event, reported: seq<Outcome>) {
    match e
    case DoSubmit(request, preflight, responses) => SubmitReport(s, c, request, preflight, responses, reported)
    case DoResolve(token, _, fences) => |fences| >= |c.processors| && ResolveReport(s, c, token, fences, reported)
    case DoFlush(order) =>
      if s.state.Streaming? || s.state.Configured? then FlushReport(s, order, reported) else reported == []
    case DoClose(order) => if s.state.Stopped? then reported == [] else FlushReport(s, order, reported)
    case _ => reported == []
  }

  /* ------------------------- submissions ------------------------- */

  lemma FallbackReport(s: Session, c: Config, request: Request, preflight: bool, responses: seq<Option<nat>>)
    requires AllStandFor(s.tracker) && !Rejects(s, c) && !Begins(s, c, request, preflight)
    ensures var (s', o) := Submit(s, c, request, preflight, responses);
            o.Some? && SubmitReport(s, c, request, preflight, responses, [o.value]) && s'.failed == s.failed + 1
  {
    var frame := request.frameNumber;
    var status := if preflight then ProcessingError else SensorError;
    var fallback := Row(frame, request, MakeOutputs(RequestOutputs(request)), 0, Submitted);
    NewRowStandsFor(request, Submitted);
    ListsOutputs(fallback, frame, ProcessingError);
    if frame in s.tracker.requests {
      ListsOutputs(s.tracker.requests[frame], frame, status);
    }
    hide Lists, StandsFor, MakeOutputs, CompletedBuffers;
  }

  lemma BegunReport(s: Session, c: Config, used: set<nat>, request: Request, responses: seq<Option<nat>>)
    requires SessionOk(s) && request.frameNumber < FIRST_STREAMING_FRAME && Begins(s, c, request, true)
    requires s.tracker.tokens.Keys <= used && FreshResponses(responses, used)
    ensures var (s', o) := Submit(s, c, request, true, responses);
            && SubmitReport(s, c, request, true, responses, if o.Some? then [o.value] else [])
            && s'.failed == s.failed + (if o.Some? then 1 else 0)
  {
    var outputs := MakeOutputs(RequestOutputs(request));
    var started := Row(request.frameNumber, request, outputs, 0, Submitted);
    var (t, submitted) := SubmitToDriver(Start(s.tracker, request, outputs), request.frameNumber, |outputs|, responses);
    RequestOutputsAreTargets(request);
    NewRowStandsFor(request, Submitted);
    ListsOutputs(started, request.frameNumber, SensorError);
    SubmitAcceptedExactlyWhen(s, c, used, request, true, responses);
    RollbackKeepsRow(s.tracker, request, responses);
    hide SessionOk, Lists, StandsFor, MakeOutputs, RequestOutputs, CompletedBuffers, SubmitToDriver, FreshResponses;
  }

  lemma SubmitReports(s: Session, c: Config, used: set<nat>, request: Request, preflight: bool, responses: seq<Option<nat>>)
    requires SessionOk(s) && AllStandFor(s.tracker) && request.frameNumber < FIRST_STREAMING_FRAME
    requires s.tracker.tokens.Keys <= used && FreshResponses(responses, used)
    ensures var (s', o) := Submit(s, c, request, preflight, responses);
            && SubmitReport(s, c, request, preflight, responses, if o.Some? then [o.value] else [])
            && s'.failed == s.failed + (if o.Some? then 1 else 0)
  {
    if Begins(s, c, request, preflight) {
      BegunReport(s, c, used, request, responses);
    } else if !Rejects(s, c) {
      FallbackReport(s, c, request, preflight, responses);
    }
    hide SessionOk, AllStandFor, FreshResponses, Lists, MakeOutputs, RequestOutputs;
  }

  /* ------------------------- completions ------------------------- */

  /** The size and the format of a finished request are those of the target whose token came last. */
  lemma ResolvedTarget(s: Session, c: Config, token: nat, timestamp: int, fences: seq<int>)
    requires SessionOk(s) && |fences| >= |c.processors|
    requires token in s.tracker.tokens && s.tracker.tokens[token].outputIndex >= 0
    ensures var x := s.tracker.tokens[token];
            var (s', resolution) := Resolve(s, c, token, timestamp, fences);
            && Outstanding(s.tracker, x) && s'.failed == s.failed
            && (resolution.RowDone? ==>
                  var target := s.tracker.requests[x.frameNumber].outputs[x.outputIndex].target;
                  HasFormatOf(resolution.outcome.result, target.width, target.height, target.format))
  {
    var x := s.tracker.tokens[token];
    TakeThenComplete(s.tracker, FIRST_STREAMING_FRAME, s.nextStreamingFrame, token, ReleaseFence(c.processors, fences), timestamp);
    hide SessionOk, ReleaseFence, CompleteOutput, OutputTarget, CompletedBuffers;
  }

  lemma RowDoneReport(row: Row, frame: nat, last: nat, fence: int, result: Result)
    requires StandsFor(row) && last < |row.outputs|
    requires result.buffers == CompletedBuffers(OutputsAfter(row, last, fence), Ok)
    requires result.frameNumber == frame && result.status.Ok?
    requires var target := row.outputs[last].target; HasFormatOf(result, target.width, target.height, target.format)
    ensures RowReport(row, frame, last, fence, result)
  {
    assert IsTarget(row.request, last, row.outputs[last].target);
    forall i | 0 <= i < TargetCount(row.request)
      ensures IsEntry(result.buffers[i], row.request, i, Ok, StoredFences(row.outputs)[last := fence][i])
    {
      assert IsTarget(row.request, i, row.outputs[i].target);
    }
  }

  lemma LastCompletes(outputs: seq<Output>, last: nat, completed: Output)
    requires last < |outputs| && completed.completed
    ensures AllCompleted(outputs[last := completed])
            <==> forall i :: 0 <= i < |outputs| && i != last ==> outputs[i].completed
  {
    forall i | 0 <= i < |outputs| && i != last ensures outputs[last := completed][i] == outputs[i] {
    }
  }

  /** The outputs of a row after its completion x. */
  function OutputsAfter(row: Row, last: nat, fence: int): (outputs: seq<Output>)
    requires last < |row.outputs|
  {
    row.outputs[last := row.outputs[last].(completed := true, releaseFence := fence)]
  }

  lemma RequestOutcome(s: Session, c: Config, token: nat, timestamp: int, fences: seq<int>)
    requires SessionOk(s) && |fences| >= |c.processors|
    requires token in s.tracker.tokens && s.tracker.tokens[token].outputIndex >= 0
    ensures var x := s.tracker.tokens[token];
            var resolution := Resolve(s, c, token, timestamp, fences).1;
            && x.frameNumber in s.tracker.requests && x.outputIndex < |s.tracker.requests[x.frameNumber].outputs|
            && var outputs := OutputsAfter(s.tracker.requests[x.frameNumber], x.outputIndex, ReleaseFence(c.processors, fences));
            && !resolution.PreviewDone? && (resolution.RowDone? <==> AllCompleted(outputs))
            && (resolution.RowDone? ==>
                  var result := resolution.outcome.result;
                  && result.frameNumber == x.frameNumber && result.status.Ok?
                  && result.buffers == CompletedBuffers(outputs, Ok))
  {
    hide SessionOk, Resolve, ReleaseFence, OutputFences, CompletedBuffers, Take, FenceBag, RowOk, AllCompleted;
    ResolveRequest(s, c, token, timestamp, fences);
  }

  lemma RequestReports(s: Session, c: Config, token: nat, timestamp: int, fences: seq<int>)
    requires SessionOk(s) && AllStandFor(s.tracker) && |fences| >= |c.processors|
    requires token in s.tracker.tokens && s.tracker.tokens[token].outputIndex >= 0
    ensures var (s', resolution) := Resolve(s, c, token, timestamp, fences);
            && !resolution.PreviewDone? && s'.failed == s.failed
            && ResolveReport(s, c, token, fences, if resolution.RowDone? then [resolution.outcome] else [])
  {
    hide SessionOk, Resolve, ReleaseFence, CompletedBuffers, HasFormatOf, StandsFor, RowReport, AllCompleted;
    var x := s.tracker.tokens[token];
    RequestOutcome(s, c, token, timestamp, fences);
    ResolvedTarget(s, c, token, timestamp, fences);
    var row := s.tracker.requests[x.frameNumber];
    var fence := ReleaseFence(c.processors, fences);
    LastCompletes(row.outputs, x.outputIndex, OutputsAfter(row, x.outputIndex, fence)[x.outputIndex]);
    var resolution := Resolve(s, c, token, timestamp, fences).1;
    if resolution.RowDone? {
      RowDoneReport(row, x.frameNumber, x.outputIndex, fence, resolution.outcome.result);
    }
  }

  lemma PreviewReports(s: Session, c: Config, token: nat, timestamp: int, fences: seq<int>)
    requires SessionOk(s) && |fences| >= |c.processors|
    requires token in s.tracker.tokens && s.tracker.tokens[token].outputIndex < 0
    ensures var (s', resolution) := Resolve(s, c, token, timestamp, fences);
            && resolution.PreviewDone? && s'.failed == s.failed
            && resolution.output == s.tracker.streaming[s.tracker.tokens[token].frameNumber]
            && ResolveReport(s, c, token, fences, [resolution.outcome])
  {
    var frame := s.tracker.tokens[token].frameNumber;
    assert RowsOk(s.tracker);
    TakeStreaming(s.tracker, FIRST_STREAMING_FRAME, s.nextStreamingFrame, token);
    hide SessionOk, ReleaseFence;
    ResolvePreview(s, c, token, timestamp, fences);
  }

  lemma ResolveReports(s: Session, c: Config, token: nat, timestamp: int, fences: seq<int>)
    requires SessionOk(s) && AllStandFor(s.tracker) && |fences| >= |c.processors|
    ensures var (s', resolution) := Resolve(s, c, token, timestamp, fences);
            && ResolveReport(s, c, token, fences, if resolution.Nothing? then [] else [resolution.outcome])
            && s'.failed == s.failed + (if token in s.tracker.tokens then 0 else 1)
  {
    if token in s.tracker.tokens {
      hide SessionOk, Resolve, AllStandFor, ResolveReport;
      if s.tracker.tokens[token].outputIndex >= 0 {
        RequestReports(s, c, token, timestamp, fences);
      } else {
        PreviewReports(s, c, token, timestamp, fences);
      }
    } else {
      hide SessionOk, ReleaseFence, CompleteOutput;
    }
  }

  /* ------------------------- flush and close ------------------------- */

  lemma FlushReports(s: Session, order: seq<nat>)
    requires AllStandFor(s.tracker) && multiset(order) == multiset(s.tracker.requests.Keys)
    ensures forall i :: 0 <= i < |order| ==> order[i] in s.tracker.requests
    ensures FlushReport(s, order, FlushOutcomes(s.tracker, order))
  {
    OrderInRequests(order, s.tracker.requests.Keys);
    forall k | 0 <= k < |order|
      ensures FlushedRow(s.tracker.requests[order[k]], order[k], FlushOutcomes(s.tracker, order)[k].result)
    {
      ListsOutputs(s.tracker.requests[order[k]], order[k], FlushedStatus);
    }
    hide FlushedRow;
  }

  /* ------------------------- rows keep standing for their requests ------------------------- */

  lemma StartKeepsRequests(s: Session, c: Config, driverStarted: bool, tokens: Option<seq<nat>>)
    ensures StartStreaming(s, c, driverStarted, tokens).tracker.requests == s.tracker.requests
  {
    if tokens.Some? && |tokens.value| == |c.previewBuffers| {
      RegisterPreviewStreaming(s.tracker, c.previewBuffers, tokens.value, s.nextStreamingFrame, 0);
    }
    hide RegisterPreview;
  }

  lemma SubmitStandsFor(s: Session, c: Config, request: Request, preflight: bool, responses: seq<Option<nat>>)
    requires SessionOk(s) && AllStandFor(s.tracker) && request.frameNumber < FIRST_STREAMING_FRAME
    ensures AllStandFor(Submit(s, c, request, preflight, responses).0.tracker)
  {
    NewRowStandsFor(request, QueuedToDriver);
    hide SessionOk, Submit, StandsFor, MakeOutputs, RequestOutputs, BufferFences, RowFences, Begins;
    SubmitEffect(s, c, request, preflight, responses);
  }

  lemma CompletionStandsFor(row: Row, last: nat, fence: int)
    requires StandsFor(row) && last < |row.outputs|
    ensures StandsFor(row.(outputs := OutputsAfter(row, last, fence)))
  {
    forall i | 0 <= i < |row.outputs|
      ensures OutputsAfter(row, last, fence)[i].outputIndex == i
      ensures IsTarget(row.request, i, OutputsAfter(row, last, fence)[i].target)
    {
      assert IsTarget(row.request, i, row.outputs[i].target);
    }
  }

  lemma ResolveStandsFor(s: Session, c: Config, token: nat, timestamp: int, fences: seq<int>)
    requires SessionOk(s) && AllStandFor(s.tracker) && |fences| >= |c.processors|
    ensures AllStandFor(Resolve(s, c, token, timestamp, fences).0.tracker)
  {
    hide SessionOk, Resolve, ReleaseFence, OutputFences, CompletedBuffers, Take, FenceBag, RowOk, AllCompleted, StandsFor;
    if token !in s.tracker.tokens {
      UnboundLeaves(s, c, token, timestamp, fences);
    } else if s.tracker.tokens[token].outputIndex >= 0 {
      ResolveRequest(s, c, token, timestamp, fences);
      var x := s.tracker.tokens[token];
      CompletionStandsFor(s.tracker.requests[x.frameNumber], x.outputIndex, ReleaseFence(c.processors, fences));
    } else {
      ResolvePreview(s, c, token, timestamp, fences);
    }
  }

  lemma UnboundLeaves(s: Session, c: Config, token: nat, timestamp: int, fences: seq<int>)
    requires token !in s.tracker.tokens && |fences| >= |c.processors|
    ensures Resolve(s, c, token, timestamp, fences) == (s.(failed := s.failed + 1), Nothing)
  {
    hide ReleaseFence, CompleteOutput;
  }

  lemma ReturnKeepsRequests(s: Session, c: Config, output: StreamingOutput, answer: Option<nat>)
    ensures ReturnLease(s, c, output, answer).tracker.requests == s.tracker.requests
  {
  }

  lemma SameRowsStand(t: Tracker, t': Tracker)
    requires AllStandFor(t) && (t'.requests == t.requests || t'.requests == map[])
    ensures AllStandFor(t')
  {
  }

  lemma NextKeepsStanding(w: World, c: Config, e: Event)
    requires TablesOk(w, c) && AllStandFor(w.session.tracker) && Admissible(w, c, e)
    ensures AllStandFor(WorldNext(w, c, e).session.tracker)
  {
    assert SessionOk(w.session);
    hide SessionOk, TablesOk, AllStandFor, Submit, Resolve, StartStreaming, ReturnLease, FlushOutcomes, Take, ReleaseFence,
         FenceBag;
    match e
    case DoSubmit(request, preflight, responses) => SubmitStandsFor(w.session, c, request, preflight, responses);
    case DoResolve(token, timestamp, fences) => ResolveStandsFor(w.session, c, token, timestamp, fences);
    case _ =>
      RowsStayOrGo(w, c, e);
      SameRowsStand(w.session.tracker, WorldNext(w, c, e).session.tracker);
  }

  lemma RowsStayOrGo(w: World, c: Config, e: Event)
    requires Admissible(w, c, e) && !e.DoSubmit? && !e.DoResolve?
    ensures var t, t' := w.session.tracker, WorldNext(w, c, e).session.tracker;
            t'.requests == t.requests || t'.requests == map[]
  {
    hide StartStreaming, ReturnLease, FlushOutcomes;
    match e
    case DoStart(driverStarted, tokens) => StartKeepsRequests(w.session, c, driverStarted, tokens);
    case DoReturn(callback, answer) =>
      if callback in w.out { ReturnKeepsRequests(w.session, c, w.out[callback], answer); }
      if callback in w.stale { ReturnKeepsRequests(w.session, c, w.stale[callback], answer); }
    case _ =>
  }

  lemma {:induction false} RunKeepsStanding(w: World, c: Config, events: seq<Event>)
    requires WorldInv(w, c) && EpochOver(w) && AllStandFor(w.session.tracker) && AdmissibleRun(w, c, events)
    ensures AllStandFor(RunWorld(w, c, events).session.tracker)
    decreases |events|
  {
    assert TablesOk(w, c);
    hide WorldInv, EpochOver, TablesOk, AllStandFor, Admissible, WorldNext;
    if events != [] {
      NextKeepsStanding(w, c, events[0]);
      NextKeepsWorldInv(w, c, events[0]);
      RunKeepsStanding(WorldNext(w, c, events[0]), c, events[1..]);
    }
  }

  /* ------------------------- failures and states ------------------------- */

  /** The failures that an event adds to the metrics: one for each result that reports a failure, each
      completion whose token is not bound, and each lease that the driver refuses or answers with token 0. */
  function Failures(w: World, c: Config, e: Event, reported: seq<Outcome>): nat {
    match e
    case DoSubmit(_, _, _) => |reported|
    case DoFlush(_) => |reported|
    case DoClose(_) => |reported|
    case DoResolve(token, _, _) => if token in w.session.tracker.tokens then 0 else 1
    case DoReturn(callback, answer) =>
      if (callback in w.out || callback in w.stale) && c.hasDriver && w.session.state.Streaming?
         && (answer.None? || answer.value == 0) then 1 else 0
    case _ => 0
  }

  /** Where an event leaves the session. */
  predicate StateFollows(s: Session, c: Config, e: Event, state: SessionState) {
    match e
    case DoConfigure(driverConfigured, registered) =>
      if s.state.Created? && c.hasDriver then
        (state.Configured? <==> driverConfigured && registered) && (state.Error? <==> !(driverConfigured && registered))
      else state == s.state
    case DoStart(driverStarted, tokens) =>
      if s.state.Configured? && c.hasDriver then
        var previews := c.continuousPreview ==>
                          c.previewBuffers != [] && tokens.Some? && |tokens.value| == |c.previewBuffers|;
        (state.Streaming? <==> driverStarted && previews) && (state.Error? <==> !(driverStarted && previews))
      else state == s.state
    case DoFlush(_) => state == if s.state.Streaming? || s.state.Configured? then CameraSession.Configured else s.state
    case DoClose(_) => state.Stopped?
    case _ => state == s.state
  }

  lemma StartFollows(s: Session, c: Config, driverStarted: bool, tokens: Option<seq<nat>>, used: set<nat>)
    requires SessionOk(s) && (tokens.Some? ==> FreshTokens(tokens.value, used))
    ensures var s' := StartStreaming(s, c, driverStarted, tokens);
            s'.failed == s.failed && StateFollows(s, c, DoStart(driverStarted, tokens), s'.state)
  {
    if s.state.Configured? && tokens.Some? && |tokens.value| == |c.previewBuffers| {
      RegisterPreviewOk(s.tracker, c.previewBuffers, tokens.value, s.nextStreamingFrame, 0, {});
    }
    hide RegisterPreview, Consistent, FreshTokens, Orphans;
  }

  lemma ReturnFollows(s: Session, c: Config, used: set<nat>, output: StreamingOutput, answer: Option<nat>)
    requires SessionOk(s) && s.tracker.tokens.Keys <= used
    requires answer.Some? ==> answer.value == 0 || answer.value !in used
    ensures var s' := ReturnLease(s, c, output, answer);
            && s'.state == s.state
            && s'.failed == s.failed
                 + if c.hasDriver && s.state.Streaming? && (answer.None? || answer.value == 0) then 1 else 0
  {
    assert s.nextStreamingFrame !in s.tracker.streaming;
    hide SessionOk, RegisterAndBind;
  }

  lemma FlushFollows(s: Session, order: seq<nat>)
    ensures CanFlush(s) ==> Flush(s, order).failed == s.failed + |order|
    ensures !s.state.Stopped? ==> Close(s, order).failed == s.failed + |order|
  {
  }

  /** The event's report, its failures and the state it leaves, in one world. */
  predicate Follows(w: World, c: Config, e: Event, w': World) {
    && w.log <= w'.log
    && var reported := w'.log[|w.log|..];
    && Report(w.session, c, e, reported)
    && w'.session.failed == w.session.failed + Failures(w, c, e, reported)
    && StateFollows(w.session, c, e, w'.session.state)
  }

  lemma SubmitFollows(w: World, c: Config, request: Request, preflight: bool, responses: seq<Option<nat>>)
    requires TablesOk(w, c) && AllStandFor(w.session.tracker) && Admissible(w, c, DoSubmit(request, preflight, responses))
    ensures Follows(w, c, DoSubmit(request, preflight, responses), AfterSubmit(w, c, request, preflight, responses))
  {
    hide SessionOk, Submit, FreshResponses, SubmitReport, BufferFences, RowFences, AllStandFor;
    SubmitReports(w.session, c, w.used, request, preflight, responses);
    SubmitEffect(w.session, c, request, preflight, responses);
    var (s', o) := Submit(w.session, c, request, preflight, responses);
    assert (if o.Some? then w.log + [o.value] else w.log)[|w.log|..] == if o.Some? then [o.value] else [];
  }

  lemma ResolveFollows(w: World, c: Config, token: nat, timestamp: int, fences: seq<int>)
    requires SessionOk(w.session) && AllStandFor(w.session.tracker) && |fences| >= |c.processors|
    ensures Follows(w, c, DoResolve(token, timestamp, fences), AfterResolve(w, c, token, timestamp, fences))
  {
    hide SessionOk, Resolve, ResolveReport, AllStandFor, Take, ReleaseFence, FenceBag;
    ResolveReports(w.session, c, token, timestamp, fences);
    ResolveFrame(w.session, c, token, timestamp, fences);
    var (s', resolution) := Resolve(w.session, c, token, timestamp, fences);
    var reported := if resolution.Nothing? then [] else [resolution.outcome];
    assert (w.log + reported)[|w.log|..] == reported;
    assert w.log + [] == w.log;
  }

  lemma EndFollows(w: World, c: Config, e: Event)
    requires AllStandFor(w.session.tracker) && Admissible(w, c, e) && (e.DoFlush? || e.DoClose?)
    ensures Follows(w, c, e, WorldNext(w, c, e))
  {
    hide AllStandFor, FlushReport, FlushOutcomes;
    FlushReports(w.session, e.order);
    FlushFollows(w.session, e.order);
    var reported := FlushOutcomes(w.session.tracker, e.order);
    assert (w.log + reported)[|w.log|..] == reported;
    assert w.log[|w.log|..] == [];
  }

  lemma NextFollows(w: World, c: Config, e: Event)
    requires TablesOk(w, c) && AllStandFor(w.session.tracker) && Admissible(w, c, e)
    ensures Follows(w, c, e, WorldNext(w, c, e))
  {
    assert SessionOk(w.session);
    match e
    case DoSubmit(request, preflight, responses) =>
      hide *;
      assert WorldNext(w, c, e) == AfterSubmit(w, c, request, preflight, responses) by { SubmitIsNext(w, c, e); }
      SubmitFollows(w, c, request, preflight, responses);
    case DoResolve(token, timestamp, fences) =>
      hide SessionOk, TablesOk, AllStandFor, AfterResolve, Follows;
      ResolveFollows(w, c, token, timestamp, fences);
    case DoFlush(order) =>
      hide SessionOk, TablesOk, AllStandFor, Follows, WorldNext;
      EndFollows(w, c, e);
    case DoClose(order) =>
      hide SessionOk, TablesOk, AllStandFor, Follows, WorldNext;
      EndFollows(w, c, e);
    case _ =>
      hide AllStandFor;
      QuietFollows(w, c, e);
  }

  lemma SubmitIsNext(w: World, c: Config, e: Event)
    requires e.DoSubmit? && Admissible(w, c, e)
    ensures WorldNext(w, c, e) == AfterSubmit(w, c, e.request, e.preflight, e.responses)
  {
  }

  /** The events that report nothing. */
  lemma QuietFollows(w: World, c: Config, e: Event)
    requires TablesOk(w, c) && Admissible(w, c, e) && (e.DoConfigure? || e.DoStart? || e.DoReturn?)
    ensures Follows(w, c, e, WorldNext(w, c, e))
  {
    hide StartStreaming, ReturnLease, FreshTokens;
    assert w.log[|w.log|..] == [];
    match e
    case DoConfigure(_, _) =>
    case DoStart(driverStarted, tokens) => StartFollows(w.session, c, driverStarted, tokens, w.used);
    case DoReturn(callback, answer) =>
      if callback in w.out { ReturnFollows(w.session, c, w.used, w.out[callback], answer); }
      if callback in w.stale { ReturnFollows(w.session, c, w.used, w.stale[callback], answer); }
  }

  /** In every run and whatever comes next: the section reports to the framework exactly what its requests
      call for, counts its failures, and leaves the session in the state it must. */
  lemma EveryReportIsRight(c: Config, events: seq<Event>, e: Event)
    requires AdmissibleRun(NewWorld(), c, events) && Admissible(RunWorld(NewWorld(), c, events), c, e)
    ensures var w := RunWorld(NewWorld(), c, events); Follows(w, c, e, WorldNext(w, c, e))
  {
    NewWorldInv(c);
    RunKeepsWorldInv(NewWorld(), c, events);
    RunKeepsStanding(NewWorld(), c, events);
    var w := RunWorld(NewWorld(), c, events);
    assert TablesOk(w, c);
    hide WorldInv, TablesOk, EpochOver, AllStandFor, Follows, WorldNext, RunWorld, AdmissibleRun;
    NextFollows(w, c, e);
  }

  /* ------------------------- starting again ------------------------- */

  /** A started preview has each of its buffers registered, under its own frame number and its own token. */
  predicate PreviewRegistered(t: Tracker, c: Config, tokens: seq<nat>, first: nat) {
    |tokens| == |c.previewBuffers| && forall i :: 0 <= i < |tokens| ==> Registered(t, first + i, c.previewBuffers[i], tokens[i])
  }

  predicate Registered(t: Tracker, frame: nat, target: Target, token: nat) {
    && frame in t.streaming && t.streaming[frame] == StreamingOutput(frame, target, target.streamType)
    && token in t.tokens && t.tokens[token] == Context(frame, -1)
  }

  lemma {:induction false} RegistersEach(t: Tracker, c: Config, tokens: seq<nat>, first: nat, i: nat)
    requires i <= |c.previewBuffers| == |tokens| && FreshTokens(tokens, {})
    requires forall f :: f in t.streaming ==> f < first + i
    requires forall k :: k in t.tokens ==> k in tokens[..i]
    requires forall k :: 0 <= k < i ==> Registered(t, first + k, c.previewBuffers[k], tokens[k])
    ensures PreviewRegistered(RegisterPreview(t, c.previewBuffers, tokens, first, i).0, c, tokens, first)
    decreases |tokens| - i
  {
    if i < |tokens| {
      var output := StreamingOutput(first + i, c.previewBuffers[i], c.previewBuffers[i].streamType);
      var t1 := RegisterAndBind(t, output, tokens[i]);
      assert tokens[i] !in tokens[..i];
      assert t1 == Tracker(t.requests, t.streaming[first + i := output], t.tokens[tokens[i] := Context(first + i, -1)]);
      assert tokens[..i + 1] == tokens[..i] + [tokens[i]];
      forall k | 0 <= k < i + 1 ensures Registered(t1, first + k, c.previewBuffers[k], tokens[k]) {
        assert k < i ==> Registered(t, first + k, c.previewBuffers[k], tokens[k]) && tokens[k] in tokens[..i];
      }
      hide RegisterAndBind, PreviewRegistered, Registered;
      RegistersEach(t1, c, tokens, first, i + 1);
    }
  }

  /** After a flush the session can be started again: from any reached world that streams or is configured,
      a flush leaves it configured, and a start of the driver that answers for each preview buffer with a
      fresh token lets it stream, with every preview buffer registered anew. */
  lemma FlushedSessionStartsAgain(c: Config, events: seq<Event>, order: seq<nat>, tokens: Option<seq<nat>>)
    requires AdmissibleRun(NewWorld(), c, events) && c.hasDriver
    requires var w := RunWorld(NewWorld(), c, events);
             && (w.session.state.Streaming? || w.session.state.Configured?)
             && Admissible(w, c, DoFlush(order)) && Admissible(w, c, DoStart(true, tokens))
    requires c.continuousPreview ==>
               c.previewBuffers != [] && tokens.Some? && |tokens.value| == |c.previewBuffers|
    ensures var w := RunWorld(NewWorld(), c, events);
            var flushed := WorldNext(w, c, DoFlush(order));
            && flushed.session.state == CameraSession.Configured && flushed.session.tracker == EMPTY
            && Admissible(flushed, c, DoStart(true, tokens))
            && var again := WorldNext(flushed, c, DoStart(true, tokens));
            && again.session.state.Streaming?
            && (c.continuousPreview ==>
                  PreviewRegistered(again.session.tracker, c, tokens.value, w.session.nextStreamingFrame))
  {
    var w := RunWorld(NewWorld(), c, events);
    NewWorldInv(c);
    RunKeepsWorldInv(NewWorld(), c, events);
    NextKeepsWorldInv(w, c, DoFlush(order));
    FlushThenStart(w, c, order, tokens);
  }

  lemma FlushThenStart(w: World, c: Config, order: seq<nat>, tokens: Option<seq<nat>>)
    requires c.hasDriver && CanFlush(w.session) && Admissible(w, c, DoFlush(order)) && Admissible(w, c, DoStart(true, tokens))
    requires SessionOk(WorldNext(w, c, DoFlush(order)).session)
    requires c.continuousPreview ==>
               c.previewBuffers != [] && tokens.Some? && |tokens.value| == |c.previewBuffers|
    ensures var flushed := WorldNext(w, c, DoFlush(order));
            && flushed.session.state == CameraSession.Configured && flushed.session.tracker == EMPTY
            && Admissible(flushed, c, DoStart(true, tokens))
            && var again := WorldNext(flushed, c, DoStart(true, tokens));
            && again.session.state.Streaming?
            && (c.continuousPreview ==>
                  PreviewRegistered(again.session.tracker, c, tokens.value, w.session.nextStreamingFrame))
  {
    hide FlushOutcomes, SessionOk;
    var flushed := WorldNext(w, c, DoFlush(order));
    StartFollows(flushed.session, c, true, tokens, w.used);
    if c.continuousPreview {
      assert FreshTokens(tokens.value, {});
      RegistersEach(EMPTY, c, tokens.value, w.session.nextStreamingFrame, 0);
    }
    hide RegisterPreview, PreviewRegistered, FreshTokens;
  }
}
