/** The session object over its tracker object: each method is one critical section, with the
    answers of the driver and the processors as arguments. */
module CameraDeviceSessions {
  import opened Wrappers
  import opened CameraTypes
  import opened InFlightTracker
  import opened InFlightRequestTrackers
  import opened CameraSession

  class CameraDeviceSession {
    const config: Config
    const inFlight: InFlightRequestTracker
    var state: SessionState
    var completed: nat
    var failed: nat
    var nextStreamingFrame: nat

    function View(): Session
      reads this, inFlight
    {
      Session(state, inFlight.View(), completed, failed, nextStreamingFrame)
    }

    constructor (config: Config)
      ensures this.config == config && fresh(inFlight)
      ensures View() == NEW_SESSION
    {
      this.config := config;
      inFlight := new InFlightRequestTracker();
      state, completed, failed, nextStreamingFrame := Created, 0, 0, FIRST_STREAMING_FRAME;
    }

    method ConfigureStreams(driverConfigured: bool, registered: bool) returns (ok: bool)
      modifies this
      ensures View() == Configure(old(View()), config, driverConfigured, registered)
      ensures ok == (config.hasDriver && old(state).Created? && driverConfigured && registered)
    {
      if !config.hasDriver || !state.Created? { return false; }
      if !driverConfigured {
        state := Error;
        return false;
      }
      if !registered {
        state := Error;
        return false;
      }
      state := Configured;
      return true;
    }

    /** tokens is the answer of start_continuous_stream. */
    method StartStreaming(driverStarted: bool, tokens: Option<seq<nat>>) returns (ok: bool)
      modifies this, inFlight
      ensures View() == CameraSession.StartStreaming(old(View()), config, driverStarted, tokens)
      ensures ok == (old(state).Configured? && state.Streaming?)
    {
      if !config.hasDriver || !state.Configured? { return false; }
      if !driverStarted {
        state := Error;
        return false;
      }
      if config.continuousPreview {
        if config.previewBuffers == [] {
          state := Error;
          return false;
        }
        var buffers := config.previewBuffers;
        var outputs: seq<StreamingOutput> := [];
        var first := nextStreamingFrame;
        for i := 0 to |buffers|
          invariant |outputs| == i && nextStreamingFrame == first + i
          invariant forall k :: 0 <= k < i ==>
                      outputs[k] == StreamingOutput(first + k, buffers[k], buffers[k].streamType)
          invariant state == old(state) && inFlight.View() == old(inFlight.View())
          invariant completed == old(completed) && failed == old(failed)
        {
          outputs := outputs + [StreamingOutput(nextStreamingFrame, buffers[i], buffers[i].streamType)];
          nextStreamingFrame := nextStreamingFrame + 1;
        }
        if tokens.None? || |tokens.value| != |outputs| {
          state := Error;
          return false;
        }
        for i := 0 to |buffers|
          invariant RegisterPreview(inFlight.View(), buffers, tokens.value, first, i)
                    == RegisterPreview(old(inFlight.View()), buffers, tokens.value, first, 0)
          invariant state == old(state) && nextStreamingFrame == first + |buffers|
          invariant completed == old(completed) && failed == old(failed)
        {
          var registered := inFlight.RegisterStreamingOutput(outputs[i]);
          var bound := false;
          if registered {
            bound := inFlight.BindDriverOutput(tokens.value[i], Context(outputs[i].frameNumber, -1));
          }
          if !bound {
            state := Error;
            return false;
          }
        }
      }
      state := Streaming;
      return true;
    }

    /** Submits each output to the driver and binds the token it answers with; on the first refusal
        the tokens already bound for the frame are cleared. */
    method SubmitRequestToDriver(frame: nat, count: nat, responses: seq<Option<nat>>) returns (ok: bool)
      modifies inFlight
      ensures (inFlight.View(), ok) == SubmitToDriver(old(inFlight.View()), frame, count, responses)
    {
      var submittedAll, i := true, 0;
      while i < count && submittedAll
        invariant 0 <= i <= count
        invariant BindOutputs(old(inFlight.View()), frame, count, responses, 0)
                  == if submittedAll then BindOutputs(inFlight.View(), frame, count, responses, i)
                     else (inFlight.View(), false)
        decreases count - i, submittedAll
      {
        if i >= |responses| || responses[i].None? {
          submittedAll := false;
        } else {
          submittedAll := inFlight.BindDriverOutput(responses[i].value, Context(frame, i));
          if submittedAll { i := i + 1; }
        }
      }
      if !submittedAll {
        inFlight.ClearDriverOutputsForFrame(frame);
        return false;
      }
      ok := inFlight.MarkQueuedToDriver(frame);
    }

    method FillFailedResult(frame: nat, status: CaptureStatus, fallback: seq<CompletedBuffer>)
      returns (outcome: Outcome)
      modifies this, inFlight
      ensures (View(), outcome) == FillFailed(old(View()), frame, status, fallback)
    {
      var row := inFlight.Fail(frame);
      inFlight.ClearDriverOutputsForFrame(frame);
      var buffers := if row.Some? then CompletedBuffers(row.value.outputs, status) else fallback;
      failed := failed + 1;
      outcome := Outcome(if row.Some? then FromRow else FromNothing, MakeResult(frame, status, buffers));
    }

    method SubmitCaptureRequest(request: Request, preflight: bool, responses: seq<Option<nat>>)
      returns (outcome: Option<Outcome>)
      modifies this, inFlight
      ensures (View(), outcome) == Submit(old(View()), config, request, preflight, responses)
    {
      if !state.Streaming? || !config.hasDriver {
        failed := failed + 1;
        return Some(Outcome(FromNothing, MakeResult(request.frameNumber, FlushedStatus, [])));
      }
      var outputs := MakeOutputs(RequestOutputs(request));
      var fallback := CompletedBuffers(outputs, ProcessingError);
      if !preflight {
        var o := FillFailedResult(request.frameNumber, SensorError, fallback);
        return Some(o);
      }
      var started := inFlight.Start(request, outputs);
      if !started {
        var o := FillFailedResult(request.frameNumber, ProcessingError, fallback);
        return Some(o);
      }
      var submitted := SubmitRequestToDriver(request.frameNumber, |outputs|, responses);
      if !submitted {
        var o := FillFailedResult(request.frameNumber, SensorError, []);
        return Some(o);
      }
      return None;
    }

    /** Runs the processors in order, each on the fence of the one before it. */
    method RunProcessors(fences: seq<int>) returns (calls: seq<ProcessorCall>, fence: int)
      requires |fences| >= |config.processors|
      ensures (calls, fence) == Process(config.processors, fences)
    {
      calls, fence := [], -1;
      for i := 0 to |config.processors|
        invariant (calls, fence) == Process(config.processors[..i], fences)
      {
        assert config.processors[..i + 1][..i] == config.processors[..i];
        if config.processors[i] {
          calls := calls + [ProcessorCall(i, fence)];
          fence := fences[i];
        }
      }
      assert config.processors[..|config.processors|] == config.processors;
    }

    method TryFillResultFromCompletion(token: nat, timestamp: int, fences: seq<int>) returns (resolution: Resolution)
      requires |fences| >= |config.processors|
      modifies this, inFlight
      ensures (View(), resolution) == Resolve(old(View()), config, token, timestamp, fences)
    {
      var resolved := inFlight.TakeDriverOutputContext(token);
      if resolved.None? {
        failed := failed + 1;
        return Nothing;
      }
      var _, fence := RunProcessors(fences);
      if resolved.value.streaming.Some? {
        var output := resolved.value.streaming.value;
        completed := completed + 1;
        return PreviewDone(Outcome(FromStream, PreviewResult(output, fence)), output);
      }
      var completion := inFlight.CompleteOutput(resolved.value.frameNumber, resolved.value.outputIndex, fence, timestamp);
      match completion {
        case WaitingForMoreOutputs =>
          return Nothing;
        case NotFound =>
          failed := failed + 1;
          return Nothing;
        case RequestComplete(row) =>
          completed := completed + 1;
          return RowDone(Outcome(FromRow, RowResult(row, resolved.value.target)));
      }
    }

    method ReturnStreamLease(output: StreamingOutput, answer: Option<nat>)
      modifies this, inFlight
      ensures View() == ReturnLease(old(View()), config, output, answer)
    {
      if !config.hasDriver || !state.Streaming? { return; }
      if answer.None? {
        failed := failed + 1;
        return;
      }
      var next := output.(frameNumber := nextStreamingFrame);
      nextStreamingFrame := nextStreamingFrame + 1;
      var registered := inFlight.RegisterStreamingOutput(next);
      var bound := false;
      if registered {
        bound := inFlight.BindDriverOutput(answer.value, Context(next.frameNumber, -1));
      }
      if !bound {
        failed := failed + 1;
      }
    }

    /** Empties the tables and reports every row that was still in flight. */
    method FlushRows() returns (outcomes: seq<Outcome>, order: seq<nat>)
      modifies this, inFlight
      ensures multiset(order) == multiset(old(inFlight.requests).Keys)
      ensures forall i :: 0 <= i < |order| ==> order[i] in old(inFlight.requests)
      ensures outcomes == FlushOutcomes(old(inFlight.View()), order)
      ensures View() == Emptied(old(View()), |order|, state) && state == old(state)
    {
      var rows;
      rows, order := inFlight.FlushAll();
      outcomes := [];
      for i := 0 to |rows|
        invariant |outcomes| == i && failed == old(failed) + i
        invariant forall k :: 0 <= k < i ==> outcomes[k] == FlushOutcomes(old(inFlight.View()), order)[k]
        invariant state == old(state) && completed == old(completed) && nextStreamingFrame == old(nextStreamingFrame)
        invariant inFlight.View() == FlushAll(old(inFlight.View()))
      {
        failed := failed + 1;
        outcomes := outcomes + [Outcome(FromRow, MakeResult(rows[i].frameNumber, FlushedStatus,
                                                           CompletedBuffers(rows[i].outputs, FlushedStatus)))];
      }
      inFlight.ClearStreamingOutputs();
    }

    method FlushSession() returns (outcomes: seq<Outcome>, order: seq<nat>)
      modifies this, inFlight
      ensures CanFlush(old(View())) ==>
                && multiset(order) == multiset(old(inFlight.requests).Keys)
                && (forall i :: 0 <= i < |order| ==> order[i] in old(inFlight.requests))
                && outcomes == FlushOutcomes(old(inFlight.View()), order)
      ensures !CanFlush(old(View())) ==> outcomes == [] && order == []
      ensures View() == Flush(old(View()), order)
    {
      outcomes, order := [], [];
      if !state.Streaming? && !state.Configured? { return; }
      state := Flushing;
      outcomes, order := FlushRows();
      state := Configured;
    }

    method CloseSession() returns (outcomes: seq<Outcome>, order: seq<nat>)
      modifies this, inFlight
      ensures !old(state).Stopped? ==>
                && multiset(order) == multiset(old(inFlight.requests).Keys)
                && (forall i :: 0 <= i < |order| ==> order[i] in old(inFlight.requests))
                && outcomes == FlushOutcomes(old(inFlight.View()), order)
      ensures old(state).Stopped? ==> outcomes == [] && order == []
      ensures View() == Close(old(View()), order) && state.Stopped?
    {
      outcomes, order := [], [];
      if state.Stopped? { return; }
      state := Stopping;
      outcomes, order := FlushRows();
      state := Stopped;
    }
  }
}
