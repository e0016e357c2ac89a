/** What a submission, a flush and a close do to the session and its V4L2 devices together. */
module HalAdmission {
  import opened Wrappers
  import opened CameraTypes
  import opened InFlightTracker
  import opened CameraSession
  import opened SessionConsistency
  import opened SessionHistory
  import opened SessionTheorems
  import SessionCompletion
  import V4L2 = V4L2Driver
  import opened V4L2Router
  import opened V4L2Admission
  import opened HalSystem
  import opened HalRouting
  import opened HalTheorems

  /* ---------------------------------- submissions ---------------------------------- */

  /** The targets of a request that names outputs are its outputs. */
  lemma OutputsAreSubmitted(request: Request)
    requires request.outputs != []
    ensures RequestOutputs(request) == request.outputs
  {
    RequestOutputsAreTargets(request);
    assert forall i :: 0 <= i < |request.outputs| ==> IsTarget(request, i, RequestOutputs(request)[i]);
    hide RequestOutputs;
  }

  /** A request that names no output has no dma-buf, which V4L2 refuses. */
  lemma NoOutputsIsRefused(m: Multi, request: Request)
    requires request.outputs == []
    ensures !CanSubmitAll(m, RequestOutputs(request))
  {
    RequestOutputsAreTargets(request);
    var targets := RequestOutputs(request);
    assert IsTarget(request, 0, targets[0]);
    if CanSubmitAll(m, targets) {
      PreflightIsAffordable(m, targets);
    }
  }

  /** Output i of the request waits for the completion of a token under which the endpoint of its stream
      type has queued its dma-buf. */
  ghost predicate IsQueued(y: System, request: Request, i: nat)
    requires i < |request.outputs|
  {
    var target := request.outputs[i];
    var e := EndpointFor(y.multi.endpoints, target.streamType, 0);
    e.Some? && exists token :: Awaits(y, request.frameNumber, i, token) && HoldsAt(y.multi, e.value, token, target.bufferFd)
  }

  predicate Awaits(y: System, frame: nat, i: int, token: nat) {
    token in y.world.session.tracker.tokens && y.world.session.tracker.tokens[token] == Context(frame, i)
  }

  lemma PlacedIsQueued(y: System, y': System, request: Request, i: nat, response: Option<nat>)
    requires i < |request.outputs| && response.Some? && Grows(y.multi, y'.multi)
    requires Placed(y.multi, y'.multi, request.outputs[i], response) && Awaits(y', request.frameNumber, i, response.value)
    ensures IsQueued(y', request, i)
  {
    GrowsRoutes(y.multi, y'.multi, request.outputs);
  }

  /** What the driver has done for a request that was accepted. */
  lemma AcceptedDriver(y: System, u: Setup, request: Request, ios: seq<V4L2.Io>)
    requires Sound(y.multi) && SessionOk(y.world.session) && y.world.session.tracker.tokens.Keys <= y.world.used
    requires TokensLinked(y) && request.frameNumber < FIRST_STREAMING_FRAME && |ios| == |RequestOutputs(request)|
    requires NextSubmit(y, u, request, ios).world.log == y.world.log
    ensures request.outputs != [] && Begins(y.world.session, u.config, request, true)
    ensures var y' := NextSubmit(y, u, request, ios);
            var (m, preflight, responses) := SubmitDriver(y, u, request, ios);
            && preflight && y'.multi == m && y'.world == AfterSubmit(y.world, u.config, request, true, responses)
            && Submit(y.world.session, u.config, request, true, responses).1.None?
            && (m, responses) == SubmitTargets(y.multi, request.outputs, ios, 0)
  {
    var (m, preflight, responses) := SubmitDriver(y, u, request, ios);
    SubmitAdmissible(y, u, request, ios);
    SubmitDriverEffect(y, u, request, ios);
    var (s', o) := Submit(y.world.session, u.config, request, preflight, responses);
    SubmitAcceptedExactlyWhen(y.world.session, u.config, y.world.used, request, preflight, responses);
    if request.outputs == [] {
      NoOutputsIsRefused(y.multi, request);
    } else {
      OutputsAreSubmitted(request);
    }
    hide SessionOk, Sound, TokensLinked, Submit, SubmitTargets, CanSubmitAll, FreshResponses, AnswersFrom, Grows, RequestOutputs;
  }

  /** In every run, a request that is accepted names outputs, and each of its outputs, as the framework gave
      it, is queued at the endpoint of its stream type under a token whose completion it waits for. */
  lemma AcceptedRequestIsQueued(u: Setup, events: seq<SystemEvent>, request: Request, ios: seq<V4L2.Io>)
    requires SysAdmissibleRun(NewSystem(u), u, events)
    requires SysAdmissible(Reached(u, events), u, SysSubmit(request, ios))
    requires var y := Reached(u, events); SysNext(y, u, SysSubmit(request, ios)).world.log == y.world.log
    ensures var y' := SysNext(Reached(u, events), u, SysSubmit(request, ios));
            request.outputs != [] && forall i :: 0 <= i < |request.outputs| ==> IsQueued(y', request, i)
  {
    var y := Reached(u, events);
    ReachedInv(u, events);
    SubmitParts(y, u);
    hide SystemInv, SysAdmissibleRun, Reached;
    assert SysNext(y, u, SysSubmit(request, ios)) == NextSubmit(y, u, request, ios);
    AcceptedIsQueued(y, u, request, ios);
  }

  lemma SubmitParts(y: System, u: Setup)
    requires SystemInv(y, u)
    ensures Sound(y.multi) && SessionOk(y.world.session) && y.world.session.tracker.tokens.Keys <= y.world.used
    ensures TokensLinked(y)
  {
  }

  lemma AcceptedIsQueued(y: System, u: Setup, request: Request, ios: seq<V4L2.Io>)
    requires Sound(y.multi) && SessionOk(y.world.session) && y.world.session.tracker.tokens.Keys <= y.world.used
    requires TokensLinked(y) && request.frameNumber < FIRST_STREAMING_FRAME && |ios| == |RequestOutputs(request)|
    requires NextSubmit(y, u, request, ios).world.log == y.world.log
    ensures var y' := NextSubmit(y, u, request, ios);
            request.outputs != [] && forall i :: 0 <= i < |request.outputs| ==> IsQueued(y', request, i)
  {
    hide SessionOk, Sound, TokensLinked, Submit, SubmitTargets, SubmitDriver, Placed, Grows, NextSubmit, Begins, IsQueued;
    AcceptedDriver(y, u, request, ios);
    OutputsAreSubmitted(request);
    var y' := NextSubmit(y, u, request, ios);
    var (m, responses) := SubmitTargets(y.multi, request.outputs, ios, 0);
    SubmitTargetsGrows(y.multi, request.outputs, ios, 0);
    SessionCompletion.AcceptedTokens(y.world.session, u.config, request, responses);
    forall i | 0 <= i < |request.outputs| ensures IsQueued(y', request, i) {
      assert Answered(responses, i);
      assert Placed(y.multi, m, request.outputs[i], responses[i - 0]);
      PlacedIsQueued(y, y', request, i, responses[i]);
    }
  }

  /** In every run in which STREAMON and STREAMOFF have not failed: a request whose calls succeed is accepted
      exactly when the session streams, its frame number is not in flight, it names outputs, and each
      endpoint has room for those that are routed to it, which all fit. */
  lemma RequestIsAcceptedExactlyWhen(u: Setup, events: seq<SystemEvent>, request: Request, ios: seq<V4L2.Io>)
    requires SysAdmissibleRun(NewSystem(u), u, events) && forall i :: 0 <= i < |events| ==> Faultless(events[i])
    requires SysAdmissible(Reached(u, events), u, SysSubmit(request, ios)) && AllAnswerOk(ios)
    ensures var y := Reached(u, events);
            SysNext(y, u, SysSubmit(request, ios)).world.log == y.world.log
            <==> && y.world.session.state.Streaming? && u.config.hasDriver
                 && request.frameNumber !in y.world.session.tracker.requests
                 && request.outputs != [] && Affordable(y.multi, request.outputs)
  {
    var y := Reached(u, events);
    ReachedInv(u, events);
    SubmitParts(y, u);
    hide SystemInv, Reached;
    assert SysNext(y, u, SysSubmit(request, ios)) == NextSubmit(y, u, request, ios);
    hide Sound, SessionOk, TokensLinked, Affordable, AllAnswerOk, SysNext, SysAdmissibleRun, RequestOutputs;
    if NextSubmit(y, u, request, ios).world.log == y.world.log {
      AcceptedWasAffordable(y, u, request, ios);
    } else if y.world.session.state.Streaming? && u.config.hasDriver
              && request.frameNumber !in y.world.session.tracker.requests
              && request.outputs != [] && Affordable(y.multi, request.outputs) {
      OutputsAreSubmitted(request);
      AffordableIsPreflighted(y.multi, request.outputs);
      hide CanSubmitAll, SubmitDriver;
      PreflightedRequestIsAccepted(u, events, request, ios);
    }
  }

  lemma AcceptedWasAffordable(y: System, u: Setup, request: Request, ios: seq<V4L2.Io>)
    requires Sound(y.multi) && SessionOk(y.world.session) && y.world.session.tracker.tokens.Keys <= y.world.used
    requires TokensLinked(y) && request.frameNumber < FIRST_STREAMING_FRAME && |ios| == |RequestOutputs(request)|
    requires NextSubmit(y, u, request, ios).world.log == y.world.log
    ensures y.world.session.state.Streaming? && u.config.hasDriver
    ensures request.frameNumber !in y.world.session.tracker.requests
    ensures request.outputs != [] && Affordable(y.multi, request.outputs)
  {
    hide SessionOk, Sound, TokensLinked, Submit, SubmitTargets, NextSubmit, Affordable;
    AcceptedDriver(y, u, request, ios);
    OutputsAreSubmitted(request);
    var responses := SubmitTargets(y.multi, request.outputs, ios, 0).1;
    SubmitTargetsGrows(y.multi, request.outputs, ios, 0);
    SessionCompletion.AcceptedTokens(y.world.session, u.config, request, responses);
    assert forall j :: 0 <= j < |request.outputs| ==> Answered(responses, j);
    assert AllAnswered(responses, |request.outputs|) by {
      assert Answered(responses, |request.outputs| - 1);
    }
    AnsweredWasAffordable(y.multi, request.outputs, ios, 0);
    assert request.outputs[0..] == request.outputs;
  }

  /** A request that does not get as far as the driver leaves every device as it was. */
  lemma RefusedRequestTouchesNoDevice(y: System, u: Setup, request: Request, ios: seq<V4L2.Io>)
    requires SysAdmissible(y, u, SysSubmit(request, ios))
    requires !y.world.session.state.Streaming? || !u.config.hasDriver || request.frameNumber in y.world.session.tracker.requests
             || request.outputs == [] || !CanSubmitAll(y.multi, request.outputs)
    ensures SysNext(y, u, SysSubmit(request, ios)).multi == y.multi
  {
    if request.outputs == [] { NoOutputsIsRefused(y.multi, request); } else { OutputsAreSubmitted(request); }
    hide StepWorld, CanSubmitAll, SubmitTargets;
  }

  /* ---------------------------------- leases ---------------------------------- */

  /** The preview output is registered anew, under the next streaming frame number, and waits for the
      completion of a token under which the endpoint of its stream type has queued its dma-buf. */
  ghost predicate QueuedAgain(y: System, y': System, output: StreamingOutput) {
    var frame := y.world.session.nextStreamingFrame;
    var t' := y'.world.session.tracker;
    var e := EndpointFor(y'.multi.endpoints, output.streamType, 0);
    && frame in t'.streaming && t'.streaming[frame] == output.(frameNumber := frame)
    && e.Some? && exists token :: Awaits(y', frame, -1, token) && HoldsAt(y'.multi, e.value, token, output.target.bufferFd)
  }

  /** Whether the device of the lease has room for it. */
  predicate LeaseFits(m: Multi, output: StreamingOutput) {
    && Continuous(m, output.streamType)
    && var a := m.endpoints[EndpointFor(m.endpoints, output.streamType, 0).value].adapter;
    && a.streaming && a.fd >= 0 && V4L2.Fits(a, output.target) && V4L2.FreeCount(a.slots) > 0
  }

  /** What the driver answers for a lease, and what of it the device then holds. */
  lemma LeaseDriver(m: Multi, output: StreamingOutput)
    requires AllAgree(m) && Sound(m)
    ensures var (m', answer) := ReturnBuffer(m, output.streamType, output.target.bufferFd, output.target.bufferSize, ALL_OK);
            && (answer == Some(m.nextToken) <==> LeaseFits(m, output))
            && (answer.Some? && answer != Some(m.nextToken) ==> answer == Some(0))
            && EndpointFor(m'.endpoints, output.streamType, 0) == EndpointFor(m.endpoints, output.streamType, 0)
            && (answer == Some(m.nextToken) ==>
                  EndpointFor(m.endpoints, output.streamType, 0).Some?
                  && HoldsAt(m', EndpointFor(m.endpoints, output.streamType, 0).value, m.nextToken, output.target.bufferFd))
  {
    assert m.nextToken >= 1;
    LeaseIsQueuedExactlyWhen(m, output.streamType, output.target.bufferFd, output.target.bufferSize);
    ReturnBufferEffect(m, output.streamType, output.target.bufferFd, output.target.bufferSize, ALL_OK);
    var m' := ReturnBuffer(m, output.streamType, output.target.bufferFd, output.target.bufferSize, ALL_OK).0;
    SameEndpointFor(m.endpoints, m'.endpoints, output.streamType, 0);
    var e := EndpointFor(m.endpoints, output.streamType, 0);
    if e.Some? { QueueAtGrows(m, e.value, output.target.bufferFd, output.target.bufferSize, ALL_OK); }
    hide AllAgree, Sound, QueueAt, HoldsAt;
  }

  /** What the session makes of that answer. */
  lemma LeaseSession(s: Session, c: Config, output: StreamingOutput, answer: Option<nat>)
    requires SessionOk(s) && c.hasDriver && s.state.Streaming?
    requires answer.Some? && answer.value != 0 ==> answer.value !in s.tracker.tokens
    ensures var t' := ReturnLease(s, c, output, answer).tracker;
            var frame := s.nextStreamingFrame;
            if answer.Some? && answer.value != 0 then
              && frame in t'.streaming && t'.streaming[frame] == output.(frameNumber := frame)
              && answer.value in t'.tokens && t'.tokens[answer.value] == Context(frame, -1)
            else forall k :: k in t'.tokens ==> t'.tokens[k] != Context(frame, -1)
  {
    assert s.nextStreamingFrame !in s.tracker.streaming;
    forall k | k in s.tracker.tokens ensures s.tracker.tokens[k] != Context(s.nextStreamingFrame, -1) {
      assert Outstanding(s.tracker, s.tracker.tokens[k]);
    }
    hide SessionOk;
  }

  /** In every run in which STREAMON and STREAMOFF have not failed, a lease whose callback returns while the
      session streams is queued again, when the calls succeed, exactly when the device of its stream type
      streams continuously and has a free slot that it fits. */
  lemma LeaseIsQueuedAgainExactlyWhen(u: Setup, events: seq<SystemEvent>, callback: nat)
    requires SysAdmissibleRun(NewSystem(u), u, events) && forall i :: 0 <= i < |events| ==> Faultless(events[i])
    requires var y := Reached(u, events);
             u.config.hasDriver && y.world.session.state.Streaming? && callback in y.world.out
    ensures var y := Reached(u, events);
            var y' := SysNext(y, u, SysReturn(callback, ALL_OK));
            QueuedAgain(y, y', y.world.out[callback]) <==> LeaseFits(y.multi, y.world.out[callback])
  {
    ReachedInv(u, events);
    FaultlessRunAgrees(NewSystem(u), u, events);
    hide *;
    ReachedIsRun(u, events);
    LeaseReturns(Reached(u, events), u, callback);
  }

  lemma ReachedIsRun(u: Setup, events: seq<SystemEvent>)
    requires SysAdmissibleRun(NewSystem(u), u, events)
    ensures Reached(u, events) == RunSystem(NewSystem(u), u, events)
  {
  }

  lemma LeaseReturns(y: System, u: Setup, callback: nat)
    requires SystemInv(y, u) && AllAgree(y.multi) && u.config.hasDriver && y.world.session.state.Streaming?
    requires callback in y.world.out
    ensures var y' := SysNext(y, u, SysReturn(callback, ALL_OK));
            QueuedAgain(y, y', y.world.out[callback]) <==> LeaseFits(y.multi, y.world.out[callback])
  {
    assert SysAdmissible(y, u, SysReturn(callback, ALL_OK));
    hide *;
    SubmitParts(y, u);
    TokensAreOld(y);
    ReturnKeeps(y, u, callback, ALL_OK);
    LeaseStep(y, u, callback);
    LeaseOutcome(y, SysNext(y, u, SysReturn(callback, ALL_OK)), u.config, y.world.out[callback]);
  }

  lemma TokensAreOld(y: System)
    requires TokensLinked(y) && y.world.session.tracker.tokens.Keys <= y.world.used
    ensures forall k :: k in y.world.session.tracker.tokens ==> k < y.multi.nextToken
  {
  }

  lemma SoundCounter(m: Multi)
    requires Sound(m)
    ensures m.nextToken >= 1
  {
  }

  /** The driver and the session together. */
  lemma LeaseOutcome(y: System, y': System, c: Config, output: StreamingOutput)
    requires AllAgree(y.multi) && Sound(y.multi) && SessionOk(y.world.session) && c.hasDriver && y.world.session.state.Streaming?
    requires forall k :: k in y.world.session.tracker.tokens ==> k < y.multi.nextToken
    requires var (m', answer) := ReturnBuffer(y.multi, output.streamType, output.target.bufferFd, output.target.bufferSize, ALL_OK);
             y'.multi == m' && y'.world.session == ReturnLease(y.world.session, c, output, answer)
    ensures QueuedAgain(y, y', output) <==> LeaseFits(y.multi, output)
  {
    hide SessionOk, AllAgree, LeaseFits, HoldsAt, ReturnLease, ReturnBuffer;
    var (m', answer) := ReturnBuffer(y.multi, output.streamType, output.target.bufferFd, output.target.bufferSize, ALL_OK);
    assert y.multi.nextToken >= 1 by { SoundCounter(y.multi); }
    hide Sound;
    LeaseDriver(y.multi, output);
    LeaseSession(y.world.session, c, output, answer);
    if answer == Some(y.multi.nextToken) {
      assert Awaits(y', y.world.session.nextStreamingFrame, -1, y.multi.nextToken);
    } else if answer.Some? {
      assert answer == Some(0);
    }
  }

  lemma LeaseStep(y: System, u: Setup, callback: nat)
    requires y.world.session.state.Streaming? && callback in y.world.out
    requires Admissible(y.world, u.config, DoReturn(callback, ReturnDriver(y, callback, ALL_OK).1))
    ensures var output := y.world.out[callback];
            var (m', answer) := ReturnBuffer(y.multi, output.streamType, output.target.bufferFd, output.target.bufferSize, ALL_OK);
            var y' := SysNext(y, u, SysReturn(callback, ALL_OK));
            y'.multi == m' && y'.world.session == ReturnLease(y.world.session, u.config, output, answer)
  {
    hide ReturnLease, ReturnBuffer;
  }

  /** Completions are dequeued only while the session streams. */
  lemma OnlyStreamingDequeues(y: System, u: Setup, readyFd: int, choice: Option<nat>)
    ensures !y.world.session.state.Streaming? ==> SysNext(y, u, SysDequeue(readyFd, choice)) == y
  {
  }

  /* ---------------------------------- flush and close ---------------------------------- */

  /** Nothing is queued, and no device streams or hands anything out. */
  predicate AllStopped(m: Multi) {
    forall e :: 0 <= e < |m.endpoints| ==>
      var a := m.endpoints[e].adapter;
      && !a.streaming && !a.deviceStreaming && !a.continuous && forall i :: 0 <= i < |a.slots| ==> !a.slots[i].queued
  }

  predicate KernelsEmpty(m: Multi) {
    forall e :: 0 <= e < |m.endpoints| ==> m.endpoints[e].adapter.kernel.held == map[]
  }

  /** A flush of a session that streams or is configured stops every device and leaves the session
      configured with empty tables; when every STREAMOFF succeeds in a state of agreement, the kernels hold
      nothing. Any other flush touches no device. */
  lemma FlushStopsEverything(y: System, u: Setup, order: seq<nat>, streamOffs: seq<bool>)
    requires SysAdmissible(y, u, SysFlush(order, streamOffs))
    ensures var y' := SysNext(y, u, SysFlush(order, streamOffs));
            if y.world.session.state.Streaming? || y.world.session.state.Configured? then
              && AllStopped(y'.multi) && |y'.multi.endpoints| == |y.multi.endpoints|
              && y'.world.session.state == CameraSession.Configured && y'.world.session.tracker == EMPTY
              && (AllAgree(y.multi) && (forall e :: 0 <= e < |streamOffs| ==> streamOffs[e]) ==> KernelsEmpty(y'.multi))
            else y'.multi == y.multi && y'.world.session == y.world.session
  {
    var y' := SysNext(y, u, SysFlush(order, streamOffs));
    hide FlushOutcomes;
    forall e | 0 <= e < |y.multi.endpoints| && AllAgree(y.multi) && streamOffs[e]
      ensures V4L2.StopStreaming(y.multi.endpoints[e].adapter, streamOffs[e]).kernel.held == map[]
    {
      assert V4L2.Agrees(y.multi.endpoints[e].adapter);
    }
  }

  /** A close leaves every device closed and the session stopped with empty tables. */
  lemma CloseClosesEverything(y: System, u: Setup, order: seq<nat>, streamOffs: seq<bool>)
    requires SysAdmissible(y, u, SysClose(order, streamOffs)) && !y.world.session.state.Stopped?
    ensures var y' := SysNext(y, u, SysClose(order, streamOffs));
            && AllClosed(y'.multi) && |y'.multi.endpoints| == |y.multi.endpoints|
            && y'.world.session.state.Stopped? && y'.world.session.tracker == EMPTY
  {
    hide FlushOutcomes;
  }
}
