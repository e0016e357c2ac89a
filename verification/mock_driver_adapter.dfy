/** The mock driver, which completes every capture at once, and the session's drain loop over it. */
module MockDriverAdapters {
  import opened Wrappers
  import opened CameraTypes
  import opened InFlightTracker
  import opened CameraSession
  import opened CameraDeviceSessions
  import opened SessionConsistency

  datatype Completion = Completion(token: nat, timestamp: int)

  class MockDriverAdapter {
    var completions: seq<Completion>
    var readFd: int
    var configured: bool
    var streaming: bool
    var canSubmitCaptureOutputs: bool
    var failSubmit: bool
    var submitCount: nat
    var returnedStreamBufferCount: nat
    var nextToken: nat

    /** Every queued completion carries a token handed out before. */
    ghost predicate Valid()
      reads this
    {
      nextToken >= 1 && forall i :: 0 <= i < |completions| ==> 0 < completions[i].token < nextToken
    }

    constructor ()
      ensures Valid() && completions == [] && !configured && !streaming && nextToken == 1
      ensures canSubmitCaptureOutputs && !failSubmit && readFd == -1
    {
      completions, readFd, configured, streaming := [], -1, false, false;
      canSubmitCaptureOutputs, failSubmit, submitCount, returnedStreamBufferCount, nextToken := true, false, 0, 0, 1;
    }

    /** pipe is the read end of the wake-up pipe, when one could be opened. */
    method ConfigureStream(pipe: Option<nat>) returns (ok: bool)
      requires Valid()
      modifies this`readFd, this`configured
      ensures Valid() && ok == (old(readFd) >= 0 || pipe.Some?)
      ensures ok ==> configured && readFd >= 0
      ensures !ok ==> configured == old(configured) && readFd == old(readFd)
    {
      if readFd < 0 {
        if pipe.None? { return false; }
        readFd := pipe.value;
      }
      configured := true;
      return true;
    }

    method StartStreaming() returns (ok: bool)
      modifies this`streaming
      ensures ok == configured && streaming == (old(streaming) || configured)
    {
      if configured { streaming := true; }
      ok := configured;
    }

    /** Queues a completion for each preview buffer, or for one fallback buffer when there is none, until
        a wake-up write fails; wakes gives the outcome of each write. The completion of the failed write
        stays queued. */
    method StartContinuousStream(buffers: seq<Target>, now: int, wakes: seq<bool>) returns (tokens: Option<seq<nat>>)
      requires Valid() && |wakes| == (if buffers == [] then 1 else |buffers|)
      modifies this`completions, this`nextToken
      ensures Valid() && tokens.Some? == (streaming && forall i :: 0 <= i < |wakes| ==> wakes[i])
      ensures !streaming ==> completions == old(completions) && nextToken == old(nextToken)
      ensures var drawn := nextToken - old(nextToken);
              && 0 <= drawn <= |wakes|
              && (forall i :: 0 <= i < drawn - 1 ==> wakes[i])
              && (streaming && drawn < |wakes| ==> drawn > 0 && !wakes[drawn - 1])
              && |completions| == |old(completions)| + drawn
              && completions[..|old(completions)|] == old(completions)
              && (forall k :: |old(completions)| <= k < |completions| ==>
                    completions[k] == Completion(old(nextToken) + (k - |old(completions)|), now))
              && (tokens.Some? ==>
                    |tokens.value| == drawn == |wakes|
                    && forall i :: 0 <= i < drawn ==> tokens.value[i] == old(nextToken) + i)
    {
      if !streaming { return None; }
      var count := |wakes|;
      var submitted: seq<nat> := [];
      ghost var before := completions;
      for i := 0 to count
        invariant Valid() && |submitted| == i && nextToken == old(nextToken) + i
        invariant forall k :: 0 <= k < i ==> submitted[k] == old(nextToken) + k && wakes[k]
        invariant |completions| == |before| + i && completions[..|before|] == before
        invariant forall k :: |before| <= k < |completions| ==>
                    completions[k] == Completion(old(nextToken) + (k - |before|), now)
      {
        submitted := submitted + [nextToken];
        completions := completions + [Completion(nextToken, now)];
        nextToken := nextToken + 1;
        if !wakes[i] { return None; }
      }
      return Some(submitted);
    }

    method StopStreaming()
      requires Valid()
      modifies this`streaming
      ensures Valid() && !streaming
    {
      streaming := false;
    }

    method Close()
      requires Valid()
      modifies this
      ensures Valid() && completions == [] && !configured && !streaming && readFd == -1
      ensures nextToken == old(nextToken)
    {
      readFd, configured, streaming := -1, false, false;
      while completions != []
        invariant Valid() && readFd == -1 && !configured && !streaming && nextToken == old(nextToken)
        decreases |completions|
      {
        completions := completions[1..];
      }
    }

    /** woken tells whether the wake-up write succeeds; when it fails, the completion stays queued and
        the token is lost. */
    method SubmitCapture(now: int, woken: bool) returns (token: Option<nat>)
      requires Valid()
      modifies this`completions, this`nextToken, this`submitCount
      ensures Valid() && token == (if streaming && !failSubmit && woken then Some(old(nextToken)) else None)
      ensures streaming && !failSubmit ==>
                && completions == old(completions) + [Completion(old(nextToken), now)]
                && nextToken == old(nextToken) + 1 && submitCount == old(submitCount) + 1
      ensures !streaming || failSubmit ==>
                completions == old(completions) && nextToken == old(nextToken) && submitCount == old(submitCount)
    {
      if !streaming || failSubmit { return None; }
      submitCount := submitCount + 1;
      var drawn := nextToken;
      completions := completions + [Completion(drawn, now)];
      nextToken := nextToken + 1;
      token := if woken then Some(drawn) else None;
    }

    method DequeueCompletion(readyFd: int) returns (completion: Option<Completion>)
      requires Valid()
      modifies this`completions
      ensures Valid()
      ensures completion == if readyFd != readFd || old(completions) == [] then None else Some(old(completions)[0])
      ensures completions == if completion.None? then old(completions) else old(completions)[1..]
    {
      if readyFd != readFd || completions == [] { return None; }
      completion := Some(completions[0]);
      completions := completions[1..];
    }

    /** A returned preview buffer gets a new token but, in the mock, no completion. */
    method ReturnStreamBuffer() returns (token: Option<nat>)
      requires Valid()
      modifies this`nextToken, this`returnedStreamBufferCount
      ensures Valid() && token == (if streaming then Some(old(nextToken)) else None)
      ensures nextToken == old(nextToken) + (if streaming then 1 else 0)
      ensures returnedStreamBufferCount == old(returnedStreamBufferCount) + (if streaming then 1 else 0)
    {
      if !streaming { return None; }
      returnedStreamBufferCount := returnedStreamBufferCount + 1;
      token := Some(nextToken);
      nextToken := nextToken + 1;
    }
  }

  /** Every bound token was handed out by the driver, and the completion of every bound request
      output is waiting in the driver's queue. */
  predicate AllQueued(t: Tracker, completions: seq<Completion>, nextToken: nat) {
    && (forall k :: k in t.tokens ==> k < nextToken)
    && (forall k :: k in t.tokens && t.tokens[k].outputIndex >= 0 ==> InQueue(completions, k))
  }

  predicate InQueue(completions: seq<Completion>, token: nat) {
    exists i :: 0 <= i < |completions| && completions[i].token == token
  }

  /** What holds between any two critical sections of the session over the mock. */
  ghost predicate Served(session: CameraDeviceSession, driver: MockDriverAdapter, completions: seq<Completion>)
    reads session, session.inFlight, driver
  {
    && SessionOk(session.View()) && session.config.hasDriver && driver.Valid()
    && (session.state.Streaming? ==> driver.streaming)
    && AllQueued(session.inFlight.View(), completions, driver.nextToken)
  }

  /* ------------------------- the calls of other threads ------------------------- */

  /** wakes gives the outcomes of the wake-up writes of the mock, which succeed where it says nothing. */
  datatype Call =
    | Submits(request: Request, now: int, wakes: seq<bool>)
    | Starts(now: int, wakes: seq<bool>)
    | Flushes
    | Closes

  predicate Wakes(wakes: seq<bool>, i: nat) {
    i < |wakes| ==> wakes[i]
  }

  /** Client frame numbers lie below the streaming ones. */
  predicate ClientFrames(calls: seq<Call>) {
    forall k :: 0 <= k < |calls| && calls[k].Submits? ==> calls[k].request.frameNumber < FIRST_STREAMING_FRAME
  }

  /** The tokens answered were handed out by the mock, and their completions are in its queue. */
  predicate Answers(responses: seq<Option<nat>>, completions: seq<Completion>, nextToken: nat) {
    forall k :: 0 <= k < |responses| && responses[k].Some? ==>
      responses[k].value < nextToken && InQueue(completions, responses[k].value)
  }

  lemma QueueGrows(before: seq<Completion>, after: seq<Completion>)
    requires before <= after
    ensures forall token :: InQueue(before, token) ==> InQueue(after, token)
  {
    forall token | InQueue(before, token) ensures InQueue(after, token) {
      var i :| 0 <= i < |before| && before[i].token == token;
      assert after[i].token == token;
    }
  }

  /** The outputs of a request go to the mock until one is refused. */
  method SubmitOutputs(driver: MockDriverAdapter, count: nat, now: int, wakes: seq<bool>)
    returns (responses: seq<Option<nat>>)
    requires driver.Valid()
    modifies driver`completions, driver`nextToken, driver`submitCount
    ensures driver.Valid() && old(driver.completions) <= driver.completions && old(driver.nextToken) <= driver.nextToken
    ensures Answers(responses, driver.completions, driver.nextToken)
  {
    responses := [];
    var refused := false;
    while |responses| < count && !refused
      invariant driver.Valid() && old(driver.completions) <= driver.completions && old(driver.nextToken) <= driver.nextToken
      invariant Answers(responses, driver.completions, driver.nextToken)
      decreases count - |responses|
    {
      ghost var before := driver.completions;
      var token := driver.SubmitCapture(now, Wakes(wakes, |responses|));
      QueueGrows(before, driver.completions);
      if token.Some? { assert driver.completions[|before|].token == token.value; }
      responses, refused := responses + [token], token.None?;
    }
  }

  /** Another thread submits a request. */
  method OtherSubmit(session: CameraDeviceSession, driver: MockDriverAdapter, request: Request, now: int, wakes: seq<bool>)
    requires Served(session, driver, driver.completions) && request.frameNumber < FIRST_STREAMING_FRAME
    modifies session, session.inFlight, driver`completions, driver`nextToken, driver`submitCount
    ensures Served(session, driver, driver.completions)
    ensures session.completed == old(session.completed) && session.state == old(session.state)
  {
    hide SessionOk, Submit, AllQueued, Answers, Orphans;
    ghost var s, before, next := session.View(), driver.completions, driver.nextToken;
    var preflight := driver.canSubmitCaptureOutputs;
    var responses := [];
    NoAnswers(driver.completions, driver.nextToken);
    if session.state.Streaming? && preflight && request.frameNumber !in session.inFlight.requests {
      responses := SubmitOutputs(driver, |RequestOutputs(request)|, now, wakes);
    }
    SubmitOk(s, session.config, request, preflight, responses);
    SubmitFrame(s, session.config, request, preflight, responses);
    SubmitLeavesQueued(s, session.config, request, preflight, responses, before, next, driver.completions, driver.nextToken);
    var _ := session.SubmitCaptureRequest(request, preflight, responses);
  }

  /** Another thread starts the session. */
  method OtherStart(session: CameraDeviceSession, driver: MockDriverAdapter, now: int, wakes: seq<bool>)
    requires Served(session, driver, driver.completions)
    modifies session, session.inFlight, driver`completions, driver`nextToken, driver`streaming
    ensures Served(session, driver, driver.completions)
    ensures session.completed == old(session.completed) && (old(session.state).Stopped? ==> session.state.Stopped?)
  {
    if !session.state.Configured? { return; }
    hide SessionOk, CameraSession.StartStreaming, AllQueued, Orphans;
    ghost var s := session.View();
    var started := driver.StartStreaming();
    var tokens := None;
    if started && session.config.continuousPreview && session.config.previewBuffers != [] {
      var buffers := session.config.previewBuffers;
      tokens := driver.StartContinuousStream(buffers, now, seq(|buffers|, i requires 0 <= i => Wakes(wakes, i)));
    }
    StartStreamingOk(s, session.config, started, tokens, {});
    StartLeavesQueued(s, session.config, started, tokens, driver.completions, driver.nextToken);
    var _ := session.StartStreaming(started, tokens);
  }

  /** Any calls of other threads, one after the other. */
  method Others(session: CameraDeviceSession, driver: MockDriverAdapter, calls: seq<Call>)
    requires Served(session, driver, driver.completions) && ClientFrames(calls)
    modifies session, session.inFlight, driver
    ensures Served(session, driver, driver.completions) && session.completed == old(session.completed)
    ensures old(session.state).Stopped? ==> session.state.Stopped?
    ensures driver.readFd == old(driver.readFd) || session.state.Stopped?
    ensures calls == [] ==> driver.completions == old(driver.completions)
  {
    hide SessionOk, AllQueued;
    for k := 0 to |calls|
      invariant Served(session, driver, driver.completions) && session.completed == old(session.completed)
      invariant old(session.state).Stopped? ==> session.state.Stopped?
      invariant driver.readFd == old(driver.readFd) || session.state.Stopped?
      invariant calls == [] ==> driver.completions == old(driver.completions)
    {
      ghost var s := session.View();
      match calls[k] {
        case Submits(request, now, wakes) => OtherSubmit(session, driver, request, now, wakes);
        case Starts(now, wakes) => OtherStart(session, driver, now, wakes);
        case Flushes =>
          if session.state.Streaming? || session.state.Configured? {
            driver.StopStreaming();
            var _, order := session.FlushSession();
            EmptiedOk(s, |order|, CameraSession.Configured, driver.completions, driver.nextToken);
          }
        case Closes =>
          if !session.state.Stopped? {
            var _, order := session.CloseSession();
            driver.StopStreaming();
            driver.Close();
            EmptiedOk(s, |order|, Stopped, driver.completions, driver.nextToken);
          }
      }
    }
  }

  /* ------------------------- the drain loop ------------------------- */

  /** What resolving a completion reports. */
  function ReportOf(resolution: Resolution): Option<Outcome> {
    if resolution.Nothing? then None else Some(resolution.outcome)
  }

  /** Resolves one dequeued completion; a preview lease is handed back to the driver, after the calls that
      other threads make while the callback runs. */
  method OnDriverBufferComplete(session: CameraDeviceSession, driver: MockDriverAdapter, completion: Completion,
                                fences: seq<int>, during: seq<Call>)
    returns (outcome: Option<Outcome>)
    requires Served(session, driver, [completion] + driver.completions) && ClientFrames(during)
    requires |fences| >= |session.config.processors|
    modifies session, session.inFlight, driver
    ensures Served(session, driver, driver.completions)
    ensures outcome == ReportOf(Resolve(old(session.View()), session.config, completion.token, completion.timestamp, fences).1)
    ensures outcome.Some? ==> outcome.value.result.status.Ok?
    ensures session.completed == old(session.completed) + if outcome.Some? then 1 else 0
    ensures old(session.state).Stopped? ==> session.state.Stopped?
    ensures driver.readFd == old(driver.readFd) || session.state.Stopped?
    ensures during == [] ==> driver.completions == old(driver.completions)
  {
    hide SessionOk, AllQueued, Resolve;
    var resolution := ResolveDequeued(session, driver, completion, fences);
    outcome := ReportOf(resolution);
    Others(session, driver, during);
    if resolution.PreviewDone? {
      HandBack(session, driver, resolution.output);
    }
  }

  /** The first critical section: the completion that was dequeued is resolved. */
  method ResolveDequeued(session: CameraDeviceSession, driver: MockDriverAdapter, completion: Completion,
                         fences: seq<int>)
    returns (resolution: Resolution)
    requires Served(session, driver, [completion] + driver.completions)
    requires |fences| >= |session.config.processors|
    modifies session, session.inFlight
    ensures Served(session, driver, driver.completions)
    ensures resolution == Resolve(old(session.View()), session.config, completion.token, completion.timestamp, fences).1
    ensures !resolution.Nothing? ==> resolution.outcome.result.status.Ok?
    ensures session.completed == old(session.completed) + (if resolution.Nothing? then 0 else 1)
    ensures session.state == old(session.state)
  {
    ghost var s, rest := session.View(), driver.completions;
    ResolveOk(s, session.config, completion.token, completion.timestamp, fences);
    ResolveLeavesQueued(s, session.config, completion, fences, rest, driver.nextToken);
    hide SessionOk, Resolve, Orphans, AllQueued;
    resolution := session.TryFillResultFromCompletion(completion.token, completion.timestamp, fences);
  }

  /** The callback hands its lease back unchanged; the driver takes it while the session streams. */
  method HandBack(session: CameraDeviceSession, driver: MockDriverAdapter, output: StreamingOutput)
    requires Served(session, driver, driver.completions)
    modifies session, session.inFlight, driver`nextToken, driver`returnedStreamBufferCount
    ensures Served(session, driver, driver.completions)
    ensures session.completed == old(session.completed) && session.state == old(session.state)
  {
    if !session.state.Streaming? { return; }
    ghost var s := session.View();
    var answer := driver.ReturnStreamBuffer();
    ReturnLeavesQueued(s, session.config, output, answer.value, driver.completions);
    ReturnLeaseOk(s, session.config, output, answer);
    ReturnLeaseFrame(s, session.config, output, answer);
    hide SessionOk, Orphans, NewOrphan, AllQueued, ReturnLease;
    session.ReturnStreamLease(output, answer);
  }

  lemma ReturnLeaseFrame(s: Session, c: Config, output: StreamingOutput, answer: Option<nat>)
    ensures var s' := ReturnLease(s, c, output, answer); s'.state == s.state && s'.completed == s.completed
  {
  }

  /** What other threads call before a round of the loop, and while its callback runs. */
  datatype Round = Round(before: seq<Call>, during: seq<Call>)

  /** The session loop on a ready driver: dequeue and resolve until the driver has nothing left or the
      session no longer streams. Other threads may submit, start, flush and close in between, round by
      round as others says; their submissions lengthen the mock's queue, and once they have made their
      last call each round shortens it, so the loop ends. Then no request is left in flight. fences gives
      the fences the processors return for a token. */
  method OnDriverFdReady(session: CameraDeviceSession, driver: MockDriverAdapter, readyFd: int,
                         readable: bool, error: bool, hangup: bool, fences: nat -> seq<int>, others: seq<Round>)
    returns (outcomes: seq<Outcome>)
    requires Served(session, driver, driver.completions)
    requires forall k :: 0 <= k < |others| ==> ClientFrames(others[k].before) && ClientFrames(others[k].during)
    requires forall token :: |fences(token)| >= |session.config.processors|
    modifies session, session.inFlight, driver
    ensures Served(session, driver, driver.completions)
    ensures !readable && !error && !hangup ==>
              outcomes == [] && session.View() == old(session.View()) && driver.completions == old(driver.completions)
    ensures (readable || error || hangup) && readyFd == old(driver.readFd) ==>
              session.inFlight.requests == map[] && (session.state.Streaming? ==> driver.completions == [])
    ensures forall i :: 0 <= i < |outcomes| ==> outcomes[i].result.status.Ok?
    ensures session.completed == old(session.completed) + |outcomes|
  {
    hide SessionOk, AllQueued, ClientFrames;
    outcomes := [];
    if !readable && !error && !hangup { return; }
    var k := 0;
    while true
      invariant Served(session, driver, driver.completions)
      invariant driver.readFd == old(driver.readFd) || session.state.Stopped?
      invariant forall i :: 0 <= i < |outcomes| ==> outcomes[i].result.status.Ok?
      invariant session.completed == old(session.completed) + |outcomes|
      decreases if k < |others| then |others| - k else 0, |driver.completions|
    {
      if k < |others| {
        Others(session, driver, others[k].before);
      }
      if !session.state.Streaming? {
        NotStreamingIsEmpty(session.View());
        return;
      }
      ghost var queue := driver.completions;
      var completion := driver.DequeueCompletion(readyFd);
      if completion.None? {
        if readyFd == driver.readFd { NothingInFlight(session.View(), driver.nextToken); }
        return;
      }
      assert queue == [completion.value] + driver.completions;
      NoCalls();
      var during := if k < |others| then others[k].during else [];
      var outcome := OnDriverBufferComplete(session, driver, completion.value, fences(completion.value.token), during);
      if outcome.Some? {
        outcomes := outcomes + [outcome.value];
      }
      k := k + 1;
    }
  }

  lemma NoCalls()
    ensures ClientFrames([])
  {
  }

  lemma NoAnswers(completions: seq<Completion>, nextToken: nat)
    ensures Answers([], completions, nextToken)
  {
  }

  lemma SubmitFrame(s: Session, c: Config, request: Request, preflight: bool, responses: seq<Option<nat>>)
    ensures var s' := Submit(s, c, request, preflight, responses).0; s'.state == s.state && s'.completed == s.completed
  {
  }

  /** The tokens bound after a submission had the same meaning before, or were answered now. */
  lemma SubmitContexts(s: Session, c: Config, request: Request, preflight: bool, responses: seq<Option<nat>>)
    ensures var t' := Submit(s, c, request, preflight, responses).0.tracker;
            forall k :: k in t'.tokens ==>
              (k in s.tracker.tokens && t'.tokens[k] == s.tracker.tokens[k]) || Some(k) in responses
  {
    var frame := request.frameNumber;
    var outputs := MakeOutputs(RequestOutputs(request));
    var started := Start(s.tracker, request, outputs);
    BindOutputsAdds(started, frame, |outputs|, responses, 0);
    var (bound, _) := BindOutputs(started, frame, |outputs|, responses, 0);
    forall k | k in bound.tokens
      ensures (k in s.tracker.tokens && bound.tokens[k] == s.tracker.tokens[k]) || Some(k) in responses
    {
      if k !in started.tokens {
        assert responses[bound.tokens[k].outputIndex] == Some(k);
      }
    }
  }

  lemma SubmitLeavesQueued(s: Session, c: Config, request: Request, preflight: bool, responses: seq<Option<nat>>,
                           before: seq<Completion>, next: nat, after: seq<Completion>, next': nat)
    requires AllQueued(s.tracker, before, next) && before <= after && next <= next'
    requires Answers(responses, after, next')
    ensures AllQueued(Submit(s, c, request, preflight, responses).0.tracker, after, next')
  {
    SubmitContexts(s, c, request, preflight, responses);
    QueueGrows(before, after);
    hide Submit, InQueue;
    var t' := Submit(s, c, request, preflight, responses).0.tracker;
    forall k | k in t'.tokens ensures k < next' && (t'.tokens[k].outputIndex >= 0 ==> InQueue(after, k)) {
      if Some(k) in responses {
        var i :| 0 <= i < |responses| && responses[i] == Some(k);
        assert responses[i].Some?;
      }
    }
  }

  /** No token stands for the output of a request. */
  predicate PreviewTokensOnly(t: Tracker) {
    forall k :: k in t.tokens ==> t.tokens[k].outputIndex < 0
  }

  lemma {:induction false} RegisterPreviewAddsPreview(t: Tracker, buffers: seq<Target>, tokens: seq<nat>, first: nat, i: nat)
    requires i <= |buffers| == |tokens| && PreviewTokensOnly(t)
    ensures PreviewTokensOnly(RegisterPreview(t, buffers, tokens, first, i).0)
    decreases |buffers| - i
  {
    if i < |buffers| {
      var output := StreamingOutput(first + i, buffers[i], buffers[i].streamType);
      var t1 := RegisterAndBind(t, output, tokens[i]);
      assert PreviewTokensOnly(t1) && PreviewTokensOnly(RegisterStreaming(t, output));
      hide PreviewTokensOnly;
      RegisterPreviewAddsPreview(t1, buffers, tokens, first, i + 1);
    }
  }

  lemma StartTokens(s: Session, c: Config, started: bool, tokens: Option<seq<nat>>)
    requires PreviewTokensOnly(s.tracker)
    ensures PreviewTokensOnly(StartStreaming(s, c, started, tokens).tracker)
  {
    if tokens.Some? && |tokens.value| == |c.previewBuffers| {
      RegisterPreviewAddsPreview(s.tracker, c.previewBuffers, tokens.value, s.nextStreamingFrame, 0);
    }
    hide RegisterPreview, PreviewTokensOnly;
  }

  /** The tokens of the preview need no completion. */
  lemma StartLeavesQueued(s: Session, c: Config, started: bool, tokens: Option<seq<nat>>,
                          completions: seq<Completion>, nextToken: nat)
    requires SessionOk(s) && s.state.Configured?
    requires tokens.Some? ==> FreshTokens(tokens.value, {}) && forall i :: 0 <= i < |tokens.value| ==> tokens.value[i] < nextToken
    ensures AllQueued(StartStreaming(s, c, started, tokens).tracker, completions, nextToken)
  {
    StartStreamingOk(s, c, started, tokens, {});
    assert s.tracker.tokens == map[];
    hide StartStreaming, SessionOk, Orphans;
    StartTokens(s, c, started, tokens);
  }

  lemma NotStreamingIsEmpty(s: Session)
    requires SessionOk(s) && !s.state.Streaming?
    ensures s.tracker == EMPTY
  {
  }

  lemma EmptiedOk(s: Session, rows: nat, state: SessionState, completions: seq<Completion>, nextToken: nat)
    requires SessionOk(s) && !state.Streaming?
    ensures SessionOk(Emptied(s, rows, state)) && AllQueued(Emptied(s, rows, state).tracker, completions, nextToken)
  {
  }

  /** With no bound request output left, no row is left either. */
  lemma NothingInFlight(s: Session, nextToken: nat)
    requires SessionOk(s) && AllQueued(s.tracker, [], nextToken)
    ensures s.tracker.requests == map[]
  {
    forall f | f in s.tracker.requests ensures false {
      var row := s.tracker.requests[f];
      assert RowOk(row, f);
      var i :| 0 <= i < |row.outputs| && !row.outputs[i].completed;
      assert Outstanding(s.tracker, Context(f, i));
    }
  }

  lemma ResolveLeavesQueued(s: Session, c: Config, first: Completion, fences: seq<int>, rest: seq<Completion>, nextToken: nat)
    requires SessionOk(s) && |fences| >= |c.processors|
    requires AllQueued(s.tracker, [first] + rest, nextToken)
    ensures var (s', resolution) := Resolve(s, c, first.token, first.timestamp, fences);
            && AllQueued(s'.tracker, rest, nextToken)
            && s'.state == s.state
            && s'.completed == s.completed + (if resolution.Nothing? then 0 else 1)
            && (resolution.RowDone? || resolution.PreviewDone? ==> resolution.outcome.result.status.Ok?)
  {
    hide SessionOk, Process;
    var (s', resolution) := Resolve(s, c, first.token, first.timestamp, fences);
    assert s'.tracker.tokens == s.tracker.tokens - {first.token};
    forall k | k in s'.tracker.tokens && s'.tracker.tokens[k].outputIndex >= 0
      ensures InQueue(rest, k)
    {
      assert InQueue([first] + rest, k);
      var i :| 0 <= i < |rest| + 1 && ([first] + rest)[i].token == k;
      assert rest[i - 1].token == k;
    }
  }

  lemma ReturnLeavesQueued(s: Session, c: Config, output: StreamingOutput, answer: nat, rest: seq<Completion>)
    requires SessionOk(s) && AllQueued(s.tracker, rest, answer) && s.state.Streaming? && c.hasDriver
    ensures AllQueued(ReturnLease(s, c, output, Some(answer)).tracker, rest, answer + 1)
  {
    var t := ReturnLease(s, c, output, Some(answer)).tracker;
    forall k | k in t.tokens && t.tokens[k].outputIndex >= 0
      ensures InQueue(rest, k)
    {
      assert k in s.tracker.tokens;
    }
  }
}
