/** Preview buffers over whole runs: the frame numbers under which they are registered, and the
    streaming rows that no token reaches. */
module SessionPreviews {
  import opened Wrappers
  import opened CameraTypes
  import opened InFlightTracker
  import opened CameraSession
  import opened SessionConsistency
  import opened SessionHistory
  import opened SessionLaws

  /** The orphans in the table are the frames registered in this epoch without a token. */
  predicate OrphansKnown(w: World) {
    Orphans(w.session.tracker) == w.orphans
  }

  predicate Increasing(frames: seq<nat>) {
    forall i, j :: 0 <= i < j < |frames| ==> frames[i] < frames[j]
  }

  /** Streaming frame numbers are registered in increasing order, each once, and every streaming row
      carries one of them. */
  predicate FramesFresh(w: World) {
    && Increasing(w.registered)
    && (forall i :: 0 <= i < |w.registered| ==> w.registered[i] < w.session.nextStreamingFrame)
    && (forall f :: f in w.session.tracker.streaming ==> f in w.registered)
  }

  predicate PreviewsOk(w: World) {
    OrphansKnown(w) && FramesFresh(w)
  }

  lemma NewPreviewsOk()
    ensures PreviewsOk(NewWorld())
  {
  }

  /** Every streaming output that registering the preview buffers adds is one of these buffers. */
  lemma {:induction false} RegisterPreviewStreaming(t: Tracker, buffers: seq<Target>, tokens: seq<nat>, first: nat,
                                                    i: nat)
    requires i <= |buffers| == |tokens|
    ensures var t' := RegisterPreview(t, buffers, tokens, first, i).0;
            && t'.requests == t.requests
            && (forall f :: f in t'.streaming && f !in t.streaming ==>
                  && first + i <= f < first + |buffers|
                  && t'.streaming[f] == StreamingOutput(f, buffers[f - first], buffers[f - first].streamType))
            && (forall f :: f in t.streaming ==> f in t'.streaming && t'.streaming[f] == t.streaming[f])
    decreases |buffers| - i
  {
    hide Bind;
    if i < |buffers| && first + i !in t.streaming && CanBind(t, tokens[i]) {
      var output := StreamingOutput(first + i, buffers[i], buffers[i].streamType);
      var t1 := RegisterAndBind(t, output, tokens[i]);
      assert t1.requests == t.requests && t1.streaming == t.streaming[first + i := output] by {
        BindKeepsTables(RegisterStreaming(t, output), tokens[i], Context(first + i, -1));
      }
      RegisterPreviewStreaming(t1, buffers, tokens, first, i + 1);
    }
  }

  lemma BindKeepsTables(t: Tracker, token: nat, x: Context)
    ensures var t' := Bind(t, token, x); t'.requests == t.requests && t'.streaming == t.streaming
  {
  }

  lemma {:induction false} NextFramesAt(s: Session, count: nat)
    ensures forall i :: 0 <= i < count ==> NextFrames(s, count)[i] == s.nextStreamingFrame + i
  {
    if count > 0 {
      NextFramesAt(s, count - 1);
    }
  }

  /** What start_streaming registers when it succeeds. */
  lemma StartRegisters(s: Session, c: Config, driverStarted: bool, tokens: Option<seq<nat>>, used: set<nat>)
    requires SessionOk(s) && (tokens.Some? ==> FreshTokens(tokens.value, used))
    ensures var s' := StartStreaming(s, c, driverStarted, tokens);
            && s.nextStreamingFrame <= s'.nextStreamingFrame
            && (s'.tracker != s.tracker ==> s.state.Configured? && s'.state.Streaming? && c.continuousPreview)
            && (s.state.Configured? && s'.state.Streaming? && c.continuousPreview ==>
                  && s'.nextStreamingFrame == s.nextStreamingFrame + |c.previewBuffers|
                  && forall f :: f in s'.tracker.streaming ==>
                       s.nextStreamingFrame <= f < s'.nextStreamingFrame)
  {
    StartStreamingOk(s, c, driverStarted, tokens, used);
    if s.state.Configured? && tokens.Some? && |tokens.value| == |c.previewBuffers| {
      assert s.tracker == EMPTY;
      RegisterPreviewStreaming(s.tracker, c.previewBuffers, tokens.value, s.nextStreamingFrame, 0);
    }
    hide Consistent, Orphans, RegisterPreview;
  }

  lemma FramesAppended(s: Session, registered: seq<nat>, count: nat)
    requires Increasing(registered) && forall i :: 0 <= i < |registered| ==> registered[i] < s.nextStreamingFrame
    ensures var all := registered + NextFrames(s, count);
            && Increasing(all)
            && (forall i :: 0 <= i < |all| ==> all[i] < s.nextStreamingFrame + count)
            && (forall f :: s.nextStreamingFrame <= f < s.nextStreamingFrame + count ==> f in all)
  {
    NextFramesAt(s, count);
    var frames := NextFrames(s, count);
    var all := registered + frames;
    forall f | s.nextStreamingFrame <= f < s.nextStreamingFrame + count ensures f in all {
      assert frames[f - s.nextStreamingFrame] == f;
      assert all[|registered| + (f - s.nextStreamingFrame)] == f;
    }
  }

  lemma StartOrphans(w: World, c: Config, driverStarted: bool, tokens: Option<seq<nat>>)
    requires TablesOk(w, c) && OrphansKnown(w) && Admissible(w, c, DoStart(driverStarted, tokens))
    ensures OrphansKnown(AfterStart(w, c, driverStarted, tokens))
  {
    hide SessionOk, StartStreaming, Orphans, FreshTokens, NextFrames;
    StartStreamingOk(w.session, c, driverStarted, tokens, w.used);
  }

  lemma StartPreviews(w: World, c: Config, driverStarted: bool, tokens: Option<seq<nat>>)
    requires TablesOk(w, c) && PreviewsOk(w) && Admissible(w, c, DoStart(driverStarted, tokens))
    ensures PreviewsOk(AfterStart(w, c, driverStarted, tokens))
  {
    StartOrphans(w, c, driverStarted, tokens);
    hide SessionOk, StartStreaming, Orphans, OrphansKnown, FreshTokens, NextFrames, Increasing;
    StartRegisters(w.session, c, driverStarted, tokens, w.used);
    FramesAppended(w.session, w.registered, |c.previewBuffers|);
    assert w.registered + [] == w.registered;
  }

  lemma SubmitPreviews(w: World, c: Config, request: Request, preflight: bool, responses: seq<Option<nat>>)
    requires TablesOk(w, c) && PreviewsOk(w) && request.frameNumber < FIRST_STREAMING_FRAME
    ensures PreviewsOk(AfterSubmit(w, c, request, preflight, responses))
  {
    SubmitOk(w.session, c, request, preflight, responses);
    SubmitEffect(w.session, c, request, preflight, responses);
    hide SessionOk, Submit, Orphans, BufferFences, RowFences;
  }

  lemma ResolveWorld(w: World, c: Config, token: nat, timestamp: int, fences: seq<int>)
    requires |fences| >= |c.processors|
    ensures var w' := AfterResolve(w, c, token, timestamp, fences);
            && w'.used == w.used && w'.registered == w.registered && w'.orphans == w.orphans
            && w'.session == Resolve(w.session, c, token, timestamp, fences).0
            && (token !in w.session.tracker.tokens ==>
                  w' == w.(session := w.session.(failed := w.session.failed + 1)))
  {
    hide Process, CompleteOutput, OutputTarget;
  }

  lemma ResolvePreviews(w: World, c: Config, token: nat, timestamp: int, fences: seq<int>)
    requires TablesOk(w, c) && PreviewsOk(w) && |fences| >= |c.processors|
    ensures PreviewsOk(AfterResolve(w, c, token, timestamp, fences))
  {
    hide SessionOk, Resolve, Orphans, AfterResolve;
    ResolveWorld(w, c, token, timestamp, fences);
    ResolveOk(w.session, c, token, timestamp, fences);
    ResolveShrinks(w.session, c, token, timestamp, fences);
  }

  lemma ResolveShrinks(s: Session, c: Config, token: nat, timestamp: int, fences: seq<int>)
    requires |fences| >= |c.processors|
    ensures var s' := Resolve(s, c, token, timestamp, fences).0;
            && s'.nextStreamingFrame == s.nextStreamingFrame
            && (forall f :: f in s'.tracker.streaming ==> f in s.tracker.streaming)
  {
    hide Process, MarkOutputs, AllCompleted, Matches, OutputTarget;
  }

  lemma ReturnPreviews(w: World, c: Config, callback: nat, answer: Option<nat>)
    requires TablesOk(w, c) && PreviewsOk(w)
    ensures PreviewsOk(AfterReturn(w, c, callback, answer))
  {
    if callback in w.out || callback in w.stale {
      var output := if callback in w.out then w.out[callback] else w.stale[callback];
      ReturnLeaseOk(w.session, c, output, answer);
      ReturnEffect(w.session, c, output, answer);
      hide SessionOk, ReturnLease, Orphans, NewOrphan;
      ReturnedPreviews(w, c, output, answer);
    }
  }

  lemma ReturnedPreviews(w: World, c: Config, output: StreamingOutput, answer: Option<nat>)
    requires TablesOk(w, c) && PreviewsOk(w)
    requires Orphans(ReturnLease(w.session, c, output, answer).tracker)
             == Orphans(w.session.tracker) + NewOrphan(w.session, c, answer)
    ensures PreviewsOk(Returned(w, c, output, answer))
  {
    hide Orphans, NewOrphan;
    var w' := Returned(w, c, output, answer);
    ReturnEffect(w.session, c, output, answer);
    assert TakesBack(w.session, c, answer) ==> w'.registered[|w.registered|] == w.session.nextStreamingFrame;
    forall f | f in w'.session.tracker.streaming ensures f in w'.registered {
    }
  }

  lemma NextKeepsPreviews(w: World, c: Config, e: Event)
    requires TablesOk(w, c) && PreviewsOk(w) && Admissible(w, c, e)
    ensures PreviewsOk(WorldNext(w, c, e))
  {
    hide TablesOk, PreviewsOk;
    match e
    case DoConfigure(driverConfigured, registered) => ConfigurePreviews(w, c, driverConfigured, registered);
    case DoStart(driverStarted, tokens) => StartPreviews(w, c, driverStarted, tokens);
    case DoSubmit(request, preflight, responses) => SubmitPreviews(w, c, request, preflight, responses);
    case DoResolve(token, timestamp, fences) => ResolvePreviews(w, c, token, timestamp, fences);
    case DoReturn(callback, answer) => ReturnPreviews(w, c, callback, answer);
    case DoFlush(order) =>
      OrderInRequests(order, w.session.tracker.requests.Keys);
      if CanFlush(w.session) { EndEpochPreviews(w, Flush(w.session, order), order); }
    case DoClose(order) =>
      OrderInRequests(order, w.session.tracker.requests.Keys);
      if !w.session.state.Stopped? { EndEpochPreviews(w, Close(w.session, order), order); }
  }

  lemma ConfigurePreviews(w: World, c: Config, driverConfigured: bool, registered: bool)
    requires PreviewsOk(w)
    ensures PreviewsOk(w.(session := Configure(w.session, c, driverConfigured, registered)))
  {
  }

  lemma EndEpochPreviews(w: World, s: Session, order: seq<nat>)
    requires PreviewsOk(w) && s.tracker == EMPTY && s.nextStreamingFrame == w.session.nextStreamingFrame
    requires forall i :: 0 <= i < |order| ==> order[i] in w.session.tracker.requests
    ensures PreviewsOk(EndEpoch(w, s, order))
  {
    hide FlushOutcomes;
  }

  /** One step keeps every account of a session. */
  lemma NextKeepsWorld(w: World, c: Config, e: Event)
    requires WorldInv(w, c) && EpochOver(w) && PreviewsOk(w) && Admissible(w, c, e)
    ensures var w' := WorldNext(w, c, e); WorldInv(w', c) && EpochOver(w') && PreviewsOk(w')
  {
    assert TablesOk(w, c);
    hide WorldInv, EpochOver, PreviewsOk, TablesOk, WorldNext, Admissible;
    NextKeepsWorldInv(w, c, e);
    NextKeepsPreviews(w, c, e);
  }
}
