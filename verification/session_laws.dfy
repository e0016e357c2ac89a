/** Conservation laws of a session, kept by every critical section and so by every run. */
module SessionLaws {
  import opened Wrappers
  import opened Bags
  import opened CameraTypes
  import opened InFlightTracker
  import opened CameraSession
  import opened SessionConsistency
  import opened SessionHistory

  /** The tables are consistent, every bound token was once an answer of the driver,
      and outside streaming no callback belongs to the current epoch. */
  ghost predicate TablesOk(w: World, c: Config) {
    && SessionOk(w.session)
    && w.session.tracker.tokens.Keys <= w.used
    && (w.session.state.Streaming? ==> c.hasDriver)
    && (!w.session.state.Streaming? ==> w.out == map[])
    && (forall k :: k in w.out ==> k < w.callbacks)
    && (forall k :: k in w.stale ==> k < w.callbacks && k !in w.out)
  }

  /** Every row inserted is either still in the table or has produced exactly one result. */
  ghost predicate RowsConserved(w: World) {
    w.started == multiset(w.session.tracker.requests.Keys) + FinishedFrames(w.log)
  }

  predicate CompletedCounted(w: World) {
    w.session.completed == CountOk(w.log)
  }

  /** Every release fence is stored in a completed output of a row or has been delivered. */
  ghost predicate FencesConserved(w: World) {
    w.issued == Bag(w.session.tracker.requests, RowFences) + LogFences(w.log)
  }

  /** The preview targets in the table, out at callbacks, or refused are those the epoch began
      with, and those of stale leases that the driver took back. */
  ghost predicate PreviewConserved(w: World) {
    Bag(w.session.tracker.streaming, StreamTarget) + Bag(w.out, StreamTarget) + w.refused
    == w.configured + w.adopted
  }

  ghost predicate WorldInv(w: World, c: Config) {
    TablesOk(w, c) && RowsConserved(w) && CompletedCounted(w) && FencesConserved(w) && PreviewConserved(w)
  }

  lemma NewWorldInv(c: Config)
    ensures WorldInv(NewWorld(), c)
  {
  }

  /* ---------------------------------- one step of each account ---------------------------------- */

  lemma RowsStep(w: World, w': World, begun: multiset<nat>, ended: multiset<nat>)
    requires RowsConserved(w)
    requires w'.started == w.started + begun && FinishedFrames(w'.log) == FinishedFrames(w.log) + ended
    requires multiset(w'.session.tracker.requests.Keys) + ended == multiset(w.session.tracker.requests.Keys) + begun
    ensures RowsConserved(w')
  {
    hide FinishedFrames;
    Balance(w.started, multiset(w.session.tracker.requests.Keys), FinishedFrames(w.log),
            w'.started, multiset(w'.session.tracker.requests.Keys), FinishedFrames(w'.log), begun, ended);
  }

  lemma FencesStep(w: World, w': World, added: multiset<int>, delivered: multiset<int>)
    requires FencesConserved(w)
    requires w'.issued == w.issued + added && LogFences(w'.log) == LogFences(w.log) + delivered
    requires Bag(w'.session.tracker.requests, RowFences) + delivered
          == Bag(w.session.tracker.requests, RowFences) + added
    ensures FencesConserved(w')
  {
    hide LogFences, Bag;
    Balance(w.issued, Bag(w.session.tracker.requests, RowFences), LogFences(w.log),
            w'.issued, Bag(w'.session.tracker.requests, RowFences), LogFences(w'.log), added, delivered);
  }

  /** One preview target moves from one place to another, or enters from outside the epoch. */
  datatype Move = Stay | TableToCallback | CallbackToTable | CallbackToRefused | StaleToTable

  lemma PreviewStep(w: World, w': World, move: Move, x: Target)
    requires PreviewConserved(w) && w'.configured == w.configured
    requires var b, b' := Bag(w.session.tracker.streaming, StreamTarget), Bag(w'.session.tracker.streaming, StreamTarget);
             match move
             case TableToCallback => b == multiset{x} + b'
             case CallbackToTable => b' == multiset{x} + b
             case StaleToTable => b' == multiset{x} + b
             case _ => b' == b
    requires var o, o' := Bag(w.out, StreamTarget), Bag(w'.out, StreamTarget);
             match move
             case TableToCallback => o' == multiset{x} + o
             case CallbackToTable => o == multiset{x} + o'
             case CallbackToRefused => o == multiset{x} + o'
             case _ => o' == o
    requires w'.refused == w.refused + if move.CallbackToRefused? then multiset{x} else multiset{}
    requires w'.adopted == w.adopted + if move.StaleToTable? then multiset{x} else multiset{}
    ensures PreviewConserved(w')
  {
    hide Bag;
    var b, b' := Bag(w.session.tracker.streaming, StreamTarget), Bag(w'.session.tracker.streaming, StreamTarget);
    var o, o' := Bag(w.out, StreamTarget), Bag(w'.out, StreamTarget);
    forall y ensures (b' + o' + w'.refused)[y] == (w'.configured + w'.adopted)[y] {
      assert (b + o + w.refused)[y] == (w.configured + w.adopted)[y];
    }
  }

  lemma KeysInsert(keys: set<nat>, k: nat)
    requires k !in keys
    ensures multiset(keys + {k}) == multiset(keys) + multiset{k}
  {
  }

  lemma KeysRemove(keys: set<nat>, k: nat)
    requires k in keys
    ensures multiset(keys - {k}) + multiset{k} == multiset(keys)
  {
  }

  /* ---------------------------------- submit ---------------------------------- */

  /** What a submission does to the row table, and what it reports. */
  lemma SubmitEffect(s: Session, c: Config, request: Request, preflight: bool, responses: seq<Option<nat>>)
    requires SessionOk(s) && request.frameNumber < FIRST_STREAMING_FRAME
    ensures var (s', outcome) := Submit(s, c, request, preflight, responses);
            var frame := request.frameNumber;
            var begins := Begins(s, c, request, preflight);
            && s'.state == s.state && s'.completed == s.completed && s'.nextStreamingFrame == s.nextStreamingFrame
            && s'.tracker.streaming == s.tracker.streaming
            && (outcome.None? ==>
                  && begins
                  && s'.tracker.requests == s.tracker.requests[frame :=
                       Row(frame, request, MakeOutputs(RequestOutputs(request)), 0, QueuedToDriver)])
            && (outcome.Some? ==> outcome.value.result.frameNumber == frame && !outcome.value.result.status.Ok?)
            && (outcome.Some? && outcome.value.origin.FromRow? && !begins ==>
                  && frame in s.tracker.requests
                  && s'.tracker.requests == s.tracker.requests - {frame}
                  && BufferFences(outcome.value.result.buffers) == RowFences(s.tracker.requests[frame]))
            && (outcome.Some? && (outcome.value.origin.FromRow? ==> begins) ==>
                  && s'.tracker.requests == s.tracker.requests
                  && BufferFences(outcome.value.result.buffers) == multiset{})
            && (outcome.Some? ==> !outcome.value.origin.FromStream?)
            && (outcome.Some? && outcome.value.origin.FromNothing? ==> !begins)
  {
    var frame := request.frameNumber;
    var outputs := MakeOutputs(RequestOutputs(request));
    NoFences(outputs);
    BuffersCarryFences(outputs, ProcessingError);
    if !Rejects(s, c) {
      if !Begins(s, c, request, preflight) {
        var status := if preflight then ProcessingError else SensorError;
        FillFailedEffect(s, frame, status, CompletedBuffers(outputs, ProcessingError));
      } else if BindOutputs(Start(s.tracker, request, outputs), frame, |outputs|, responses, 0).1 {
        AcceptedSubmitOk(s.tracker, s.nextStreamingFrame, request, responses);
      } else {
        var (t, _) := SubmitToDriver(Start(s.tracker, request, outputs), frame, |outputs|, responses);
        RollbackIsExact(s.tracker, s.nextStreamingFrame, request, responses);
        RollbackKeepsRow(s.tracker, request, responses);
        BuffersCarryFences(outputs, SensorError);
      }
    }
  }

  lemma FillFailedEffect(s: Session, frame: nat, status: CaptureStatus, fallback: seq<CompletedBuffer>)
    requires BufferFences(fallback) == multiset{} && !status.Ok?
    ensures var (s', o) := FillFailed(s, frame, status, fallback);
            && s' == s.(tracker := s'.tracker, failed := s.failed + 1)
            && s'.tracker.streaming == s.tracker.streaming
            && s'.tracker.requests == s.tracker.requests - {frame}
            && o.result.frameNumber == frame && o.result.status == status
            && o.origin == (if frame in s.tracker.requests then FromRow else FromNothing)
            && BufferFences(o.result.buffers)
               == (if frame in s.tracker.requests then RowFences(s.tracker.requests[frame]) else multiset{})
            && (frame !in s.tracker.requests ==> s'.tracker.requests == s.tracker.requests)
  {
    if frame in s.tracker.requests {
      BuffersCarryFences(s.tracker.requests[frame].outputs, status);
    }
  }

  lemma RollbackKeepsRow(t: Tracker, request: Request, responses: seq<Option<nat>>)
    requires request.frameNumber !in t.requests
    ensures var outputs := MakeOutputs(RequestOutputs(request));
            var (t', ok) := SubmitToDriver(Start(t, request, outputs), request.frameNumber, |outputs|, responses);
            && request.frameNumber in t'.requests && t'.requests[request.frameNumber].outputs == outputs
  {
    var outputs := MakeOutputs(RequestOutputs(request));
    BindOutputsAdds(Start(t, request, outputs), request.frameNumber, |outputs|, responses, 0);
  }

  lemma SubmitTables(w: World, c: Config, request: Request, preflight: bool, responses: seq<Option<nat>>)
    requires TablesOk(w, c) && Admissible(w, c, DoSubmit(request, preflight, responses))
    ensures TablesOk(AfterSubmit(w, c, request, preflight, responses), c)
  {
    SubmitOk(w.session, c, request, preflight, responses);
    SubmitTokens(w.session, c, request, preflight, responses);
    SubmitEffect(w.session, c, request, preflight, responses);
    hide SessionOk, Submit;
    var w' := AfterSubmit(w, c, request, preflight, responses);
    forall k | k in w'.session.tracker.tokens ensures k in w'.used {
      if k !in w.session.tracker.tokens { assert Some(k) in responses; }
    }
  }

  lemma SubmitRows(w: World, c: Config, request: Request, preflight: bool, responses: seq<Option<nat>>)
    requires SessionOk(w.session) && RowsConserved(w) && request.frameNumber < FIRST_STREAMING_FRAME
    ensures RowsConserved(AfterSubmit(w, c, request, preflight, responses))
  {
    hide Submit, RowsConserved, FinishedFrames, SessionOk, MakeOutputs, RequestOutputs, RowFences, BufferFences;
    SubmitEffect(w.session, c, request, preflight, responses);
    var frame := request.frameNumber;
    var keys := w.session.tracker.requests.Keys;
    var w' := AfterSubmit(w, c, request, preflight, responses);
    var (s, outcome) := Submit(w.session, c, request, preflight, responses);
    var begun := if Begins(w.session, c, request, preflight) then multiset{frame} else multiset{};
    if outcome.None? {
      assert s.tracker.requests.Keys == keys + {frame};
      KeysInsert(keys, frame);
      RowsStep(w, w', begun, multiset{});
    } else {
      LogAppend(w.log, outcome.value);
      var ended := if outcome.value.origin.FromRow? then multiset{frame} else multiset{};
      if outcome.value.origin.FromRow? && begun == multiset{} {
        assert s.tracker.requests.Keys == keys - {frame};
        KeysRemove(keys, frame);
      }
      RowsStep(w, w', begun, ended);
    }
  }

  lemma SubmitFences(w: World, c: Config, request: Request, preflight: bool, responses: seq<Option<nat>>)
    requires SessionOk(w.session) && FencesConserved(w) && request.frameNumber < FIRST_STREAMING_FRAME
    ensures FencesConserved(AfterSubmit(w, c, request, preflight, responses))
  {
    var outputs := MakeOutputs(RequestOutputs(request));
    NoFences(outputs);
    hide Submit, FencesConserved, LogFences, SessionOk, Bag, OutputFences, BufferFences,
         MakeOutputs, RequestOutputs;
    SubmitEffect(w.session, c, request, preflight, responses);
    var frame := request.frameNumber;
    var requests := w.session.tracker.requests;
    var w' := AfterSubmit(w, c, request, preflight, responses);
    var (s, outcome) := Submit(w.session, c, request, preflight, responses);
    if outcome.None? {
      BagInsert(requests, RowFences, frame, s.tracker.requests[frame]);
      FencesStep(w, w', multiset{}, multiset{});
    } else {
      LogAppend(w.log, outcome.value);
      var delivered := BufferFences(outcome.value.result.buffers);
      if outcome.value.origin.FromRow? && !Begins(w.session, c, request, preflight) {
        BagSplit(requests, RowFences, frame);
      }
      FencesStep(w, w', multiset{}, delivered);
    }
  }

  lemma SubmitCounts(w: World, c: Config, request: Request, preflight: bool, responses: seq<Option<nat>>)
    requires TablesOk(w, c) && CompletedCounted(w) && PreviewConserved(w)
    requires Admissible(w, c, DoSubmit(request, preflight, responses))
    ensures var w' := AfterSubmit(w, c, request, preflight, responses);
            CompletedCounted(w') && PreviewConserved(w')
  {
    SubmitEffect(w.session, c, request, preflight, responses);
    hide TablesOk, Submit, SessionOk, Admissible, Bag, CountOk;
    var (_, outcome) := Submit(w.session, c, request, preflight, responses);
    if outcome.Some? {
      LogAppend(w.log, outcome.value);
    }
  }

  /* ---------------------------------- resolve ---------------------------------- */

  lemma ResolveTables(w: World, c: Config, token: nat, timestamp: int, fences: seq<int>)
    requires TablesOk(w, c) && |fences| >= |c.processors|
    ensures TablesOk(AfterResolve(w, c, token, timestamp, fences), c)
  {
    hide SessionOk, Resolve, Take, ReleaseFence, FenceBag;
    ResolveOk(w.session, c, token, timestamp, fences);
    ResolveFrame(w.session, c, token, timestamp, fences);
  }

  lemma ResolveFrame(s: Session, c: Config, token: nat, timestamp: int, fences: seq<int>)
    requires SessionOk(s) && |fences| >= |c.processors|
    ensures var (s', resolution) := Resolve(s, c, token, timestamp, fences);
            && s'.state == s.state && s'.tracker.tokens == s.tracker.tokens - {token}
            && (resolution.PreviewDone? ==> s.state.Streaming?)
  {
    hide SessionOk, Take, ReleaseFence, CompleteOutput, RowResult, PreviewResult;
    TakeFrame(s.tracker, token);
    if s.tracker.tokens != map[] { TokensMeanStreaming(s); }
    var (t, resolved) := Take(s.tracker, token);
    if resolved.Some? {
      CompleteFrame(t, resolved.value.frameNumber, resolved.value.outputIndex, ReleaseFence(c.processors, fences), timestamp);
    }
  }

  lemma TokensMeanStreaming(s: Session)
    requires SessionOk(s) && s.tracker.tokens != map[]
    ensures s.state.Streaming?
  {
  }

  lemma CompleteFrame(t: Tracker, frame: nat, outputIndex: int, fence: int, timestamp: int)
    ensures CompleteOutput(t, frame, outputIndex, fence, timestamp).0.tokens == t.tokens
  {
  }

  lemma TakeFrame(t: Tracker, token: nat)
    ensures Take(t, token).0.tokens == t.tokens - {token}
    ensures Take(t, token).1.Some? ==> t.tokens != map[]
  {
    assert token !in t.tokens ==> t.tokens - {token} == t.tokens;
  }

  /** What resolving a token does to the tables and what it reports. */
  lemma ResolveRequest(s: Session, c: Config, token: nat, timestamp: int, fences: seq<int>)
    requires SessionOk(s) && |fences| >= |c.processors|
    requires token in s.tracker.tokens && s.tracker.tokens[token].outputIndex >= 0
    ensures var context := s.tracker.tokens[token];
            var (s', resolution) := Resolve(s, c, token, timestamp, fences);
            var fence := ReleaseFence(c.processors, fences);
            && Outstanding(s.tracker, context)
            && Take(s.tracker, token).1.Some?
            && s'.tracker.streaming == s.tracker.streaming
            && (var row := s.tracker.requests[context.frameNumber];
                var outputs := row.outputs[context.outputIndex :=
                                 row.outputs[context.outputIndex].(completed := true, releaseFence := fence)];
                && RowOk(row, context.frameNumber)
                && OutputFences(outputs) == OutputFences(row.outputs) + FenceBag(fence)
                && (resolution.Nothing? || resolution.RowDone?)
                && (resolution.Nothing? ==>
                      && !AllCompleted(outputs) && s'.completed == s.completed
                      && s'.tracker.requests
                         == s.tracker.requests[context.frameNumber := row.(outputs := outputs)])
                && (resolution.RowDone? ==>
                      && AllCompleted(outputs) && s'.completed == s.completed + 1
                      && s'.tracker.requests == s.tracker.requests - {context.frameNumber}
                      && resolution.outcome.origin.FromRow?
                      && resolution.outcome.result.status.Ok?
                      && resolution.outcome.result.frameNumber == context.frameNumber
                      && resolution.outcome.result.buffers == CompletedBuffers(outputs, Ok)))
  {
    var context := s.tracker.tokens[token];
    var fence := ReleaseFence(c.processors, fences);
    TakeThenComplete(s.tracker, FIRST_STREAMING_FRAME, s.nextStreamingFrame, token, fence, timestamp);
    var row := s.tracker.requests[context.frameNumber];
    MarkOutputsAt(row.outputs, context.outputIndex, fence);
    StoreFence(row.outputs, context.outputIndex,
               row.outputs[context.outputIndex].(completed := true, releaseFence := fence));
  }

  lemma ResolvePreview(s: Session, c: Config, token: nat, timestamp: int, fences: seq<int>)
    requires SessionOk(s) && |fences| >= |c.processors|
    requires token in s.tracker.tokens && s.tracker.tokens[token].outputIndex < 0
    ensures var frame := s.tracker.tokens[token].frameNumber;
            var (s', resolution) := Resolve(s, c, token, timestamp, fences);
            && frame in s.tracker.streaming && Take(s.tracker, token).1.Some?
            && s'.tracker == Tracker(s.tracker.requests, s.tracker.streaming - {frame}, s.tracker.tokens - {token})
            && s'.completed == s.completed + 1
            && resolution == PreviewDone(
                 Outcome(FromStream, PreviewResult(s.tracker.streaming[frame], ReleaseFence(c.processors, fences))),
                 s.tracker.streaming[frame])
  {
    TakeStreaming(s.tracker, FIRST_STREAMING_FRAME, s.nextStreamingFrame, token);
  }

  lemma PreviewFence(output: StreamingOutput, fence: int)
    ensures BufferFences(PreviewResult(output, fence).buffers) == FenceBag(fence)
  {
    var buffers := PreviewResult(output, fence).buffers;
    assert buffers[..0] == [];
    assert BufferFences(buffers) == BufferFences(buffers[..0]) + FenceBag(fence);
  }

  lemma ResolveRequestRows(w: World, c: Config, token: nat, timestamp: int, fences: seq<int>)
    requires SessionOk(w.session) && RowsConserved(w) && CompletedCounted(w) && PreviewConserved(w)
    requires |fences| >= |c.processors|
    requires token in w.session.tracker.tokens && w.session.tracker.tokens[token].outputIndex >= 0
    ensures var w' := AfterResolve(w, c, token, timestamp, fences);
            RowsConserved(w') && CompletedCounted(w') && PreviewConserved(w')
  {
    hide SessionOk, Resolve, Bag, OutputFences, FinishedFrames, CountOk, RowsConserved, RowOk, RowFences, BufferFences, ReleaseFence, Take, FenceBag, CompletedBuffers, AllCompleted;
    ResolveRequest(w.session, c, token, timestamp, fences);
    var frame := w.session.tracker.tokens[token].frameNumber;
    var keys := w.session.tracker.requests.Keys;
    var w' := AfterResolve(w, c, token, timestamp, fences);
    var (s, resolution) := Resolve(w.session, c, token, timestamp, fences);
    if resolution.Nothing? {
      assert s.tracker.requests.Keys == keys;
      RowsStep(w, w', multiset{}, multiset{});
    } else {
      LogAppend(w.log, resolution.outcome);
      assert s.tracker.requests.Keys == keys - {frame};
      KeysRemove(keys, frame);
      RowsStep(w, w', multiset{}, multiset{frame});
    }
  }

  lemma ResolveRequestFences(w: World, c: Config, token: nat, timestamp: int, fences: seq<int>)
    requires SessionOk(w.session) && FencesConserved(w) && |fences| >= |c.processors|
    requires token in w.session.tracker.tokens && w.session.tracker.tokens[token].outputIndex >= 0
    ensures FencesConserved(AfterResolve(w, c, token, timestamp, fences))
  {
    hide SessionOk, Resolve, Bag, OutputFences, BufferFences, LogFences, FencesConserved, RowOk, ReleaseFence, Take, CompletedBuffers, AllCompleted;
    ResolveRequest(w.session, c, token, timestamp, fences);
    var context := w.session.tracker.tokens[token];
    var requests := w.session.tracker.requests;
    var fence := ReleaseFence(c.processors, fences);
    var w' := AfterResolve(w, c, token, timestamp, fences);
    var (s, resolution) := Resolve(w.session, c, token, timestamp, fences);
    BagSplit(requests, RowFences, context.frameNumber);
    if resolution.Nothing? {
      BagUpdate(requests, RowFences, context.frameNumber, s.tracker.requests[context.frameNumber]);
      FencesStep(w, w', FenceBag(fence), multiset{});
    } else {
      var row := requests[context.frameNumber];
      var outputs := row.outputs[context.outputIndex :=
                       row.outputs[context.outputIndex].(completed := true, releaseFence := fence)];
      BuffersCarryFences(outputs, Ok);
      LogAppend(w.log, resolution.outcome);
      FencesStep(w, w', FenceBag(fence), OutputFences(outputs));
    }
  }

  lemma ResolvePreviewRows(w: World, c: Config, token: nat, timestamp: int, fences: seq<int>)
    requires SessionOk(w.session) && RowsConserved(w) && CompletedCounted(w) && |fences| >= |c.processors|
    requires token in w.session.tracker.tokens && w.session.tracker.tokens[token].outputIndex < 0
    ensures var w' := AfterResolve(w, c, token, timestamp, fences);
            RowsConserved(w') && CompletedCounted(w')
  {
    hide SessionOk, Resolve, Bag, FinishedFrames, CountOk, RowsConserved, ReleaseFence, Take, BufferFences, LogFences;
    ResolvePreview(w.session, c, token, timestamp, fences);
    var (_, resolution) := Resolve(w.session, c, token, timestamp, fences);
    LogAppend(w.log, resolution.outcome);
    RowsStep(w, AfterResolve(w, c, token, timestamp, fences), multiset{}, multiset{});
  }

  lemma ResolvePreviewFences(w: World, c: Config, token: nat, timestamp: int, fences: seq<int>)
    requires SessionOk(w.session) && FencesConserved(w) && |fences| >= |c.processors|
    requires token in w.session.tracker.tokens && w.session.tracker.tokens[token].outputIndex < 0
    ensures FencesConserved(AfterResolve(w, c, token, timestamp, fences))
  {
    hide SessionOk, Resolve, Bag, BufferFences, LogFences, FencesConserved, ReleaseFence, Take;
    ResolvePreview(w.session, c, token, timestamp, fences);
    var output := w.session.tracker.streaming[w.session.tracker.tokens[token].frameNumber];
    var fence := ReleaseFence(c.processors, fences);
    var (_, resolution) := Resolve(w.session, c, token, timestamp, fences);
    PreviewFence(output, fence);
    LogAppend(w.log, resolution.outcome);
    FencesStep(w, AfterResolve(w, c, token, timestamp, fences), FenceBag(fence), FenceBag(fence));
  }

  lemma ResolvePreviewTargets(w: World, c: Config, token: nat, timestamp: int, fences: seq<int>)
    requires TablesOk(w, c) && PreviewConserved(w) && |fences| >= |c.processors|
    requires token in w.session.tracker.tokens && w.session.tracker.tokens[token].outputIndex < 0
    ensures PreviewConserved(AfterResolve(w, c, token, timestamp, fences))
  {
    assert w.callbacks !in w.out;
    hide SessionOk, TablesOk, Resolve, Bag, PreviewConserved, ReleaseFence, Take, FenceBag;
    assert SessionOk(w.session) by { assert TablesOk(w, c); }
    ResolvePreview(w.session, c, token, timestamp, fences);
    var frame := w.session.tracker.tokens[token].frameNumber;
    var output := w.session.tracker.streaming[frame];
    BagSplit(w.session.tracker.streaming, StreamTarget, frame);
    BagInsert(w.out, StreamTarget, w.callbacks, output);
    PreviewStep(w, AfterResolve(w, c, token, timestamp, fences), TableToCallback, output.target);
  }

  lemma ResolveLaws(w: World, c: Config, token: nat, timestamp: int, fences: seq<int>)
    requires WorldInv(w, c) && |fences| >= |c.processors|
    ensures WorldInv(AfterResolve(w, c, token, timestamp, fences), c)
  {
    hide Bag, SessionOk, RowsConserved, FencesConserved, PreviewConserved, CompletedCounted, ReleaseFence;
    ResolveTables(w, c, token, timestamp, fences);
    if token !in w.session.tracker.tokens {
      StaleTokenChangesNothing(w, c, token, timestamp, fences);
    } else if w.session.tracker.tokens[token].outputIndex >= 0 {
      ResolveRequestRows(w, c, token, timestamp, fences);
      ResolveRequestFences(w, c, token, timestamp, fences);
    } else {
      ResolvePreviewRows(w, c, token, timestamp, fences);
      ResolvePreviewFences(w, c, token, timestamp, fences);
      ResolvePreviewTargets(w, c, token, timestamp, fences);
    }
  }

  /** A token that is not bound produces no result, runs no processor, and changes no table. */
  lemma StaleTokenChangesNothing(w: World, c: Config, token: nat, timestamp: int, fences: seq<int>)
    requires |fences| >= |c.processors| && token !in w.session.tracker.tokens
    ensures AfterResolve(w, c, token, timestamp, fences)
            == w.(session := w.session.(failed := w.session.failed + 1))
    ensures var w' := AfterResolve(w, c, token, timestamp, fences);
            && (RowsConserved(w) ==> RowsConserved(w')) && (FencesConserved(w) ==> FencesConserved(w'))
            && (PreviewConserved(w) ==> PreviewConserved(w')) && (CompletedCounted(w) ==> CompletedCounted(w'))
  {
    hide Bag, FinishedFrames, LogFences, CountOk, ReleaseFence;
  }

  /* ---------------------------------- callbacks ---------------------------------- */

  lemma ReturnTables(w: World, c: Config, callback: nat, answer: Option<nat>)
    requires TablesOk(w, c) && Admissible(w, c, DoReturn(callback, answer))
    ensures TablesOk(AfterReturn(w, c, callback, answer), c)
  {
    if callback in w.out {
      ReturnLeaseOk(w.session, c, w.out[callback], answer);
    } else if callback in w.stale {
      ReturnLeaseOk(w.session, c, w.stale[callback], answer);
    }
  }

  /** A returned lease that the driver takes back is registered under a frame number never used. */
  lemma ReturnEffect(s: Session, c: Config, output: StreamingOutput, answer: Option<nat>)
    requires SessionOk(s) && (s.state.Streaming? ==> c.hasDriver)
    ensures var s' := ReturnLease(s, c, output, answer);
            && s'.tracker.requests == s.tracker.requests && s'.completed == s.completed && s'.state == s.state
            && s.nextStreamingFrame !in s.tracker.streaming
            && (if s.state.Streaming? && answer.Some? then
                  && s'.tracker.streaming == s.tracker.streaming[s.nextStreamingFrame :=
                       output.(frameNumber := s.nextStreamingFrame)]
                  && s'.nextStreamingFrame == s.nextStreamingFrame + 1
                else s'.tracker == s.tracker)
  {
  }

  lemma ReturnPreview(w: World, c: Config, callback: nat, answer: Option<nat>)
    requires TablesOk(w, c) && PreviewConserved(w)
    ensures PreviewConserved(AfterReturn(w, c, callback, answer))
  {
    if callback in w.out || callback in w.stale {
      var output := if callback in w.out then w.out[callback] else w.stale[callback];
      ReturnEffect(w.session, c, output, answer);
      assert callback in w.out ==> w.session.state.Streaming?;
      hide SessionOk, TablesOk, Bag, PreviewConserved, ReturnLease;
      var w' := AfterReturn(w, c, callback, answer);
      if callback in w.out {
        BagSplit(w.out, StreamTarget, callback);
      }
      var taken := w.session.state.Streaming? && answer.Some?;
      if taken {
        var next := w.session.nextStreamingFrame;
        BagInsert(w.session.tracker.streaming, StreamTarget, next, output.(frameNumber := next));
      }
      PreviewStep(w, w', if callback in w.out then (if taken then CallbackToTable else CallbackToRefused)
                         else if taken then StaleToTable else Stay, output.target);
    }
  }

  lemma ReturnLaws(w: World, c: Config, callback: nat, answer: Option<nat>)
    requires WorldInv(w, c) && Admissible(w, c, DoReturn(callback, answer))
    ensures WorldInv(AfterReturn(w, c, callback, answer), c)
  {
    ReturnTables(w, c, callback, answer);
    ReturnPreview(w, c, callback, answer);
    if callback in w.out || callback in w.stale {
      ReturnEffect(w.session, c, if callback in w.out then w.out[callback] else w.stale[callback], answer);
    }
    hide SessionOk, Bag, ReturnLease, PreviewConserved, FinishedFrames, LogFences, CountOk;
  }

  /* ---------------------------------- start, flush, close ---------------------------------- */

  lemma {:induction false} RegisteredTargets(t: Tracker, buffers: seq<Target>, tokens: seq<nat>, first: nat, i: nat)
    requires i <= |buffers| == |tokens| && RegisterPreview(t, buffers, tokens, first, i).1
    ensures var (t', _) := RegisterPreview(t, buffers, tokens, first, i);
            && t'.requests == t.requests
            && Bag(t'.streaming, StreamTarget) == Bag(t.streaming, StreamTarget) + multiset(buffers[i..])
    decreases |buffers| - i
  {
    hide Bag;
    if i < |buffers| {
      var output := StreamingOutput(first + i, buffers[i], buffers[i].streamType);
      var t1 := RegisterAndBind(t, output, tokens[i]);
      BagInsert(t.streaming, StreamTarget, first + i, output);
      RegisteredTargets(t1, buffers, tokens, first, i + 1);
      assert buffers[i..] == [buffers[i]] + buffers[i + 1..];
      assert t1.streaming == t.streaming[first + i := output];
      assert multiset(buffers[i..]) == multiset{buffers[i]} + multiset(buffers[i + 1..]);
    }
  }

  lemma StartTables(w: World, c: Config, driverStarted: bool, tokens: Option<seq<nat>>)
    requires TablesOk(w, c) && Admissible(w, c, DoStart(driverStarted, tokens))
    ensures TablesOk(AfterStart(w, c, driverStarted, tokens), c)
  {
    StartStreamingOk(w.session, c, driverStarted, tokens, w.used);
  }

  lemma StartLaws(w: World, c: Config, driverStarted: bool, tokens: Option<seq<nat>>)
    requires WorldInv(w, c) && Admissible(w, c, DoStart(driverStarted, tokens))
    requires !w.session.state.Streaming? ==> w.configured == w.refused == w.adopted == multiset{}
    ensures WorldInv(AfterStart(w, c, driverStarted, tokens), c)
  {
    StartTables(w, c, driverStarted, tokens);
    var w' := AfterStart(w, c, driverStarted, tokens);
    if w.session.state.Configured? && w'.session.state.Streaming? && c.continuousPreview {
      RegisteredTargets(w.session.tracker, c.previewBuffers, tokens.value, w.session.nextStreamingFrame, 0);
      assert c.previewBuffers[0..] == c.previewBuffers;
    }
  }

  lemma FlushLast(t: Tracker, front: seq<nat>, k: nat)
    requires RowsOk(t) && k in t.requests
    requires forall i :: 0 <= i < |front| ==> front[i] in t.requests.Keys - {k}
    ensures var t' := t.(requests := t.requests - {k});
            forall i :: 0 <= i < |front| ==> front[i] in t'.requests
    ensures var t' := t.(requests := t.requests - {k});
            var last := Outcome(FromRow, MakeResult(k, FlushedStatus, CompletedBuffers(t.requests[k].outputs, FlushedStatus)));
            FlushOutcomes(t, front + [k]) == FlushOutcomes(t', front) + [last]
  {
    assert forall i :: 0 <= i < |front| ==> (front + [k])[i] == front[i];
  }

  lemma {:induction false} FlushAccounts(log: seq<Outcome>, t: Tracker, order: seq<nat>)
    requires multiset(order) == multiset(t.requests.Keys) && RowsOk(t)
    requires forall i :: 0 <= i < |order| ==> order[i] in t.requests
    ensures FinishedFrames(log + FlushOutcomes(t, order)) == FinishedFrames(log) + multiset(t.requests.Keys)
    ensures LogFences(log + FlushOutcomes(t, order)) == LogFences(log) + Bag(t.requests, RowFences)
    ensures CountOk(log + FlushOutcomes(t, order)) == CountOk(log)
    decreases |order|, 0
  {
    if order == [] {
      assert forall k :: k in t.requests.Keys ==> k in multiset(order);
      assert log + FlushOutcomes(t, order) == log;
    } else {
      var k, front := order[|order| - 1], order[..|order| - 1];
      assert order == front + [k];
      FrontOfOrder(t.requests.Keys, front, k);
      FlushAccountsStep(log, t, front, k);
    }
  }

  /** The last row visited adds its own result to the log. */
  lemma FlushAppend(log: seq<Outcome>, t: Tracker, t': Tracker, front: seq<nat>, k: nat)
    requires RowsOk(t) && k in t.requests && t' == t.(requests := t.requests - {k})
    requires forall i :: 0 <= i < |front| ==> front[i] in t.requests.Keys - {k}
    requires forall i :: 0 <= i < |front| ==> front[i] in t'.requests
    ensures var before, after := log + FlushOutcomes(t', front), log + FlushOutcomes(t, front + [k]);
            && FinishedFrames(after) == FinishedFrames(before) + multiset{k}
            && LogFences(after) == LogFences(before) + RowFences(t.requests[k])
            && CountOk(after) == CountOk(before)
  {
    hide FinishedFrames, LogFences, CountOk, FlushOutcomes, BufferFences, OutputFences, CompletedBuffers;
    FlushLast(t, front, k);
    var last := Outcome(FromRow, MakeResult(k, FlushedStatus, CompletedBuffers(t.requests[k].outputs, FlushedStatus)));
    var before := log + FlushOutcomes(t', front);
    assert log + FlushOutcomes(t, front + [k]) == before + [last];
    LogAppend(before, last);
    BuffersCarryFences(t.requests[k].outputs, FlushedStatus);
  }

  lemma FlushAccountsStep(log: seq<Outcome>, t: Tracker, front: seq<nat>, k: nat)
    requires RowsOk(t) && k in t.requests && multiset(front) == multiset(t.requests.Keys - {k})
    requires forall i :: 0 <= i < |front| ==> front[i] in t.requests.Keys - {k}
    ensures var flushed := FlushOutcomes(t, front + [k]);
            && FinishedFrames(log + flushed) == FinishedFrames(log) + multiset(t.requests.Keys)
            && LogFences(log + flushed) == LogFences(log) + Bag(t.requests, RowFences)
            && CountOk(log + flushed) == CountOk(log)
    decreases |front|, 1
  {
    var t' := t.(requests := t.requests - {k});
    assert t'.requests.Keys == t.requests.Keys - {k};
    assert RowsOk(t');
    hide Bag, FinishedFrames, LogFences, CountOk, FlushOutcomes, RowFences, RowsOk;
    FlushAccounts(log, t', front);
    FlushAppend(log, t, t', front, k);
    BagSplit(t.requests, RowFences, k);
    KeysRemove(t.requests.Keys, k);
    Regroup(FinishedFrames(log), multiset(t'.requests.Keys), multiset{k}, multiset(t.requests.Keys));
    Regroup(LogFences(log), Bag(t'.requests, RowFences), RowFences(t.requests[k]), Bag(t.requests, RowFences));
  }

  lemma FrontOfOrder(keys: set<nat>, front: seq<nat>, k: nat)
    requires multiset(front + [k]) == multiset(keys)
    ensures k in keys && multiset(front) == multiset(keys - {k})
    ensures forall i :: 0 <= i < |front| ==> front[i] in keys - {k}
  {
    assert k in multiset(front + [k]);
    assert multiset(front) == multiset(keys) - multiset{k};
    OrderInRequests(front, keys - {k});
  }

  lemma EndEpochTables(w: World, c: Config, s: Session, order: seq<nat>)
    requires TablesOk(w, c)
    requires forall i :: 0 <= i < |order| ==> order[i] in w.session.tracker.requests
    requires s.state == Configured || s.state == Stopped
    requires s == Emptied(w.session, |order|, s.state)
    ensures TablesOk(EndEpoch(w, s, order), c)
  {
  }

  lemma EndEpochCounts(w: World, s: Session, order: seq<nat>)
    requires RowsConserved(w) && FencesConserved(w) && CompletedCounted(w) && RowsOk(w.session.tracker)
    requires multiset(order) == multiset(w.session.tracker.requests.Keys)
    requires forall i :: 0 <= i < |order| ==> order[i] in w.session.tracker.requests
    requires s == Emptied(w.session, |order|, s.state)
    ensures var w' := EndEpoch(w, s, order);
            RowsConserved(w') && FencesConserved(w') && CompletedCounted(w')
  {
    hide FinishedFrames, LogFences, CountOk, FlushOutcomes, RowsConserved, FencesConserved, Bag, RowsOk;
    var w' := EndEpoch(w, s, order);
    FlushAccounts(w.log, w.session.tracker, order);
    BagEmpty<Row, int>(RowFences);
    RowsStep(w, w', multiset{}, multiset(w.session.tracker.requests.Keys));
    FencesStep(w, w', multiset{}, Bag(w.session.tracker.requests, RowFences));
  }

  lemma EndEpochLaws(w: World, c: Config, s: Session, order: seq<nat>)
    requires WorldInv(w, c)
    requires multiset(order) == multiset(w.session.tracker.requests.Keys)
    requires forall i :: 0 <= i < |order| ==> order[i] in w.session.tracker.requests
    requires s.state == Configured || s.state == Stopped
    requires s == Emptied(w.session, |order|, s.state)
    ensures WorldInv(EndEpoch(w, s, order), c)
  {
    assert RowsOk(w.session.tracker);
    hide FinishedFrames, LogFences, CountOk, FlushOutcomes, TablesOk, RowsConserved, FencesConserved, CompletedCounted, Bag, RowsOk;
    EndEpochTables(w, c, s, order);
    EndEpochCounts(w, s, order);
    BagEmpty<StreamingOutput, Target>(StreamTarget);
  }

  /** Outside streaming nothing is left of the last epoch. */
  predicate EpochOver(w: World) {
    !w.session.state.Streaming? ==> w.configured == w.refused == w.adopted == multiset{}
  }

  lemma ResolveStaysInEpoch(w: World, c: Config, token: nat, timestamp: int, fences: seq<int>)
    requires SessionOk(w.session) && EpochOver(w) && |fences| >= |c.processors|
    ensures EpochOver(AfterResolve(w, c, token, timestamp, fences))
  {
    hide SessionOk, Resolve, Take, ReleaseFence, FenceBag;
    ResolveFrame(w.session, c, token, timestamp, fences);
  }

  lemma ReturnStaysInEpoch(w: World, c: Config, callback: nat, answer: Option<nat>)
    requires TablesOk(w, c) && EpochOver(w)
    ensures EpochOver(AfterReturn(w, c, callback, answer))
  {
    assert !w.session.state.Streaming? ==> w.out == map[];
    hide TablesOk;
  }

  lemma NextKeepsEpochOver(w: World, c: Config, e: Event)
    requires TablesOk(w, c) && EpochOver(w) && Admissible(w, c, e)
    ensures EpochOver(WorldNext(w, c, e))
  {
    hide SessionOk, Submit, Resolve, ReturnLease, AfterResolve, AfterReturn, FlushOutcomes, RegisterPreview;
    match e
    case DoSubmit(request, preflight, responses) =>
      SubmitEffect(w.session, c, request, preflight, responses);
    case DoResolve(token, timestamp, fences) =>
      ResolveStaysInEpoch(w, c, token, timestamp, fences);
    case DoReturn(callback, answer) =>
      ReturnStaysInEpoch(w, c, callback, answer);
    case DoConfigure(_, _) =>
    case DoStart(_, _) =>
    case DoFlush(order) => OrderInRequests(order, w.session.tracker.requests.Keys);
    case DoClose(order) => OrderInRequests(order, w.session.tracker.requests.Keys);
  }

  lemma NextKeepsWorldInv(w: World, c: Config, e: Event)
    requires WorldInv(w, c) && EpochOver(w) && Admissible(w, c, e)
    ensures WorldInv(WorldNext(w, c, e), c) && EpochOver(WorldNext(w, c, e))
  {
    NextKeepsEpochOver(w, c, e);
    hide TablesOk, RowsConserved, FencesConserved, PreviewConserved, CompletedCounted;
    match e
    case DoConfigure(driverConfigured, registered) => ConfigureLaws(w, c, driverConfigured, registered);
    case DoStart(driverStarted, tokens) => StartLaws(w, c, driverStarted, tokens);
    case DoSubmit(request, preflight, responses) =>
      SubmitTables(w, c, request, preflight, responses);
      SubmitRows(w, c, request, preflight, responses);
      SubmitFences(w, c, request, preflight, responses);
      SubmitCounts(w, c, request, preflight, responses);
    case DoResolve(token, timestamp, fences) => ResolveLaws(w, c, token, timestamp, fences);
    case DoReturn(callback, answer) => ReturnLaws(w, c, callback, answer);
    case DoFlush(order) =>
      OrderInRequests(order, w.session.tracker.requests.Keys);
      if CanFlush(w.session) { EndEpochLaws(w, c, Flush(w.session, order), order); }
    case DoClose(order) =>
      OrderInRequests(order, w.session.tracker.requests.Keys);
      if !w.session.state.Stopped? { EndEpochLaws(w, c, Close(w.session, order), order); }
  }

  lemma ConfigureLaws(w: World, c: Config, driverConfigured: bool, registered: bool)
    requires WorldInv(w, c)
    ensures WorldInv(w.(session := Configure(w.session, c, driverConfigured, registered)), c)
  {
    ConfigureOk(w.session, c, driverConfigured, registered);
    hide Bag, FinishedFrames, LogFences, CountOk;
  }
}
