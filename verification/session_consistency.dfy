/** Every critical section keeps the tables of the session mutually consistent. */
module SessionConsistency {
  import opened Wrappers
  import opened CameraTypes
  import opened InFlightTracker
  import opened CameraSession

  /** Between critical sections: while streaming, the bound tokens match the outstanding outputs and
      the streaming outputs, up to orphans; in every other state all three tables are empty. */
  ghost predicate SessionOk(s: Session) {
    && s.nextStreamingFrame >= FIRST_STREAMING_FRAME
    && Consistent(s.tracker, FIRST_STREAMING_FRAME, s.nextStreamingFrame)
    && (!s.state.Streaming? ==> s.tracker == EMPTY)
  }

  /** Tokens a driver may answer with: not zero, not used before, not repeated. */
  predicate FreshTokens(tokens: seq<nat>, used: set<nat>) {
    && (forall i :: 0 <= i < |tokens| ==> tokens[i] != 0 && tokens[i] !in used)
    && (forall i, j :: 0 <= i < j < |tokens| ==> tokens[i] != tokens[j])
  }

  /** The driver accepted output j. */
  predicate Answered(responses: seq<Option<nat>>, j: nat) {
    j < |responses| && responses[j].Some?
  }

  predicate FreshResponses(responses: seq<Option<nat>>, used: set<nat>) {
    && (forall i :: 0 <= i < |responses| && responses[i].Some? ==>
          responses[i].value != 0 && responses[i].value !in used)
    && (forall i, j :: 0 <= i < j < |responses| && responses[i].Some? && responses[j].Some? ==>
          responses[i].value != responses[j].value)
  }

  /* ---------------------------------- start_streaming ---------------------------------- */

  lemma {:induction false} RegisterPreviewOk(t: Tracker, buffers: seq<Target>, tokens: seq<nat>, first: nat, i: nat,
                                             used: set<nat>)
    requires i <= |buffers| == |tokens| && FreshTokens(tokens, used)
    requires first >= FIRST_STREAMING_FRAME && Consistent(t, FIRST_STREAMING_FRAME, first + i)
    requires forall k :: k in t.tokens ==> k in used || k in tokens[..i]
    ensures var (t', ok) := RegisterPreview(t, buffers, tokens, first, i);
            && ok && Consistent(t', FIRST_STREAMING_FRAME, first + |buffers|) && Orphans(t') == Orphans(t)
            && (forall k :: k in t'.tokens ==> k in used || k in tokens)
    decreases |buffers| - i
  {
    if i < |buffers| {
      var output := StreamingOutput(first + i, buffers[i], buffers[i].streamType);
      RegisterKeepsConsistent(t, FIRST_STREAMING_FRAME, first + i, output, tokens[i]);
      var t1 := RegisterAndBind(t, output, tokens[i]);
      assert t1.tokens.Keys == t.tokens.Keys + {tokens[i]};
      assert tokens[..i + 1] == tokens[..i] + [tokens[i]];
      RegisterPreviewOk(t1, buffers, tokens, first, i + 1, used);
    }
  }

  lemma ConfigureOk(s: Session, c: Config, driverConfigured: bool, registered: bool)
    requires SessionOk(s)
    ensures SessionOk(Configure(s, c, driverConfigured, registered))
  {
  }

  lemma StartStreamingOk(s: Session, c: Config, driverStarted: bool, tokens: Option<seq<nat>>, used: set<nat>)
    requires SessionOk(s)
    requires tokens.Some? ==> FreshTokens(tokens.value, used)
    ensures var s' := StartStreaming(s, c, driverStarted, tokens);
            && SessionOk(s')
            && (forall k :: k in s'.tracker.tokens ==>
                  k in s.tracker.tokens || (tokens.Some? && k in tokens.value))
            && Orphans(s'.tracker) == Orphans(s.tracker)
  {
    if s.state.Configured? && c.hasDriver && driverStarted && c.previewBuffers != [] && tokens.Some?
       && |tokens.value| == |c.previewBuffers| {
      RegisterPreviewOk(s.tracker, c.previewBuffers, tokens.value, s.nextStreamingFrame, 0, {});
    }
  }

  /* ---------------------------------- submit ---------------------------------- */

  /** What binding outputs i..count has added to the token table: tokens the driver answered with,
      each standing for the output it was answered for. */
  lemma {:induction false} BindOutputsAdds(t: Tracker, frame: nat, count: nat, responses: seq<Option<nat>>, i: nat)
    ensures var (t', ok) := BindOutputs(t, frame, count, responses, i);
            && t'.requests == t.requests && t'.streaming == t.streaming
            && (forall k :: k in t.tokens ==> k in t'.tokens && t'.tokens[k] == t.tokens[k])
            && (forall k :: k in t'.tokens && k !in t.tokens ==>
                  var c := t'.tokens[k];
                  k != 0 && c.frameNumber == frame && i <= c.outputIndex < count
                  && c.outputIndex < |responses| && responses[c.outputIndex] == Some(k))
            && (ok ==> forall j :: i <= j < count ==>
                  Answered(responses, j) && responses[j].value in t'.tokens
                  && responses[j].value !in t.tokens
                  && t'.tokens[responses[j].value] == Context(frame, j))
    decreases count - i
  {
    if i < count && Answered(responses, i) && CanBind(t, responses[i].value) {
      var t1 := Bind(t, responses[i].value, Context(frame, i));
      BindOutputsAdds(t1, frame, count, responses, i + 1);
      var (t', ok) := BindOutputs(t, frame, count, responses, i);
      assert responses[i].value in t1.tokens && t'.tokens[responses[i].value] == Context(frame, i);
    }
  }

  /** With fresh answers for every output, all outputs are bound. */
  lemma {:induction false} BindOutputsAll(t: Tracker, frame: nat, count: nat, responses: seq<Option<nat>>, i: nat)
    requires FreshResponses(responses, {})
    requires forall j :: i <= j < |responses| && responses[j].Some? ==> responses[j].value !in t.tokens
    ensures BindOutputs(t, frame, count, responses, i).1
            <==> forall j :: i <= j < count ==> Answered(responses, j)
    decreases count - i
  {
    assert i < count && !Answered(responses, i) ==> !BindOutputs(t, frame, count, responses, i).1;
    if i < count && Answered(responses, i) {
      BindOutputsAll(Bind(t, responses[i].value, Context(frame, i)), frame, count, responses, i + 1);
    }
  }

  lemma SubmittedRowOk(request: Request)
    ensures RowOk(Row(request.frameNumber, request, MakeOutputs(RequestOutputs(request)), 0, QueuedToDriver),
                  request.frameNumber)
  {
    assert !MakeOutputs(RequestOutputs(request))[0].completed;
  }

  /** What a fully accepted submission leaves of the three tables. */
  lemma AcceptedTables(t: Tracker, request: Request, responses: seq<Option<nat>>)
    requires request.frameNumber !in t.requests
    requires var outputs := MakeOutputs(RequestOutputs(request));
             BindOutputs(Start(t, request, outputs), request.frameNumber, |outputs|, responses, 0).1
    ensures var frame := request.frameNumber;
            var outputs := MakeOutputs(RequestOutputs(request));
            var (bound, _) := BindOutputs(Start(t, request, outputs), frame, |outputs|, responses, 0);
            SubmitToDriver(Start(t, request, outputs), frame, |outputs|, responses)
            == (Tracker(t.requests[frame := Row(frame, request, outputs, 0, QueuedToDriver)], t.streaming, bound.tokens), true)
  {
    var outputs := MakeOutputs(RequestOutputs(request));
    var frame := request.frameNumber;
    BindOutputsAdds(Start(t, request, outputs), frame, |outputs|, responses, 0);
    hide BindOutputs;
    var submitted := Row(frame, request, outputs, 0, Submitted);
    var queued := Row(frame, request, outputs, 0, QueuedToDriver);
    assert t.requests[frame := submitted][frame := queued] == t.requests[frame := queued];
  }

  lemma AcceptedConsistent(t: Tracker, t': Tracker, next: nat, request: Request)
    requires Consistent(t, FIRST_STREAMING_FRAME, next) && request.frameNumber < FIRST_STREAMING_FRAME
    requires t'.requests == t.requests[request.frameNumber :=
               Row(request.frameNumber, request, MakeOutputs(RequestOutputs(request)), 0, QueuedToDriver)]
    requires t'.streaming == t.streaming && Matched(t') && 0 !in t'.tokens
    ensures Consistent(t', FIRST_STREAMING_FRAME, next)
  {
    SubmittedRowOk(request);
    hide Matched, RowOk, MakeOutputs;
  }

  /** A fully accepted request adds one row and one token for each of its outputs. */
  lemma AcceptedSubmitOk(t: Tracker, next: nat, request: Request, responses: seq<Option<nat>>)
    requires Consistent(t, FIRST_STREAMING_FRAME, next)
    requires request.frameNumber < FIRST_STREAMING_FRAME && request.frameNumber !in t.requests
    requires var outputs := MakeOutputs(RequestOutputs(request));
             BindOutputs(Start(t, request, outputs), request.frameNumber, |outputs|, responses, 0).1
    ensures var outputs := MakeOutputs(RequestOutputs(request));
            var (t', ok) := SubmitToDriver(Start(t, request, outputs), request.frameNumber, |outputs|, responses);
            && ok && Consistent(t', FIRST_STREAMING_FRAME, next) && Orphans(t') == Orphans(t)
            && t'.requests == t.requests[request.frameNumber :=
                 Row(request.frameNumber, request, outputs, 0, QueuedToDriver)]
            && t'.streaming == t.streaming
  {
    var frame := request.frameNumber;
    var outputs := MakeOutputs(RequestOutputs(request));
    var started := Start(t, request, outputs);
    assert started.tokens == t.tokens && frame !in t.streaming;
    AcceptedTables(t, request, responses);
    hide SubmitToDriver, BindOutputs, Start, Matched, RowsOk, Orphans;
    BindOutputsAdds(started, frame, |outputs|, responses, 0);
    var t' := SubmitToDriver(started, frame, |outputs|, responses).0;
    AcceptedMatched(t, t', frame, outputs, responses);
    AcceptedOrphans(t, t', frame);
    AcceptedConsistent(t, t', next, request);
  }

  lemma AcceptedMatched(t: Tracker, t': Tracker, frame: nat, outputs: seq<Output>, responses: seq<Option<nat>>)
    requires Matched(t) && frame !in t.requests && frame !in t.streaming
    requires t'.streaming == t.streaming && frame in t'.requests
    requires t'.requests == t.requests[frame := t'.requests[frame]] && t'.requests[frame].outputs == outputs
    requires forall i :: 0 <= i < |outputs| ==> !outputs[i].completed
    requires forall k :: k in t.tokens ==> k in t'.tokens && t'.tokens[k] == t.tokens[k]
    requires forall k :: k in t'.tokens && k !in t.tokens ==>
               var c := t'.tokens[k];
               c.frameNumber == frame && 0 <= c.outputIndex < |outputs|
               && c.outputIndex < |responses| && responses[c.outputIndex] == Some(k)
    requires forall j :: 0 <= j < |outputs| ==>
               Answered(responses, j) && responses[j].value in t'.tokens
               && responses[j].value !in t.tokens
               && t'.tokens[responses[j].value] == Context(frame, j)
    ensures Matched(t')
  {
    forall k | k in t.tokens ensures t.tokens[k].frameNumber != frame {
      assert Outstanding(t, t.tokens[k]);
    }
    forall a | a in t'.tokens ensures Outstanding(t', t'.tokens[a]) {
      if a in t.tokens { assert Outstanding(t, t.tokens[a]); }
    }
    forall c | Outstanding(t', c) && c.outputIndex >= 0 ensures c in t'.tokens.Values {
      if c.frameNumber == frame {
        assert t'.tokens[responses[c.outputIndex].value] == c;
      } else {
        assert Outstanding(t, c);
        var a :| a in t.tokens && t.tokens[a] == c;
        assert t'.tokens[a] == c;
      }
    }
  }

  /** Tokens added for request outputs leave the orphans as they are. */
  lemma AcceptedOrphans(t: Tracker, t': Tracker, frame: nat)
    requires t'.streaming == t.streaming && frame !in t.streaming
    requires forall k :: k in t.tokens ==> k in t'.tokens && t'.tokens[k] == t.tokens[k]
    requires forall k :: k in t'.tokens && k !in t.tokens ==> t'.tokens[k].frameNumber == frame
    ensures Orphans(t') == Orphans(t)
  {
    forall f | f in t.streaming ensures Context(f, -1) in t'.tokens.Values <==> Context(f, -1) in t.tokens.Values {
      if Context(f, -1) in t.tokens.Values {
        var a :| a in t.tokens && t.tokens[a] == Context(f, -1);
        assert t'.tokens[a] == Context(f, -1);
      }
    }
  }

  /** Rollback is exact: when the driver does not accept every output of a fresh frame, the tables
      end equal to what they were before the request. */
  lemma RollbackIsExact(t: Tracker, next: nat, request: Request, responses: seq<Option<nat>>)
    requires Consistent(t, FIRST_STREAMING_FRAME, next)
    requires request.frameNumber < FIRST_STREAMING_FRAME && request.frameNumber !in t.requests
    requires var outputs := MakeOutputs(RequestOutputs(request));
             !BindOutputs(Start(t, request, outputs), request.frameNumber, |outputs|, responses, 0).1
    ensures var outputs := MakeOutputs(RequestOutputs(request));
            var (t', ok) := SubmitToDriver(Start(t, request, outputs), request.frameNumber, |outputs|, responses);
            && !ok
            && ClearFrame(Fail(t', request.frameNumber), request.frameNumber) == t
  {
    var frame := request.frameNumber;
    var outputs := MakeOutputs(RequestOutputs(request));
    var started := Start(t, request, outputs);
    var (bound, _) := BindOutputs(started, frame, |outputs|, responses, 0);
    forall k | k in t.tokens ensures t.tokens[k].frameNumber != frame {
      assert Outstanding(t, t.tokens[k]);
    }
    hide Matched, RowsOk, BindOutputs;
    BindOutputsAdds(started, frame, |outputs|, responses, 0);
    assert ClearFrame(bound, frame).tokens == t.tokens;
    assert bound.requests - {frame} == t.requests;
  }

  lemma SubmitOk(s: Session, c: Config, request: Request, preflight: bool, responses: seq<Option<nat>>)
    requires SessionOk(s) && request.frameNumber < FIRST_STREAMING_FRAME
    ensures var s' := Submit(s, c, request, preflight, responses).0;
            SessionOk(s') && Orphans(s'.tracker) == Orphans(s.tracker)
  {
    hide Orphans;
    var frame := request.frameNumber;
    var outputs := MakeOutputs(RequestOutputs(request));
    if !Rejects(s, c) {
      if !preflight || frame in s.tracker.requests {
        FailKeepsConsistent(s.tracker, FIRST_STREAMING_FRAME, s.nextStreamingFrame, frame);
      } else if BindOutputs(Start(s.tracker, request, outputs), frame, |outputs|, responses, 0).1 {
        AcceptedSubmitOk(s.tracker, s.nextStreamingFrame, request, responses);
      } else {
        RollbackIsExact(s.tracker, s.nextStreamingFrame, request, responses);
      }
    }
  }

  /** The tokens bound after a submission were bound before or are answers of the driver. */
  lemma SubmitTokens(s: Session, c: Config, request: Request, preflight: bool, responses: seq<Option<nat>>)
    ensures var s' := Submit(s, c, request, preflight, responses).0;
            forall k :: k in s'.tracker.tokens ==> k in s.tracker.tokens || Some(k) in responses
  {
    var frame := request.frameNumber;
    var outputs := MakeOutputs(RequestOutputs(request));
    var started := Start(s.tracker, request, outputs);
    BindOutputsAdds(started, frame, |outputs|, responses, 0);
    var (bound, _) := BindOutputs(started, frame, |outputs|, responses, 0);
    forall k | k in bound.tokens ensures k in s.tracker.tokens || Some(k) in responses {
      if k !in started.tokens {
        assert responses[bound.tokens[k].outputIndex] == Some(k);
      }
    }
  }

  /* ---------------------------------- the other sections ---------------------------------- */

  lemma ResolveOk(s: Session, c: Config, token: nat, timestamp: int, fences: seq<int>)
    requires SessionOk(s) && |fences| >= |c.processors|
    ensures var s' := Resolve(s, c, token, timestamp, fences).0;
            SessionOk(s') && Orphans(s'.tracker) == Orphans(s.tracker)
  {
    hide Orphans;
    if token in s.tracker.tokens {
      var fence := ReleaseFence(c.processors, fences);
      if s.tracker.tokens[token].outputIndex >= 0 {
        TakeThenComplete(s.tracker, FIRST_STREAMING_FRAME, s.nextStreamingFrame, token, fence, timestamp);
      } else {
        TakeStreaming(s.tracker, FIRST_STREAMING_FRAME, s.nextStreamingFrame, token);
      }
    }
  }

  /** The streaming frame that the return of a lease makes an orphan: its row is registered, but
      the driver's answer does not bind, for instance because it is token 0. */
  function NewOrphan(s: Session, c: Config, answer: Option<nat>): set<nat> {
    if c.hasDriver && s.state.Streaming? && answer.Some? && !CanBind(s.tracker, answer.value)
    then {s.nextStreamingFrame} else {}
  }

  lemma ReturnLeaseOk(s: Session, c: Config, output: StreamingOutput, answer: Option<nat>)
    requires SessionOk(s)
    ensures var s' := ReturnLease(s, c, output, answer);
            SessionOk(s') && Orphans(s'.tracker) == Orphans(s.tracker) + NewOrphan(s, c, answer)
  {
    hide Orphans, Matched;
    if c.hasDriver && s.state.Streaming? && answer.Some? {
      RegisterKeepsConsistent(s.tracker, FIRST_STREAMING_FRAME, s.nextStreamingFrame,
                              output.(frameNumber := s.nextStreamingFrame), answer.value);
    }
  }

  /** The bijection survives the return of a preview lease exactly when the driver's token binds,
      for instance not when the driver answers with token 0. */
  lemma ReturnLeaseExactlyWhen(s: Session, c: Config, output: StreamingOutput, token: nat)
    requires SessionOk(s) && s.state.Streaming? && c.hasDriver
    ensures Bijective(ReturnLease(s, c, output, Some(token)).tracker)
            <==> Bijective(s.tracker) && CanBind(s.tracker, token)
  {
    RegisterBijectiveExactlyWhen(s.tracker, FIRST_STREAMING_FRAME, s.nextStreamingFrame,
                                 output.(frameNumber := s.nextStreamingFrame), token);
  }
}
