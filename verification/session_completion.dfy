/** The completions of one request among everything else that a session does: in whatever order they
    arrive and whatever falls in between, only the last one reports. */
module SessionCompletion {
  import opened Wrappers
  import opened CameraTypes
  import opened InFlightTracker
  import opened CameraSession
  import opened SessionConsistency
  import opened SessionHistory
  import opened SessionLaws
  import opened SessionTheorems
  import opened SessionReports

  /** For each output of the request, the fence of its processing once it has completed. */
  type Fences = seq<Option<int>>

  /** The outputs as they stand with these completions, in request order. */
  function Filled(outputs: seq<Output>, done: Fences): (filled: seq<Output>)
    requires |done| == |outputs|
    ensures |filled| == |outputs|
  {
    seq(|outputs|, i requires 0 <= i < |outputs| =>
      if done[i].Some? then outputs[i].(completed := true, releaseFence := done[i].value) else outputs[i])
  }

  predicate AllDone(done: Fences) {
    forall i :: 0 <= i < |done| ==> done[i].Some?
  }

  /** Only the first completion of each token counts. */
  function Record(c: Config, tokens: seq<nat>, done: Fences, e: Event): (r: Fences)
    requires |done| == |tokens|
    ensures |r| == |done|
  {
    if e.DoResolve? && |e.fences| >= |c.processors| then
      seq(|done|, i requires 0 <= i < |done| =>
        if done[i].None? && tokens[i] == e.token then Some(ReleaseFence(c.processors, e.fences)) else done[i])
    else done
  }

  /** The completions among the events, each with the fence of its processing. */
  function RecordAll(c: Config, tokens: seq<nat>, done: Fences, events: seq<Event>): (r: Fences)
    requires |done| == |tokens|
    ensures |r| == |done|
    decreases |events|
  {
    if events == [] then done else RecordAll(c, tokens, Record(c, tokens, done, events[0]), events[1..])
  }

  /** The events neither flush nor close, and submit no other request under this frame number. */
  predicate Spares(frame: nat, e: Event) {
    !e.DoFlush? && !e.DoClose? && (e.DoSubmit? ==> e.request.frameNumber != frame)
  }

  /** The row of the request, with the completions so far; each output that is still owed has its own
      token, and the tokens of the others are spent. */
  predicate Waiting(w: World, frame: nat, tokens: seq<nat>, outputs: seq<Output>, done: Fences) {
    var t := w.session.tracker;
    && |done| == |tokens| == |outputs| && !AllDone(done)
    && frame < FIRST_STREAMING_FRAME
    && frame in t.requests && t.requests[frame].outputs == Filled(outputs, done)
    && (forall i :: 0 <= i < |outputs| ==> !outputs[i].completed && tokens[i] in w.used)
    && (forall i :: 0 <= i < |outputs| && done[i].None? ==>
          tokens[i] in t.tokens && t.tokens[tokens[i]] == Context(frame, i))
    && (forall i :: 0 <= i < |outputs| && done[i].Some? ==> tokens[i] !in t.tokens)
  }

  /** A later world in which nothing was reported for the frame. */
  predicate Silent(w: World, w': World, frame: nat) {
    w.log <= w'.log && FinishedFrames(w'.log)[frame] == FinishedFrames(w.log)[frame]
  }

  /** The one result of the frame was reported between w and w'. */
  ghost predicate Reported(w: World, w': World, frame: nat, outputs: seq<Output>, done: Fences)
    requires |done| == |outputs|
  {
    && w.log <= w'.log
    && FinishedFrames(w'.log)[frame] == FinishedFrames(w.log)[frame] + 1
    && exists k :: |w.log| <= k < |w'.log| && ReportsAll(w'.log[k], frame, outputs, done)
  }

  predicate ReportsAll(o: Outcome, frame: nat, outputs: seq<Output>, done: Fences)
    requires |done| == |outputs|
  {
    && o.origin.FromRow? && o.result.frameNumber == frame && o.result.status.Ok?
    && o.result.buffers == CompletedBuffers(Filled(outputs, done), Ok)
  }

  /* ---------------------------------- one step ---------------------------------- */

  lemma SilentAppend(w: World, w': World, o: Outcome, frame: nat)
    requires w'.log == w.log + [o] && !(o.origin.FromRow? && o.result.frameNumber == frame)
    ensures Silent(w, w', frame)
  {
    LogAppend(w.log, o);
    hide FinishedFrames;
  }

  /** A submission under another frame number leaves the tokens of this frame bound. */
  lemma SubmitKeepsTokens(s: Session, c: Config, request: Request, preflight: bool, responses: seq<Option<nat>>, k: nat)
    requires SessionOk(s) && request.frameNumber < FIRST_STREAMING_FRAME
    requires k in s.tracker.tokens && s.tracker.tokens[k].frameNumber != request.frameNumber
    ensures var t' := Submit(s, c, request, preflight, responses).0.tracker;
            k in t'.tokens && t'.tokens[k] == s.tracker.tokens[k]
  {
    var outputs := MakeOutputs(RequestOutputs(request));
    var started := Start(s.tracker, request, outputs);
    BindOutputsAdds(started, request.frameNumber, |outputs|, responses, 0);
    hide BindOutputs, SessionOk, CompletedBuffers;
  }

  /** The row of the frame and its tokens are as they were, and new tokens are fresh. */
  predicate Untouched(w: World, w': World, frame: nat) {
    var t, t' := w.session.tracker, w'.session.tracker;
    && (frame in t.requests ==> frame in t'.requests && t'.requests[frame] == t.requests[frame])
    && (forall k :: k in t.tokens && t.tokens[k].frameNumber == frame ==> k in t'.tokens && t'.tokens[k] == t.tokens[k])
    && (forall k :: k in t'.tokens ==> k in t.tokens || k !in w.used)
    && w.used <= w'.used
  }

  lemma StaysWaiting(w: World, w': World, frame: nat, tokens: seq<nat>, outputs: seq<Output>, done: Fences)
    requires Waiting(w, frame, tokens, outputs, done) && Untouched(w, w', frame)
    ensures Waiting(w', frame, tokens, outputs, done)
  {
    hide Filled, AllDone;
  }

  lemma SubmitSpares(w: World, c: Config, request: Request, preflight: bool, responses: seq<Option<nat>>, frame: nat)
    requires TablesOk(w, c) && Admissible(w, c, DoSubmit(request, preflight, responses)) && request.frameNumber != frame
    ensures var w' := AfterSubmit(w, c, request, preflight, responses);
            && Untouched(w, w', frame) && Silent(w, w', frame)
            && (frame !in w.session.tracker.requests ==> frame !in w'.session.tracker.requests)
  {
    var s := w.session;
    hide SessionOk, Submit, BufferFences, RowFences, FinishedFrames, MakeOutputs;
    SubmitEffect(s, c, request, preflight, responses);
    SubmitTokens(s, c, request, preflight, responses);
    forall k | k in s.tracker.tokens && s.tracker.tokens[k].frameNumber == frame
      ensures var t' := Submit(s, c, request, preflight, responses).0.tracker;
              k in t'.tokens && t'.tokens[k] == s.tracker.tokens[k]
    {
      SubmitKeepsTokens(s, c, request, preflight, responses, k);
    }
    var outcome := Submit(s, c, request, preflight, responses).1;
    if outcome.Some? {
      SilentAppend(w, AfterSubmit(w, c, request, preflight, responses), outcome.value, frame);
    }
  }

  lemma ReturnTokens(s: Session, c: Config, output: StreamingOutput, answer: Option<nat>)
    requires SessionOk(s)
    ensures var t' := ReturnLease(s, c, output, answer).tracker;
            && t'.requests == s.tracker.requests
            && (forall k :: k in s.tracker.tokens ==> k in t'.tokens && t'.tokens[k] == s.tracker.tokens[k])
            && (forall k :: k in t'.tokens ==> k in s.tracker.tokens || (answer == Some(k) && k != 0))
  {
  }

  lemma ReturnSpares(w: World, c: Config, callback: nat, answer: Option<nat>, frame: nat)
    requires SessionOk(w.session) && Admissible(w, c, DoReturn(callback, answer))
    ensures var w' := AfterReturn(w, c, callback, answer);
            && Untouched(w, w', frame) && w'.log == w.log
            && w'.session.tracker.requests == w.session.tracker.requests
  {
    hide SessionOk, ReturnLease;
    if callback in w.out || callback in w.stale {
      ReturnTokens(w.session, c, if callback in w.out then w.out[callback] else w.stale[callback], answer);
    }
  }

  /** The token of another output, or a token that stands for nothing. */
  lemma ResolveSpares(w: World, c: Config, token: nat, timestamp: int, fences: seq<int>, frame: nat)
    requires SessionOk(w.session) && |fences| >= |c.processors|
    requires token in w.session.tracker.tokens ==> w.session.tracker.tokens[token].frameNumber != frame
    ensures var w' := AfterResolve(w, c, token, timestamp, fences);
            && Untouched(w, w', frame) && Silent(w, w', frame)
            && (frame !in w.session.tracker.requests ==> frame !in w'.session.tracker.requests)
  {
    if token !in w.session.tracker.tokens {
      StaleTokenChangesNothing(w, c, token, timestamp, fences);
    } else {
      BoundResolveSpares(w, c, token, timestamp, fences, frame);
    }
  }

  lemma BoundResolveSpares(w: World, c: Config, token: nat, timestamp: int, fences: seq<int>, frame: nat)
    requires SessionOk(w.session) && |fences| >= |c.processors|
    requires token in w.session.tracker.tokens && w.session.tracker.tokens[token].frameNumber != frame
    ensures var w' := AfterResolve(w, c, token, timestamp, fences);
            && Untouched(w, w', frame) && Silent(w, w', frame)
            && (frame !in w.session.tracker.requests ==> frame !in w'.session.tracker.requests)
  {
    hide SessionOk, Resolve, Take, ReleaseFence, FenceBag, OutputFences, FinishedFrames, RowOk, AllCompleted,
         CompletedBuffers, PreviewResult;
    var s := w.session;
    ResolveFrame(s, c, token, timestamp, fences);
    var w' := AfterResolve(w, c, token, timestamp, fences);
    if s.tracker.tokens[token].outputIndex >= 0 {
      ResolveRequest(s, c, token, timestamp, fences);
    } else {
      ResolvePreview(s, c, token, timestamp, fences);
    }
    var resolution := Resolve(s, c, token, timestamp, fences).1;
    if !resolution.Nothing? {
      SilentAppend(w, w', resolution.outcome, frame);
    }
  }

  /** A bound token of the frame is the token of an output that is still owed. */
  lemma OwnToken(w: World, frame: nat, tokens: seq<nat>, outputs: seq<Output>, done: Fences, token: nat)
    requires SessionOk(w.session) && Waiting(w, frame, tokens, outputs, done)
    requires token in w.session.tracker.tokens && w.session.tracker.tokens[token].frameNumber == frame
    ensures var i := w.session.tracker.tokens[token].outputIndex;
            0 <= i < |outputs| && done[i].None? && tokens[i] == token
  {
    var t := w.session.tracker;
    var x := t.tokens[token];
    assert Outstanding(t, x);
    var i := x.outputIndex;
    assert t.requests[frame].outputs[i] == Filled(outputs, done)[i];
    assert t.tokens[tokens[i]] == Context(frame, i);
  }

  /** The completion of output i is recorded, and no other. */
  lemma RecordOwn(w: World, c: Config, frame: nat, tokens: seq<nat>, outputs: seq<Output>, done: Fences, i: nat,
                  timestamp: int, fences: seq<int>)
    requires Waiting(w, frame, tokens, outputs, done) && i < |outputs| && done[i].None? && |fences| >= |c.processors|
    ensures var fence := ReleaseFence(c.processors, fences);
            var done' := Record(c, tokens, done, DoResolve(tokens[i], timestamp, fences));
            && done' == done[i := Some(fence)]
            && Filled(outputs, done')
               == Filled(outputs, done)[i := Filled(outputs, done)[i].(completed := true, releaseFence := fence)]
            && (AllDone(done') <==> AllCompleted(Filled(outputs, done')))
  {
    hide ReleaseFence;
    var t := w.session.tracker;
    var done' := Record(c, tokens, done, DoResolve(tokens[i], timestamp, fences));
    forall j | 0 <= j < |done| && j != i ensures done'[j] == done[j] {
      assert done[j].None? ==> t.tokens[tokens[j]] != t.tokens[tokens[i]];
    }
    if AllCompleted(Filled(outputs, done')) {
      forall j | 0 <= j < |done'| ensures done'[j].Some? {
        assert Filled(outputs, done')[j].completed && !outputs[j].completed;
      }
    }
  }

  lemma RecordNothing(w: World, c: Config, frame: nat, tokens: seq<nat>, outputs: seq<Output>, done: Fences, e: Event)
    requires Waiting(w, frame, tokens, outputs, done)
    requires e.DoResolve? && e.token in w.session.tracker.tokens ==>
               w.session.tracker.tokens[e.token].frameNumber != frame
    ensures Record(c, tokens, done, e) == done
  {
    hide ReleaseFence;
  }

  /** What resolving a request token does to the world, in terms of its row. */
  lemma ResolveOwn(w: World, c: Config, token: nat, timestamp: int, fences: seq<int>, frame: nat, i: nat)
    requires SessionOk(w.session) && |fences| >= |c.processors|
    requires token in w.session.tracker.tokens && w.session.tracker.tokens[token] == Context(frame, i)
    ensures var t := w.session.tracker;
            var w' := AfterResolve(w, c, token, timestamp, fences);
            var t' := w'.session.tracker;
            && frame in t.requests && i < |t.requests[frame].outputs|
            && w'.used == w.used && t'.tokens == t.tokens - {token}
            && var row := t.requests[frame];
               var outputs := row.outputs[i := row.outputs[i].(
                 completed := true, releaseFence := ReleaseFence(c.processors, fences))];
               if AllCompleted(outputs) then
                 && frame !in t'.requests
                 && |w'.log| == |w.log| + 1 && w'.log[..|w.log|] == w.log
                 && w'.log[|w.log|].origin.FromRow? && w'.log[|w.log|].result.frameNumber == frame
                 && w'.log[|w.log|].result.status.Ok?
                 && w'.log[|w.log|].result.buffers == CompletedBuffers(outputs, Ok)
               else
                 w'.log == w.log && frame in t'.requests && t'.requests[frame].outputs == outputs
  {
    hide SessionOk, Resolve, Take, ReleaseFence, FenceBag, OutputFences, RowOk, AllCompleted, CompletedBuffers;
    ResolveRequest(w.session, c, token, timestamp, fences);
    ResolveFrame(w.session, c, token, timestamp, fences);
  }

  /** One of the request's own completions: the last one reports, the others are only recorded. */
  lemma OwnCompletion(w: World, c: Config, frame: nat, tokens: seq<nat>, outputs: seq<Output>, done: Fences, i: nat,
                      timestamp: int, fences: seq<int>)
    requires SessionOk(w.session) && Waiting(w, frame, tokens, outputs, done) && i < |outputs| && done[i].None?
    requires |fences| >= |c.processors|
    ensures var w' := AfterResolve(w, c, tokens[i], timestamp, fences);
            var done' := Record(c, tokens, done, DoResolve(tokens[i], timestamp, fences));
            if AllDone(done') then
              && |w'.log| == |w.log| + 1 && w'.log[..|w.log|] == w.log
              && ReportsAll(w'.log[|w.log|], frame, outputs, done') && frame !in w'.session.tracker.requests
            else
              Waiting(w', frame, tokens, outputs, done') && w'.log == w.log
  {
    hide SessionOk, AfterResolve, ReleaseFence, AllCompleted, CompletedBuffers, Filled, AllDone, Record;
    ResolveOwn(w, c, tokens[i], timestamp, fences, frame, i);
    RecordOwn(w, c, frame, tokens, outputs, done, i, timestamp, fences);
    var done' := Record(c, tokens, done, DoResolve(tokens[i], timestamp, fences));
    forall j | 0 <= j < |outputs| && done'[j].None? ensures tokens[j] != tokens[i] {
      assert w.session.tracker.tokens[tokens[j]] == Context(frame, j);
    }
  }

  /** What an event that spares the frame does to a request whose completions are arriving. */
  lemma NextWaiting(w: World, c: Config, frame: nat, tokens: seq<nat>, outputs: seq<Output>, done: Fences, e: Event)
    requires TablesOk(w, c) && Waiting(w, frame, tokens, outputs, done) && Admissible(w, c, e) && Spares(frame, e)
    ensures var w' := WorldNext(w, c, e);
            var done' := Record(c, tokens, done, e);
            if AllDone(done') then
              && |w'.log| == |w.log| + 1 && w'.log[..|w.log|] == w.log
              && ReportsAll(w'.log[|w.log|], frame, outputs, done') && frame !in w'.session.tracker.requests
            else
              Waiting(w', frame, tokens, outputs, done') && Silent(w, w', frame)
  {
    var t := w.session.tracker;
    assert w.session.state.Streaming?;
    if e.DoResolve? && e.token in t.tokens && t.tokens[e.token].frameNumber == frame {
      OwnToken(w, frame, tokens, outputs, done, e.token);
      hide TablesOk, Waiting, AfterResolve, ReportsAll, Record, FinishedFrames;
      OwnCompletion(w, c, frame, tokens, outputs, done, t.tokens[e.token].outputIndex, e.timestamp, e.fences);
    } else {
      RecordNothing(w, c, frame, tokens, outputs, done, e);
      NextSpares(w, c, frame, e);
      assert !AllDone(done);
      hide *;
      StaysWaiting(w, WorldNext(w, c, e), frame, tokens, outputs, done);
    }
  }

  /** An event that spares the frame and is none of its completions leaves it untouched. */
  lemma NextSpares(w: World, c: Config, frame: nat, e: Event)
    requires TablesOk(w, c) && w.session.state.Streaming? && Admissible(w, c, e) && Spares(frame, e)
    requires e.DoResolve? && e.token in w.session.tracker.tokens ==>
               w.session.tracker.tokens[e.token].frameNumber != frame
    ensures var w' := WorldNext(w, c, e);
            && Untouched(w, w', frame) && Silent(w, w', frame)
            && (frame !in w.session.tracker.requests ==> frame !in w'.session.tracker.requests)
  {
    assert SessionOk(w.session);
    hide SessionOk, AfterSubmit, AfterResolve, AfterReturn, FinishedFrames, FlushOutcomes, Flush, Close, RegisterPreview;
    match e
    case DoConfigure(_, _) =>
    case DoStart(_, _) =>
    case DoSubmit(request, preflight, responses) => SubmitSpares(w, c, request, preflight, responses, frame);
    case DoResolve(token, timestamp, fences) => ResolveSpares(w, c, token, timestamp, fences, frame);
    case DoReturn(callback, answer) => ReturnSpares(w, c, callback, answer, frame);
  }

  /* ---------------------------------- runs ---------------------------------- */

  predicate SparesAll(frame: nat, events: seq<Event>) {
    forall i :: 0 <= i < |events| ==> Spares(frame, events[i])
  }

  lemma SilentTwice(a: World, b: World, d: World, frame: nat)
    requires Silent(a, b, frame) && Silent(b, d, frame)
    ensures Silent(a, d, frame)
  {
    hide FinishedFrames;
  }

  /** Once the request has been reported, nothing more is reported for its frame. */
  lemma {:induction false} ReportedIsLast(w: World, c: Config, frame: nat, events: seq<Event>)
    requires WorldInv(w, c) && EpochOver(w) && AdmissibleRun(w, c, events) && SparesAll(frame, events)
    requires frame !in w.session.tracker.requests && w.session.state.Streaming? && frame < FIRST_STREAMING_FRAME
    ensures Silent(w, RunWorld(w, c, events), frame)
    decreases |events|
  {
    assert TablesOk(w, c);
    hide WorldInv, EpochOver, Admissible, WorldNext, FinishedFrames, Spares, TablesOk;
    if events != [] {
      var w1 := WorldNext(w, c, events[0]);
      NoTokenOfFrame(w, c, frame);
      NextKeepsWorldInv(w, c, events[0]);
      StaysStreaming(w, c, frame, events[0]);
      NextSpares(w, c, frame, events[0]);
      ReportedIsLast(w1, c, frame, events[1..]);
      SilentTwice(w, w1, RunWorld(w1, c, events[1..]), frame);
    }
  }

  lemma NoTokenOfFrame(w: World, c: Config, frame: nat)
    requires TablesOk(w, c) && frame !in w.session.tracker.requests && frame < FIRST_STREAMING_FRAME
    ensures forall k :: k in w.session.tracker.tokens ==> w.session.tracker.tokens[k].frameNumber != frame
  {
    forall k | k in w.session.tracker.tokens ensures w.session.tracker.tokens[k].frameNumber != frame {
      assert Outstanding(w.session.tracker, w.session.tracker.tokens[k]);
    }
  }

  lemma StaysStreaming(w: World, c: Config, frame: nat, e: Event)
    requires TablesOk(w, c) && w.session.state.Streaming? && Admissible(w, c, e) && Spares(frame, e)
    ensures WorldNext(w, c, e).session.state.Streaming?
  {
    assert SessionOk(w.session);
    hide SessionOk, Submit, Resolve, ReturnLease, FlushOutcomes, RegisterPreview, Take, ReleaseFence, FenceBag;
    match e
    case DoConfigure(_, _) =>
    case DoStart(_, _) =>
    case DoSubmit(request, preflight, responses) => SubmitEffect(w.session, c, request, preflight, responses);
    case DoResolve(token, timestamp, fences) => ResolveFrame(w.session, c, token, timestamp, fences);
    case DoReturn(callback, answer) =>
      if callback in w.out { ReturnEffect(w.session, c, w.out[callback], answer); }
      if callback in w.stale { ReturnEffect(w.session, c, w.stale[callback], answer); }
  }

  /** Completions of a request over any run that spares its frame: as long as one is missing nothing is
      reported for the frame; once all have come, exactly one Ok result was reported, with every output
      in request order and the fence of its own processing, whatever their order was and whatever other
      requests, previews and callbacks did in between. */
  lemma {:induction false} CompletionOrderIsIrrelevant(w: World, c: Config, frame: nat, tokens: seq<nat>,
                                                      outputs: seq<Output>, done: Fences, events: seq<Event>)
    requires WorldInv(w, c) && EpochOver(w) && Waiting(w, frame, tokens, outputs, done)
    requires AdmissibleRun(w, c, events) && SparesAll(frame, events)
    ensures var w' := RunWorld(w, c, events);
            var done' := RecordAll(c, tokens, done, events);
            if AllDone(done') then Reported(w, w', frame, outputs, done')
            else Waiting(w', frame, tokens, outputs, done') && Silent(w, w', frame)
    decreases |events|
  {
    hide WorldInv, EpochOver, Admissible, WorldNext, FinishedFrames, Spares, TablesOk, Waiting, AllDone, Record,
         ReportsAll, Filled;
    WaitingStreams(w, c, frame, tokens, outputs, done);
    if events != [] {
      NextWaiting(w, c, frame, tokens, outputs, done, events[0]);
      NextKeepsWorldInv(w, c, events[0]);
      StaysStreaming(w, c, frame, events[0]);
      var w1 := WorldNext(w, c, events[0]);
      var done1 := Record(c, tokens, done, events[0]);
      if AllDone(done1) {
        RecordedStays(c, tokens, done1, events[1..]);
        ReportedIsLast(w1, c, frame, events[1..]);
        LastReport(w, w1, RunWorld(w1, c, events[1..]), frame, outputs, done1);
      } else {
        CompletionOrderIsIrrelevant(w1, c, frame, tokens, outputs, done1, events[1..]);
        LaterReport(w, w1, RunWorld(w1, c, events[1..]), frame, outputs, RecordAll(c, tokens, done1, events[1..]));
      }
    }
  }

  lemma WaitingStreams(w: World, c: Config, frame: nat, tokens: seq<nat>, outputs: seq<Output>, done: Fences)
    requires WorldInv(w, c) && Waiting(w, frame, tokens, outputs, done)
    ensures TablesOk(w, c) && w.session.state.Streaming? && frame < FIRST_STREAMING_FRAME && !AllDone(done)
    ensures |done| == |tokens| == |outputs|
    ensures Silent(w, w, frame)
  {
  }

  lemma {:induction false} RecordedStays(c: Config, tokens: seq<nat>, done: Fences, events: seq<Event>)
    requires |done| == |tokens| && AllDone(done)
    ensures RecordAll(c, tokens, done, events) == done
    decreases |events|
  {
    hide ReleaseFence;
    if events != [] {
      assert Record(c, tokens, done, events[0]) == done;
      RecordedStays(c, tokens, done, events[1..]);
    }
  }

  lemma LastReport(w: World, w1: World, w': World, frame: nat, outputs: seq<Output>, done: Fences)
    requires |done| == |outputs|
    requires |w1.log| == |w.log| + 1 && w1.log[..|w.log|] == w.log && ReportsAll(w1.log[|w.log|], frame, outputs, done)
    requires Silent(w1, w', frame)
    ensures Reported(w, w', frame, outputs, done)
  {
    var o := w1.log[|w.log|];
    assert o.origin.FromRow? && o.result.frameNumber == frame;
    hide FinishedFrames, ReportsAll;
    assert w1.log == w.log + [o];
    LogAppend(w.log, o);
    assert w'.log[|w.log|] == o;
  }

  lemma LaterReport(w: World, w1: World, w': World, frame: nat, outputs: seq<Output>, done: Fences)
    requires |done| == |outputs| && Silent(w, w1, frame)
    ensures Silent(w1, w', frame) ==> Silent(w, w', frame)
    ensures Reported(w1, w', frame, outputs, done) ==> Reported(w, w', frame, outputs, done)
  {
    hide FinishedFrames, ReportsAll;
  }

  /* ---------------------------------- accepted requests ---------------------------------- */

  /** The tokens the driver answered with, output by output. */
  function TokensOf(responses: seq<Option<nat>>, n: nat): (tokens: seq<nat>)
    requires forall j :: 0 <= j < n ==> Answered(responses, j)
    ensures |tokens| == n
  {
    seq(n, i requires 0 <= i < n => assert Answered(responses, i); responses[i].value)
  }

  function NothingDone(n: nat): (done: Fences)
    ensures |done| == n
  {
    seq(n, _ => None)
  }

  lemma AcceptedTokens(s: Session, c: Config, request: Request, responses: seq<Option<nat>>)
    requires Begins(s, c, request, true) && Submit(s, c, request, true, responses).1.None?
    ensures var tokens := Submit(s, c, request, true, responses).0.tracker.tokens;
            forall j :: 0 <= j < TargetCount(request) ==>
              && Answered(responses, j) && responses[j].value in tokens
              && tokens[responses[j].value] == Context(request.frameNumber, j)
  {
    RequestOutputsAreTargets(request);
    hide BindOutputs;
    var outputs := MakeOutputs(RequestOutputs(request));
    BindOutputsAdds(Start(s.tracker, request, outputs), request.frameNumber, |outputs|, responses, 0);
  }

  /** One Ok result that names the buffer of every target of the request, in order, each with the fence of its
      own processing. */
  predicate ReportsRequest(o: Outcome, request: Request, done: Fences) {
    && o.origin.FromRow? && o.result.frameNumber == request.frameNumber && o.result.status.Ok?
    && |o.result.buffers| == |done| == TargetCount(request)
    && forall i :: 0 <= i < |done| ==>
         done[i].Some? && IsEntry(o.result.buffers[i], request, i, Ok, done[i].value)
  }

  /** The one result of the request was reported between w and w'. */
  ghost predicate RequestReported(w: World, w': World, request: Request, done: Fences) {
    && w.log <= w'.log
    && FinishedFrames(w'.log)[request.frameNumber] == FinishedFrames(w.log)[request.frameNumber] + 1
    && exists k :: |w.log| <= k < |w'.log| && ReportsRequest(w'.log[k], request, done)
  }

  lemma ReportedIsOfRequest(w: World, w': World, request: Request, done: Fences)
    requires |done| == TargetCount(request) == |MakeOutputs(RequestOutputs(request))| && AllDone(done)
    requires Reported(w, w', request.frameNumber, MakeOutputs(RequestOutputs(request)), done)
    ensures RequestReported(w, w', request, done)
  {
    var outputs := MakeOutputs(RequestOutputs(request));
    RequestOutputsAreTargets(request);
    hide FinishedFrames, RequestOutputs;
    var k :| |w.log| <= k < |w'.log| && ReportsAll(w'.log[k], request.frameNumber, outputs, done);
    forall i | 0 <= i < |done|
      ensures done[i].Some? && IsEntry(w'.log[k].result.buffers[i], request, i, Ok, done[i].value)
    {
      assert IsTarget(request, i, RequestOutputs(request)[i]);
    }
    assert ReportsRequest(w'.log[k], request, done);
  }

  lemma AcceptedWaits(w: World, c: Config, request: Request, responses: seq<Option<nat>>)
    requires SessionOk(w.session) && request.frameNumber < FIRST_STREAMING_FRAME && Begins(w.session, c, request, true)
    requires Submit(w.session, c, request, true, responses).1.None?
    ensures var n := TargetCount(request);
            && |MakeOutputs(RequestOutputs(request))| == n
            && (forall j :: 0 <= j < n ==> Answered(responses, j))
            && Waiting(AfterSubmit(w, c, request, true, responses), request.frameNumber, TokensOf(responses, n),
                       MakeOutputs(RequestOutputs(request)), NothingDone(n))
  {
    var outputs := MakeOutputs(RequestOutputs(request));
    RequestOutputsAreTargets(request);
    hide RequestOutputs, SessionOk, Submit, Begins, BufferFences, RowFences;
    AcceptedTokens(w.session, c, request, responses);
    SubmitEffect(w.session, c, request, true, responses);
    assert Filled(outputs, NothingDone(|outputs|)) == outputs;
    assert !AllDone(NothingDone(|outputs|)) by { assert NothingDone(|outputs|)[0].None?; }
    forall j | 0 <= j < |outputs| ensures Answered(responses, j) && responses[j].value in Answers(responses) {
      assert Answered(responses, j) && responses[j] in responses;
    }
  }

  /** For every accepted request and every run after it that spares its frame: until its last completion
      nothing is reported for it, and then exactly one Ok result that lists the outputs in the order of the
      request, each with the fence of its own processing. */
  lemma AcceptedRequestCompletesInAnyOrder(w: World, c: Config, request: Request, responses: seq<Option<nat>>,
                                           events: seq<Event>)
    requires WorldInv(w, c) && EpochOver(w) && Admissible(w, c, DoSubmit(request, true, responses))
    requires Begins(w.session, c, request, true) && Submit(w.session, c, request, true, responses).1.None?
    requires var w1 := AfterSubmit(w, c, request, true, responses);
             AdmissibleRun(w1, c, events) && SparesAll(request.frameNumber, events)
    ensures forall j :: 0 <= j < TargetCount(request) ==> Answered(responses, j)
    ensures var n := TargetCount(request);
            var w1 := AfterSubmit(w, c, request, true, responses);
            var w' := RunWorld(w1, c, events);
            var done := RecordAll(c, TokensOf(responses, n), NothingDone(n), events);
            if AllDone(done) then RequestReported(w1, w', request, done)
            else Silent(w1, w', request.frameNumber) && request.frameNumber in w'.session.tracker.requests
  {
    var n := TargetCount(request);
    assert SessionOk(w.session);
    NextKeepsWorldInv(w, c, DoSubmit(request, true, responses));
    hide WorldInv, EpochOver, SessionOk, Submit, AdmissibleRun, RecordAll, AfterSubmit, Admissible, Begins, MakeOutputs,
         AllDone, Reported, RequestReported;
    AcceptedWaits(w, c, request, responses);
    var w1 := AfterSubmit(w, c, request, true, responses);
    CompletionOrderIsIrrelevant(w1, c, request.frameNumber, TokensOf(responses, n), MakeOutputs(RequestOutputs(request)),
                                NothingDone(n), events);
    var done := RecordAll(c, TokensOf(responses, n), NothingDone(n), events);
    if AllDone(done) {
      ReportedIsOfRequest(w1, RunWorld(w1, c, events), request, done);
    }
  }
}
