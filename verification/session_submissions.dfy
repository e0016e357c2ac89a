/** Submissions against rows and results: which submissions are conserved, and which ones remove the row
    of another. */
module SessionSubmissions {
  import opened Wrappers
  import opened CameraTypes
  import opened InFlightTracker
  import opened CameraSession
  import opened SessionConsistency
  import opened SessionHistory
  import opened SessionLaws
  import opened SessionTheorems

  /** The submission is taken up while a row of its own frame number is in flight. */
  predicate Collides(s: Session, c: Config, request: Request) {
    !Rejects(s, c) && request.frameNumber in s.tracker.requests
  }

  /** Results that do not stand for a streaming output. */
  function RequestResults(log: seq<Outcome>): nat {
    if log == [] then 0
    else RequestResults(log[..|log| - 1]) + (if log[|log| - 1].origin.FromStream? then 0 else 1)
  }

  function One(condition: bool): nat {
    if condition then 1 else 0
  }

  /* ---------------------------------- one submission ---------------------------------- */

  /** A submission removes a row from the table exactly when it is taken up under the row's own frame
      number: its preflight fails, or it is a duplicate. */
  lemma SubmitRemovesRowExactlyWhen(s: Session, c: Config, request: Request, preflight: bool,
                                    responses: seq<Option<nat>>, f: nat)
    requires SessionOk(s) && request.frameNumber < FIRST_STREAMING_FRAME && f in s.tracker.requests
    ensures f !in Submit(s, c, request, preflight, responses).0.tracker.requests
            <==> !Rejects(s, c) && request.frameNumber == f
  {
    SubmitOnRows(s, c, request, preflight, responses);
    hide Submit, SessionOk;
  }

  /** What a submission does to the row table, and whether it reports at once. */
  lemma SubmitOnRows(s: Session, c: Config, request: Request, preflight: bool, responses: seq<Option<nat>>)
    requires SessionOk(s) && request.frameNumber < FIRST_STREAMING_FRAME
    ensures var (s', outcome) := Submit(s, c, request, preflight, responses);
            && (Rejects(s, c) ==> outcome.Some? && s'.tracker.requests == s.tracker.requests)
            && (Collides(s, c, request) ==>
                  outcome.Some? && s'.tracker.requests == s.tracker.requests - {request.frameNumber})
            && (!Rejects(s, c) && !Collides(s, c, request) ==>
                  if outcome.Some? then s'.tracker.requests == s.tracker.requests
                  else request.frameNumber in s'.tracker.requests
                       && s'.tracker.requests.Keys == s.tracker.requests.Keys + {request.frameNumber})
            && (outcome.Some? ==> !outcome.value.origin.FromStream?)
  {
    var frame := request.frameNumber;
    SubmitEffect(s, c, request, preflight, responses);
    if Collides(s, c, request) {
      var outputs := MakeOutputs(RequestOutputs(request));
      NoFences(outputs);
      BuffersCarryFences(outputs, ProcessingError);
      FillFailedEffect(s, frame, if preflight then ProcessingError else SensorError,
                       CompletedBuffers(outputs, ProcessingError));
    }
    hide SessionOk, BindOutputs, BufferFences, RowFences;
  }

  /** A submission under a frame in flight reports the outputs of the row that it removes, not its own. */
  lemma CollisionReportsTheOtherRow(s: Session, c: Config, request: Request, preflight: bool,
                                    responses: seq<Option<nat>>)
    requires SessionOk(s) && Collides(s, c, request)
    ensures var (s', outcome) := Submit(s, c, request, preflight, responses);
            var row := s.tracker.requests[request.frameNumber];
            var status := if preflight then ProcessingError else SensorError;
            && request.frameNumber !in s'.tracker.requests
            && outcome == Some(Outcome(FromRow, MakeResult(request.frameNumber, status,
                                                           CompletedBuffers(row.outputs, status))))
  {
    var row := s.tracker.requests[request.frameNumber];
    var status := if preflight then ProcessingError else SensorError;
    assert CompletedBuffers(row.(state := Failed).outputs, status) == CompletedBuffers(row.outputs, status);
  }

  lemma CardinalityOfKeys(m: map<nat, Row>, m': map<nat, Row>, k: nat)
    requires k in m && m' == m - {k}
    ensures |m'| == |m| - 1
  {
    assert m.Keys == m'.Keys + {k};
    assert |m.Keys| == |m| && |m'.Keys| == |m'|;
  }

  /** The account of one submission. */
  lemma SubmitAccount(s: Session, c: Config, request: Request, preflight: bool, responses: seq<Option<nat>>)
    requires SessionOk(s) && request.frameNumber < FIRST_STREAMING_FRAME
    ensures var (s', outcome) := Submit(s, c, request, preflight, responses);
            |s'.tracker.requests| + One(outcome.Some?) + One(Collides(s, c, request)) == |s.tracker.requests| + 1
  {
    SubmitOnRows(s, c, request, preflight, responses);
    hide Submit, SessionOk, Rejects;
    var (s', outcome) := Submit(s, c, request, preflight, responses);
    if Collides(s, c, request) {
      CardinalityOfKeys(s.tracker.requests, s'.tracker.requests, request.frameNumber);
    } else if outcome.None? {
      assert |s'.tracker.requests| == |s'.tracker.requests.Keys|;
      assert |s.tracker.requests| == |s.tracker.requests.Keys|;
    }
  }

  /** A submission is conserved, as one more row or one more result, exactly when it is rejected or its
      frame is not in flight. */
  lemma SubmitConservedExactlyWhen(s: Session, c: Config, request: Request, preflight: bool,
                                   responses: seq<Option<nat>>)
    requires SessionOk(s) && request.frameNumber < FIRST_STREAMING_FRAME
    ensures var (s', outcome) := Submit(s, c, request, preflight, responses);
            |s'.tracker.requests| + One(outcome.Some?) == |s.tracker.requests| + 1
            <==> Rejects(s, c) || request.frameNumber !in s.tracker.requests
  {
    SubmitAccount(s, c, request, preflight, responses);
    hide Submit, SessionOk, Rejects;
  }

  /* ---------------------------------- runs ---------------------------------- */

  function Submissions(events: seq<Event>): nat {
    if events == [] then 0 else One(events[0].DoSubmit?) + Submissions(events[1..])
  }

  function Collisions(w: World, c: Config, events: seq<Event>): nat
    requires AdmissibleRun(w, c, events)
    decreases |events|
  {
    if events == [] then 0
    else
      One(events[0].DoSubmit? && Collides(w.session, c, events[0].request))
      + Collisions(WorldNext(w, c, events[0]), c, events[1..])
  }

  /** Requests in flight and results of requests, together. */
  function Settlements(w: World): nat {
    RequestResults(w.log) + |w.session.tracker.requests|
  }

  lemma ResultAppend(log: seq<Outcome>, o: Outcome)
    ensures RequestResults(log + [o]) == RequestResults(log) + One(!o.origin.FromStream?)
  {
    assert (log + [o])[..|log|] == log;
  }

  lemma ResolveSettles(w: World, c: Config, token: nat, timestamp: int, fences: seq<int>)
    requires SessionOk(w.session) && |fences| >= |c.processors|
    ensures Settlements(AfterResolve(w, c, token, timestamp, fences)) == Settlements(w)
  {
    if token !in w.session.tracker.tokens {
      StaleTokenChangesNothing(w, c, token, timestamp, fences);
    } else {
      BoundResolveSettles(w, c, token, timestamp, fences);
    }
  }

  lemma BoundResolveSettles(w: World, c: Config, token: nat, timestamp: int, fences: seq<int>)
    requires SessionOk(w.session) && |fences| >= |c.processors| && token in w.session.tracker.tokens
    ensures Settlements(AfterResolve(w, c, token, timestamp, fences)) == Settlements(w)
  {
    hide SessionOk, Resolve, Take, ReleaseFence, FenceBag, OutputFences, RowOk, AllCompleted, CompletedBuffers,
         RequestResults;
    var s := w.session;
    var x := s.tracker.tokens[token];
    if x.outputIndex >= 0 {
      ResolveRequest(s, c, token, timestamp, fences);
    } else {
      ResolvePreview(s, c, token, timestamp, fences);
    }
    var (s', resolution) := Resolve(s, c, token, timestamp, fences);
    if !resolution.Nothing? {
      ResultAppend(w.log, resolution.outcome);
    }
    if resolution.RowDone? {
      CardinalityOfKeys(s.tracker.requests, s'.tracker.requests, x.frameNumber);
    } else if resolution.Nothing? {
      assert |s'.tracker.requests.Keys| == |s'.tracker.requests| && |s.tracker.requests.Keys| == |s.tracker.requests|;
      assert s'.tracker.requests.Keys == s.tracker.requests.Keys;
    }
  }

  lemma {:induction false} FlushSettles(log: seq<Outcome>, t: Tracker, order: seq<nat>)
    requires forall i :: 0 <= i < |order| ==> order[i] in t.requests
    ensures RequestResults(log + FlushOutcomes(t, order)) == RequestResults(log) + |order|
    decreases |order|
  {
    if order == [] {
      assert log + FlushOutcomes(t, order) == log;
    } else {
      var front, k := order[..|order| - 1], order[|order| - 1];
      FlushSettles(log, t, front);
      var last := FlushOutcomes(t, order)[|front|];
      assert log + FlushOutcomes(t, order) == (log + FlushOutcomes(t, front)) + [last];
      assert last.origin.FromRow?;
      hide RequestResults, FlushOutcomes;
      ResultAppend(log + FlushOutcomes(t, front), last);
    }
  }

  lemma EndEpochSettles(w: World, s: Session, order: seq<nat>)
    requires multiset(order) == multiset(w.session.tracker.requests.Keys) && s.tracker == EMPTY
    requires forall i :: 0 <= i < |order| ==> order[i] in w.session.tracker.requests
    ensures Settlements(EndEpoch(w, s, order)) == Settlements(w)
  {
    FlushSettles(w.log, w.session.tracker, order);
    assert |order| == |multiset(order)| == |w.session.tracker.requests.Keys| == |w.session.tracker.requests|;
    hide RequestResults, FlushOutcomes;
  }

  lemma SubmitSettles(w: World, c: Config, request: Request, preflight: bool, responses: seq<Option<nat>>)
    requires SessionOk(w.session) && request.frameNumber < FIRST_STREAMING_FRAME
    ensures Settlements(AfterSubmit(w, c, request, preflight, responses)) + One(Collides(w.session, c, request))
            == Settlements(w) + 1
  {
    SubmitAccount(w.session, c, request, preflight, responses);
    SubmitOnRows(w.session, c, request, preflight, responses);
    hide SessionOk, Submit, RequestResults, Collides;
    var outcome := Submit(w.session, c, request, preflight, responses).1;
    if outcome.Some? {
      ResultAppend(w.log, outcome.value);
    }
  }

  lemma ReturnSettles(w: World, c: Config, callback: nat, answer: Option<nat>)
    requires TablesOk(w, c)
    ensures Settlements(AfterReturn(w, c, callback, answer)) == Settlements(w)
  {
    if callback in w.out || callback in w.stale {
      ReturnEffect(w.session, c, if callback in w.out then w.out[callback] else w.stale[callback], answer);
    }
    hide SessionOk, ReturnLease, RequestResults;
  }

  lemma StartSettles(w: World, c: Config, driverStarted: bool, tokens: Option<seq<nat>>)
    requires SessionOk(w.session)
    ensures Settlements(AfterStart(w, c, driverStarted, tokens)) == Settlements(w)
  {
    StartKeepsRows(w.session, c, driverStarted, tokens);
    hide StartStreaming, SessionOk, RequestResults;
  }

  lemma StartKeepsRows(s: Session, c: Config, driverStarted: bool, tokens: Option<seq<nat>>)
    ensures StartStreaming(s, c, driverStarted, tokens).tracker.requests == s.tracker.requests
  {
    if tokens.Some? && |tokens.value| == |c.previewBuffers| {
      RegisterKeepsRows(s.tracker, c.previewBuffers, tokens.value, s.nextStreamingFrame, 0);
    }
    hide RegisterPreview;
  }

  lemma {:induction false} RegisterKeepsRows(t: Tracker, buffers: seq<Target>, tokens: seq<nat>, first: nat, i: nat)
    requires i <= |buffers| == |tokens|
    ensures RegisterPreview(t, buffers, tokens, first, i).0.requests == t.requests
    decreases |buffers| - i
  {
    if i < |buffers| {
      var output := StreamingOutput(first + i, buffers[i], buffers[i].streamType);
      RegisterKeepsRows(RegisterAndBind(t, output, tokens[i]), buffers, tokens, first, i + 1);
    }
  }

  lemma StepSettles(w: World, c: Config, e: Event)
    requires TablesOk(w, c) && Admissible(w, c, e)
    ensures Settlements(WorldNext(w, c, e)) + One(e.DoSubmit? && Collides(w.session, c, e.request))
            == Settlements(w) + One(e.DoSubmit?)
  {
    assert SessionOk(w.session);
    hide SessionOk, TablesOk, AfterStart, AfterSubmit, AfterResolve, AfterReturn, EndEpoch, Collides, RequestResults;
    match e
    case DoConfigure(driverConfigured, registered) =>
    case DoStart(driverStarted, tokens) => StartSettles(w, c, driverStarted, tokens);
    case DoSubmit(request, preflight, responses) => SubmitSettles(w, c, request, preflight, responses);
    case DoResolve(token, timestamp, fences) => ResolveSettles(w, c, token, timestamp, fences);
    case DoReturn(callback, answer) => ReturnSettles(w, c, callback, answer);
    case DoFlush(order) =>
      OrderInRequests(order, w.session.tracker.requests.Keys);
      if CanFlush(w.session) { EndEpochSettles(w, Flush(w.session, order), order); }
    case DoClose(order) =>
      OrderInRequests(order, w.session.tracker.requests.Keys);
      if !w.session.state.Stopped? { EndEpochSettles(w, Close(w.session, order), order); }
  }

  lemma {:induction false} RunSettles(w: World, c: Config, events: seq<Event>)
    requires WorldInv(w, c) && EpochOver(w) && AdmissibleRun(w, c, events)
    ensures Settlements(RunWorld(w, c, events)) + Collisions(w, c, events) == Settlements(w) + Submissions(events)
    decreases |events|
  {
    assert TablesOk(w, c);
    hide WorldInv, EpochOver, Admissible, WorldNext, Settlements, Collides, TablesOk;
    if events != [] {
      StepSettles(w, c, events[0]);
      NextKeepsWorldInv(w, c, events[0]);
      RunSettles(WorldNext(w, c, events[0]), c, events[1..]);
    }
  }

  /** Over every run: the submissions are the results that are not previews, the requests still in flight,
      and the submissions that met a row of their own frame number. So submissions are conserved exactly
      in the runs in which none does. */
  lemma SubmissionsAreAccounted(c: Config, events: seq<Event>)
    requires AdmissibleRun(NewWorld(), c, events)
    ensures var w := RunWorld(NewWorld(), c, events);
            && Submissions(events)
               == RequestResults(w.log) + |w.session.tracker.requests| + Collisions(NewWorld(), c, events)
            && (Submissions(events) == RequestResults(w.log) + |w.session.tracker.requests|
                <==> Collisions(NewWorld(), c, events) == 0)
  {
    NewWorldInv(c);
    RunSettles(NewWorld(), c, events);
    hide WorldInv, RunWorld, AdmissibleRun, Collisions;
  }

  /* ---------------------------------- a duplicate frame number ---------------------------------- */

  const FIRST := Target(1, 7, 42, -1, 100, Still, 4, 4, Rgb24)
  const SECOND := Target(1, 8, 43, -1, 100, Still, 4, 4, Rgb24)
  const CONFIG := Config(true, false, [], [])
  const TWICE: seq<Event> := [
    DoConfigure(true, true),
    DoStart(true, None),
    DoSubmit(Request(5, 4, 4, [FIRST]), true, [Some(1)]),
    DoSubmit(Request(5, 4, 4, [SECOND]), true, [])]

  const STREAMING := NEW_SESSION.(state := Streaming)
  const FIRST_ROW := Row(5, Request(5, 4, 4, [FIRST]), [Output(FIRST, 0, false, -1)], 0, QueuedToDriver)
  const IN_FLIGHT := STREAMING.(tracker := Tracker(map[5 := FIRST_ROW], map[], map[1 := Context(5, 0)]))

  lemma FirstAccepted()
    ensures Submit(STREAMING, CONFIG, Request(5, 4, 4, [FIRST]), true, [Some(1)]) == (IN_FLIGHT, None)
  {
    var request := Request(5, 4, 4, [FIRST]);
    var outputs := MakeOutputs(RequestOutputs(request));
    assert outputs == [Output(FIRST, 0, false, -1)];
    var started := Start(EMPTY, request, outputs);
    var bound := Bind(started, 1, Context(5, 0));
    assert BindOutputs(bound, 5, 1, [Some(1)], 1) == (bound, true);
    assert bound.tokens == map[1 := Context(5, 0)];
    assert SubmitToDriver(started, 5, 1, [Some(1)]).0.requests == map[5 := FIRST_ROW];
  }

  lemma SecondRemoves()
    ensures Submit(IN_FLIGHT, CONFIG, Request(5, 4, 4, [SECOND]), true, [])
            == (STREAMING.(failed := 1),
                Some(Outcome(FromRow, MakeResult(5, ProcessingError, [CompletedBuffer(1, 7, 0, ProcessingError, -1)]))))
  {
    assert CompletedBuffers(FIRST_ROW.outputs, ProcessingError) == [CompletedBuffer(1, 7, 0, ProcessingError, -1)];
    assert ClearFrame(Fail(IN_FLIGHT.tracker, 5), 5) == EMPTY;
  }

  /** A run in which a submission is lost: frame 5 is submitted twice, and the second submission removes
      the row of the first and reports the first one's buffer. Two submissions leave one result and no
      row. */
  lemma DuplicateFrameRemovesTheFirstRow()
    ensures AdmissibleRun(NewWorld(), CONFIG, TWICE)
    ensures var w := RunWorld(NewWorld(), CONFIG, TWICE);
            && w.session.tracker.requests == map[]
            && w.log == [Outcome(FromRow, MakeResult(5, ProcessingError,
                                                     [CompletedBuffer(1, 7, 0, ProcessingError, -1)]))]
            && Submissions(TWICE) == 2
  {
    RunStarts();
    FirstAccepted();
    SecondRemoves();
    hide Submit, StartStreaming, Configure, Submissions;
    var w2 := NewWorld().(session := STREAMING);
    var w3 := WorldNext(w2, CONFIG, TWICE[2]);
    var w4 := WorldNext(w3, CONFIG, TWICE[3]);
    RunOfTwo(w2, TWICE[2], TWICE[3]);
    assert TWICE[2..] == [TWICE[2], TWICE[3]];
    CountSubmissions();
  }

  lemma CountSubmissions()
    ensures Submissions(TWICE) == 2
  {
    var three, two, one := TWICE[1..], TWICE[2..], TWICE[3..];
    assert three[0] == TWICE[1] && two[0] == TWICE[2] && one[0] == TWICE[3];
    assert three[1..] == two && two[1..] == one && one[1..] == [];
    assert Submissions(one) == 1;
    assert Submissions(two) == 2;
    assert Submissions(three) == 2;
  }

  lemma RunOfTwo(w: World, first: Event, second: Event)
    requires Admissible(w, CONFIG, first) && Admissible(WorldNext(w, CONFIG, first), CONFIG, second)
    ensures AdmissibleRun(w, CONFIG, [first, second])
    ensures RunWorld(w, CONFIG, [first, second]) == WorldNext(WorldNext(w, CONFIG, first), CONFIG, second)
  {
    hide Admissible, WorldNext;
    var w1 := WorldNext(w, CONFIG, first);
    assert [first, second][1..] == [second] && [second][1..] == [];
    assert AdmissibleRun(w1, CONFIG, [second]) && RunWorld(w1, CONFIG, [second]) == WorldNext(w1, CONFIG, second);
  }

  /** Configuring and starting leave a streaming session. */
  lemma RunStarts()
    ensures AdmissibleRun(NewWorld(), CONFIG, TWICE) <==>
              AdmissibleRun(NewWorld().(session := STREAMING), CONFIG, TWICE[2..])
    ensures AdmissibleRun(NewWorld(), CONFIG, TWICE) ==>
              RunWorld(NewWorld(), CONFIG, TWICE) == RunWorld(NewWorld().(session := STREAMING), CONFIG, TWICE[2..])
  {
    var w1 := WorldNext(NewWorld(), CONFIG, TWICE[0]);
    var w2 := WorldNext(w1, CONFIG, TWICE[1]);
    assert w2 == NewWorld().(session := STREAMING);
    assert TWICE[1..][1..] == TWICE[2..];
    hide WorldNext;
  }

  /* ------------------------- client frames among the streaming ones ------------------------- */

  /** Dropping the tokens of a frame makes an orphan of the streaming row with that number. */
  lemma ClearFrameOrphans(t: Tracker, t': Tracker, frame: nat)
    requires t'.streaming == t.streaming
    requires forall k :: k in t'.tokens <==> k in t.tokens && t.tokens[k].frameNumber != frame
    requires forall k :: k in t'.tokens ==> t'.tokens[k] == t.tokens[k]
    ensures Orphans(t') == Orphans(t) + if frame in t.streaming then {frame} else {}
  {
    forall f | f in t.streaming && f != frame
      ensures Context(f, -1) in t'.tokens.Values <==> Context(f, -1) in t.tokens.Values
    {
      if Context(f, -1) in t.tokens.Values {
        var k :| k in t.tokens && t.tokens[k] == Context(f, -1);
        assert k in t'.tokens;
      }
    }
  }

  lemma BoundOrphans(t: Tracker, t': Tracker)
    requires t'.streaming == t.streaming
    requires forall k :: k in t.tokens ==> k in t'.tokens && t'.tokens[k] == t.tokens[k]
    requires forall k :: k in t'.tokens && k !in t.tokens ==> t'.tokens[k].outputIndex >= 0
    ensures Orphans(t') == Orphans(t)
  {
    forall f ensures Context(f, -1) in t'.tokens.Values <==> Context(f, -1) in t.tokens.Values {
      if Context(f, -1) in t.tokens.Values {
        var k :| k in t.tokens && t.tokens[k] == Context(f, -1);
        assert t'.tokens[k] == Context(f, -1);
      }
    }
  }

  /** Whatever frame number the client chooses: a submission leaves a streaming row without a token exactly
      when it is not rejected at once, it fails, and its frame number is that of the streaming row. The
      numbers of clients and of the preview meet from the first streaming frame number on. */
  lemma SubmitOrphansExactlyWhen(s: Session, c: Config, request: Request, preflight: bool, responses: seq<Option<nat>>)
    ensures var (s', outcome) := Submit(s, c, request, preflight, responses);
            var frame := request.frameNumber;
            Orphans(s'.tracker) == Orphans(s.tracker)
              + if !Rejects(s, c) && outcome.Some? && frame in s.tracker.streaming then {frame} else {}
  {
    var (s', outcome) := Submit(s, c, request, preflight, responses);
    var frame := request.frameNumber;
    var outputs := MakeOutputs(RequestOutputs(request));
    BindOutputsAdds(Start(s.tracker, request, outputs), frame, |outputs|, responses, 0);
    hide Orphans, BindOutputs;
    if !Rejects(s, c) {
      if outcome.Some? {
        ClearFrameOrphans(s.tracker, s'.tracker, frame);
      } else {
        BoundOrphans(s.tracker, s'.tracker);
      }
    }
  }
}
