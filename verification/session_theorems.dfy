/** What a camera session promises over every run of its critical sections. */
module SessionTheorems {
  import opened Wrappers
  import opened Bags
  import opened CameraTypes
  import opened InFlightTracker
  import opened CameraSession
  import opened SessionConsistency
  import opened SessionHistory
  import opened SessionLaws
  import opened SessionPreviews

  /* ---------------------------------- runs ---------------------------------- */

  /** Every event is admissible in the world it happens in. */
  predicate AdmissibleRun(w: World, c: Config, events: seq<Event>)
    decreases |events|
  {
    events == [] || (Admissible(w, c, events[0]) && AdmissibleRun(WorldNext(w, c, events[0]), c, events[1..]))
  }

  function RunWorld(w: World, c: Config, events: seq<Event>): World
    requires AdmissibleRun(w, c, events)
    decreases |events|
  {
    if events == [] then w else RunWorld(WorldNext(w, c, events[0]), c, events[1..])
  }

  lemma {:induction false} RunKeepsWorldInv(w: World, c: Config, events: seq<Event>)
    requires AdmissibleRun(w, c, events) && WorldInv(w, c) && EpochOver(w)
    ensures WorldInv(RunWorld(w, c, events), c) && EpochOver(RunWorld(w, c, events))
    decreases |events|
  {
    hide WorldInv, EpochOver, Admissible, WorldNext;
    if events != [] {
      NextKeepsWorldInv(w, c, events[0]);
      RunKeepsWorldInv(WorldNext(w, c, events[0]), c, events[1..]);
    }
  }

  lemma {:induction false} RunKeepsPreviews(w: World, c: Config, events: seq<Event>)
    requires AdmissibleRun(w, c, events) && WorldInv(w, c) && EpochOver(w) && PreviewsOk(w)
    ensures PreviewsOk(RunWorld(w, c, events))
    decreases |events|
  {
    assert TablesOk(w, c);
    hide WorldInv, EpochOver, Admissible, WorldNext, PreviewsOk, TablesOk;
    if events != [] {
      NextKeepsWorldInv(w, c, events[0]);
      NextKeepsPreviews(w, c, events[0]);
      RunKeepsPreviews(WorldNext(w, c, events[0]), c, events[1..]);
    }
  }

  /** In every reachable world the three tables agree: each bound token stands for an output that
      is not yet completed or for a streaming output, and outside streaming all three tables are
      empty. Each output and streaming output has exactly one token, exactly when no lease returned in
      this epoch was answered with a token that does not bind; otherwise the rows without a token are
      those registered for these leases. */
  lemma TablesStayInBijection(c: Config, events: seq<Event>)
    requires AdmissibleRun(NewWorld(), c, events)
    ensures var w := RunWorld(NewWorld(), c, events);
            var s := w.session;
            && Matched(s.tracker) && RowsOk(s.tracker)
            && (Bijective(s.tracker) <==> w.orphans == {})
            && Orphans(s.tracker) == w.orphans
            && FramesApart(s.tracker, FIRST_STREAMING_FRAME, s.nextStreamingFrame)
            && (!s.state.Streaming? ==> s.tracker == EMPTY)
  {
    NewWorldInv(c);
    NewPreviewsOk();
    RunKeepsWorldInv(NewWorld(), c, events);
    RunKeepsPreviews(NewWorld(), c, events);
    BijectiveExactlyWhen(RunWorld(NewWorld(), c, events).session.tracker);
    hide Bijective, Matched, RowsOk, Orphans, RowsConserved, FencesConserved, PreviewConserved, CompletedCounted;
  }

  /** Over every run, streaming restarts included, each streaming frame number is registered at most
      once, so a returned preview buffer never collides with another. */
  lemma StreamingFramesAreFresh(c: Config, events: seq<Event>)
    requires AdmissibleRun(NewWorld(), c, events)
    ensures var w := RunWorld(NewWorld(), c, events);
            && (forall i, j :: 0 <= i < j < |w.registered| ==> w.registered[i] != w.registered[j])
            && (forall f :: f in w.session.tracker.streaming ==> f in w.registered)
            && w.session.nextStreamingFrame !in w.registered
  {
    NewWorldInv(c);
    NewPreviewsOk();
    RunKeepsPreviews(NewWorld(), c, events);
  }

  /** Every row inserted is still in the table or has left it with exactly one result, and the
      completed counter is the number of Ok results, previews included. */
  lemma EveryRowHasOneResult(c: Config, events: seq<Event>)
    requires AdmissibleRun(NewWorld(), c, events)
    ensures var w := RunWorld(NewWorld(), c, events);
            && (forall f :: w.started[f] == FinishedFrames(w.log)[f]
                                            + if f in w.session.tracker.requests then 1 else 0)
            && w.session.completed == CountOk(w.log)
  {
    NewWorldInv(c);
    RunKeepsWorldInv(NewWorld(), c, events);
    var w := RunWorld(NewWorld(), c, events);
    hide FinishedFrames, CountOk, TablesOk, FencesConserved, PreviewConserved;
    forall f ensures w.started[f] == FinishedFrames(w.log)[f] + if f in w.session.tracker.requests then 1 else 0 {
      assert w.started[f] == (multiset(w.session.tracker.requests.Keys) + FinishedFrames(w.log))[f];
    }
  }

  /** Every release fence that left the processors is stored in a completed output of a row in
      flight or has been delivered in a result, and in no other place. */
  lemma EveryFenceIsHeldOnce(c: Config, events: seq<Event>)
    requires AdmissibleRun(NewWorld(), c, events)
    ensures var w := RunWorld(NewWorld(), c, events);
            && w.issued == Bag(w.session.tracker.requests, RowFences) + LogFences(w.log)
            && (w.session.tracker.requests == map[] ==> w.issued == LogFences(w.log))
  {
    NewWorldInv(c);
    RunKeepsWorldInv(NewWorld(), c, events);
    BagEmpty<Row, int>(RowFences);
  }

  /** While a streaming epoch lasts, the preview targets in the table, at callbacks, or refused are
      the configured ones, and those of leases of earlier epochs that the driver took back. */
  lemma PreviewTargetsAreConserved(c: Config, events: seq<Event>)
    requires AdmissibleRun(NewWorld(), c, events)
    ensures var w := RunWorld(NewWorld(), c, events);
            && Bag(w.session.tracker.streaming, StreamTarget) + Bag(w.out, StreamTarget) + w.refused
               == w.configured + w.adopted
            && (w.adopted == multiset{} ==>
                  Bag(w.session.tracker.streaming, StreamTarget) + Bag(w.out, StreamTarget) + w.refused
                  == w.configured)
  {
    NewWorldInv(c);
    RunKeepsWorldInv(NewWorld(), c, events);
  }

  /* ---------------------------------- dead tokens ---------------------------------- */

  /** The token was answered once and is no longer bound. */
  predicate Dead(w: World, token: nat) {
    token in w.used && token !in w.session.tracker.tokens
  }

  lemma StartLeavesDead(w: World, c: Config, driverStarted: bool, tokens: Option<seq<nat>>, token: nat)
    requires SessionOk(w.session) && Dead(w, token) && Admissible(w, c, DoStart(driverStarted, tokens))
    ensures Dead(AfterStart(w, c, driverStarted, tokens), token)
  {
    StartStreamingOk(w.session, c, driverStarted, tokens, w.used);
  }

  lemma SubmitLeavesDead(w: World, c: Config, request: Request, preflight: bool, responses: seq<Option<nat>>, token: nat)
    requires Dead(w, token) && Admissible(w, c, DoSubmit(request, preflight, responses))
    ensures Dead(AfterSubmit(w, c, request, preflight, responses), token)
  {
    SubmitTokens(w.session, c, request, preflight, responses);
  }

  lemma ReturnLeavesDead(w: World, c: Config, callback: nat, answer: Option<nat>, token: nat)
    requires Dead(w, token) && Admissible(w, c, DoReturn(callback, answer))
    ensures Dead(AfterReturn(w, c, callback, answer), token)
  {
  }

  lemma ResolveLeavesDead(w: World, c: Config, resolved: nat, timestamp: int, fences: seq<int>, token: nat)
    requires SessionOk(w.session) && Dead(w, token) && |fences| >= |c.processors|
    ensures Dead(AfterResolve(w, c, resolved, timestamp, fences), token)
  {
    hide SessionOk, Resolve, Take, ReleaseFence, FenceBag;
    ResolveFrame(w.session, c, resolved, timestamp, fences);
  }

  lemma NextLeavesDead(w: World, c: Config, e: Event, token: nat)
    requires SessionOk(w.session) && Dead(w, token) && Admissible(w, c, e)
    ensures Dead(WorldNext(w, c, e), token)
  {
    hide SessionOk, AfterStart, AfterSubmit, AfterReturn, AfterResolve, FlushOutcomes;
    match e
    case DoStart(driverStarted, tokens) => StartLeavesDead(w, c, driverStarted, tokens, token);
    case DoSubmit(request, preflight, responses) => SubmitLeavesDead(w, c, request, preflight, responses, token);
    case DoResolve(resolved, timestamp, fences) => ResolveLeavesDead(w, c, resolved, timestamp, fences, token);
    case DoReturn(callback, answer) => ReturnLeavesDead(w, c, callback, answer, token);
    case DoConfigure(_, _) =>
    case DoFlush(order) => OrderInRequests(order, w.session.tracker.requests.Keys);
    case DoClose(order) => OrderInRequests(order, w.session.tracker.requests.Keys);
  }

  /** A token that is no longer bound never resolves to anything again, in any later world. */
  lemma {:induction false} DeadForever(w: World, c: Config, events: seq<Event>, token: nat)
    requires WorldInv(w, c) && EpochOver(w) && AdmissibleRun(w, c, events) && Dead(w, token)
    ensures Dead(RunWorld(w, c, events), token)
    ensures forall timestamp, fences: seq<int> :: |fences| >= |c.processors| ==>
              Resolve(RunWorld(w, c, events).session, c, token, timestamp, fences).1.Nothing?
    decreases |events|
  {
    if events != [] {
      assert TablesOk(w, c);
      NextKeepsWorldInv(w, c, events[0]);
      NextLeavesDead(w, c, events[0], token);
      hide WorldInv, EpochOver, Admissible, WorldNext, Dead, Resolve;
      DeadForever(WorldNext(w, c, events[0]), c, events[1..], token);
    }
  }

  lemma FlushKillsTokens(w: World, c: Config, e: Event, token: nat)
    requires SessionOk(w.session) && token in w.used && Admissible(w, c, e)
    requires e.DoClose? || (e.DoFlush? && w.session.state.Streaming?)
    ensures Dead(WorldNext(w, c, e), token)
  {
    hide FlushOutcomes;
    OrderInRequests(e.order, w.session.tracker.requests.Keys);
  }

  /** After a flush or a close, no completion of a buffer submitted before it, whenever it was
      dequeued, ever produces a result. */
  lemma FlushedCompletionsProduceNothing(w: World, c: Config, e: Event, later: seq<Event>, token: nat)
    requires WorldInv(w, c) && EpochOver(w) && token in w.used && Admissible(w, c, e)
    requires e.DoClose? || (e.DoFlush? && w.session.state.Streaming?)
    requires AdmissibleRun(WorldNext(w, c, e), c, later)
    ensures var s := RunWorld(WorldNext(w, c, e), c, later).session;
            forall timestamp, fences: seq<int> :: |fences| >= |c.processors| ==>
              Resolve(s, c, token, timestamp, fences).1.Nothing?
  {
    FlushKillsTokens(w, c, e, token);
    hide WorldInv, EpochOver, Resolve, AdmissibleRun, Admissible, WorldNext, Dead;
    NextKeepsWorldInv(w, c, e);
    DeadForever(WorldNext(w, c, e), c, later, token);
  }

  /** Submission rollback: when the driver does not accept every output of a fresh frame, the tables
      are unchanged and none of its answers ever resolves to anything. */
  lemma RolledBackTokensNeverResolve(w: World, c: Config, request: Request, responses: seq<Option<nat>>, later: seq<Event>, k: nat)
    requires WorldInv(w, c) && EpochOver(w) && Admissible(w, c, DoSubmit(request, true, responses))
    requires Begins(w.session, c, request, true)
    requires Submit(w.session, c, request, true, responses).1.Some?
    requires k < |responses| && responses[k].Some?
    requires AdmissibleRun(AfterSubmit(w, c, request, true, responses), c, later)
    ensures AfterSubmit(w, c, request, true, responses).session.tracker == w.session.tracker
    ensures var s := RunWorld(AfterSubmit(w, c, request, true, responses), c, later).session;
            forall timestamp, fences: seq<int> :: |fences| >= |c.processors| ==>
              Resolve(s, c, responses[k].value, timestamp, fences).1.Nothing?
  {
    var w' := AfterSubmit(w, c, request, true, responses);
    FailedSubmitRestores(w.session, c, request, responses);
    NextKeepsWorldInv(w, c, DoSubmit(request, true, responses));
    assert responses[k].value in Answers(responses);
    assert Dead(w', responses[k].value);
    hide WorldInv, EpochOver, Resolve, AdmissibleRun, Submit;
    DeadForever(w', c, later, responses[k].value);
  }

  lemma FailedSubmitRestores(s: Session, c: Config, request: Request, responses: seq<Option<nat>>)
    requires SessionOk(s) && request.frameNumber < FIRST_STREAMING_FRAME && Begins(s, c, request, true)
    requires Submit(s, c, request, true, responses).1.Some?
    ensures Submit(s, c, request, true, responses).0.tracker == s.tracker
  {
    var outputs := MakeOutputs(RequestOutputs(request));
    if BindOutputs(Start(s.tracker, request, outputs), request.frameNumber, |outputs|, responses, 0).1 {
      AcceptedSubmitOk(s.tracker, s.nextStreamingFrame, request, responses);
    } else {
      RollbackIsExact(s.tracker, s.nextStreamingFrame, request, responses);
    }
  }

  /** With fresh answers a request becomes a row in flight exactly when the session is streaming,
      the preflight check passes, its frame number is not in flight, and the driver accepts every
      output; in every other case it produces one failed result at once. */
  lemma SubmitAcceptedExactlyWhen(s: Session, c: Config, used: set<nat>, request: Request, preflight: bool, responses: seq<Option<nat>>)
    requires SessionOk(s) && request.frameNumber < FIRST_STREAMING_FRAME
    requires s.tracker.tokens.Keys <= used && FreshResponses(responses, used)
    ensures Submit(s, c, request, preflight, responses).1.None?
            <==> Begins(s, c, request, preflight)
                 && forall j :: 0 <= j < TargetCount(request) ==> Answered(responses, j)
  {
    var outputs := MakeOutputs(RequestOutputs(request));
    RequestOutputsAreTargets(request);
    var started := Start(s.tracker, request, outputs);
    BindOutputsAll(started, request.frameNumber, |outputs|, responses, 0);
    SubmitEffect(s, c, request, preflight, responses);
    if Begins(s, c, request, preflight) {
      if BindOutputs(started, request.frameNumber, |outputs|, responses, 0).1 {
        AcceptedSubmitOk(s.tracker, s.nextStreamingFrame, request, responses);
      }
    }
  }

  /* ---------------------------------- lifecycle ---------------------------------- */

  /** A critical section with answers and arguments of any kind, also such as a driver or a framework
      should not give. */
  datatype Section =
    | AnyConfigure(driverConfigured: bool, registered: bool)
    | AnyStart(driverStarted: bool, tokens: Option<seq<nat>>)
    | AnySubmit(request: Request, preflight: bool, responses: seq<Option<nat>>)
    | AnyResolve(token: nat, timestamp: int, fences: seq<int>)
    | AnyReturn(output: StreamingOutput, answer: Option<nat>)
    | AnyFlush(order: seq<nat>)
    | AnyClose(order: seq<nat>)

  function AfterSection(s: Session, c: Config, x: Section): Session {
    match x
    case AnyConfigure(driverConfigured, registered) => Configure(s, c, driverConfigured, registered)
    case AnyStart(driverStarted, tokens) => StartStreaming(s, c, driverStarted, tokens)
    case AnySubmit(request, preflight, responses) => Submit(s, c, request, preflight, responses).0
    case AnyResolve(token, timestamp, fences) =>
      if |fences| < |c.processors| then s else Resolve(s, c, token, timestamp, fences).0
    case AnyReturn(output, answer) => ReturnLease(s, c, output, answer)
    case AnyFlush(order) => Flush(s, order)
    case AnyClose(order) => Close(s, order)
  }

  function RunSections(s: Session, c: Config, sections: seq<Section>): Session
    decreases |sections|
  {
    if sections == [] then s else RunSections(AfterSection(s, c, sections[0]), c, sections[1..])
  }

  /** Outside Streaming and Error all three tables are empty. */
  predicate Settled(s: Session) {
    s.state.Streaming? || s.state.Error? || s.tracker == EMPTY
  }

  lemma SectionKeepsLifecycle(s: Session, c: Config, x: Section)
    requires Settled(s)
    ensures var s' := AfterSection(s, c, x);
            Settled(s') && (s.state.Stopped? ==> s'.state.Stopped?) && (x.AnyClose? ==> s'.state.Stopped?)
  {
    if x.AnyResolve? && |x.fences| >= |c.processors| {
      ResolveStateStays(s, c, x.token, x.timestamp, x.fences);
    }
    hide Resolve, Take, Process, RegisterPreview, BindOutputs;
  }

  lemma ResolveStateStays(s: Session, c: Config, token: nat, timestamp: int, fences: seq<int>)
    requires |fences| >= |c.processors|
    ensures var s' := Resolve(s, c, token, timestamp, fences).0;
            s'.state == s.state && (s.tracker == EMPTY ==> s'.tracker == EMPTY)
  {
    hide Process, OutputTarget;
  }

  lemma {:induction false} SectionsKeepLifecycle(s: Session, c: Config, sections: seq<Section>)
    requires Settled(s)
    ensures var s' := RunSections(s, c, sections); Settled(s') && (s.state.Stopped? ==> s'.state.Stopped?)
    decreases |sections|
  {
    hide AfterSection, Settled;
    if sections != [] {
      SectionKeepsLifecycle(s, c, sections[0]);
      SectionsKeepLifecycle(AfterSection(s, c, sections[0]), c, sections[1..]);
    }
  }

  lemma {:induction false} SectionsInTwo(s: Session, c: Config, first: seq<Section>, second: seq<Section>)
    ensures RunSections(s, c, first + second) == RunSections(RunSections(s, c, first), c, second)
    decreases |first|
  {
    hide AfterSection;
    if first == [] {
      assert first + second == second;
    } else {
      assert (first + second)[1..] == first[1..] + second;
      SectionsInTwo(AfterSection(s, c, first[0]), c, first[1..], second);
    }
  }

  /** In every run of the critical sections, whatever the driver, the processors, the callbacks and the
      framework answer: the tables are empty outside Streaming and Error, and after a close the session
      is stopped for good. */
  lemma LifecycleIsKept(c: Config, before: seq<Section>, order: seq<nat>, later: seq<Section>)
    ensures Settled(RunSections(NEW_SESSION, c, before))
    ensures RunSections(NEW_SESSION, c, before + [AnyClose(order)] + later).state.Stopped?
    ensures RunSections(NEW_SESSION, c, before + [AnyClose(order)] + later).tracker == EMPTY
  {
    var s := RunSections(NEW_SESSION, c, before);
    var closed := AfterSection(s, c, AnyClose(order));
    SectionsKeepLifecycle(NEW_SESSION, c, before);
    SectionKeepsLifecycle(s, c, AnyClose(order));
    SectionsKeepLifecycle(closed, c, later);
    hide AfterSection;
    assert before + [AnyClose(order)] + later == before + ([AnyClose(order)] + later);
    SectionsInTwo(NEW_SESSION, c, before, [AnyClose(order)] + later);
    assert ([AnyClose(order)] + later)[1..] == later;
  }
}
