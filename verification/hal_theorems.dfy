/** What the session and its V4L2 adapter promise together, over every run. */
module HalTheorems {
  import opened Wrappers
  import opened CameraTypes
  import opened InFlightTracker
  import opened CameraSession
  import opened SessionConsistency
  import opened SessionHistory
  import opened SessionLaws
  import opened SessionTheorems
  import opened SessionPreviews
  import opened SessionReports
  import opened V4L2Router
  import opened HalSystem
  import opened HalRouting

  lemma NextKeepsSystemInv(y: System, u: Setup, e: SystemEvent)
    requires SystemInv(y, u) && SysAdmissible(y, u, e)
    ensures SystemInv(SysNext(y, u, e), u)
  {
    hide SystemInv;
    match e
    case SysConfigure(devices, registered) => ConfigureKeeps(y, u, devices, registered);
    case SysStart(ios) => StartKeeps(y, u, ios);
    case SysSubmit(request, ios) => SubmitKeeps(y, u, request, ios);
    case SysDequeue(readyFd, choice) => DequeueKeeps(y, u, readyFd, choice);
    case SysResolve(token, timestamp, fences) => ResolveKeeps(y, u, token, timestamp, fences);
    case SysReturn(callback, io) => ReturnKeeps(y, u, callback, io);
    case SysFlush(order, streamOffs) => FlushKeeps(y, u, order, streamOffs);
    case SysClose(order, streamOffs) => CloseKeeps(y, u, order, streamOffs);
  }

  /** The driver's answers are always fresh: each step of the system is an admissible step of the
      session, or leaves the session as it is. */
  lemma StepIsASessionStep(y: System, u: Setup, e: SystemEvent)
    requires SystemInv(y, u) && SysAdmissible(y, u, e)
    ensures var step := SessionEvent(y, u, e);
            if step.None? then SysNext(y, u, e).world == y.world
            else Admissible(y.world, u.config, step.value)
                 && SysNext(y, u, e).world == WorldNext(y.world, u.config, step.value)
  {
    hide WorldInv, EpochOver, PreviewsOk, Sound, TokensLinked, TokensBacked, FillersOk, PreviewLinked, RowsFromRequests, WorldNext,
         StartDriver, SubmitDriver, ReturnDriver, ConfigureAll, DequeueAt, KernelFd;
    match e
    case SysConfigure(devices, registered) =>
    case SysStart(ios) => StartAdmissible(y, u, ios);
    case SysSubmit(request, ios) => SubmitAdmissible(y, u, request, ios);
    case SysDequeue(readyFd, choice) =>
    case SysResolve(token, timestamp, fences) =>
    case SysReturn(callback, io) => ReturnKeeps(y, u, callback, io);
    case SysFlush(order, streamOffs) =>
    case SysClose(order, streamOffs) =>
  }

  lemma {:induction false} RunKeepsSystemInv(y: System, u: Setup, events: seq<SystemEvent>)
    requires SystemInv(y, u) && SysAdmissibleRun(y, u, events)
    ensures SystemInv(RunSystem(y, u, events), u)
    decreases |events|
  {
    hide SystemInv, SysNext, SysAdmissible;
    if events != [] {
      NextKeepsSystemInv(y, u, events[0]);
      RunKeepsSystemInv(SysNext(y, u, events[0]), u, events[1..]);
    }
  }

  /** The steps of the session in a run of the system. */
  function SessionEvents(y: System, u: Setup, events: seq<SystemEvent>): seq<Event>
    requires SysAdmissibleRun(y, u, events)
    decreases |events|
  {
    if events == [] then []
    else
      var step := SessionEvent(y, u, events[0]);
      var rest := SessionEvents(SysNext(y, u, events[0]), u, events[1..]);
      if step.None? then rest else [step.value] + rest
  }

  /** Every run of the session with its V4L2 adapter is, seen from the session, an admissible run of
      the session, so everything proved of those holds here. */
  lemma {:induction false} EveryRunIsASessionRun(y: System, u: Setup, events: seq<SystemEvent>)
    requires SystemInv(y, u) && SysAdmissibleRun(y, u, events)
    ensures var steps := SessionEvents(y, u, events);
            && AdmissibleRun(y.world, u.config, steps)
            && RunWorld(y.world, u.config, steps) == RunSystem(y, u, events).world
    decreases |events|
  {
    if events != [] {
      NextKeepsSystemInv(y, u, events[0]);
      StepIsASessionStep(y, u, events[0]);
      hide SystemInv, SysNext, SysAdmissible, SessionEvent, Admissible, WorldNext;
      var y1 := SysNext(y, u, events[0]);
      EveryRunIsASessionRun(y1, u, events[1..]);
      var step := SessionEvent(y, u, events[0]);
      if step.Some? {
        assert SessionEvents(y, u, events)[1..] == SessionEvents(y1, u, events[1..]);
      }
    }
  }

  /* ---------------------------------- routing ---------------------------------- */

  /** Entry i of the result names the buffer of output i as the framework gave it in its request, and the
      dma-buf of that output is the one the kernel held for the index whose completion filled the entry. A
      request that names no output has one entry, for a buffer without number or descriptor. */
  predicate EntryRouted(y: System, request: Request, result: Result, i: nat)
    requires i < |result.buffers|
  {
    var c, b := Context(result.frameNumber, i), result.buffers[i];
    && b.outputIndex == i && b.status.Ok?
    && c in y.filler && y.filler[c] in y.held
    && if request.outputs != [] then
         && i < |request.outputs|
         && b.bufferId == request.outputs[i].bufferId && b.streamId == request.outputs[i].streamId
         && y.held[y.filler[c]] == request.outputs[i].bufferFd
       else i == 0 && b.bufferId == -1 && b.streamId == 0 && y.held[y.filler[c]] == -1
  }

  /** One entry for each output of the request, each filled by a token of its own. */
  predicate Routed(y: System, request: Request, result: Result) {
    && result.status.Ok?
    && |result.buffers| == (if request.outputs == [] then 1 else |request.outputs|)
    && (forall i :: 0 <= i < |result.buffers| ==> EntryRouted(y, request, result, i))
    && (forall i, j :: 0 <= i < j < |result.buffers| ==>
          EntryRouted(y, request, result, i) && EntryRouted(y, request, result, j)
          && y.filler[Context(result.frameNumber, i)] != y.filler[Context(result.frameNumber, j)])
  }

  /** The entry of output i, once every output of the row is completed. */
  lemma EntryRoutes(y: System, y': System, token: nat, outputs: seq<Output>, result: Result, i: nat)
    requires FillersOk(y) && RowsFromRequests(y.world.session.tracker) && y'.held == y.held
    requires var t := y.world.session.tracker;
             && token in t.tokens && t.tokens[token].outputIndex >= 0 && Outstanding(t, t.tokens[token])
             && token in y.held && y.held[token] == ContextFd(t, t.tokens[token])
             && y'.filler == y.filler[t.tokens[token] := token]
             && var x := t.tokens[token];
                var row := t.requests[x.frameNumber];
                && |outputs| == |row.outputs| && AllCompleted(outputs)
                && (forall k :: 0 <= k < |outputs| ==>
                      outputs[k].outputIndex == k && outputs[k].target == row.outputs[k].target
                      && (k != x.outputIndex ==> outputs[k] == row.outputs[k]))
                && result.frameNumber == x.frameNumber && result.buffers == CompletedBuffers(outputs, Ok)
    requires i < |outputs|
    ensures var x := y.world.session.tracker.tokens[token];
            var request := y.world.session.tracker.requests[x.frameNumber].request;
            var c := Context(x.frameNumber, i);
            && |outputs| == |RequestOutputs(request)|
            && result.buffers[i].bufferId == RequestOutputs(request)[i].bufferId
            && result.buffers[i].streamId == RequestOutputs(request)[i].streamId
            && result.buffers[i].outputIndex == i && result.buffers[i].status.Ok?
            && c in y'.filler && y'.filler[c] in y'.held && y'.held[y'.filler[c]] == RequestOutputs(request)[i].bufferFd
            && (i != x.outputIndex ==> CompletedIn(y.world.session.tracker, c) && y'.filler[c] == y.filler[c])
  {
    var t := y.world.session.tracker;
    var x := t.tokens[token];
    assert FromRequest(t.requests[x.frameNumber]);
    assert outputs[i].completed;
    if i != x.outputIndex {
      assert CompletedIn(t, Context(x.frameNumber, i));
    }
  }

  lemma RowRoutes(y: System, y': System, token: nat, outputs: seq<Output>, result: Result)
    requires FillersOk(y) && RowsFromRequests(y.world.session.tracker) && y'.held == y.held
    requires var t := y.world.session.tracker;
             && token in t.tokens && t.tokens[token].outputIndex >= 0 && Outstanding(t, t.tokens[token])
             && token in y.held && y.held[token] == ContextFd(t, t.tokens[token])
             && y'.filler == y.filler[t.tokens[token] := token]
             && var x := t.tokens[token];
                var row := t.requests[x.frameNumber];
                && |outputs| == |row.outputs| && AllCompleted(outputs)
                && (forall k :: 0 <= k < |outputs| ==>
                      outputs[k].outputIndex == k && outputs[k].target == row.outputs[k].target
                      && (k != x.outputIndex ==> outputs[k] == row.outputs[k]))
                && result.frameNumber == x.frameNumber && result.buffers == CompletedBuffers(outputs, Ok)
                && result.status.Ok?
    ensures Routed(y', y.world.session.tracker.requests[result.frameNumber].request, result)
  {
    var t := y.world.session.tracker;
    var x := t.tokens[token];
    assert FromRequest(t.requests[x.frameNumber]);
    hide ContextFd, AllCompleted, CompletedIn, CompletedBuffers;
    forall i | 0 <= i < |outputs|
      ensures && Context(x.frameNumber, i) in y'.filler
              && (i != x.outputIndex ==>
                    && CompletedIn(t, Context(x.frameNumber, i))
                    && y'.filler[Context(x.frameNumber, i)] == y.filler[Context(x.frameNumber, i)])
    {
      EntryRoutes(y, y', token, outputs, result, i);
    }
    RequestOutputsAreTargets(t.requests[x.frameNumber].request);
    forall i | 0 <= i < |result.buffers|
      ensures EntryRouted(y', t.requests[x.frameNumber].request, result, i)
    {
      EntryRoutes(y, y', token, outputs, result, i);
    }
  }

  /** End-to-end routing in one step. */
  lemma ResolveRoutes(y: System, u: Setup, token: nat, timestamp: int, fences: seq<int>)
    requires SystemInv(y, u) && SysAdmissible(y, u, SysResolve(token, timestamp, fences))
    ensures var y' := SysNext(y, u, SysResolve(token, timestamp, fences));
            var rows := y.world.session.tracker.requests;
            match Resolve(y.world.session, u.config, token, timestamp, fences).1
            case Nothing => true
            case RowDone(outcome) =>
              outcome.result.frameNumber in rows
              && Routed(y', rows[outcome.result.frameNumber].request, outcome.result)
            case PreviewDone(outcome, output) =>
              && |outcome.result.buffers| == 1
              && outcome.result.buffers[0].bufferId == output.target.bufferId
              && y.held[token] == output.target.bufferFd
  {
    hide *;
    var s := y.world.session;
    SystemParts(y, u);
    SystemResolves(y, u, token, timestamp, fences);
    if token !in s.tracker.tokens {
      UnboundProducesNothing(s, u.config, token, timestamp, fences);
    } else {
      HeldIsBacked(y, token);
      if s.tracker.tokens[token].outputIndex < 0 {
        PreviewRoutes(y, u, token, timestamp, fences);
      } else {
        RequestRoutes(y, SysNext(y, u, SysResolve(token, timestamp, fences)), u, token, timestamp, fences);
      }
    }
  }

  lemma SystemParts(y: System, u: Setup)
    requires SystemInv(y, u)
    ensures SessionOk(y.world.session) && TokensLinked(y) && TokensBacked(y) && FillersOk(y)
    ensures RowsFromRequests(y.world.session.tracker)
  {
  }

  lemma SystemResolves(y: System, u: Setup, token: nat, timestamp: int, fences: seq<int>)
    requires SysAdmissible(y, u, SysResolve(token, timestamp, fences))
    ensures token in y.held && |fences| >= |u.config.processors|
    ensures var y' := SysNext(y, u, SysResolve(token, timestamp, fences));
            var tokens := y.world.session.tracker.tokens;
            y'.held == y.held && (token in tokens ==> y'.filler == y.filler[tokens[token] := token])
  {
    hide StepWorld;
  }

  lemma UnboundProducesNothing(s: Session, c: Config, token: nat, timestamp: int, fences: seq<int>)
    requires token !in s.tracker.tokens && |fences| >= |c.processors|
    ensures Resolve(s, c, token, timestamp, fences).1.Nothing?
  {
    hide Process;
  }

  lemma PreviewRoutes(y: System, u: Setup, token: nat, timestamp: int, fences: seq<int>)
    requires SessionOk(y.world.session) && |fences| >= |u.config.processors| && token in y.held
    requires var t := y.world.session.tracker;
             token in t.tokens && t.tokens[token].outputIndex < 0 && y.held[token] == ContextFd(t, t.tokens[token])
    ensures var resolution := Resolve(y.world.session, u.config, token, timestamp, fences).1;
            && resolution.PreviewDone? && |resolution.outcome.result.buffers| == 1
            && resolution.outcome.result.buffers[0].bufferId == resolution.output.target.bufferId
            && y.held[token] == resolution.output.target.bufferFd
  {
    hide SessionOk, Resolve, ReleaseFence, Take;
    ResolvePreview(y.world.session, u.config, token, timestamp, fences);
  }

  lemma RequestRoutes(y: System, y': System, u: Setup, token: nat, timestamp: int, fences: seq<int>)
    requires SessionOk(y.world.session) && FillersOk(y) && RowsFromRequests(y.world.session.tracker)
    requires |fences| >= |u.config.processors| && token in y.held
    requires var t := y.world.session.tracker;
             && token in t.tokens && t.tokens[token].outputIndex >= 0 && y.held[token] == ContextFd(t, t.tokens[token])
             && y'.held == y.held && y'.filler == y.filler[t.tokens[token] := token]
    ensures var rows := y.world.session.tracker.requests;
            var resolution := Resolve(y.world.session, u.config, token, timestamp, fences).1;
            resolution.Nothing?
            || (resolution.RowDone? && resolution.outcome.result.frameNumber in rows
                && Routed(y', rows[resolution.outcome.result.frameNumber].request, resolution.outcome.result))
  {
    hide SessionOk, Resolve, ReleaseFence, Take, FillersOk, RowsFromRequests, Routed, ContextFd, OutputFences;
    var s := y.world.session;
    ResolveRequest(s, u.config, token, timestamp, fences);
    var x := s.tracker.tokens[token];
    var row := s.tracker.requests[x.frameNumber];
    var outputs := row.outputs[x.outputIndex := row.outputs[x.outputIndex].(
      completed := true, releaseFence := ReleaseFence(u.config.processors, fences))];
    var resolution := Resolve(s, u.config, token, timestamp, fences).1;
    if resolution.RowDone? {
      RowRoutes(y, y', token, outputs, resolution.outcome.result);
    }
  }

  /** The state a run of the system reaches from its beginning. */
  function Reached(u: Setup, events: seq<SystemEvent>): System
    requires SysAdmissibleRun(NewSystem(u), u, events)
  {
    RunSystem(NewSystem(u), u, events)
  }

  lemma ReachedInv(u: Setup, events: seq<SystemEvent>)
    requires SysAdmissibleRun(NewSystem(u), u, events)
    ensures SystemInv(Reached(u, events), u)
  {
    NewSystemInv(u);
    RunKeepsSystemInv(NewSystem(u), u, events);
  }

  lemma SystemRowsStand(u: Setup, events: seq<SystemEvent>)
    requires SysAdmissibleRun(NewSystem(u), u, events)
    ensures AllStandFor(Reached(u, events).world.session.tracker)
  {
    SystemRunWorld(u, events);
    NewWorldInv(u.config);
    hide SysAdmissibleRun, SessionEvents, Reached, WorldInv;
    RunKeepsStanding(NewWorld(), u.config, SessionEvents(NewSystem(u), u, events));
  }

  /** The size and the format of a result for the completion of this token: those of the target whose token
      it is. */
  predicate SizedBy(request: Request, i: int, result: Result) {
    if request.outputs != [] then
      0 <= i < |request.outputs|
      && HasFormatOf(result, request.outputs[i].width, request.outputs[i].height, request.outputs[i].format)
    else HasFormatOf(result, request.width, request.height, Rgb24)
  }

  /** End-to-end routing over every run, with any number of endpoints, restarts and stale
      completions, and whatever fences and system calls answer: every entry of an Ok result names the
      buffer of the very output whose dma-buf the kernel held for the dequeued index, and the result has the
      size and the format of the target that was completed last. */
  lemma EveryEntryNamesItsBuffer(u: Setup, events: seq<SystemEvent>,
                                 token: nat, timestamp: int, fences: seq<int>)
    requires SysAdmissibleRun(NewSystem(u), u, events)
    requires SysAdmissible(Reached(u, events), u, SysResolve(token, timestamp, fences))
    ensures var y := Reached(u, events);
            var y' := SysNext(y, u, SysResolve(token, timestamp, fences));
            var t := y.world.session.tracker;
            match Resolve(y.world.session, u.config, token, timestamp, fences).1
            case Nothing => true
            case RowDone(outcome) =>
              && token in t.tokens && outcome.result.frameNumber == t.tokens[token].frameNumber
              && outcome.result.frameNumber in t.requests
              && var request := t.requests[outcome.result.frameNumber].request;
              && Routed(y', request, outcome.result) && SizedBy(request, t.tokens[token].outputIndex, outcome.result)
            case PreviewDone(outcome, output) =>
              && |outcome.result.buffers| == 1
              && outcome.result.buffers[0].bufferId == output.target.bufferId
              && outcome.result.buffers[0].streamId == output.target.streamId
              && HasFormatOf(outcome.result, output.target.width, output.target.height, output.target.format)
              && y.held[token] == output.target.bufferFd
  {
    var y := Reached(u, events);
    hide SystemInv, SysNext, Resolve, Routed;
    ReachedInv(u, events);
    ResolveRoutes(y, u, token, timestamp, fences);
    SystemRowsStand(u, events);
    SystemParts(y, u);
    hide SysAdmissibleRun, Reached, EntryRouted, AllStandFor, SessionOk, TokensLinked, TokensBacked, FillersOk,
         RowsFromRequests;
    ResolveSizes(y.world.session, u.config, token, timestamp, fences);
  }

  lemma ResolveSizes(s: Session, c: Config, token: nat, timestamp: int, fences: seq<int>)
    requires SessionOk(s) && AllStandFor(s.tracker) && |fences| >= |c.processors|
    ensures match Resolve(s, c, token, timestamp, fences).1
            case Nothing => true
            case RowDone(outcome) =>
              && token in s.tracker.tokens && outcome.result.frameNumber == s.tracker.tokens[token].frameNumber
              && outcome.result.frameNumber in s.tracker.requests
              && SizedBy(s.tracker.requests[outcome.result.frameNumber].request, s.tracker.tokens[token].outputIndex, outcome.result)
            case PreviewDone(outcome, output) =>
              && |outcome.result.buffers| == 1
              && outcome.result.buffers[0].streamId == output.target.streamId
              && HasFormatOf(outcome.result, output.target.width, output.target.height, output.target.format)
  {
    hide SessionOk, Resolve, AllStandFor, HasFormatOf, Lists, ReleaseFence;
    ResolveReports(s, c, token, timestamp, fences);
    if token in s.tracker.tokens {
      if s.tracker.tokens[token].outputIndex >= 0 {
        RequestReports(s, c, token, timestamp, fences);
      } else {
        PreviewReports(s, c, token, timestamp, fences);
      }
    }
  }

  /** No token is ever carried by two completions, across all endpoints and restarts. */
  lemma TokensAreCarriedOnce(u: Setup, events: seq<SystemEvent>,
                             readyFd: int, choice: Option<nat>)
    requires SysAdmissibleRun(NewSystem(u), u, events)
    ensures var y := Reached(u, events);
            var (_, token) := DequeueAt(y.multi, readyFd, choice);
            token.Some? ==> token.value !in y.held && 0 < token.value < y.multi.nextToken
  {
    var y := Reached(u, events);
    ReachedInv(u, events);
    hide WorldInv, SysAdmissibleRun;
    if DequeueAt(y.multi, readyFd, choice).1.Some? {
      var served := DequeueAtServes(y.multi, readyFd, choice);
      hide DequeueAt;
      var (e, i) := served.value;
      assert QueuedAt(y.multi, e, i);
    }
  }

  lemma AnsweredRequestIsInserted(w: World, c: Config, request: Request, responses: seq<Option<nat>>)
    requires SessionOk(w.session) && request.frameNumber < FIRST_STREAMING_FRAME
    requires w.session.tracker.tokens.Keys <= w.used && FreshResponses(responses, w.used)
    requires Begins(w.session, c, request, true)
    requires |responses| == |RequestOutputs(request)| && forall k :: 0 <= k < |responses| ==> responses[k].Some?
    ensures var w' := AfterSubmit(w, c, request, true, responses);
            && w'.log == w.log
            && request.frameNumber in w'.session.tracker.requests
            && w'.session.tracker.requests[request.frameNumber].request == request
  {
    hide SessionOk, Submit, FreshResponses, Begins, BufferFences, RowFences;
    SubmitAcceptedExactlyWhen(w.session, c, w.used, request, true, responses);
    SubmitEffect(w.session, c, request, true, responses);
  }

  /** STREAMON and STREAMOFF succeed whenever this event sends them. */
  predicate Faultless(e: SystemEvent) {
    match e
    case SysStart(ios) => StreamOnsOk(ios)
    case SysSubmit(_, ios) => StreamOnsOk(ios)
    case SysReturn(_, io) => io.streamOnOk
    case SysFlush(_, streamOffs) => forall i :: 0 <= i < |streamOffs| ==> streamOffs[i]
    case SysClose(_, streamOffs) => forall i :: 0 <= i < |streamOffs| ==> streamOffs[i]
    case _ => true
  }

  lemma FaultlessStepAgrees(y: System, u: Setup, e: SystemEvent)
    requires AllAgree(y.multi) && SysAdmissible(y, u, e) && Faultless(e)
    ensures AllAgree(SysNext(y, u, e).multi)
  {
    hide AllAgree, StepWorld, StreamOnsOk;
    match e
    case SysConfigure(devices, registered) => ConfigureFromAgrees(y.multi, devices, 0);
    case SysStart(ios) =>
      StartFromAgrees(y.multi, 0);
      StartContinuousAgrees(StartFrom(y.multi, 0).0, u.previewType, u.config.previewBuffers, ios);
    case SysSubmit(request, ios) => SubmitTargetsAgrees(y.multi, RequestOutputs(request), ios, 0);
    case SysDequeue(readyFd, choice) => DequeueAtAgrees(y.multi, readyFd, choice);
    case SysResolve(token, timestamp, fences) =>
    case SysReturn(callback, io) =>
      var output := Callback(y.world, callback);
      if output.Some? {
        ReturnBufferAgrees(y.multi, output.value.streamType, output.value.target.bufferFd,
                           output.value.target.bufferSize, io);
      }
    case SysFlush(order, streamOffs) => StopAllAgrees(y.multi, streamOffs);
    case SysClose(order, streamOffs) => CloseAllAgrees(StopAll(y.multi, streamOffs));
  }

  lemma {:induction false} FaultlessRunAgrees(y: System, u: Setup, events: seq<SystemEvent>)
    requires AllAgree(y.multi) && SysAdmissibleRun(y, u, events)
    requires forall i :: 0 <= i < |events| ==> Faultless(events[i])
    ensures AllAgree(RunSystem(y, u, events).multi)
    decreases |events|
  {
    hide AllAgree, SysNext, SysAdmissible, Faultless;
    if events != [] {
      FaultlessStepAgrees(y, u, events[0]);
      FaultlessRunAgrees(SysNext(y, u, events[0]), u, events[1..]);
    }
  }

  lemma PreflightedDriver(y: System, u: Setup, request: Request, ios: seq<V4L2.Io>)
    requires AllAgree(y.multi) && TokensApart(y.multi) && |ios| == |RequestOutputs(request)| && AllAnswerOk(ios)
    requires Begins(y.world.session, u.config, request, CanSubmitAll(y.multi, RequestOutputs(request)))
    ensures var (_, preflight, responses) := SubmitDriver(y, u, request, ios);
            && preflight && |responses| == |RequestOutputs(request)|
            && forall k :: 0 <= k < |responses| ==> responses[k].Some?
  {
    hide AllAgree, TokensApart, SubmitTargets, CanSubmitAll, Placed, AllAnswerOk;
    PreflightIsSufficient(y.multi, RequestOutputs(request), ios);
  }

  /** In every run in which STREAMON and STREAMOFF have not failed: a request with a new frame number
      that passes the preflight check becomes a row in flight when its fences and system calls
      succeed; it produces no failure. */
  lemma PreflightedRequestIsAccepted(u: Setup, events: seq<SystemEvent>, request: Request, ios: seq<V4L2.Io>)
    requires SysAdmissibleRun(NewSystem(u), u, events) && forall i :: 0 <= i < |events| ==> Faultless(events[i])
    requires SysAdmissible(Reached(u, events), u, SysSubmit(request, ios)) && AllAnswerOk(ios)
    requires var y := Reached(u, events);
             Begins(y.world.session, u.config, request, CanSubmitAll(y.multi, RequestOutputs(request)))
    ensures var y := Reached(u, events);
            var y' := SysNext(y, u, SysSubmit(request, ios));
            && y'.world.log == y.world.log
            && request.frameNumber in y'.world.session.tracker.requests
            && y'.world.session.tracker.requests[request.frameNumber].request == request
  {
    var y := Reached(u, events);
    FaultlessRunAgrees(NewSystem(u), u, events);
    ReachedInv(u, events);
    assert SessionOk(y.world.session) && y.world.session.tracker.tokens.Keys <= y.world.used;
    hide SysAdmissibleRun, Reached, WorldInv, TokensLinked, TokensBacked, FillersOk, PreviewLinked, AllCovered, AllAgree,
         TokensApart, PreviewsOk, EpochOver, RowsFromRequests, SessionOk, SubmitDriver, CanSubmitAll, AfterSubmit,
         AllAnswerOk;
    PreflightedDriver(y, u, request, ios);
    SubmitAdmissible(y, u, request, ios);
    AnsweredRequestIsInserted(y.world, u.config, request, SubmitDriver(y, u, request, ios).2);
  }

  /** Conservation with the V4L2 adapter behind the session: every row inserted is still in flight or
      has left with exactly one result, and the streaming rows without a token are exactly those of
      the leases that were answered with token 0. */
  lemma SystemConservesRows(u: Setup, events: seq<SystemEvent>)
    requires SysAdmissibleRun(NewSystem(u), u, events)
    ensures var w := Reached(u, events).world;
            && (forall f :: w.started[f] == FinishedFrames(w.log)[f]
                                            + if f in w.session.tracker.requests then 1 else 0)
            && w.session.completed == CountOk(w.log)
            && Matched(w.session.tracker) && Orphans(w.session.tracker) == w.orphans
  {
    SystemRunWorld(u, events);
    hide *;
    var steps := SessionEvents(NewSystem(u), u, events);
    EveryRowHasOneResult(u.config, steps);
    TablesStayInBijection(u.config, steps);
  }

  lemma SystemRunWorld(u: Setup, events: seq<SystemEvent>)
    requires SysAdmissibleRun(NewSystem(u), u, events)
    ensures AdmissibleRun(NewWorld(), u.config, SessionEvents(NewSystem(u), u, events))
    ensures Reached(u, events).world == RunWorld(NewWorld(), u.config, SessionEvents(NewSystem(u), u, events))
  {
    NewSystemInv(u);
    EveryRunIsASessionRun(NewSystem(u), u, events);
  }

  /** No output is forgotten by the driver: for every output and every streaming output that is still
      owed, unless its lease was answered with token 0, there is a token for which the kernel holds
      its dma-buf, or whose completion was dequeued with this dma-buf and waits to be resolved. */
  lemma EveryOwedOutputIsBacked(u: Setup, events: seq<SystemEvent>, c: Context) returns (token: nat)
    requires SysAdmissibleRun(NewSystem(u), u, events)
    requires var w := Reached(u, events).world;
             Outstanding(w.session.tracker, c) && !(c.outputIndex == -1 && c.frameNumber in w.orphans)
    ensures var y := Reached(u, events);
            var t := y.world.session.tracker;
            && token in t.tokens && t.tokens[token] == c
            && ((token in y.held && y.held[token] == ContextFd(t, c))
                || KernelHolds(y.multi, token, ContextFd(t, c)))
  {
    var y := Reached(u, events);
    ReachedInv(u, events);
    var t := y.world.session.tracker;
    OwedHasToken(t, y.world.orphans, c);
    assert AllCovered(y.multi) && TokensBacked(y);
    hide *;
    token := OwedIsBacked(y, c);
  }

  lemma OwedHasToken(t: Tracker, orphans: set<nat>, c: Context)
    requires Matched(t) && Orphans(t) == orphans
    requires Outstanding(t, c) && !(c.outputIndex == -1 && c.frameNumber in orphans)
    ensures c in t.tokens.Values
  {
    if c.outputIndex == -1 {
      assert c == Context(c.frameNumber, -1) && c.frameNumber !in Orphans(t);
    }
  }

  lemma OwedIsBacked(y: System, c: Context) returns (token: nat)
    requires AllCovered(y.multi) && TokensBacked(y) && c in y.world.session.tracker.tokens.Values
    ensures var t := y.world.session.tracker;
            && token in t.tokens && t.tokens[token] == c
            && ((token in y.held && y.held[token] == ContextFd(t, c))
                || KernelHolds(y.multi, token, ContextFd(t, c)))
  {
    var t := y.world.session.tracker;
    hide ContextFd, AllCovered;
    token :| token in t.tokens && t.tokens[token] == c;
    assert Backed(y, token, ContextFd(t, c));
    if !(token in y.held && y.held[token] == ContextFd(t, c)) {
      var e: nat :| HoldsAt(y.multi, e, token, ContextFd(t, c));
      QueuedIsHeld(y.multi, e, token, ContextFd(t, c));
    }
  }

  /** Some endpoint has queued the token, and its kernel queue holds the dma-buf under that index. */
  ghost predicate KernelHolds(m: Multi, token: nat, bufferFd: int) {
    exists e, i ::
      && QueuedAt(m, e, i) && TokenAt(m, e, i) == token
      && i in m.endpoints[e].adapter.kernel.held && m.endpoints[e].adapter.kernel.held[i] == bufferFd
  }

  lemma QueuedIsHeld(m: Multi, e: nat, token: nat, bufferFd: int)
    requires AllCovered(m) && HoldsAt(m, e, token, bufferFd)
    ensures KernelHolds(m, token, bufferFd)
  {
    var i :| QueuedAt(m, e, i) && TokenAt(m, e, i) == token && m.endpoints[e].adapter.slots[i].bufferFd == bufferFd;
    assert V4L2.Covered(m.endpoints[e].adapter);
    assert V4L2.SlotCovered(m.endpoints[e].adapter, i);
  }
}
