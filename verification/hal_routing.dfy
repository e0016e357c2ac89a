/** Every step of the session with its V4L2 adapter keeps tokens, slots and tables linked. */
module HalRouting {
  import opened Wrappers
  import opened CameraTypes
  import opened InFlightTracker
  import opened CameraSession
  import opened SessionConsistency
  import opened SessionHistory
  import opened SessionLaws
  import opened SessionPreviews
  import opened V4L2Router
  import opened HalSystem

  /* ---------------------------------- shared steps ---------------------------------- */

  lemma LinkTokens(y: System, y': System)
    requires TokensLinked(y) && Grows(y.multi, y'.multi) && y'.held == y.held
    requires forall t :: t in y'.world.used ==> t in y.world.used || t < y'.multi.nextToken
    ensures TokensLinked(y')
  {
    forall e, i | QueuedAt(y'.multi, e, i) ensures TokenAt(y'.multi, e, i) !in y'.held {
      if TokenAt(y'.multi, e, i) < y.multi.nextToken {
        assert SlotKept(y'.multi, y.multi, e, i);
      }
    }
  }

  lemma GrowsBacked(y: System, y': System, token: nat, bufferFd: int)
    requires Grows(y.multi, y'.multi) && y'.held == y.held && Backed(y, token, bufferFd)
    ensures Backed(y', token, bufferFd)
  {
    if !(token in y.held && y.held[token] == bufferFd) {
      var e :| HoldsAt(y.multi, e, token, bufferFd);
      GrowsHolds(y.multi, y'.multi, e, token, bufferFd);
    }
  }

  lemma LinkBacked(y: System, y': System)
    requires TokensBacked(y) && Grows(y.multi, y'.multi) && y'.held == y.held
    requires var t := y.world.session.tracker;
             var t' := y'.world.session.tracker;
             forall k :: k in t'.tokens ==>
               || (k in t.tokens && ContextFd(t', t'.tokens[k]) == ContextFd(t, t.tokens[k]))
               || exists e :: HoldsAt(y'.multi, e, k, ContextFd(t', t'.tokens[k]))
    ensures TokensBacked(y')
  {
    var t := y.world.session.tracker;
    var t' := y'.world.session.tracker;
    hide HoldsAt, Grows, ContextFd;
    forall k | k in t'.tokens ensures Backed(y', k, ContextFd(t', t'.tokens[k])) {
      if k in t.tokens && ContextFd(t', t'.tokens[k]) == ContextFd(t, t.tokens[k]) {
        GrowsBacked(y, y', k, ContextFd(t, t.tokens[k]));
      }
    }
  }

  lemma LinkFillers(y: System, y': System)
    requires FillersOk(y) && y'.held == y.held && y'.filler == y.filler
    requires var t := y.world.session.tracker;
             var t' := y'.world.session.tracker;
             && (forall c :: CompletedIn(t', c) ==> CompletedIn(t, c) && ContextFd(t', c) == ContextFd(t, c))
             && (forall k :: k in t'.tokens ==> k in t.tokens || k !in y.held)
    ensures FillersOk(y')
  {
    hide ContextFd;
  }

  /* ---------------------------------- submit ---------------------------------- */

  /** The answers a session gets are tokens drawn since m, each held for the output it answers. */
  ghost predicate AnswersFrom(m: Multi, m': Multi, targets: seq<Target>, responses: seq<Option<nat>>) {
    && |responses| <= |targets|
    && forall j :: 0 <= j < |responses| && responses[j].Some? ==>
         && m.nextToken <= responses[j].value < m'.nextToken
         && exists e :: HoldsAt(m', e, responses[j].value, targets[j].bufferFd)
  }

  lemma SubmitTargetsAnswers(m: Multi, used: set<nat>, targets: seq<Target>, ios: seq<V4L2.Io>)
    requires Sound(m) && (forall t :: t in used ==> t < m.nextToken) && |ios| == |targets|
    ensures var (m', responses) := SubmitTargets(m, targets, ios, 0);
            && Sound(m') && Grows(m, m') && FreshResponses(responses, used)
            && AnswersFrom(m, m', targets, responses)
  {
    assert m.nextToken >= 1;
    hide Sound, HoldsAt, Grows;
    SubmitTargetsGrows(m, targets, ios, 0);
    var (m', responses) := SubmitTargets(m, targets, ios, 0);
    forall j | 0 <= j < |responses| && responses[j].Some?
      ensures && m.nextToken <= responses[j].value < m'.nextToken
              && exists e :: HoldsAt(m', e, responses[j].value, targets[j].bufferFd)
    {
      assert Placed(m, m', targets[j], responses[j - 0]);
    }
  }

  lemma SubmitDriverEffect(y: System, u: Setup, request: Request, ios: seq<V4L2.Io>)
    requires Sound(y.multi) && TokensLinked(y) && |ios| == |RequestOutputs(request)|
    ensures var (m, preflight, responses) := SubmitDriver(y, u, request, ios);
            && Sound(m) && Grows(y.multi, m)
            && FreshResponses(responses, y.world.used)
            && AnswersFrom(y.multi, m, RequestOutputs(request), responses)
  {
    SubmitTargetsAnswers(y.multi, y.world.used, RequestOutputs(request), ios);
    GrowsSame(y.multi);
    hide Sound, Grows, HoldsAt, CanSubmitAll, Begins, SubmitTargets;
  }

  /** Rows that stay are unchanged, and a row that appears is that of the request. */
  predicate RowsAfterSubmit(t: Tracker, t': Tracker, request: Request) {
    && t'.streaming == t.streaming
    && forall f :: f in t'.requests ==>
         if f in t.requests then t'.requests[f] == t.requests[f]
         else f == request.frameNumber
              && t'.requests[f] == Row(f, request, MakeOutputs(RequestOutputs(request)), 0, QueuedToDriver)
  }

  lemma SubmitRowsOf(s: Session, c: Config, request: Request, preflight: bool, responses: seq<Option<nat>>)
    requires SessionOk(s) && request.frameNumber < FIRST_STREAMING_FRAME
    ensures RowsAfterSubmit(s.tracker, Submit(s, c, request, preflight, responses).0.tracker, request)
  {
    SubmitEffect(s, c, request, preflight, responses);
    hide Submit, SessionOk, BufferFences, RowFences;
  }

  /** Tokens that stay keep their contexts, and tokens that appear were answered for an output of the
      request. */
  predicate TokensAfterSubmit(t: Tracker, t': Tracker, request: Request, responses: seq<Option<nat>>) {
    && (forall k :: k in t'.tokens && k in t.tokens ==> t'.tokens[k] == t.tokens[k])
    && (forall k :: k in t'.tokens && k !in t.tokens ==>
          var x := t'.tokens[k];
          && x.frameNumber == request.frameNumber && x.frameNumber !in t.requests
          && 0 <= x.outputIndex < |responses| && responses[x.outputIndex] == Some(k))
  }

  lemma SubmitTracker(s: Session, c: Config, request: Request, preflight: bool, responses: seq<Option<nat>>)
    requires SessionOk(s) && request.frameNumber < FIRST_STREAMING_FRAME
    ensures TokensAfterSubmit(s.tracker, Submit(s, c, request, preflight, responses).0.tracker, request, responses)
  {
    var frame := request.frameNumber;
    var outputs := MakeOutputs(RequestOutputs(request));
    if Begins(s, c, request, preflight) {
      var started := Start(s.tracker, request, outputs);
      BindOutputsAdds(started, frame, |outputs|, responses, 0);
      if BindOutputs(started, frame, |outputs|, responses, 0).1 {
        AcceptedSubmitOk(s.tracker, s.nextStreamingFrame, request, responses);
      } else {
        RollbackIsExact(s.tracker, s.nextStreamingFrame, request, responses);
      }
    }
  }

  lemma SubmitBacked(y: System, y': System, request: Request, responses: seq<Option<nat>>)
    requires TokensBacked(y) && Grows(y.multi, y'.multi) && y'.held == y.held
    requires SessionOk(y.world.session) && SessionOk(y'.world.session)
    requires RowsAfterSubmit(y.world.session.tracker, y'.world.session.tracker, request)
    requires TokensAfterSubmit(y.world.session.tracker, y'.world.session.tracker, request, responses)
    requires AnswersFrom(y.multi, y'.multi, RequestOutputs(request), responses)
    ensures TokensBacked(y')
  {
    var t, t' := y.world.session.tracker, y'.world.session.tracker;
    hide HoldsAt, Grows, TokensBacked;
    forall k | k in t'.tokens
      ensures || (k in t.tokens && ContextFd(t', t'.tokens[k]) == ContextFd(t, t.tokens[k]))
              || exists e :: HoldsAt(y'.multi, e, k, ContextFd(t', t'.tokens[k]))
    {
      var x := t'.tokens[k];
      assert Outstanding(t', x);
      if k in t.tokens {
        assert Outstanding(t, x);
      } else {
        assert ContextFd(t', x) == RequestOutputs(request)[x.outputIndex].bufferFd;
      }
    }
    LinkBacked(y, y');
  }

  lemma SubmitFillers(y: System, y': System, request: Request, responses: seq<Option<nat>>)
    requires FillersOk(y) && TokensLinked(y) && y'.held == y.held && y'.filler == y.filler
    requires RowsAfterSubmit(y.world.session.tracker, y'.world.session.tracker, request)
    requires TokensAfterSubmit(y.world.session.tracker, y'.world.session.tracker, request, responses)
    requires AnswersFrom(y.multi, y'.multi, RequestOutputs(request), responses)
    ensures FillersOk(y')
  {
    hide FillersOk;
    LinkFillers(y, y');
  }

  lemma AnswersLinked(y: System, y': System, request: Request, responses: seq<Option<nat>>)
    requires TokensLinked(y) && Grows(y.multi, y'.multi) && y'.held == y.held
    requires AnswersFrom(y.multi, y'.multi, RequestOutputs(request), responses)
    requires y'.world.used == y.world.used + Answers(responses)
    ensures TokensLinked(y')
  {
    forall t | t in y'.world.used ensures t in y.world.used || t < y'.multi.nextToken {
      if t in Answers(responses) {
        var r :| r in responses && r.Some? && r.value == t;
        var j :| 0 <= j < |responses| && responses[j] == r;
      }
    }
    LinkTokens(y, y');
  }

  lemma EndpointsKept(m: Multi, m': Multi, u: Setup)
    requires EndpointsOk(m, u) && FlagsWithin(m, m')
    ensures EndpointsOk(m', u)
  {
    SameEndpointFor(m.endpoints, m'.endpoints, u.previewType, 0);
  }

  lemma LinkPreview(y: System, y': System, u: Setup)
    requires PreviewLinked(y, u) && Grows(y.multi, y'.multi)
    requires y'.world.session.tracker.streaming == y.world.session.tracker.streaming
    requires y'.world.out == y.world.out && y'.world.stale == y.world.stale
    requires y'.world.session.state == y.world.session.state
    ensures PreviewLinked(y', u)
  {
    hide Grows, Continuous, EndpointsOk, FlagsWithin, PreviewOutput;
    GrowsEndpoints(y.multi, y'.multi, u);
  }

  lemma GrowsEndpoints(m: Multi, m': Multi, u: Setup)
    requires Grows(m, m') && EndpointsOk(m, u)
    ensures EndpointsOk(m', u) && Continuous(m', u.previewType) == Continuous(m, u.previewType)
  {
    GrowsFlags(m, m');
    SameFlagsContinuous(m, m', u.previewType);
    GrowsFlagsWithin(m, m');
    EndpointsKept(m, m', u);
  }

  lemma RowsStayFromRequests(t: Tracker, t': Tracker, request: Request)
    requires RowsFromRequests(t) && RowsAfterSubmit(t, t', request)
    ensures RowsFromRequests(t')
  {
    forall f | f in t'.requests ensures FromRequest(t'.requests[f]) {
      if f in t.requests { assert FromRequest(t.requests[f]); }
    }
  }

  lemma SubmitLinks(y: System, y': System, u: Setup, request: Request, preflight: bool, responses: seq<Option<nat>>)
    requires TokensLinked(y) && TokensBacked(y) && FillersOk(y) && PreviewLinked(y, u)
    requires RowsFromRequests(y.world.session.tracker)
    requires SessionOk(y.world.session) && request.frameNumber < FIRST_STREAMING_FRAME
    requires SessionOk(y'.world.session) && Grows(y.multi, y'.multi)
    requires y' == y.(multi := y'.multi, world := AfterSubmit(y.world, u.config, request, preflight, responses))
    requires AnswersFrom(y.multi, y'.multi, RequestOutputs(request), responses)
    ensures TokensLinked(y') && TokensBacked(y') && FillersOk(y') && PreviewLinked(y', u)
    ensures RowsFromRequests(y'.world.session.tracker)
  {
    SubmitTracker(y.world.session, u.config, request, preflight, responses);
    SubmitRowsOf(y.world.session, u.config, request, preflight, responses);
    SubmitState(y.world.session, u.config, request, preflight, responses);
    var t, t' := y.world.session.tracker, y'.world.session.tracker;
    assert t' == Submit(y.world.session, u.config, request, preflight, responses).0.tracker;
    assert t'.streaming == t.streaming;
    assert y'.world.used == y.world.used + Answers(responses);
    hide *;
    AnswersLinked(y, y', request, responses);
    SubmitBacked(y, y', request, responses);
    SubmitFillers(y, y', request, responses);
    RowsStayFromRequests(t, t', request);
    LinkPreview(y, y', u);
  }

  lemma SubmitState(s: Session, c: Config, request: Request, preflight: bool, responses: seq<Option<nat>>)
    requires SessionOk(s) && request.frameNumber < FIRST_STREAMING_FRAME
    ensures Submit(s, c, request, preflight, responses).0.state == s.state
  {
    SubmitEffect(s, c, request, preflight, responses);
  }

  lemma SubmitAdmissible(y: System, u: Setup, request: Request, ios: seq<V4L2.Io>)
    requires Sound(y.multi) && TokensLinked(y) && request.frameNumber < FIRST_STREAMING_FRAME
    requires |ios| == |RequestOutputs(request)|
    ensures var (_, preflight, responses) := SubmitDriver(y, u, request, ios);
            Admissible(y.world, u.config, DoSubmit(request, preflight, responses))
  {
    hide Sound, TokensLinked, SubmitDriver, AnswersFrom, Grows;
    SubmitDriverEffect(y, u, request, ios);
  }

  lemma SubmitKeeps(y: System, u: Setup, request: Request, ios: seq<V4L2.Io>)
    requires SystemInv(y, u) && request.frameNumber < FIRST_STREAMING_FRAME
    requires |ios| == |RequestOutputs(request)|
    ensures SystemInv(NextSubmit(y, u, request, ios), u)
  {
    var y' := NextSubmit(y, u, request, ios);
    assert SessionOk(y.world.session);
    hide TokensLinked, TokensBacked, FillersOk, PreviewLinked, RowsFromRequests, Sound, EpochOver, PreviewsOk, SubmitDriver,
         SessionOk, AfterSubmit, AnswersFrom, Grows, FreshResponses;
    var (m, preflight, responses) := SubmitDriver(y, u, request, ios);
    SubmitDriverEffect(y, u, request, ios);
    SubmitAdmissible(y, u, request, ios);
    var step := DoSubmit(request, preflight, responses);
    assert y' == y.(multi := m, world := AfterSubmit(y.world, u.config, request, preflight, responses));
    NextKeepsWorld(y.world, u.config, step);
    WorldSession(y', u);
    hide WorldInv;
    SubmitLinks(y, y', u, request, preflight, responses);
  }

  lemma WorldSession(y: System, u: Setup)
    requires WorldInv(y.world, u.config)
    ensures SessionOk(y.world.session)
  {
  }

  /* ---------------------------------- dequeue ---------------------------------- */

  lemma DequeueTokens(y: System, y': System, readyFd: int, choice: Option<nat>)
    requires Sound(y.multi) && TokensLinked(y) && y'.world == y.world
    requires DequeueAt(y.multi, readyFd, choice).1.Some?
    requires y'.multi == DequeueAt(y.multi, readyFd, choice).0
    requires y'.held == y.held[DequeueAt(y.multi, readyFd, choice).1.value := KernelFd(y.multi, readyFd, choice)]
    ensures TokensLinked(y') && DequeueAt(y.multi, readyFd, choice).1.value !in y.held
  {
    DequeueAtEffect(y.multi, readyFd, choice);
    DequeueAtSound(y.multi, readyFd, choice);
    var token := DequeueAt(y.multi, readyFd, choice).1.value;
    hide Sound, DequeueAt, KernelFd;
    forall e, i | QueuedAt(y'.multi, e, i) ensures TokenAt(y'.multi, e, i) !in y'.held {
      assert SlotKept(y'.multi, y.multi, e, i);
    }
    var e :| HoldsAt(y.multi, e, token, KernelFd(y.multi, readyFd, choice));
  }

  lemma DequeueBacked(y: System, y': System, readyFd: int, choice: Option<nat>, k: nat, bufferFd: int)
    requires Sound(y.multi) && DequeueAt(y.multi, readyFd, choice).1.Some?
    requires y'.multi == DequeueAt(y.multi, readyFd, choice).0
    requires var token := DequeueAt(y.multi, readyFd, choice).1.value;
             token !in y.held && y'.held == y.held[token := KernelFd(y.multi, readyFd, choice)]
    requires Backed(y, k, bufferFd)
    ensures Backed(y', k, bufferFd)
  {
    DequeueAtEffect(y.multi, readyFd, choice);
    hide Sound, DequeueAt, KernelFd;
    if !(k in y.held && y.held[k] == bufferFd) {
      var e: nat :| HoldsAt(y.multi, e, k, bufferFd);
      var i :| QueuedAt(y.multi, e, i) && TokenAt(y.multi, e, i) == k
               && y.multi.endpoints[e].adapter.slots[i].bufferFd == bufferFd;
      if SlotKept(y.multi, y'.multi, e, i) { assert HoldsAt(y'.multi, e, k, bufferFd); }
    }
  }

  lemma DequeueLinks(y: System, y': System, u: Setup, readyFd: int, choice: Option<nat>)
    requires Sound(y.multi) && TokensLinked(y) && TokensBacked(y) && FillersOk(y) && PreviewLinked(y, u)
    requires DequeueAt(y.multi, readyFd, choice).1.Some?
    requires y' == y.(multi := DequeueAt(y.multi, readyFd, choice).0,
                      held := y.held[DequeueAt(y.multi, readyFd, choice).1.value := KernelFd(y.multi, readyFd, choice)])
    ensures TokensLinked(y') && TokensBacked(y') && FillersOk(y') && PreviewLinked(y', u)
  {
    DequeueAtFlags(y.multi, readyFd, choice);
    SameFlagsContinuous(y.multi, y'.multi, u.previewType);
    EndpointsKept(y.multi, y'.multi, u);
    DequeueTokens(y, y', readyFd, choice);
    hide Sound, DequeueAt, KernelFd, HoldsAt, Flags, Continuous, ContextFd, TokensLinked, Backed, SlotKept, QueuedAt, CompletedIn,
         EndpointsOk, FlagsWithin, PreviewOutput;
    var t := y.world.session.tracker;
    forall k | k in t.tokens ensures Backed(y', k, ContextFd(t, t.tokens[k])) {
      DequeueBacked(y, y', readyFd, choice, k, ContextFd(t, t.tokens[k]));
    }
  }

  /** Without a completion the tables are as they were; only the kernel may hold less. */
  lemma DequeueNothing(y: System, u: Setup, readyFd: int, choice: Option<nat>)
    requires Sound(y.multi) && TokensLinked(y) && TokensBacked(y) && FillersOk(y) && PreviewLinked(y, u)
    requires DequeueAt(y.multi, readyFd, choice).1.None?
    ensures var y' := y.(multi := DequeueAt(y.multi, readyFd, choice).0);
            TokensLinked(y') && TokensBacked(y') && FillersOk(y') && PreviewLinked(y', u)
  {
    var y' := y.(multi := DequeueAt(y.multi, readyFd, choice).0);
    DequeueNothingGrows(y.multi, readyFd, choice);
    hide Grows, TokensLinked, TokensBacked, PreviewLinked, ContextFd, DequeueAt, Sound;
    LinkTokens(y, y');
    LinkBacked(y, y');
    LinkPreview(y, y', u);
  }

  lemma DequeueNothingGrows(m: Multi, readyFd: int, choice: Option<nat>)
    requires Sound(m) && DequeueAt(m, readyFd, choice).1.None?
    ensures Grows(m, DequeueAt(m, readyFd, choice).0)
  {
    var m' := DequeueAt(m, readyFd, choice).0;
    DequeueAtEffect(m, readyFd, choice);
    DequeueAtSound(m, readyFd, choice);
    DequeueAtFlags(m, readyFd, choice);
    hide DequeueAt, Sound;
    assert |Flags(m)| == |m.endpoints| && |Flags(m')| == |m'.endpoints|;
    forall e | 0 <= e < |m.endpoints|
      ensures m'.endpoints[e].streamType == m.endpoints[e].streamType
              && m'.endpoints[e].adapter.continuous == m.endpoints[e].adapter.continuous
    {
      assert Flags(m)[e] == Flags(m')[e];
    }
  }

  lemma DequeueKeeps(y: System, u: Setup, readyFd: int, choice: Option<nat>)
    requires SystemInv(y, u)
    ensures SystemInv(NextDequeue(y, readyFd, choice), u)
  {
    hide WorldInv, EpochOver, PreviewsOk, Sound, TokensLinked, TokensBacked, FillersOk, PreviewLinked, RowsFromRequests,
         DequeueAt, KernelFd, Shrinks, SlotKept, HoldsAt, QueuedAt;
    if y.world.session.state.Streaming? {
      DequeueAtSound(y.multi, readyFd, choice);
      if DequeueAt(y.multi, readyFd, choice).1.Some? {
        DequeueLinks(y, NextDequeue(y, readyFd, choice), u, readyFd, choice);
      } else {
        DequeueNothing(y, u, readyFd, choice);
      }
    }
  }

  /* ---------------------------------- resolve ---------------------------------- */

  /** Completing the output that x stands for changes its row only, and there only that output;
      no target changes. */
  predicate AfterCompletion(t: Tracker, t': Tracker, x: Context) {
    && (forall f :: f in t'.streaming ==> f in t.streaming && t'.streaming[f] == t.streaming[f])
    && (forall f :: f in t'.requests ==> f in t.requests)
    && (forall f :: f in t'.requests && (f != x.frameNumber || x.outputIndex < 0) ==> t'.requests[f] == t.requests[f])
    && (x.frameNumber in t'.requests && x.outputIndex >= 0 ==>
          var old_, row := t.requests[x.frameNumber], t'.requests[x.frameNumber];
          && row.request == old_.request && |row.outputs| == |old_.outputs|
          && forall i :: 0 <= i < |row.outputs| ==>
               && row.outputs[i].target == old_.outputs[i].target
               && (i != x.outputIndex ==> row.outputs[i] == old_.outputs[i]))
  }

  lemma AfterCompletionOf(t: Tracker, t': Tracker, x: Context, output: Output)
    requires Outstanding(t, x) && x.outputIndex >= 0 && t'.streaming == t.streaming
    requires var row := t.requests[x.frameNumber];
             && output.target == row.outputs[x.outputIndex].target
             && (|| t'.requests == t.requests - {x.frameNumber}
                 || t'.requests == t.requests[x.frameNumber :=
                      row.(outputs := row.outputs[x.outputIndex := output])])
    ensures AfterCompletion(t, t', x)
  {
  }

  lemma ResolveTracker(s: Session, c: Config, token: nat, timestamp: int, fences: seq<int>)
    requires SessionOk(s) && |fences| >= |c.processors| && token in s.tracker.tokens
    ensures var s' := Resolve(s, c, token, timestamp, fences).0;
            AfterCompletion(s.tracker, s'.tracker, s.tracker.tokens[token])
  {
    var x := s.tracker.tokens[token];
    var t' := Resolve(s, c, token, timestamp, fences).0.tracker;
    if x.outputIndex >= 0 {
      ResolveRequest(s, c, token, timestamp, fences);
      assert Outstanding(s.tracker, x);
      hide *;
      var row := s.tracker.requests[x.frameNumber];
      AfterCompletionOf(s.tracker, t', x, row.outputs[x.outputIndex].(
        completed := true, releaseFence := ReleaseFence(c.processors, fences)));
    } else {
      ResolvePreview(s, c, token, timestamp, fences);
    }
  }

  lemma CompletionStreaming(t: Tracker, t': Tracker, x: Context)
    requires AfterCompletion(t, t', x)
    ensures forall f :: f in t'.streaming ==> f in t.streaming && t'.streaming[f] == t.streaming[f]
  {
  }

  lemma CompletionContexts(t: Tracker, t': Tracker, x: Context, c: Context)
    requires AfterCompletion(t, t', x)
    ensures Outstanding(t', c) || CompletedIn(t', c) ==> ContextFd(t', c) == ContextFd(t, c)
    ensures CompletedIn(t', c) && c != x ==> CompletedIn(t, c)
  {
  }

  /** A bound token whose completion was dequeued stands for the dma-buf the kernel then held. */
  lemma HeldIsBacked(y: System, token: nat)
    requires TokensLinked(y) && TokensBacked(y)
    requires token in y.held && token in y.world.session.tracker.tokens
    ensures var t := y.world.session.tracker; y.held[token] == ContextFd(t, t.tokens[token])
  {
    var t := y.world.session.tracker;
    hide ContextFd;
    assert Backed(y, token, ContextFd(t, t.tokens[token]));
  }

  lemma ResolveFillers(y: System, y': System, token: nat)
    requires FillersOk(y) && TokensLinked(y) && TokensBacked(y)
    requires var t, t' := y.world.session.tracker, y'.world.session.tracker;
             && token in t.tokens && AfterCompletion(t, t', t.tokens[token])
             && t'.tokens == t.tokens - {token}
             && y'.filler == y.filler[t.tokens[token] := token]
    requires token in y.held && y'.held == y.held
    ensures FillersOk(y')
  {
    var t, t' := y.world.session.tracker, y'.world.session.tracker;
    var x := t.tokens[token];
    HeldIsBacked(y, token);
    hide TokensLinked, TokensBacked, ContextFd, AfterCompletion, CompletedIn;
    forall c | CompletedIn(t', c)
      ensures ContextFd(t', c) == ContextFd(t, c) && (c != x ==> CompletedIn(t, c))
    {
      CompletionContexts(t, t', x, c);
    }
  }

  lemma ResolveBacked(y: System, y': System, token: nat)
    requires TokensBacked(y) && y'.multi == y.multi && y'.held == y.held
    requires SessionOk(y'.world.session)
    requires var t, t' := y.world.session.tracker, y'.world.session.tracker;
             && token in t.tokens && AfterCompletion(t, t', t.tokens[token])
             && t'.tokens == t.tokens - {token}
    ensures TokensBacked(y')
  {
    var t, t' := y.world.session.tracker, y'.world.session.tracker;
    GrowsSame(y.multi);
    assert forall k :: k in t'.tokens ==> Outstanding(t', t'.tokens[k]);
    hide TokensBacked, ContextFd, AfterCompletion, HoldsAt, Grows, SessionOk, Outstanding;
    forall k | k in t'.tokens ensures ContextFd(t', t'.tokens[k]) == ContextFd(t, t.tokens[k]) {
      CompletionContexts(t, t', t.tokens[token], t.tokens[k]);
    }
    LinkBacked(y, y');
  }

  lemma CompletionRows(t: Tracker, t': Tracker, x: Context)
    requires RowsFromRequests(t) && AfterCompletion(t, t', x)
    ensures RowsFromRequests(t')
  {
    forall f | f in t'.requests ensures FromRequest(t'.requests[f]) {
      assert FromRequest(t.requests[f]);
    }
  }

  lemma ResolveOut(w: World, c: Config, token: nat, timestamp: int, fences: seq<int>)
    requires SessionOk(w.session) && |fences| >= |c.processors| && token in w.session.tracker.tokens
    ensures var w' := AfterResolve(w, c, token, timestamp, fences);
            var x := w.session.tracker.tokens[token];
            && w'.stale == w.stale
            && (w'.out == w.out
                || (x.frameNumber in w.session.tracker.streaming
                    && w'.out == w.out[w.callbacks := w.session.tracker.streaming[x.frameNumber]]))
  {
    if w.session.tracker.tokens[token].outputIndex >= 0 {
      ResolveRequest(w.session, c, token, timestamp, fences);
    } else {
      ResolvePreview(w.session, c, token, timestamp, fences);
    }
    hide Resolve, Take, ReleaseFence, SessionOk, OutputFences, FenceBag, RowOk;
  }

  lemma ResolvePreviewLinks(y: System, y': System, u: Setup, token: nat, timestamp: int, fences: seq<int>)
    requires PreviewLinked(y, u) && SessionOk(y.world.session) && |fences| >= |u.config.processors|
    requires y'.multi == y.multi && y'.world == AfterResolve(y.world, u.config, token, timestamp, fences)
    requires token in y.world.session.tracker.tokens
    ensures PreviewLinked(y', u)
  {
    hide Resolve, Take, ReleaseFence, SessionOk, Continuous, FenceBag, AfterResolve, PreviewOutput, AfterCompletion;
    var s := y.world.session;
    ResolveTracker(s, u.config, token, timestamp, fences);
    ResolveFrame(s, u.config, token, timestamp, fences);
    ResolveOut(y.world, u.config, token, timestamp, fences);
    ResolveWorld(y.world, u.config, token, timestamp, fences);
    CompletionStreaming(s.tracker, y'.world.session.tracker, s.tracker.tokens[token]);
  }

  lemma ResolveKeeps(y: System, u: Setup, token: nat, timestamp: int, fences: seq<int>)
    requires SystemInv(y, u) && token in y.held && |fences| >= |u.config.processors|
    ensures SystemInv(NextResolve(y, u, token, timestamp, fences), u)
  {
    hide WorldInv, EpochOver, PreviewsOk, Sound, TokensLinked, TokensBacked, FillersOk, PreviewLinked, RowsFromRequests, AfterResolve,
         SessionOk;
    var y' := NextResolve(y, u, token, timestamp, fences);
    NextKeepsWorld(y.world, u.config, DoResolve(token, timestamp, fences));
    WorldSession(y, u);
    WorldSession(y', u);
    ResolveLinks(y, y', u, token, timestamp, fences);
  }

  lemma ResolveLinks(y: System, y': System, u: Setup, token: nat, timestamp: int, fences: seq<int>)
    requires TokensLinked(y) && TokensBacked(y) && FillersOk(y) && PreviewLinked(y, u)
    requires RowsFromRequests(y.world.session.tracker)
    requires SessionOk(y.world.session) && SessionOk(y'.world.session) && |fences| >= |u.config.processors|
    requires y'.multi == y.multi && y'.world == AfterResolve(y.world, u.config, token, timestamp, fences)
    requires y'.held == y.held && token in y.held
    requires var tokens := y.world.session.tracker.tokens;
             y'.filler == if token in tokens then y.filler[tokens[token] := token] else y.filler
    ensures TokensLinked(y') && TokensBacked(y') && FillersOk(y') && PreviewLinked(y', u)
    ensures RowsFromRequests(y'.world.session.tracker)
  {
    hide *;
    var s := y.world.session;
    ResolveWorld(y.world, u.config, token, timestamp, fences);
    LinkUnchanged(y, y');
    if token in s.tracker.tokens {
      ResolveFrame(s, u.config, token, timestamp, fences);
      ResolveTracker(s, u.config, token, timestamp, fences);
      ResolveFillers(y, y', token);
      ResolveBacked(y, y', token);
      CompletionRows(s.tracker, y'.world.session.tracker, s.tracker.tokens[token]);
      ResolvePreviewLinks(y, y', u, token, timestamp, fences);
    } else {
      StaleResolveLinks(y, y', u);
    }
  }

  lemma LinkUnchanged(y: System, y': System)
    requires TokensLinked(y) && y'.multi == y.multi && y'.held == y.held && y'.world.used == y.world.used
    ensures TokensLinked(y')
  {
  }

  lemma StaleResolveLinks(y: System, y': System, u: Setup)
    requires TokensBacked(y) && FillersOk(y) && PreviewLinked(y, u) && RowsFromRequests(y.world.session.tracker)
    requires y' == y.(world := y.world.(session := y.world.session.(failed := y.world.session.failed + 1)))
    ensures TokensBacked(y') && FillersOk(y') && PreviewLinked(y', u) && RowsFromRequests(y'.world.session.tracker)
  {
    hide ContextFd, HoldsAt, Continuous;
  }

  /* ---------------------------------- return ---------------------------------- */

  /** The tables once a lease was handed back: unchanged, or with one more streaming output. */
  predicate AfterReturned(t: Tracker, t': Tracker, output: StreamingOutput, next: nat, answer: Option<nat>) {
    && t'.requests == t.requests
    && (t' == t
        || (answer.Some? && next !in t.streaming
            && t'.streaming == t.streaming[next := output.(frameNumber := next)]
            && (t'.tokens == t.tokens || t'.tokens == t.tokens[answer.value := Context(next, -1)])))
  }

  lemma ReturnTracker(s: Session, c: Config, output: StreamingOutput, answer: Option<nat>)
    requires SessionOk(s)
    ensures var s' := ReturnLease(s, c, output, answer);
            && s'.state == s.state && AfterReturned(s.tracker, s'.tracker, output, s.nextStreamingFrame, answer)
            && (answer == Some(0) ==> s'.tracker.tokens == s.tracker.tokens)
  {
  }

  /** The answer to a returned lease is token 0 or a token drawn since m, held for the lease's buffer. */
  ghost predicate AnswerFrom(m: Multi, m': Multi, bufferFd: int, answer: Option<nat>) {
    answer.Some? && answer.value != 0 ==>
      m.nextToken <= answer.value < m'.nextToken && exists e :: HoldsAt(m', e, answer.value, bufferFd)
  }

  lemma ReturnDriverEffect(y: System, u: Setup, callback: nat, io: V4L2.Io)
    requires Sound(y.multi) && TokensLinked(y)
    ensures var (m, answer) := ReturnDriver(y, callback, io);
            && Sound(m) && Grows(y.multi, m)
            && Admissible(y.world, u.config, DoReturn(callback, answer))
            && (answer.Some? ==> Callback(y.world, callback).Some?)
            && (Callback(y.world, callback).Some? ==>
                  AnswerFrom(y.multi, m, Callback(y.world, callback).value.target.bufferFd, answer))
  {
    GrowsSame(y.multi);
    var output := Callback(y.world, callback);
    if y.world.session.state.Streaming? && output.Some? {
      hide Sound, Grows, HoldsAt, ReturnBuffer;
      ReturnBufferEffect(y.multi, output.value.streamType, output.value.target.bufferFd, output.value.target.bufferSize, io);
    }
  }

  lemma ReturnBacked(y: System, y': System, output: StreamingOutput, answer: Option<nat>)
    requires TokensBacked(y) && Grows(y.multi, y'.multi) && y'.held == y.held
    requires SessionOk(y.world.session)
    requires AfterReturned(y.world.session.tracker, y'.world.session.tracker, output,
                           y.world.session.nextStreamingFrame, answer)
    requires AnswerFrom(y.multi, y'.multi, output.target.bufferFd, answer)
    requires answer == Some(0) ==> y'.world.session.tracker.tokens == y.world.session.tracker.tokens
    ensures TokensBacked(y')
  {
    var t, t' := y.world.session.tracker, y'.world.session.tracker;
    var next := y.world.session.nextStreamingFrame;
    assert forall k :: k in t.tokens ==> Outstanding(t, t.tokens[k]);
    hide HoldsAt, Grows, TokensBacked, SessionOk;
    forall k | k in t'.tokens
      ensures || (k in t.tokens && ContextFd(t', t'.tokens[k]) == ContextFd(t, t.tokens[k]))
              || exists e :: HoldsAt(y'.multi, e, k, ContextFd(t', t'.tokens[k]))
    {
      if k in t.tokens && t'.tokens[k] == t.tokens[k] {
        assert Outstanding(t, t.tokens[k]);
      } else {
        assert k == answer.value && ContextFd(t', t'.tokens[k]) == output.target.bufferFd;
      }
    }
    LinkBacked(y, y');
  }

  lemma ReturnFillers(y: System, y': System, output: StreamingOutput, answer: Option<nat>)
    requires FillersOk(y) && TokensLinked(y) && y'.held == y.held && y'.filler == y.filler
    requires AfterReturned(y.world.session.tracker, y'.world.session.tracker, output,
                           y.world.session.nextStreamingFrame, answer)
    requires AnswerFrom(y.multi, y'.multi, output.target.bufferFd, answer)
    requires answer == Some(0) ==> y'.world.session.tracker.tokens == y.world.session.tracker.tokens
    ensures FillersOk(y')
  {
    hide FillersOk;
    LinkFillers(y, y');
  }

  lemma ReturnPreviewLinks(y: System, y': System, u: Setup, output: StreamingOutput, answer: Option<nat>)
    requires PreviewLinked(y, u) && Grows(y.multi, y'.multi) && PreviewOutput(u, output)
    requires y'.world.session.state == y.world.session.state
    requires AfterReturned(y.world.session.tracker, y'.world.session.tracker, output,
                           y.world.session.nextStreamingFrame, answer)
    requires forall k :: k in y'.world.out ==> k in y.world.out && y'.world.out[k] == y.world.out[k]
    requires forall k :: k in y'.world.stale ==> k in y.world.stale && y'.world.stale[k] == y.world.stale[k]
    ensures PreviewLinked(y', u)
  {
    GrowsEndpoints(y.multi, y'.multi, u);
    hide Grows, Continuous, EndpointsOk;
  }

  lemma ReturnWorld(w: World, c: Config, callback: nat, answer: Option<nat>)
    ensures var w' := AfterReturn(w, c, callback, answer);
            var output := Callback(w, callback);
            && (output.None? ==> w' == w)
            && (output.Some? ==> w'.session == ReturnLease(w.session, c, output.value, answer))
            && w'.used <= w.used + (if answer.Some? then {answer.value} else {})
            && (forall k :: k in w'.out ==> k in w.out && w'.out[k] == w.out[k])
            && (forall k :: k in w'.stale ==> k in w.stale && w'.stale[k] == w.stale[k])
  {
    hide ReturnLease;
  }

  lemma ReturnLinks(y: System, y': System, u: Setup, callback: nat, answer: Option<nat>)
    requires TokensLinked(y) && TokensBacked(y) && FillersOk(y) && PreviewLinked(y, u)
    requires RowsFromRequests(y.world.session.tracker) && SessionOk(y.world.session)
    requires Grows(y.multi, y'.multi) && Callback(y.world, callback).Some?
    requires y' == y.(multi := y'.multi, world := AfterReturn(y.world, u.config, callback, answer))
    requires AnswerFrom(y.multi, y'.multi, Callback(y.world, callback).value.target.bufferFd, answer)
    requires Sound(y'.multi)
    ensures TokensLinked(y') && TokensBacked(y') && FillersOk(y') && PreviewLinked(y', u)
    ensures RowsFromRequests(y'.world.session.tracker)
  {
    var output := Callback(y.world, callback).value;
    assert PreviewOutput(u, output);
    ReturnWorld(y.world, u.config, callback, answer);
    ReturnTracker(y.world.session, u.config, output, answer);
    assert RowsFromRequests(y'.world.session.tracker);
    assert y'.multi.nextToken >= 1;
    assert forall t :: t in y'.world.used ==> t in y.world.used || t < y'.multi.nextToken;
    hide *;
    LinkTokens(y, y');
    ReturnBacked(y, y', output, answer);
    ReturnFillers(y, y', output, answer);
    ReturnPreviewLinks(y, y', u, output, answer);
  }

  lemma ReturnKeeps(y: System, u: Setup, callback: nat, io: V4L2.Io)
    requires SystemInv(y, u)
    ensures Admissible(y.world, u.config, DoReturn(callback, ReturnDriver(y, callback, io).1))
    ensures SystemInv(NextReturn(y, u, callback, io), u)
  {
    hide WorldInv, EpochOver, PreviewsOk, Sound, TokensLinked, TokensBacked, FillersOk, PreviewLinked, RowsFromRequests, AfterReturn,
         SessionOk, ReturnDriver, Grows, HoldsAt, Callback;
    var y' := NextReturn(y, u, callback, io);
    var (m, answer) := ReturnDriver(y, callback, io);
    ReturnDriverEffect(y, u, callback, io);
    NextKeepsWorld(y.world, u.config, DoReturn(callback, answer));
    WorldSession(y, u);
    if Callback(y.world, callback).Some? {
      ReturnLinks(y, y', u, callback, answer);
    } else {
      NoCallbackNoDriver(y, callback, io);
      ReturnWorld(y.world, u.config, callback, answer);
      assert y' == y;
    }
  }

  lemma NoCallbackNoDriver(y: System, callback: nat, io: V4L2.Io)
    requires Callback(y.world, callback).None?
    ensures ReturnDriver(y, callback, io) == (y.multi, None)
  {
  }

  /* ---------------------------------- configure, flush, close ---------------------------------- */

  lemma ShrinksLinked(y: System, y': System)
    requires TokensLinked(y) && Shrinks(y.multi, y'.multi) && y'.held == y.held && y'.world.used == y.world.used
    ensures TokensLinked(y')
  {
    forall e, i | QueuedAt(y'.multi, e, i) ensures TokenAt(y'.multi, e, i) !in y'.held {
      assert SlotKept(y'.multi, y.multi, e, i);
    }
  }

  /** With empty tables and the session not streaming, only the callbacks matter. */
  lemma EmptyLinks(y: System, y': System, u: Setup)
    requires PreviewLinked(y, u) && y'.world.session.tracker == EMPTY && !y'.world.session.state.Streaming?
    requires FlagsWithin(y.multi, y'.multi)
    requires forall k :: k in y'.world.out ==> k in y.world.out && y'.world.out[k] == y.world.out[k]
    requires forall k :: k in y'.world.stale ==>
               || (k in y.world.stale && y'.world.stale[k] == y.world.stale[k])
               || (k in y.world.out && y'.world.stale[k] == y.world.out[k])
    ensures TokensBacked(y') && FillersOk(y') && PreviewLinked(y', u)
    ensures RowsFromRequests(y'.world.session.tracker)
  {
    EndpointsKept(y.multi, y'.multi, u);
  }

  lemma ConfigureKeeps(y: System, u: Setup, devices: seq<Option<V4L2.Opened>>, registered: bool)
    requires SystemInv(y, u) && |devices| == |y.multi.endpoints|
    ensures SystemInv(NextConfigure(y, u, devices, registered), u)
  {
    WorldSession(y, u);
    assert y.world.session.state.Created? ==> y.world.session.tracker == EMPTY;
    hide WorldInv, EpochOver, PreviewsOk, Sound, TokensLinked, TokensBacked, FillersOk, PreviewLinked, RowsFromRequests, SessionOk,
         ConfigureFrom, Shrinks, FlagsWithin;
    var y' := NextConfigure(y, u, devices, registered);
    NextKeepsWorld(y.world, u.config, DoConfigure(ConfigureAll(y.multi, devices).1, registered));
    if u.config.hasDriver && y.world.session.state.Created? {
      ConfigureAllEffect(y.multi, devices);
      ShrinksLinked(y, y');
      EmptyLinks(y, y', u);
    } else {
      assert y' == y;
    }
  }

  lemma ConfigureAllEffect(m: Multi, devices: seq<Option<V4L2.Opened>>)
    requires Sound(m) && |devices| == |m.endpoints|
    ensures Sound(ConfigureAll(m, devices).0) && Shrinks(m, ConfigureAll(m, devices).0)
    ensures FlagsWithin(m, ConfigureAll(m, devices).0)
  {
    ConfigureFromFlags(m, devices, 0);
    ConfigureFromEffect(m, devices, 0);
  }

  lemma FlushLinks(y: System, y': System, u: Setup, s: Session, order: seq<nat>)
    requires TokensLinked(y) && PreviewLinked(y, u) && Shrinks(y.multi, y'.multi) && FlagsWithin(y.multi, y'.multi)
    requires forall i :: 0 <= i < |order| ==> order[i] in y.world.session.tracker.requests
    requires y' == y.(multi := y'.multi, world := EndEpoch(y.world, s, order))
    requires s.tracker == EMPTY && !s.state.Streaming?
    ensures TokensLinked(y') && TokensBacked(y') && FillersOk(y') && PreviewLinked(y', u)
    ensures RowsFromRequests(y'.world.session.tracker)
  {
    hide FlushOutcomes, Shrinks, PreviewLinked, TokensLinked, FlagsWithin;
    ShrinksLinked(y, y');
    EmptyLinks(y, y', u);
  }

  lemma FlushKeeps(y: System, u: Setup, order: seq<nat>, streamOffs: seq<bool>)
    requires SystemInv(y, u) && VisitsRows(y, order) && |streamOffs| == |y.multi.endpoints|
    ensures SystemInv(NextFlush(y, u, order, streamOffs), u)
  {
    hide WorldInv, EpochOver, PreviewsOk, Sound, TokensLinked, TokensBacked, FillersOk, PreviewLinked, RowsFromRequests, EndEpoch,
         StopAll, Shrinks, FlagsWithin;
    var y' := NextFlush(y, u, order, streamOffs);
    NextKeepsWorld(y.world, u.config, DoFlush(order));
    OrderInRequests(order, y.world.session.tracker.requests.Keys);
    if CanFlush(y.world.session) {
      StopAllEffect(y.multi, streamOffs);
      StopAllFlags(y.multi, streamOffs);
      FlushLinks(y, y', u, Flush(y.world.session, order), order);
    } else {
      assert y' == y;
    }
  }

  lemma CloseKeeps(y: System, u: Setup, order: seq<nat>, streamOffs: seq<bool>)
    requires SystemInv(y, u) && VisitsRows(y, order) && |streamOffs| == |y.multi.endpoints|
    ensures SystemInv(NextClose(y, u, order, streamOffs), u)
  {
    hide WorldInv, EpochOver, PreviewsOk, Sound, TokensLinked, TokensBacked, FillersOk, PreviewLinked, RowsFromRequests, EndEpoch,
         StopAll, CloseAll, Shrinks, FlagsWithin;
    var y' := NextClose(y, u, order, streamOffs);
    NextKeepsWorld(y.world, u.config, DoClose(order));
    OrderInRequests(order, y.world.session.tracker.requests.Keys);
    if !y.world.session.state.Stopped? {
      StopAllEffect(y.multi, streamOffs);
      StopAllFlags(y.multi, streamOffs);
      CloseAllEffect(StopAll(y.multi, streamOffs));
      ShrinksTwice(y.multi, StopAll(y.multi, streamOffs), CloseAll(StopAll(y.multi, streamOffs)));
      FlushLinks(y, y', u, CameraSession.Close(y.world.session, order), order);
    } else {
      assert y' == y;
    }
  }

  /* ---------------------------------- start ---------------------------------- */

  /** Every token that registering the preview buffers binds stands for the buffer it was answered for. */
  lemma {:induction false} RegisterPreviewTokens(t: Tracker, buffers: seq<Target>, tokens: seq<nat>, first: nat, i: nat)
    requires i <= |buffers| == |tokens|
    ensures var t' := RegisterPreview(t, buffers, tokens, first, i).0;
            forall k :: k in t'.tokens && k !in t.tokens ==>
              var x := t'.tokens[k];
              && x.outputIndex == -1 && first + i <= x.frameNumber < first + |buffers|
              && tokens[x.frameNumber - first] == k
    decreases |buffers| - i
  {
    if i < |buffers| && first + i !in t.streaming && CanBind(t, tokens[i]) {
      var output := StreamingOutput(first + i, buffers[i], buffers[i].streamType);
      var t1 := RegisterAndBind(t, output, tokens[i]);
      assert t1.tokens == t.tokens[tokens[i] := Context(first + i, -1)];
      hide RegisterAndBind;
      RegisterPreviewTokens(t1, buffers, tokens, first, i + 1);
      RegisterPreviewKeepsTokens(t1, buffers, tokens, first, i + 1);
    }
  }

  lemma {:induction false} RegisterPreviewKeepsTokens(t: Tracker, buffers: seq<Target>, tokens: seq<nat>, first: nat,
                                                      i: nat)
    requires i <= |buffers| == |tokens|
    ensures var t' := RegisterPreview(t, buffers, tokens, first, i).0;
            forall k :: k in t.tokens ==> k in t'.tokens && t'.tokens[k] == t.tokens[k]
    decreases |buffers| - i
  {
    if i < |buffers| && first + i !in t.streaming && CanBind(t, tokens[i]) {
      var output := StreamingOutput(first + i, buffers[i], buffers[i].streamType);
      RegisterPreviewKeepsTokens(RegisterAndBind(t, output, tokens[i]), buffers, tokens, first, i + 1);
    }
  }

  /** Slots queued in m' were queued in m or carry tokens drawn since. */
  ghost predicate SlotsSince(m: Multi, m': Multi) {
    && m.nextToken <= m'.nextToken
    && forall e, i :: QueuedAt(m', e, i) ==> m.nextToken <= TokenAt(m', e, i) || SlotKept(m', m, e, i)
  }

  lemma StartDriverEffect(m: Multi, u: Setup, ios: seq<V4L2.Io>)
    requires Sound(m) && |ios| == |u.config.previewBuffers|
    ensures var (m', started, tokens) := StartDriver(m, u, ios);
            && Sound(m') && SlotsSince(m, m')
            && (tokens.Some? ==>
                  && u.config.continuousPreview && UsableBuffers(u) && Continuous(m', u.previewType)
                  && PreviewTokens(m.nextToken, m', u.config.previewBuffers, tokens.value))
  {
    var m1 := StartFrom(m, 0).0;
    StartFromEffect(m, 0);
    StartContinuousSound(m1, u.previewType, u.config.previewBuffers, ios);
    StartContinuousTokens(m1, u.previewType, u.config.previewBuffers, ios);
    StartContinuousUsable(m1, u.previewType, u.config.previewBuffers, ios);
    var m2 := StartContinuous(m1, u.previewType, u.config.previewBuffers, ios).0;
    hide Sound, StartFrom, StartContinuous, HoldsAt, Continuous, PreviewTokens;
    forall e, i | QueuedAt(m2, e, i) ensures m.nextToken <= TokenAt(m2, e, i) || SlotKept(m2, m, e, i) {
      if TokenAt(m2, e, i) < m.nextToken { assert SlotKept(m2, m1, e, i); }
    }
  }

  lemma StartDriverEndpoints(m: Multi, u: Setup, ios: seq<V4L2.Io>)
    requires Sound(m) && EndpointsOk(m, u) && |ios| == |u.config.previewBuffers|
    ensures EndpointsOk(StartDriver(m, u, ios).0, u)
  {
    var m1 := StartFrom(m, 0).0;
    StartFromEffect(m, 0);
    GrowsEndpoints(m, m1, u);
    StartContinuousFlags(m1, u.previewType, u.config.previewBuffers, ios);
    var m2 := StartContinuous(m1, u.previewType, u.config.previewBuffers, ios).0;
    hide StartFrom, StartContinuous, Sound, Grows, Continuous;
    SameEndpointFor(m1.endpoints, m2.endpoints, u.previewType, 0);
  }

  lemma StartTokensFresh(m: Multi, m': Multi, buffers: seq<Target>, tokens: seq<nat>, used: set<nat>)
    requires PreviewTokens(m.nextToken, m', buffers, tokens) && m.nextToken >= 1 && forall t :: t in used ==> t < m.nextToken
    ensures FreshTokens(tokens, used) && forall t :: t in tokens ==> t < m'.nextToken
  {
    hide HoldsAt;
  }

  lemma StartLinked(y: System, y': System, tokens: Option<seq<nat>>)
    requires TokensLinked(y) && SlotsSince(y.multi, y'.multi) && y'.held == y.held
    requires y'.world.used == y.world.used + (if tokens.Some? then set t | t in tokens.value else {})
    requires tokens.Some? ==> forall t :: t in tokens.value ==> t < y'.multi.nextToken
    ensures TokensLinked(y')
  {
    forall e, i | QueuedAt(y'.multi, e, i) ensures TokenAt(y'.multi, e, i) !in y'.held {
      if TokenAt(y'.multi, e, i) < y.multi.nextToken {
        assert SlotKept(y'.multi, y.multi, e, i);
      }
    }
  }

  /** What start_streaming leaves in the tables of a session that was configured. */
  lemma StartTracker(s: Session, u: Setup, started: bool, tokens: Option<seq<nat>>)
    requires SessionOk(s) && s.state.Configured?
    requires tokens.Some? ==> |tokens.value| == |u.config.previewBuffers|
    ensures var s' := StartStreaming(s, u.config, started, tokens);
            var t' := s'.tracker;
            var buffers := u.config.previewBuffers;
            var first := s.nextStreamingFrame;
            && t'.requests == map[]
            && (t' == EMPTY || (tokens.Some? && u.config.continuousPreview))
            && (s'.state.Streaming? && u.config.continuousPreview ==> tokens.Some?)
            && (forall f :: f in t'.streaming ==>
                  && first <= f < first + |buffers|
                  && t'.streaming[f] == StreamingOutput(f, buffers[f - first], buffers[f - first].streamType))
            && (forall k :: k in t'.tokens ==>
                  var x := t'.tokens[k];
                  && tokens.Some? && x.outputIndex == -1 && first <= x.frameNumber < first + |buffers|
                  && tokens.value[x.frameNumber - first] == k)
  {
    assert s.tracker == EMPTY;
    hide SessionOk, RegisterPreview;
    if tokens.Some? {
      RegisterPreviewStreaming(EMPTY, u.config.previewBuffers, tokens.value, s.nextStreamingFrame, 0);
      RegisterPreviewTokens(EMPTY, u.config.previewBuffers, tokens.value, s.nextStreamingFrame, 0);
    }
  }

  lemma PreviewTokenBacked(y: System, from: nat, buffers: seq<Target>, tokens: seq<nat>, i: nat)
    requires PreviewTokens(from, y.multi, buffers, tokens) && i < |tokens|
    ensures Backed(y, tokens[i], buffers[i].bufferFd)
  {
    hide HoldsAt;
  }

  lemma StartBacked(y: System, y': System, u: Setup, started: bool, tokens: Option<seq<nat>>)
    requires SessionOk(y.world.session) && y.world.session.state.Configured?
    requires y'.world.session == StartStreaming(y.world.session, u.config, started, tokens)
    requires SessionOk(y'.world.session)
    requires tokens.Some? ==> PreviewTokens(y.multi.nextToken, y'.multi, u.config.previewBuffers, tokens.value)
    ensures TokensBacked(y')
  {
    var t' := y'.world.session.tracker;
    assert tokens.Some? ==> |tokens.value| == |u.config.previewBuffers|;
    hide StartStreaming, SessionOk, HoldsAt, PreviewTokens, Backed, ContextFd;
    forall k | k in t'.tokens ensures Backed(y', k, ContextFd(t', t'.tokens[k])) {
      StartContextFd(y.world.session, y'.world.session, u, started, tokens, k);
      PreviewTokenBacked(y', y.multi.nextToken, u.config.previewBuffers, tokens.value,
                         t'.tokens[k].frameNumber - y.world.session.nextStreamingFrame);
    }
  }

  lemma StartContextFd(s: Session, s': Session, u: Setup, started: bool, tokens: Option<seq<nat>>, k: nat)
    requires SessionOk(s) && s.state.Configured? && SessionOk(s')
    requires s' == StartStreaming(s, u.config, started, tokens) && k in s'.tracker.tokens
    requires tokens.Some? ==> |tokens.value| == |u.config.previewBuffers|
    ensures var x := s'.tracker.tokens[k];
            && tokens.Some? && 0 <= x.frameNumber - s.nextStreamingFrame < |tokens.value|
            && tokens.value[x.frameNumber - s.nextStreamingFrame] == k
            && ContextFd(s'.tracker, x) == u.config.previewBuffers[x.frameNumber - s.nextStreamingFrame].bufferFd
  {
    var x := s'.tracker.tokens[k];
    assert Outstanding(s'.tracker, x);
    hide StartStreaming, SessionOk;
    StartTracker(s, u, started, tokens);
  }

  lemma NoRowsNoFillers(y': System)
    requires y'.world.session.tracker.requests == map[]
    ensures FillersOk(y') && RowsFromRequests(y'.world.session.tracker)
  {
  }

  lemma StartPreviewLinks(y: System, y': System, u: Setup, started: bool, tokens: Option<seq<nat>>)
    requires SessionOk(y.world.session) && y.world.session.state.Configured? && PreviewLinked(y, u)
    requires tokens.Some? ==>
               |tokens.value| == |u.config.previewBuffers| && UsableBuffers(u) && Continuous(y'.multi, u.previewType)
    requires y'.world.session == StartStreaming(y.world.session, u.config, started, tokens)
    requires y'.world.out == y.world.out && y'.world.stale == y.world.stale
    requires EndpointsOk(y'.multi, u)
    ensures PreviewLinked(y', u)
  {
    hide StartStreaming, SessionOk, Continuous, EndpointsOk;
    StartTracker(y.world.session, u, started, tokens);
  }

  lemma StartAdmissible(y: System, u: Setup, ios: seq<V4L2.Io>)
    requires Sound(y.multi) && TokensLinked(y) && |ios| == |u.config.previewBuffers|
    ensures var (_, started, tokens) := StartDriver(y.multi, u, ios);
            Admissible(y.world, u.config, DoStart(started, tokens))
  {
    var (m, started, tokens) := StartDriver(y.multi, u, ios);
    StartDriverEffect(y.multi, u, ios);
    assert y.multi.nextToken >= 1;
    hide Sound, StartDriver, PreviewTokens, SlotsSince, Continuous;
    if tokens.Some? {
      StartTokensFresh(y.multi, m, u.config.previewBuffers, tokens.value, y.world.used);
    }
  }

  lemma StartKeeps(y: System, u: Setup, ios: seq<V4L2.Io>)
    requires SystemInv(y, u) && |ios| == |u.config.previewBuffers|
    ensures SystemInv(NextStart(y, u, ios), u)
  {
    hide SystemInv, StartDriver;
    if y.world.session.state.Configured? {
      StartConfigured(y, u, ios);
    } else {
      assert NextStart(y, u, ios) == y;
    }
  }

  lemma StartConfigured(y: System, u: Setup, ios: seq<V4L2.Io>)
    requires SystemInv(y, u) && |ios| == |u.config.previewBuffers|
    requires y.world.session.state.Configured?
    ensures SystemInv(NextStart(y, u, ios), u)
  {
    var (m, started, tokens) := StartDriver(y.multi, u, ios);
    StartAdmissible(y, u, ios);
    NextKeepsWorld(y.world, u.config, DoStart(started, tokens));
    WorldSession(y, u);
    hide WorldInv, EpochOver, PreviewsOk, Sound, TokensLinked, TokensBacked, FillersOk, PreviewLinked, RowsFromRequests, SessionOk,
         HoldsAt, StartStreaming, StartDriver, SlotsSince, Continuous, AfterStart, PreviewTokens;
    var y' := NextStart(y, u, ios);
    assert y' == y.(multi := m, world := AfterStart(y.world, u.config, started, tokens));
    WorldSession(y', u);
    StartLinks(y, y', u, ios);
  }

  lemma StartLinks(y: System, y': System, u: Setup, ios: seq<V4L2.Io>)
    requires Sound(y.multi) && TokensLinked(y) && PreviewLinked(y, u)
    requires SessionOk(y.world.session) && SessionOk(y'.world.session) && y.world.session.state.Configured?
    requires |ios| == |u.config.previewBuffers|
    requires var (m, started, tokens) := StartDriver(y.multi, u, ios);
             y' == y.(multi := m, world := AfterStart(y.world, u.config, started, tokens))
    ensures Sound(y'.multi) && TokensLinked(y') && TokensBacked(y') && FillersOk(y') && PreviewLinked(y', u)
    ensures RowsFromRequests(y'.world.session.tracker)
  {
    var (m, started, tokens) := StartDriver(y.multi, u, ios);
    assert y'.world.session == StartStreaming(y.world.session, u.config, started, tokens);
    assert y'.world.used == y.world.used + (if tokens.Some? then set t | t in tokens.value else {});
    assert forall t :: t in y.world.used ==> t < y.multi.nextToken;
    assert y.multi.nextToken >= 1;
    StartDriverEffect(y.multi, u, ios);
    StartDriverEndpoints(y.multi, u, ios);
    assert tokens.Some? ==> |tokens.value| == |u.config.previewBuffers|;
    assert y'.world.out == y.world.out && y'.world.stale == y.world.stale;
    hide *;
    if tokens.Some? {
      StartTokensFresh(y.multi, m, u.config.previewBuffers, tokens.value, y.world.used);
    }
    StartLinked(y, y', tokens);
    StartBacked(y, y', u, started, tokens);
    StartTracker(y.world.session, u, started, tokens);
    NoRowsNoFillers(y');
    StartPreviewLinks(y, y', u, started, tokens);
  }}
