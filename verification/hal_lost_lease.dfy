/** For every setup that can lose a preview lease, a run in which it does. */
module HalLostLease {
  import opened Wrappers
  import opened CameraTypes
  import opened InFlightTracker
  import opened CameraSession
  import opened SessionConsistency
  import opened SessionHistory
  import opened SessionLaws
  import opened SessionPreviews
  import opened V4L2Router
  import opened HalSystem
  import opened HalRouting
  import opened HalTheorems
  import opened HalPreviews

  const ANSWERS_OK := V4L2.Io(true, true, true)

  function Oks(n: nat): (ios: seq<V4L2.Io>)
    ensures |ios| == n && AllAnswerOk(ios)
  {
    seq(n, _ => ANSWERS_OK)
  }

  /* ---------------------------------- the driver ---------------------------------- */

  /** Endpoint e with descriptor e and n free slots, for frames of any size. */
  function IdleAt(e: nat, n: nat, streaming: bool): V4L2.Adapter {
    V4L2.Adapter(e, 0, V4L2.FreshSlots(n), streaming, false, false, V4L2.Kernel(map[], false))
  }

  /** The first i endpoints are configured. */
  function Opening(u: Setup, n: nat, i: nat): Multi {
    Multi(seq(|u.streams|, k requires 0 <= k < |u.streams| =>
      Endpoint(u.streams[k], if k < i then IdleAt(k, n, false) else V4L2.CLOSED)), 1)
  }

  /** All endpoints are configured and the first i are started. */
  function Starting(u: Setup, n: nat, i: nat): Multi {
    Multi(seq(|u.streams|, k requires 0 <= k < |u.streams| => Endpoint(u.streams[k], IdleAt(k, n, k < i))), 1)
  }

  function Devices(u: Setup, n: nat): seq<Option<V4L2.Opened>> {
    seq(|u.streams|, k requires 0 <= k < |u.streams| => Some(V4L2.Opened(k, n, 0)))
  }

  lemma {:induction false} OpensAll(u: Setup, n: nat, i: nat)
    requires n > 0 && i <= |u.streams|
    ensures ConfigureFrom(Opening(u, n, i), Devices(u, n), i) == (Opening(u, n, |u.streams|), true)
    decreases |u.streams| - i
  {
    if i < |u.streams| {
      var m := Opening(u, n, i);
      assert V4L2.ConfigureStream(m.endpoints[i].adapter, Devices(u, n)[i]) == IdleAt(i, n, false);
      assert SetAdapter(m, i, IdleAt(i, n, false)) == Opening(u, n, i + 1);
      OpensAll(u, n, i + 1);
    }
  }

  lemma {:induction false} StartsAll(u: Setup, n: nat, i: nat)
    requires n > 0 && i <= |u.streams|
    ensures StartFrom(Starting(u, n, i), i) == (Starting(u, n, |u.streams|), true)
    decreases |u.streams| - i
  {
    if i < |u.streams| {
      var m := Starting(u, n, i);
      assert m.endpoints[i].adapter == IdleAt(i, n, false);
      assert V4L2.StartStreaming(IdleAt(i, n, false)) == IdleAt(i, n, true);
      var m' := SetAdapter(m, i, IdleAt(i, n, true));
      forall k | 0 <= k < |u.streams| ensures m'.endpoints[k] == Starting(u, n, i + 1).endpoints[k] {
        assert k != i ==> (k < i) == (k < i + 1);
      }
      assert m'.endpoints == Starting(u, n, i + 1).endpoints;
      StartsAll(u, n, i + 1);
    }
  }

  lemma {:induction false} FreshSlotsAreFree(n: nat)
    ensures V4L2.FreeCount(V4L2.FreshSlots(n)) == n
  {
    if n > 0 {
      assert V4L2.FreshSlots(n)[..n - 1] == V4L2.FreshSlots(n - 1);
      FreshSlotsAreFree(n - 1);
    }
  }

  /** With enough free slots and calls that succeed every buffer is queued. */
  lemma {:induction false} QueuesAll(a: V4L2.Adapter, next: nat, targets: seq<Target>, ios: seq<V4L2.Io>, i: nat)
    requires V4L2.Agrees(a) && a.streaming && a.bufferSize == 0 && |ios| == |targets| && AllAnswerOk(ios)
    requires i <= |targets| && V4L2.FreeCount(a.slots) >= |targets| - i
    requires forall k :: 0 <= k < |targets| ==> targets[k].bufferFd >= 0
    ensures V4L2.QueueBuffers(a, next, targets, ios, i).2.Some?
    decreases |targets| - i
  {
    hide V4L2.QueueCapture, V4L2.Agrees, V4L2.FreeCount;
    if i < |targets| {
      V4L2.QueueSucceeds(a, next, targets[i].bufferFd, targets[i].bufferSize, ios[i]);
      QueuesAll(V4L2.QueueCapture(a, next, targets[i].bufferFd, targets[i].bufferSize, ios[i]).0, next + 1,
                targets, ios, i + 1);
    }
  }

  lemma {:induction false} QueueKeepsFd(a: V4L2.Adapter, next: nat, targets: seq<Target>, ios: seq<V4L2.Io>, i: nat)
    requires |ios| == |targets|
    ensures V4L2.QueueBuffers(a, next, targets, ios, i).0.fd == a.fd
    decreases |targets| - i
  {
    if i < |targets| {
      var (a1, answer) := V4L2.QueueCapture(a, next, targets[i].bufferFd, targets[i].bufferSize, ios[i]);
      assert a1.fd == a.fd;
      hide V4L2.QueueCapture;
      if answer.Queued? { QueueKeepsFd(a1, next + 1, targets, ios, i + 1); }
    }
  }

  /** Each endpoint answers to its position as descriptor. */
  predicate FdsAreSpots(m: Multi) {
    forall e :: 0 <= e < |m.endpoints| ==> m.endpoints[e].adapter.fd == e
  }

  lemma FdFindsEndpoint(m: Multi, e: nat)
    requires FdsAreSpots(m) && e < |m.endpoints|
    ensures EndpointForFd(m.endpoints, e, 0) == Some(e)
  {
    assert m.endpoints[e].adapter.fd == e;
  }

  lemma IdleAgrees(e: nat, n: nat, streaming: bool, continuous: bool)
    ensures V4L2.Agrees(IdleAt(e, n, streaming).(continuous := continuous))
  {
  }

  lemma StartingIs(u: Setup, n: nat, i: nat)
    ensures |Starting(u, n, i).endpoints| == |u.streams|
    ensures forall k :: 0 <= k < |u.streams| ==>
              Starting(u, n, i).endpoints[k] == Endpoint(u.streams[k], IdleAt(k, n, k < i))
  {
  }

  lemma StartedAgrees(u: Setup, n: nat)
    ensures AllAgree(Starting(u, n, |u.streams|)) && FdsAreSpots(Starting(u, n, |u.streams|))
  {
    var m := Starting(u, n, |u.streams|);
    StartingIs(u, n, |u.streams|);
    forall k | 0 <= k < |m.endpoints| ensures V4L2.Agrees(m.endpoints[k].adapter) {
      IdleAgrees(k, n, true, false);
      assert IdleAt(k, n, true).(continuous := false) == IdleAt(k, n, true);
    }
  }

  /** On started devices the preview buffers are all queued. */
  lemma ContinuousStarts(m: Multi, streamType: StreamType, e: nat, targets: seq<Target>, n: nat)
    requires EndpointFor(m.endpoints, streamType, 0) == Some(e) && m.endpoints[e].adapter == IdleAt(e, n, true)
    requires n == |targets| && forall k :: 0 <= k < |targets| ==> targets[k].bufferFd >= 0
    requires FdsAreSpots(m)
    ensures var (m', tokens) := StartContinuous(m, streamType, targets, Oks(n));
            tokens.Some? && FdsAreSpots(m')
  {
    var a := IdleAt(e, n, true).(continuous := true);
    FreshSlotsAreFree(n);
    IdleAgrees(e, n, true, true);
    QueuesAll(a, m.nextToken, targets, Oks(n), 0);
    QueueKeepsFd(a, m.nextToken, targets, Oks(n), 0);
    hide V4L2.QueueBuffers, V4L2.FreeCount, V4L2.Agrees, Oks;
    assert SetContinuous(m, e, true).endpoints[e].adapter == a;
  }

  /** The preview of a setup that loses leases starts on the opened devices. */
  lemma PreviewStarts(u: Setup, n: nat)
    requires LosesLeases(u) && n == |u.config.previewBuffers|
    ensures var (m, started, tokens) := StartDriver(Opening(u, n, |u.streams|), u, Oks(n));
            && started && tokens.Some? && FdsAreSpots(m) && AllAgree(m)
  {
    var all := Starting(u, n, |u.streams|);
    assert Opening(u, n, |u.streams|) == Starting(u, n, 0);
    StartsAll(u, n, 0);
    StartingIs(u, n, |u.streams|);
    StartedAgrees(u, n);
    var i :| 0 <= i < |u.streams| && u.streams[i] == u.previewType;
    assert all.endpoints[i].streamType == u.previewType;
    var e := EndpointFor(all.endpoints, u.previewType, 0).value;
    hide StartFrom, StartContinuous, AllAgree, FdsAreSpots, Starting, Opening, IdleAt;
    ContinuousStarts(all, u.previewType, e, u.config.previewBuffers, n);
    StartContinuousAgrees(all, u.previewType, u.config.previewBuffers, Oks(n));
  }

  /* ---------------------------------- the session ---------------------------------- */

  lemma {:induction false} RegisterPreviewAll(t: Tracker, buffers: seq<Target>, tokens: seq<nat>, first: nat, i: nat)
    requires i <= |buffers| == |tokens| && RegisterPreview(t, buffers, tokens, first, i).1
    ensures var t' := RegisterPreview(t, buffers, tokens, first, i).0;
            forall f: nat :: first + i <= f < first + |buffers| ==>
              f in t'.streaming
              && t'.streaming[f] == StreamingOutput(f, buffers[f - first], buffers[f - first].streamType)
    decreases |buffers| - i
  {
    if i < |buffers| {
      var output := StreamingOutput(first + i, buffers[i], buffers[i].streamType);
      var t1 := RegisterAndBind(t, output, tokens[i]);
      assert t1.streaming == t.streaming[first + i := output];
      hide RegisterAndBind, Bind;
      RegisterPreviewAll(t1, buffers, tokens, first, i + 1);
      RegisterPreviewStreaming(t1, buffers, tokens, first, i + 1);
    }
  }

  const READY := NEW_SESSION.(state := CameraSession.Configured)

  /** A configured session with fresh tokens for all its preview buffers streams, with a row for each. */
  lemma SessionStarts(c: Config, tokens: seq<nat>)
    requires c.hasDriver && c.continuousPreview && c.previewBuffers != []
    requires |tokens| == |c.previewBuffers| && FreshTokens(tokens, {})
    ensures var s := StartStreaming(READY, c, true, Some(tokens));
            && s.state.Streaming?
            && forall f: nat :: FIRST_STREAMING_FRAME <= f < FIRST_STREAMING_FRAME + |c.previewBuffers| ==>
                 && f in s.tracker.streaming
                 && s.tracker.streaming[f].target == c.previewBuffers[f - FIRST_STREAMING_FRAME]
  {
    RegisterPreviewOk(EMPTY, c.previewBuffers, tokens, FIRST_STREAMING_FRAME, 0, {});
    RegisterPreviewAll(EMPTY, c.previewBuffers, tokens, FIRST_STREAMING_FRAME, 0);
    hide RegisterPreview, Consistent, Orphans;
  }

  /* ---------------------------------- the run ---------------------------------- */

  lemma RunConfigures(u: Setup, n: nat) returns (y: System)
    requires LosesLeases(u) && n == |u.config.previewBuffers|
    ensures SysAdmissible(NewSystem(u), u, SysConfigure(Devices(u, n), true))
    ensures y == SysNext(NewSystem(u), u, SysConfigure(Devices(u, n), true))
    ensures y.multi == Opening(u, n, |u.streams|) && y.world == NewWorld().(session := READY) && y.held == map[]
  {
    var y0 := NewSystem(u);
    y := SysNext(y0, u, SysConfigure(Devices(u, n), true));
    OpensAll(u, n, 0);
    assert y0.multi == Opening(u, n, 0);
    hide ConfigureFrom;
  }

  /** Every preview buffer has a streaming row. */
  predicate AllRegistered(s: Session, buffers: seq<Target>) {
    forall f: nat | FIRST_STREAMING_FRAME <= f < FIRST_STREAMING_FRAME + |buffers| ::
      f in s.tracker.streaming && s.tracker.streaming[f].target == buffers[f - FIRST_STREAMING_FRAME]
  }

  lemma StartedWorld(u: Setup, tokens: Option<seq<nat>>)
    requires u.config.hasDriver && u.config.continuousPreview && u.config.previewBuffers != []
    requires tokens.Some? && |tokens.value| == |u.config.previewBuffers| && FreshTokens(tokens.value, {})
    ensures var w := AfterStart(NewWorld().(session := READY), u.config, true, tokens);
            && w.session.state.Streaming? && w.callbacks == 0 && w.orphans == {}
            && AllRegistered(w.session, u.config.previewBuffers)
  {
    SessionStarts(u.config, tokens.value);
    hide FreshTokens, RegisterPreview;
  }

  lemma DriverTokens(u: Setup, n: nat, y: System)
    requires Sound(y.multi) && TokensLinked(y) && n == |u.config.previewBuffers|
    ensures var (_, _, tokens) := StartDriver(y.multi, u, Oks(n));
            && Admissible(y.world, u.config, DoStart(StartDriver(y.multi, u, Oks(n)).1, tokens))
            && (tokens.Some? ==> |tokens.value| == n)
  {
    StartAdmissible(y, u, Oks(n));
    StartDriverEffect(y.multi, u, Oks(n));
    hide StartDriver, Oks, Sound, Continuous, HeldSince, Admissible;
  }

  lemma RunStarts(u: Setup, n: nat, y1: System) returns (y: System)
    requires LosesLeases(u) && n == |u.config.previewBuffers|
    requires y1.multi == Opening(u, n, |u.streams|) && y1.world == NewWorld().(session := READY) && y1.held == map[]
    requires Sound(y1.multi) && TokensLinked(y1)
    ensures SysAdmissible(y1, u, SysStart(Oks(n))) && y == SysNext(y1, u, SysStart(Oks(n)))
    ensures FdsAreSpots(y.multi) && AllAgree(y.multi) && y.held == map[]
    ensures y.world.session.state.Streaming? && y.world.callbacks == 0 && y.world.orphans == {}
    ensures AllRegistered(y.world.session, u.config.previewBuffers)
  {
    hide StartDriver, AllAgree, FdsAreSpots, Oks, Sound, TokensLinked, AfterStart, AllRegistered, Opening, Mismatched;
    y := SysNext(y1, u, SysStart(Oks(n)));
    PreviewStarts(u, n);
    DriverTokens(u, n, y1);
    StartedWorld(u, StartDriver(y1.multi, u, Oks(n)).2);
  }

  /** The kernel can hand back the index that it holds for a token. */
  lemma KernelServes(m: Multi, token: nat, bufferFd: int) returns (e: nat, j: nat)
    requires FdsAreSpots(m) && AllAgree(m) && KernelHolds(m, token, bufferFd)
    ensures DequeueAt(m, e, Some(j)).1 == Some(token)
  {
    var e', i :| QueuedAt(m, e', i) && TokenAt(m, e', i) == token
               && i in m.endpoints[e'].adapter.kernel.held && m.endpoints[e'].adapter.kernel.held[i] == bufferFd;
    e, j := e', i;
    assert V4L2.Agrees(m.endpoints[e].adapter) && m.endpoints[e].adapter.fd == e;
    FdFindsEndpoint(m, e);
    V4L2.DequeueFindsItsSlot(m.endpoints[e].adapter, j);
    hide V4L2.Dequeue;
  }

  lemma InvOwed(y: System, u: Setup)
    requires SystemInv(y, u)
    ensures Matched(y.world.session.tracker) && Orphans(y.world.session.tracker) == y.world.orphans
    ensures AllCovered(y.multi) && TokensBacked(y) && SessionOk(y.world.session)
  {
  }

  /** The completion of an owed output can be dequeued. */
  lemma RunDequeues(u: Setup, y2: System, c: Context) returns (e: nat, j: nat, token: nat)
    requires SystemInv(y2, u) && y2.world.session.state.Streaming? && y2.world.orphans == {}
    requires FdsAreSpots(y2.multi) && AllAgree(y2.multi) && y2.held == map[]
    requires Outstanding(y2.world.session.tracker, c)
    ensures NextDequeue(y2, e, Some(j)).world == y2.world && token in NextDequeue(y2, e, Some(j)).held
    ensures token in y2.world.session.tracker.tokens && y2.world.session.tracker.tokens[token] == c
  {
    hide SystemInv, FdsAreSpots, AllAgree, Outstanding, DequeueAt, KernelHolds, ContextFd, Orphans, Matched, TokensBacked,
         AllCovered, SessionOk;
    InvOwed(y2, u);
    OwedHasToken(y2.world.session.tracker, {}, c);
    token := OwedIsBacked(y2, c);
    e, j := KernelServes(y2.multi, token, ContextFd(y2.world.session.tracker, c));
  }

  function NoFences(c: Config): (fences: seq<int>)
    ensures |fences| == |c.processors|
  {
    seq(|c.processors|, _ => -1)
  }

  /** Resolving it hands the lease out to callback 0. */
  lemma ResolveHandsOut(w: World, c: Config, token: nat)
    requires SessionOk(w.session) && w.callbacks == 0
    requires var t := w.session.tracker; token in t.tokens && t.tokens[token].outputIndex == -1
    ensures var t := w.session.tracker;
            var w' := AfterResolve(w, c, token, 0, NoFences(c));
            && t.tokens[token].frameNumber in t.streaming
            && Callback(w', 0) == Some(t.streaming[t.tokens[token].frameNumber])
            && w'.session.state == w.session.state && w'.orphans == w.orphans
  {
    hide Resolve, ReleaseFence, Take, SessionOk, FenceBag, NoFences;
    ResolvePreview(w.session, c, token, 0, NoFences(c));
    ResolveFrame(w.session, c, token, 0, NoFences(c));
  }

  lemma NextResolveWorld(y: System, u: Setup, token: nat)
    ensures NextResolve(y, u, token, 0, NoFences(u.config)).world
            == AfterResolve(y.world, u.config, token, 0, NoFences(u.config))
  {
    hide AfterResolve;
  }

  /** Five admissible steps in a row. */
  lemma RunOfFive(u: Setup, y0: System, e1: SystemEvent, e2: SystemEvent, e3: SystemEvent, e4: SystemEvent,
                  e5: SystemEvent)
    requires SysAdmissible(y0, u, e1)
    requires SysAdmissible(SysNext(y0, u, e1), u, e2)
    requires var y2 := SysNext(SysNext(y0, u, e1), u, e2); SysAdmissible(y2, u, e3)
    requires var y2 := SysNext(SysNext(y0, u, e1), u, e2); SysAdmissible(SysNext(y2, u, e3), u, e4)
    requires var y2 := SysNext(SysNext(y0, u, e1), u, e2);
             SysAdmissible(SysNext(SysNext(y2, u, e3), u, e4), u, e5)
    ensures var y2 := SysNext(SysNext(y0, u, e1), u, e2);
            && SysAdmissibleRun(y0, u, [e1, e2, e3, e4, e5])
            && RunSystem(y0, u, [e1, e2, e3, e4, e5]) == SysNext(SysNext(SysNext(y2, u, e3), u, e4), u, e5)
  {
    hide SysNext, SysAdmissible;
    var y1 := SysNext(y0, u, e1);
    var y2 := SysNext(y1, u, e2);
    var y3 := SysNext(y2, u, e3);
    var y4 := SysNext(y3, u, e4);
    var y5 := SysNext(y4, u, e5);
    assert [e1, e2, e3, e4, e5][1..] == [e2, e3, e4, e5] && [e2, e3, e4, e5][1..] == [e3, e4, e5];
    assert [e3, e4, e5][1..] == [e4, e5] && [e4, e5][1..] == [e5] && [e5][1..] == [];
    assert SysAdmissibleRun(y5, u, []) && RunSystem(y5, u, []) == y5;
    assert SysAdmissibleRun(y4, u, [e5]) && RunSystem(y4, u, [e5]) == y5;
    assert SysAdmissibleRun(y3, u, [e4, e5]) && RunSystem(y3, u, [e4, e5]) == y5;
    assert SysAdmissibleRun(y2, u, [e3, e4, e5]) && RunSystem(y2, u, [e3, e4, e5]) == y5;
    assert SysAdmissibleRun(y1, u, [e2, e3, e4, e5]) && RunSystem(y1, u, [e2, e3, e4, e5]) == y5;
  }

  lemma DequeueStep(u: Setup, y2: System, f: nat) returns (e3: SystemEvent, token: nat)
    requires SystemInv(y2, u) && y2.world.session.state.Streaming? && y2.world.orphans == {}
    requires FdsAreSpots(y2.multi) && AllAgree(y2.multi) && y2.held == map[]
    requires f in y2.world.session.tracker.streaming
    ensures SysAdmissible(y2, u, e3) && SystemInv(SysNext(y2, u, e3), u)
    ensures SysNext(y2, u, e3).world == y2.world && token in SysNext(y2, u, e3).held
    ensures token in y2.world.session.tracker.tokens && y2.world.session.tracker.tokens[token] == Context(f, -1)
  {
    hide SystemInv, FdsAreSpots, AllAgree, NextDequeue;
    var e, j;
    e, j, token := RunDequeues(u, y2, Context(f, -1));
    e3 := SysDequeue(e, Some(j));
    NextKeepsSystemInv(y2, u, e3);
  }

  lemma ResolveStep(u: Setup, y3: System, token: nat) returns (e4: SystemEvent)
    requires SystemInv(y3, u) && y3.world.callbacks == 0 && token in y3.held
    requires var t := y3.world.session.tracker; token in t.tokens && t.tokens[token].outputIndex == -1
    ensures SysAdmissible(y3, u, e4) && SystemInv(SysNext(y3, u, e4), u)
    ensures var w' := SysNext(y3, u, e4).world;
            var t := y3.world.session.tracker;
            && t.tokens[token].frameNumber in t.streaming
            && Callback(w', 0) == Some(t.streaming[t.tokens[token].frameNumber])
            && w'.session.state == y3.world.session.state
  {
    hide SystemInv, NextResolve, AfterResolve, SessionOk, Callback, NoFences;
    e4 := SysResolve(token, 0, NoFences(u.config));
    NextKeepsSystemInv(y3, u, e4);
    InvOwed(y3, u);
    ResolveHandsOut(y3.world, u.config, token);
    NextResolveWorld(y3, u, token);
  }

  /** From a session that streams with a row for every preview buffer, a mismatched one is lost. */
  lemma StreamingLoses(u: Setup, y2: System, i: nat) returns (e3: SystemEvent, e4: SystemEvent, e5: SystemEvent)
    requires SystemInv(y2, u) && y2.world.session.state.Streaming? && y2.world.orphans == {} && y2.world.callbacks == 0
    requires FdsAreSpots(y2.multi) && AllAgree(y2.multi) && y2.held == map[]
    requires AllRegistered(y2.world.session, u.config.previewBuffers)
    requires i < |u.config.previewBuffers| && Mismatched(u, u.config.previewBuffers[i])
    ensures SysAdmissible(y2, u, e3) && SysAdmissible(SysNext(y2, u, e3), u, e4)
    ensures SysAdmissible(SysNext(SysNext(y2, u, e3), u, e4), u, e5)
    ensures SysNext(SysNext(SysNext(y2, u, e3), u, e4), u, e5).world.orphans != {}
  {
    var f := FIRST_STREAMING_FRAME + i;
    var t := y2.world.session.tracker;
    assert f in t.streaming && t.streaming[f].target == u.config.previewBuffers[i];
    hide *;
    var token;
    e3, token := DequeueStep(u, y2, f);
    var y3 := SysNext(y2, u, e3);
    e4 := ResolveStep(u, y3, token);
    e5 := ReturnStep(u, SysNext(y3, u, e4));
  }

  lemma ReturnStep(u: Setup, y4: System) returns (e5: SystemEvent)
    requires SystemInv(y4, u) && y4.world.session.state.Streaming?
    requires Callback(y4.world, 0).Some? && Mismatched(u, Callback(y4.world, 0).value.target)
    ensures SysAdmissible(y4, u, e5) && SysNext(y4, u, e5).world.orphans != {}
  {
    hide SystemInv, NextReturn, Mismatched, Callback;
    e5 := SysReturn(0, ANSWERS_OK);
    ReturnLosesExactlyWhen(y4, u, 0, ANSWERS_OK);
  }

  /** The run from the start until a mismatched buffer has come back. */
  lemma LeaseIsLost(u: Setup) returns (events: seq<SystemEvent>)
    requires LosesLeases(u)
    ensures SysAdmissibleRun(NewSystem(u), u, events) && RunSystem(NewSystem(u), u, events).world.orphans != {}
  {
    var n := |u.config.previewBuffers|;
    var i :| 0 <= i < n && Mismatched(u, u.config.previewBuffers[i]);
    hide *;
    var y0 := NewSystem(u);
    NewSystemInv(u);
    var e1 := SysConfigure(Devices(u, n), true);
    var y1 := RunConfigures(u, n);
    NextKeepsSystemInv(y0, u, e1);
    InvDriver(y1, u);
    var e2 := SysStart(Oks(n));
    var y2 := RunStarts(u, n, y1);
    NextKeepsSystemInv(y1, u, e2);
    var e3, e4, e5 := StreamingLoses(u, y2, i);
    RunOfFive(u, y0, e1, e2, e3, e4, e5);
    events := [e1, e2, e3, e4, e5];
  }

  lemma InvDriver(y: System, u: Setup)
    requires SystemInv(y, u)
    ensures Sound(y.multi) && TokensLinked(y)
  {
  }

  /** The bijection holds in every run of a setup exactly when the setup has no usable preview with a
      mismatched buffer; a caller can check this before configuring the session. */
  lemma BijectionHoldsExactlyWhen(u: Setup)
    ensures (forall events: seq<SystemEvent> :: SysAdmissibleRun(NewSystem(u), u, events) ==>
               Bijective(RunSystem(NewSystem(u), u, events).world.session.tracker))
            <==> !LosesLeases(u)
  {
    hide *;
    if LosesLeases(u) {
      var events := LeaseIsLost(u);
      OrphansDecide(u, events);
    } else {
      forall events: seq<SystemEvent> | SysAdmissibleRun(NewSystem(u), u, events)
        ensures Bijective(RunSystem(NewSystem(u), u, events).world.session.tracker)
      {
        NewSystemInv(u);
        NewHasNoOrphans(u);
        RunLosesNothing(NewSystem(u), u, events);
        OrphansDecide(u, events);
      }
    }
  }

  lemma NewHasNoOrphans(u: Setup)
    ensures NewSystem(u).world.orphans == {}
  {
  }

  lemma OrphansDecide(u: Setup, events: seq<SystemEvent>)
    requires SysAdmissibleRun(NewSystem(u), u, events)
    ensures var w := RunSystem(NewSystem(u), u, events).world;
            Bijective(w.session.tracker) <==> w.orphans == {}
  {
    NewSystemInv(u);
    RunKeepsSystemInv(NewSystem(u), u, events);
    InvOwed(RunSystem(NewSystem(u), u, events), u);
    BijectiveExactlyWhen(RunSystem(NewSystem(u), u, events).world.session.tracker);
    hide *;
  }

  const MISMATCH := Setup(
    Config(true, true, [Target(1, 7, 42, -1, 100, Still, 4, 4, Rgb24)], []), Preview, [Preview, Still])

  /** For instance a preview buffer left at the default stream type, Still, next to a still endpoint. */
  lemma DefaultStreamTypeLosesLeases()
    ensures LosesLeases(MISMATCH)
  {
    assert MISMATCH.streams[0] == Preview && MISMATCH.streams[1] == Still;
    assert Mismatched(MISMATCH, MISMATCH.config.previewBuffers[0]);
  }
}
