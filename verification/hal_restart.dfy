/** Stopping and starting again: from any run, a flush and a start bring the session and its devices back to
    streaming exactly when the preview fits them. */
module HalRestart {
  import opened Wrappers
  import opened CameraTypes
  import opened InFlightTracker
  import opened CameraSession
  import opened SessionConsistency
  import opened SessionHistory
  import opened SessionTheorems
  import opened SessionReports
  import V4L2 = V4L2Driver
  import opened V4L2Router
  import opened V4L2Admission
  import opened HalSystem
  import opened HalRouting
  import opened HalTheorems
  import opened HalAdmission

  /* ---------------------------------- the devices stay open ---------------------------------- */

  /** The endpoints keep their devices, and the devices their buffers. */
  predicate SameShape(m: Multi, m': Multi) {
    && |m'.endpoints| == |m.endpoints|
    && forall e :: 0 <= e < |m.endpoints| ==>
         var a, a' := m.endpoints[e].adapter, m'.endpoints[e].adapter;
         && m'.endpoints[e].streamType == m.endpoints[e].streamType
         && a'.fd == a.fd && a'.bufferSize == a.bufferSize && |a'.slots| == |a.slots|
  }

  predicate AllStartable(m: Multi) {
    m.endpoints != [] && forall e :: 0 <= e < |m.endpoints| ==> Startable(m.endpoints[e].adapter)
  }

  lemma ShapeTwice(a: Multi, b: Multi, c: Multi)
    requires SameShape(a, b) && SameShape(b, c)
    ensures SameShape(a, c)
  {
  }

  lemma QueueAtShape(m: Multi, e: nat, bufferFd: int, bufferSize: nat, io: V4L2.Io)
    requires e < |m.endpoints|
    ensures SameShape(m, QueueAt(m, e, bufferFd, bufferSize, io).0)
  {
  }

  lemma {:induction false} SubmitTargetsShape(m: Multi, targets: seq<Target>, ios: seq<V4L2.Io>, i: nat)
    requires |ios| == |targets|
    ensures SameShape(m, SubmitTargets(m, targets, ios, i).0)
    decreases |targets| - i
  {
    hide QueueAt;
    if i < |targets| && Route(m, targets[i]).Some? {
      QueueAtShape(m, Route(m, targets[i]).value, targets[i].bufferFd, targets[i].bufferSize, ios[i]);
      var m1 := SubmitCapture(m, targets[i], ios[i]).0;
      SubmitTargetsShape(m1, targets, ios, i + 1);
      ShapeTwice(m, m1, SubmitTargets(m1, targets, ios, i + 1).0);
    }
  }

  lemma {:induction false} QueueAllShape(m: Multi, e: nat, targets: seq<Target>, ios: seq<V4L2.Io>, i: nat)
    requires |ios| == |targets| && e < |m.endpoints|
    ensures SameShape(m, QueueAll(m, e, targets, ios, i).0)
    decreases |targets| - i
  {
    hide QueueAt, QueueAll;
    QueueAllStep(m, e, targets, ios, i);
    if i < |targets| {
      QueueAtShape(m, e, targets[i].bufferFd, targets[i].bufferSize, ios[i]);
      var m1 := QueueAt(m, e, targets[i].bufferFd, targets[i].bufferSize, ios[i]).0;
      QueueAllShape(m1, e, targets, ios, i + 1);
      ShapeTwice(m, m1, QueueAll(m1, e, targets, ios, i + 1).0);
    }
  }

  lemma StartContinuousShape(m: Multi, streamType: StreamType, targets: seq<Target>, ios: seq<V4L2.Io>)
    requires |ios| == |targets|
    ensures SameShape(m, StartContinuous(m, streamType, targets, ios).0)
  {
    if CanStartContinuous(m, streamType) {
      var e := EndpointFor(m.endpoints, streamType, 0).value;
      var m0 := SetContinuous(m, e, true);
      QueueAllShape(m0, e, targets, ios, 0);
      hide QueueAll;
    }
  }

  lemma {:induction false} StartFromShape(m: Multi, i: nat)
    requires i <= |m.endpoints|
    ensures SameShape(m, StartFrom(m, i).0)
    decreases |m.endpoints| - i
  {
    if i < |m.endpoints| && m.endpoints[i].adapter.fd >= 0 && m.endpoints[i].adapter.slots != [] {
      var m1 := SetAdapter(m, i, V4L2.StartStreaming(m.endpoints[i].adapter));
      StartFromShape(m1, i + 1);
      ShapeTwice(m, m1, StartFrom(m1, i + 1).0);
    }
  }

  lemma DequeueAtShape(m: Multi, readyFd: int, choice: Option<nat>)
    ensures SameShape(m, DequeueAt(m, readyFd, choice).0)
  {
  }

  lemma ReturnBufferShape(m: Multi, streamType: StreamType, bufferFd: int, bufferSize: nat, io: V4L2.Io)
    ensures SameShape(m, ReturnBuffer(m, streamType, bufferFd, bufferSize, io).0)
  {
    var e := EndpointFor(m.endpoints, streamType, 0);
    if e.Some? {
      QueueAtShape(m, e.value, bufferFd, bufferSize, io);
      hide QueueAt;
    }
  }

  lemma StopAllShape(m: Multi, streamOffs: seq<bool>)
    requires |streamOffs| == |m.endpoints|
    ensures SameShape(m, StopAll(m, streamOffs))
  {
  }

  lemma ShapeStartable(m: Multi, m': Multi)
    requires SameShape(m, m') && AllStartable(m)
    ensures AllStartable(m')
  {
    forall e | 0 <= e < |m'.endpoints| ensures Startable(m'.endpoints[e].adapter) {
      assert Startable(m.endpoints[e].adapter);
    }
  }

  /** An open device has buffers, and while the session is configured or streams every device is open. */
  predicate Ready(y: System) {
    && (forall e :: 0 <= e < |y.multi.endpoints| ==> HasBuffers(y.multi.endpoints[e].adapter))
    && (y.world.session.state.Streaming? || y.world.session.state.Configured? ==> AllStartable(y.multi))
  }

  predicate HasBuffers(a: V4L2.Adapter) {
    a.fd >= 0 ==> a.slots != []
  }

  lemma ShapeReady(y: System, y': System)
    requires Ready(y) && SameShape(y.multi, y'.multi)
    requires var s, s' := y.world.session, y'.world.session;
             s'.state.Streaming? || s'.state.Configured? ==> s.state.Streaming? || s.state.Configured?
    ensures Ready(y')
  {
    forall e | 0 <= e < |y'.multi.endpoints| ensures HasBuffers(y'.multi.endpoints[e].adapter) {
      assert HasBuffers(y.multi.endpoints[e].adapter);
    }
    if AllStartable(y.multi) { ShapeStartable(y.multi, y'.multi); }
    hide SameShape, AllStartable;
  }

  /** No critical section but a configuration makes the session ready that was not. */
  lemma StaysUnready(w: World, u: Setup, step: Event)
    requires !step.DoConfigure?
    ensures var s, s' := w.session, StepWorld(w, u, step).session;
            s'.state.Streaming? || s'.state.Configured? ==> s.state.Streaming? || s.state.Configured?
  {
    hide Admissible, FlushOutcomes, RegisterPreview, BindOutputs, Resolve, Take, ReleaseFence, FenceBag;
    if Admissible(w, u.config, step) && step.DoResolve? {
      assert |step.fences| >= |u.config.processors| by { FencesAdmissible(w, u, step); }
      ResolveStateStays(w.session, u.config, step.token, step.timestamp, step.fences);
    }
  }

  lemma FencesAdmissible(w: World, u: Setup, step: Event)
    requires Admissible(w, u.config, step) && step.DoResolve?
    ensures |step.fences| >= |u.config.processors|
  {
  }

  lemma ConfigureReady(y: System, u: Setup, devices: seq<Option<V4L2.Opened>>, registered: bool)
    requires Ready(y) && |devices| == |y.multi.endpoints|
    ensures Ready(NextConfigure(y, u, devices, registered))
  {
    ConfigureSucceedsExactlyWhen(y.multi, devices, 0);
    var (m, ok) := ConfigureAll(y.multi, devices);
    assert y.multi.endpoints == [] ==> m == y.multi;
    forall e | 0 <= e < |m.endpoints| ensures HasBuffers(m.endpoints[e].adapter) && (ok ==> Startable(m.endpoints[e].adapter)) {
      assert HasBuffers(y.multi.endpoints[e].adapter);
      if ok {
        assert Opens(y.multi.endpoints[e].adapter, devices[e]);
        assert ConfiguredAs(y.multi.endpoints[e].adapter, devices[e], m.endpoints[e].adapter);
      }
    }
    hide ConfigureFrom;
  }

  lemma StartReady(y: System, u: Setup, ios: seq<V4L2.Io>)
    requires Ready(y) && |ios| == |u.config.previewBuffers|
    ensures Ready(NextStart(y, u, ios))
  {
    hide StepWorld, StartFrom, StartContinuous, SameShape, Ready;
    var y' := NextStart(y, u, ios);
    SameShapeItself(y.multi);
    StaysUnready(y.world, u, DoStart(false, None));
    if y.world.session.state.Configured? {
      StartFromShape(y.multi, 0);
      var (m, started) := StartFrom(y.multi, 0);
      StartContinuousShape(m, u.previewType, u.config.previewBuffers, ios);
      ShapeTwice(y.multi, m, StartContinuous(m, u.previewType, u.config.previewBuffers, ios).0);
      var (m', s, tokens) := StartDriver(y.multi, u, ios);
      StaysUnready(y.world, u, DoStart(s, tokens));
    }
    ShapeReady(y, y');
  }

  lemma SameShapeItself(m: Multi)
    ensures SameShape(m, m)
  {
  }

  lemma SubmitReady(y: System, u: Setup, request: Request, ios: seq<V4L2.Io>)
    requires Ready(y) && |ios| == |RequestOutputs(request)|
    ensures Ready(NextSubmit(y, u, request, ios))
  {
    hide StepWorld, SubmitTargets, SameShape, Ready, CanSubmitAll;
    var (m, preflight, responses) := SubmitDriver(y, u, request, ios);
    SameShapeItself(y.multi);
    SubmitTargetsShape(y.multi, RequestOutputs(request), ios, 0);
    StaysUnready(y.world, u, DoSubmit(request, preflight, responses));
    ShapeReady(y, NextSubmit(y, u, request, ios));
  }

  lemma ReturnReady(y: System, u: Setup, callback: nat, io: V4L2.Io)
    requires Ready(y)
    ensures Ready(NextReturn(y, u, callback, io))
  {
    hide StepWorld, ReturnBuffer, SameShape, Ready;
    var (m, answer) := ReturnDriver(y, callback, io);
    SameShapeItself(y.multi);
    var output := Callback(y.world, callback);
    if output.Some? {
      ReturnBufferShape(y.multi, output.value.streamType, output.value.target.bufferFd, output.value.target.bufferSize, io);
    }
    StaysUnready(y.world, u, DoReturn(callback, answer));
    ShapeReady(y, NextReturn(y, u, callback, io));
  }

  lemma CloseReady(y: System, u: Setup, order: seq<nat>, streamOffs: seq<bool>)
    requires Ready(y) && |streamOffs| == |y.multi.endpoints| && VisitsRows(y, order)
    ensures Ready(NextClose(y, u, order, streamOffs))
  {
    hide FlushOutcomes;
  }

  lemma NextReady(y: System, u: Setup, e: SystemEvent)
    requires Ready(y) && SysAdmissible(y, u, e)
    ensures Ready(SysNext(y, u, e))
  {
    hide StepWorld, Ready, SameShape, DequeueAt, StopAll;
    SameShapeItself(y.multi);
    match e
    case SysConfigure(devices, registered) => ConfigureReady(y, u, devices, registered);
    case SysStart(ios) => StartReady(y, u, ios);
    case SysSubmit(request, ios) => SubmitReady(y, u, request, ios);
    case SysDequeue(readyFd, choice) =>
      DequeueAtShape(y.multi, readyFd, choice);
      ShapeReady(y, SysNext(y, u, e));
    case SysResolve(token, timestamp, fences) =>
      StaysUnready(y.world, u, DoResolve(token, timestamp, fences));
      ShapeReady(y, SysNext(y, u, e));
    case SysReturn(callback, io) => ReturnReady(y, u, callback, io);
    case SysFlush(order, streamOffs) =>
      StopAllShape(y.multi, streamOffs);
      StaysUnready(y.world, u, DoFlush(order));
      ShapeReady(y, SysNext(y, u, e));
    case SysClose(order, streamOffs) => CloseReady(y, u, order, streamOffs);
  }

  lemma {:induction false} RunReady(y: System, u: Setup, events: seq<SystemEvent>)
    requires Ready(y) && SysAdmissibleRun(y, u, events)
    ensures Ready(RunSystem(y, u, events))
    decreases |events|
  {
    hide Ready, SysNext, SysAdmissible;
    if events != [] {
      NextReady(y, u, events[0]);
      RunReady(SysNext(y, u, events[0]), u, events[1..]);
    }
  }

  /* ---------------------------------- starting again ---------------------------------- */

  /** The endpoint of the preview has a buffer for each preview buffer, which all fit it. */
  predicate PreviewFits(m: Multi, u: Setup) {
    var e := EndpointFor(m.endpoints, u.previewType, 0);
    && e.Some?
    && var a := m.endpoints[e.value].adapter;
    && |u.config.previewBuffers| <= |a.slots|
    && forall k :: 0 <= k < |u.config.previewBuffers| ==> V4L2.Fits(a, u.config.previewBuffers[k])
  }

  /** Stopped devices that are all open start, and then take a preview exactly when it fits. */
  lemma StoppedDevicesStart(m: Multi, u: Setup, ios: seq<V4L2.Io>)
    requires AllAgree(m) && AllStopped(m) && AllStartable(m) && |ios| == |u.config.previewBuffers| && AllAnswerOk(ios)
    ensures var (m', started, tokens) := StartDriver(m, u, ios);
            && started
            && (u.config.continuousPreview && u.config.previewBuffers != [] ==> (tokens.Some? <==> PreviewFits(m, u)))
  {
    hide AllAgree, StartFrom, StartContinuous, AllAnswerOk;
    StartSucceedsExactlyWhen(m, 0);
    StartFromAgrees(m, 0);
    StartFromShape(m, 0);
    var m1 := StartFrom(m, 0).0;
    PreviewStartsExactlyWhen(m1, u.previewType, u.config.previewBuffers, ios);
    SameEndpointFor(m.endpoints, m1.endpoints, u.previewType, 0);
    var e := EndpointFor(m.endpoints, u.previewType, 0);
    if e.Some? {
      var a, a1 := m.endpoints[e.value].adapter, m1.endpoints[e.value].adapter;
      assert Startable(a);
      FreeSlotCounts(a.slots);
      assert forall k :: 0 <= k < |u.config.previewBuffers| ==>
               V4L2.Fits(a1, u.config.previewBuffers[k]) == V4L2.Fits(a, u.config.previewBuffers[k]);
    }
  }

  /** What starting stopped devices makes of a configured session. */
  lemma StartsExactlyWhen(y: System, u: Setup, ios: seq<V4L2.Io>)
    requires SystemInv(y, u) && AllAgree(y.multi) && AllStopped(y.multi) && AllStartable(y.multi)
    requires y.world.session.state.Configured? && u.config.hasDriver
    requires |ios| == |u.config.previewBuffers| && AllAnswerOk(ios)
    ensures NextStart(y, u, ios).world.session.state.Streaming?
            <==> (u.config.continuousPreview ==> u.config.previewBuffers != [] && PreviewFits(y.multi, u))
  {
    var (m, started, tokens) := StartDriver(y.multi, u, ios);
    StartAdmissible(y, u, ios);
    SystemParts(y, u);
    assert y.world.session.tracker.tokens.Keys <= y.world.used && Sound(y.multi);
    hide SystemInv, AllAgree, AllStopped, AllStartable, AllAnswerOk, PreviewFits, StartStreaming, FreshTokens;
    StoppedDevicesStart(y.multi, u, ios);
    DriverTokens(y.multi, u, ios);
    hide StartDriver, SessionOk, Sound;
    StartFollows(y.world.session, u.config, started, tokens, y.world.used);
  }

  lemma DriverTokens(m: Multi, u: Setup, ios: seq<V4L2.Io>)
    requires Sound(m) && |ios| == |u.config.previewBuffers|
    ensures var tokens := StartDriver(m, u, ios).2; tokens.Some? ==> |tokens.value| == |u.config.previewBuffers|
  {
    hide Sound, StartFrom, StartContinuous, HeldSince;
    StartFromEffect(m, 0);
    StartContinuousTokens(StartFrom(m, 0).0, u.previewType, u.config.previewBuffers, ios);
  }

  /** From any run in which STREAMON and STREAMOFF have not failed and in which the session streams or is
      configured: after a flush and a start whose calls succeed it streams, without a preview always, and
      with one exactly when there are preview buffers and they fit the endpoint of the preview. */
  lemma SystemStartsAgainExactlyWhen(u: Setup, events: seq<SystemEvent>, order: seq<nat>, streamOffs: seq<bool>,
                                     ios: seq<V4L2.Io>)
    requires SysAdmissibleRun(NewSystem(u), u, events) && forall i :: 0 <= i < |events| ==> Faultless(events[i])
    requires u.config.hasDriver && |ios| == |u.config.previewBuffers| && AllAnswerOk(ios)
    requires var y := Reached(u, events);
             && (y.world.session.state.Streaming? || y.world.session.state.Configured?)
             && SysAdmissible(y, u, SysFlush(order, streamOffs)) && Faultless(SysFlush(order, streamOffs))
    ensures var y := Reached(u, events);
            var flushed := SysNext(y, u, SysFlush(order, streamOffs));
            && flushed.world.session.state == CameraSession.Configured
            && (SysNext(flushed, u, SysStart(ios)).world.session.state.Streaming?
                <==> (u.config.continuousPreview ==> u.config.previewBuffers != [] && PreviewFits(y.multi, u)))
  {
    var y := Reached(u, events);
    var flush := SysFlush(order, streamOffs);
    var flushed := SysNext(y, u, flush);
    ReachedInv(u, events);
    NewReady(u);
    RunReady(NewSystem(u), u, events);
    FaultlessRunAgrees(NewSystem(u), u, events);
    hide SystemInv, Ready, AllAgree, AllAnswerOk, SysAdmissibleRun, NewSystem;
    NextKeepsSystemInv(y, u, flush);
    NextReady(y, u, flush);
    FaultlessStepAgrees(y, u, flush);
    FlushStopsEverything(y, u, order, streamOffs);
    FlushShape(y, u, order, streamOffs);
    ReadyStartable(flushed);
    hide Reached, SysAdmissible, Faultless, AllStopped, AllStartable, SameShape, PreviewFits;
    StartsExactlyWhen(flushed, u, ios);
    SameFit(y.multi, flushed.multi, u);
    StartIsNext(flushed, u, ios);
  }

  lemma StartIsNext(y: System, u: Setup, ios: seq<V4L2.Io>)
    requires SysAdmissible(y, u, SysStart(ios))
    ensures SysNext(y, u, SysStart(ios)) == NextStart(y, u, ios)
  {
  }

  lemma NewReady(u: Setup)
    ensures Ready(NewSystem(u)) && AllAgree(NewSystem(u).multi)
  {
  }

  lemma ReadyStartable(y: System)
    requires Ready(y) && y.world.session.state.Configured?
    ensures AllStartable(y.multi)
  {
  }

  lemma FlushShape(y: System, u: Setup, order: seq<nat>, streamOffs: seq<bool>)
    requires SysAdmissible(y, u, SysFlush(order, streamOffs))
    ensures SameShape(y.multi, SysNext(y, u, SysFlush(order, streamOffs)).multi)
  {
    hide StepWorld, SameShape;
    SameShapeItself(y.multi);
    StopAllShape(y.multi, streamOffs);
  }

  lemma SameFit(m: Multi, m': Multi, u: Setup)
    requires SameShape(m, m')
    ensures PreviewFits(m, u) <==> PreviewFits(m', u)
  {
    SameEndpointFor(m.endpoints, m'.endpoints, u.previewType, 0);
    var e := EndpointFor(m.endpoints, u.previewType, 0);
    if e.Some? {
      assert forall k :: 0 <= k < |u.config.previewBuffers| ==>
               V4L2.Fits(m'.endpoints[e.value].adapter, u.config.previewBuffers[k])
               == V4L2.Fits(m.endpoints[e.value].adapter, u.config.previewBuffers[k]);
    }
  }
}
