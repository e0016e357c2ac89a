/** A short run of the session with one V4L2 endpoint, from configuration to an Ok result. */
module HalExample {
  import opened Wrappers
  import opened CameraTypes
  import opened InFlightTracker
  import opened CameraSession
  import opened SessionHistory
  import opened V4L2Router
  import opened HalSystem

  const TARGET := Target(1, 7, 42, -1, 100, Still, 4, 4, Rgb24)
  const REQUEST := Request(5, 4, 4, [TARGET])
  const SETUP := Setup(Config(true, false, [], []), Preview, [Still])
  const ANSWERS_OK := V4L2.Io(true, true, true)

  const RUN: seq<SystemEvent> := [
    SysConfigure([Some(V4L2.Opened(3, 1, 100))], true),
    SysStart([]),
    SysSubmit(REQUEST, [ANSWERS_OK]),
    SysDequeue(3, Some(0))]

  function Idle(streaming: bool): V4L2.Adapter {
    V4L2.Adapter(3, 100, [V4L2.FreeSlot(0)], streaming, false, false, V4L2.Kernel(map[], false))
  }

  function OneEndpoint(a: V4L2.Adapter, nextToken: nat): Multi {
    Multi([Endpoint(Still, a)], nextToken)
  }

  lemma Configured() returns (y: System)
    ensures y == SysNext(NewSystem(SETUP), SETUP, RUN[0])
    ensures y.multi == OneEndpoint(Idle(false), 1)
    ensures y.world == NewWorld().(session := NEW_SESSION.(state := CameraSession.Configured))
    ensures y.held == map[] && y.filler == map[]
  {
    var y0 := NewSystem(SETUP);
    y := SysNext(y0, SETUP, RUN[0]);
    assert y0.multi == OneEndpoint(V4L2.CLOSED, 1);
    var devices := [Some(V4L2.Opened(3, 1, 100))];
    var m1 := SetAdapter(y0.multi, 0, V4L2.ConfigureStream(V4L2.CLOSED, devices[0]));
    assert V4L2.FreshSlots(1) == [V4L2.FreeSlot(0)];
    assert m1 == OneEndpoint(Idle(false), 1);
    assert ConfigureFrom(m1, devices, 1) == (m1, true);
  }

  lemma Started() returns (y: System)
    ensures SysAdmissibleRun(NewSystem(SETUP), SETUP, RUN[..2]) && y == RunSystem(NewSystem(SETUP), SETUP, RUN[..2])
    ensures y.multi == OneEndpoint(Idle(true), 1)
    ensures y.world == NewWorld().(session := NEW_SESSION.(state := Streaming))
    ensures y.held == map[] && y.filler == map[]
  {
    var y1 := Configured();
    y := SysNext(y1, SETUP, RUN[1]);
    var m1 := SetAdapter(y1.multi, 0, V4L2.StartStreaming(Idle(false)));
    assert m1 == OneEndpoint(Idle(true), 1);
    assert StartFrom(m1, 1) == (m1, true);
    assert RUN[..2] == [RUN[0], RUN[1]] && RUN[..2][1..] == [RUN[1]] && [RUN[1]][1..] == [];
    assert RunSystem(y1, SETUP, [RUN[1]]) == y;
  }

  function Capturing(): V4L2.Adapter {
    V4L2.Adapter(3, 100, [V4L2.Slot(0, 1, 42, 100, true)], true, true, false, V4L2.Kernel(map[0 := 42], true))
  }

  const IN_FLIGHT := Row(5, REQUEST, [Output(TARGET, 0, false, -1)], 0, QueuedToDriver)

  lemma Queues()
    ensures CanSubmitAll(OneEndpoint(Idle(true), 1), [TARGET])
    ensures SubmitTargets(OneEndpoint(Idle(true), 1), [TARGET], [ANSWERS_OK], 0)
            == (OneEndpoint(Capturing(), 2), [Some(1)])
  {
    var m := OneEndpoint(Idle(true), 1);
    assert [TARGET][..0] == [];
    assert Group(m, [TARGET][..0], 0) == [];
    assert Group(m, [TARGET], 0) == [TARGET];
    assert Idle(true).slots[..0] == [];
    assert V4L2.FreeCount(Idle(true).slots[..0]) == 0;
    var (m1, token) := SubmitCapture(m, TARGET, ANSWERS_OK);
    var none: map<nat, int> := map[];
    assert none[0 := 42] == map[0 := 42];
    assert Idle(true).slots[0 := V4L2.Slot(0, 1, 42, 100, true)] == Capturing().slots;
    assert V4L2.QueueCapture(Idle(true), 1, 42, 100, ANSWERS_OK) == (Capturing(), V4L2.Queued);
    assert m1 == OneEndpoint(Capturing(), 2);
    assert token == Some(1);
    assert SubmitTargets(m1, [TARGET], [ANSWERS_OK], 1) == (m1, []);
    assert SubmitCapture(m, [TARGET][0], [ANSWERS_OK][0]) == (m1, token);
    assert [token] + [] == [Some(1)];
  }

  lemma Accepts()
    ensures Submit(NEW_SESSION.(state := Streaming), SETUP.config, REQUEST, true, [Some(1)])
            == (NEW_SESSION.(state := Streaming, tracker := Tracker(map[5 := IN_FLIGHT], map[], map[1 := Context(5, 0)])), None)
  {
    var outputs := MakeOutputs(RequestOutputs(REQUEST));
    assert outputs == [Output(TARGET, 0, false, -1)];
    var started := Start(EMPTY, REQUEST, outputs);
    var bound := Bind(started, 1, Context(5, 0));
    assert BindOutputs(bound, 5, 1, [Some(1)], 1) == (bound, true);
    assert bound.tokens == map[1 := Context(5, 0)];
    assert SubmitToDriver(started, 5, 1, [Some(1)]).0.requests == map[5 := IN_FLIGHT];
  }

  /** The run is possible, and the next step delivers an Ok result for the one output: it names the
      buffer of the request, and the kernel held its dma-buf. */
  lemma ARequestIsDelivered()
    ensures SysAdmissibleRun(NewSystem(SETUP), SETUP, RUN)
    ensures var y := RunSystem(NewSystem(SETUP), SETUP, RUN);
            && SysAdmissible(y, SETUP, SysResolve(1, 0, [])) && y.held == map[1 := 42]
            && Resolve(y.world.session, SETUP.config, 1, 0, []).1
               == RowDone(Outcome(FromRow, Result(5, Ok, [CompletedBuffer(1, 7, 0, Ok, -1)], 4, 4, Rgb24Payload)))
  {
    hide SysNext, Resolve, SysAdmissible;
    var y2 := Started();
    Submitted(y2);
    var y3 := SysNext(y2, SETUP, RUN[2]);
    Dequeued(y3);
    Delivers();
    RunOfTwo(y2, RUN[2], RUN[3]);
    assert RUN[2..] == [RUN[2], RUN[3]] && RUN[..2] + RUN[2..] == RUN;
    RunInTwo(NewSystem(SETUP), RUN[..2], RUN[2..]);
    CanResolve(SysNext(y3, SETUP, RUN[3]));
  }

  lemma CanResolve(y: System)
    requires 1 in y.held
    ensures SysAdmissible(y, SETUP, SysResolve(1, 0, []))
  {
  }

  lemma RunOfTwo(y: System, first: SystemEvent, second: SystemEvent)
    requires SysAdmissible(y, SETUP, first) && SysAdmissible(SysNext(y, SETUP, first), SETUP, second)
    ensures SysAdmissibleRun(y, SETUP, [first, second])
    ensures RunSystem(y, SETUP, [first, second]) == SysNext(SysNext(y, SETUP, first), SETUP, second)
  {
    hide SysNext, SysAdmissible;
    var y1 := SysNext(y, SETUP, first);
    assert [first, second][1..] == [second] && [second][1..] == [];
    assert SysAdmissibleRun(y1, SETUP, [second]) && RunSystem(y1, SETUP, [second]) == SysNext(y1, SETUP, second);
  }

  lemma {:induction false} RunInTwo(y: System, first: seq<SystemEvent>, second: seq<SystemEvent>)
    requires SysAdmissibleRun(y, SETUP, first)
    ensures SysAdmissibleRun(y, SETUP, first + second) <==> SysAdmissibleRun(RunSystem(y, SETUP, first), SETUP, second)
    ensures SysAdmissibleRun(y, SETUP, first + second) ==>
              RunSystem(y, SETUP, first + second) == RunSystem(RunSystem(y, SETUP, first), SETUP, second)
    decreases |first|
  {
    hide SysNext, SysAdmissible;
    if first == [] {
      assert first + second == second;
    } else {
      assert (first + second)[1..] == first[1..] + second;
      RunInTwo(SysNext(y, SETUP, first[0]), first[1..], second);
    }
  }

  lemma Submitted(y: System)
    requires y.multi == OneEndpoint(Idle(true), 1)
    requires y.world == NewWorld().(session := NEW_SESSION.(state := Streaming))
    requires y.held == map[] && y.filler == map[]
    ensures SysAdmissible(y, SETUP, RUN[2])
    ensures var y' := SysNext(y, SETUP, RUN[2]);
            && y'.multi == OneEndpoint(Capturing(), 2) && y'.held == map[]
            && y'.world.session == NEW_SESSION.(
                 state := Streaming, tracker := Tracker(map[5 := IN_FLIGHT], map[], map[1 := Context(5, 0)]))
  {
    Queues();
    Accepts();
    hide SubmitTargets, CanSubmitAll, Submit;
  }

  lemma Dequeued(y: System)
    requires y.multi == OneEndpoint(Capturing(), 2) && y.held == map[] && y.world.session.state.Streaming?
    ensures SysAdmissible(y, SETUP, RUN[3])
    ensures var y' := SysNext(y, SETUP, RUN[3]);
            y'.held == map[1 := 42] && y'.world == y.world
  {
    assert V4L2.SlotForIndex(Capturing().slots, 0, 0) == Some(0);
    assert EndpointForFd(y.multi.endpoints, 3, 0) == Some(0);
  }

  lemma Delivers()
    ensures var s := NEW_SESSION.(
              state := Streaming, tracker := Tracker(map[5 := IN_FLIGHT], map[], map[1 := Context(5, 0)]));
            Resolve(s, SETUP.config, 1, 0, []).1
            == RowDone(Outcome(FromRow, Result(5, Ok, [CompletedBuffer(1, 7, 0, Ok, -1)], 4, 4, Rgb24Payload)))
  {
    var marked := MarkOutputs(IN_FLIGHT.outputs, 0, -1);
    assert IN_FLIGHT.outputs[0].outputIndex == 0;
    assert marked == [Output(TARGET, 0, true, -1)];
    assert CompletedBuffers(marked, Ok) == [CompletedBuffer(1, 7, 0, Ok, -1)];
  }

  const STREAM_ON_FAILS := V4L2.Io(true, true, false)

  /** What one endpoint is left with when STREAMON fails after a successful QBUF: the slot is free, and
      the kernel holds its index. */
  function Jammed(): V4L2.Adapter {
    Idle(true).(kernel := V4L2.Kernel(map[0 := 42], false))
  }

  lemma Jams()
    ensures V4L2.Agrees(Idle(true))
    ensures V4L2.QueueCapture(Idle(true), 1, 42, 100, STREAM_ON_FAILS) == (Jammed(), V4L2.Spent)
    ensures !V4L2.Agrees(Jammed()) && V4L2.Stuck(Jammed())
  {
    var none: map<nat, int> := map[];
    assert none[0 := 42] == map[0 := 42];
    assert Idle(true).slots[0 := V4L2.FreeSlot(0)] == Idle(true).slots;
    V4L2.QueueAgreesExactlyWhen(Idle(true), 1, 42, 100, STREAM_ON_FAILS);
    V4L2.FailedStreamOnSticks(Idle(true), 1, 42, 100, STREAM_ON_FAILS);
  }

  /** A reachable state in which the slot table and the kernel disagree: a request whose STREAMON fails
      after its QBUF, in the run that reaches streaming. Every later capture fails. */
  lemma AStreamOnFailureIsReached()
    ensures SysAdmissibleRun(NewSystem(SETUP), SETUP, RUN[..2])
    ensures var y := RunSystem(NewSystem(SETUP), SETUP, RUN[..2]);
            var e := SysSubmit(REQUEST, [STREAM_ON_FAILS]);
            && AllAgree(y.multi) && SysAdmissible(y, SETUP, e)
            && SysNext(y, SETUP, e).multi == OneEndpoint(Jammed(), 2)
            && !AllAgree(SysNext(y, SETUP, e).multi) && V4L2.Stuck(Jammed())
  {
    var y := Started();
    Jams();
    Queues();
    var m := OneEndpoint(Idle(true), 1);
    var (m1, token) := SubmitCapture(m, TARGET, STREAM_ON_FAILS);
    assert m1 == OneEndpoint(Jammed(), 2) && token == None;
    assert SubmitTargets(m, [TARGET], [STREAM_ON_FAILS], 0) == (m1, [None]);
    hide V4L2.Agrees, V4L2.QueueCapture, SubmitTargets, CanSubmitAll, StepWorld, V4L2.Stuck;
    assert OneEndpoint(Jammed(), 2).endpoints[0].adapter == Jammed();
    assert y.multi.endpoints[0].adapter == Idle(true);
  }

  /** What a failed STREAMOFF leaves of the endpoint with one capture queued. */
  function Abandoned(): V4L2.Adapter {
    Capturing().(slots := [V4L2.FreeSlot(0)], streaming := false, deviceStreaming := false)
  }

  lemma Abandons()
    ensures V4L2.Agrees(Capturing()) && V4L2.StopStreaming(Capturing(), false) == Abandoned()
    ensures !V4L2.Agrees(Abandoned()) && V4L2.Stuck(Abandoned())
  {
    assert V4L2.SlotAgrees(Capturing(), 0);
    assert V4L2.Cleared(Capturing().slots) == [V4L2.FreeSlot(0)];
    V4L2.StopAgreesExactlyWhen(Capturing(), false);
    V4L2.FailedStreamOffSticksExactlyWhen(Capturing());
  }

  /** A reachable state in which the slot table and the kernel disagree after a failed STREAMOFF: a flush
      while a capture is queued. */
  lemma AStreamOffFailureIsReached()
    ensures SysAdmissibleRun(NewSystem(SETUP), SETUP, RUN[..3])
    ensures var y := RunSystem(NewSystem(SETUP), SETUP, RUN[..3]);
            var e := SysFlush([5], [false]);
            && AllAgree(y.multi) && SysAdmissible(y, SETUP, e)
            && SysNext(y, SETUP, e).multi == OneEndpoint(Abandoned(), 2)
            && !AllAgree(SysNext(y, SETUP, e).multi) && V4L2.Stuck(Abandoned())
  {
    hide SysNext, SysAdmissible;
    var y2 := Started();
    Submitted(y2);
    var y := SysNext(y2, SETUP, RUN[2]);
    assert [RUN[2]][1..] == [];
    assert SysAdmissibleRun(y2, SETUP, [RUN[2]]) && RunSystem(y2, SETUP, [RUN[2]]) == y;
    assert RUN[..2] + [RUN[2]] == RUN[..3];
    RunInTwo(NewSystem(SETUP), RUN[..2], [RUN[2]]);
    FlushAbandons(y);
  }

  lemma FlushAbandons(y: System)
    requires y.multi == OneEndpoint(Capturing(), 2)
    requires y.world.session == NEW_SESSION.(
               state := Streaming, tracker := Tracker(map[5 := IN_FLIGHT], map[], map[1 := Context(5, 0)]))
    ensures var e := SysFlush([5], [false]);
            && AllAgree(y.multi) && SysAdmissible(y, SETUP, e)
            && SysNext(y, SETUP, e).multi == OneEndpoint(Abandoned(), 2)
            && !AllAgree(SysNext(y, SETUP, e).multi) && V4L2.Stuck(Abandoned())
  {
    Abandons();
    hide V4L2.Agrees, V4L2.Stuck, V4L2.StopStreaming, StepWorld;
    var stopped := StopAll(y.multi, [false]);
    assert stopped.endpoints == [Endpoint(Still, Abandoned())];
    assert stopped.endpoints[0].adapter == Abandoned() && y.multi.endpoints[0].adapter == Capturing();
    assert multiset([5]) == multiset(y.world.session.tracker.requests.Keys);
  }
}
