/** Which setups lose preview leases: exactly those with a usable preview buffer whose stream type is
    not that of the preview stream but has an endpoint. */
module HalPreviews {
  import opened Wrappers
  import opened CameraTypes
  import opened CameraSession
  import opened SessionConsistency
  import opened SessionHistory
  import opened SessionLaws
  import opened SessionPreviews
  import opened V4L2Router
  import opened HalSystem
  import opened HalRouting
  import opened HalTheorems

  /** A buffer that comes back to an endpoint which does not stream continuously. */
  predicate Mismatched(u: Setup, buffer: Target) {
    buffer.streamType != u.previewType && buffer.streamType in u.streams
  }

  /** A preview can start, and one of its buffers carries the stream type of another endpoint. */
  predicate LosesLeases(u: Setup) {
    && u.config.hasDriver && u.config.continuousPreview && u.previewType in u.streams && UsableBuffers(u)
    && exists i :: 0 <= i < |u.config.previewBuffers| && Mismatched(u, u.config.previewBuffers[i])
  }

  lemma EndpointForExists(m: Multi, u: Setup, streamType: StreamType)
    requires EndpointsOk(m, u)
    ensures EndpointFor(m.endpoints, streamType, 0).Some? <==> streamType in u.streams
  {
    var e := EndpointFor(m.endpoints, streamType, 0);
    if e.Some? {
      assert u.streams[e.value] == streamType;
    }
  }

  /** While the preview streams, a returned lease is answered with token 0 exactly when its buffer is
      mismatched. */
  lemma ReturnAnswersZero(y: System, u: Setup, callback: nat, io: V4L2.Io)
    requires SystemInv(y, u) && y.world.session.state.Streaming? && Callback(y.world, callback).Some?
    ensures ReturnDriver(y, callback, io).1 == Some(0)
            <==> Mismatched(u, Callback(y.world, callback).value.target)
  {
    assert PreviewLinked(y, u) && TokensApart(y.multi);
    var output := Callback(y.world, callback).value;
    assert PreviewOutput(u, output);
    hide WorldInv, EpochOver, PreviewsOk, AllCovered, TokensLinked, TokensBacked, FillersOk, RowsFromRequests, ReturnBuffer;
    ReturnAnswersZeroExactlyWhen(y.multi, output.streamType, output.target.bufferFd, output.target.bufferSize, io);
    EndpointForExists(y.multi, u, output.streamType);
    EndpointForExists(y.multi, u, u.previewType);
  }

  lemma AnsweredOrphans(w: World, c: Config, callback: nat, answer: Option<nat>)
    requires TablesOk(w, c) && Admissible(w, c, DoReturn(callback, answer))
    requires w.session.state.Streaming? && Callback(w, callback).Some?
    ensures AfterReturn(w, c, callback, answer).orphans
            == w.orphans + if answer == Some(0) then {w.session.nextStreamingFrame} else {}
  {
    assert 0 !in w.session.tracker.tokens;
    hide SessionOk, ReturnLease;
  }

  lemma InvTables(y: System, u: Setup)
    requires SystemInv(y, u)
    ensures TablesOk(y.world, u.config)
  {
  }

  lemma NextReturnWorld(y: System, u: Setup, callback: nat, io: V4L2.Io)
    requires Admissible(y.world, u.config, DoReturn(callback, ReturnDriver(y, callback, io).1))
    ensures NextReturn(y, u, callback, io).world
            == AfterReturn(y.world, u.config, callback, ReturnDriver(y, callback, io).1)
  {
    hide ReturnDriver, AfterReturn, Admissible;
  }

  /** Returning a lease leaves a streaming row without a token exactly when its buffer is mismatched. */
  lemma ReturnLosesExactlyWhen(y: System, u: Setup, callback: nat, io: V4L2.Io)
    requires SystemInv(y, u) && y.world.session.state.Streaming? && Callback(y.world, callback).Some?
    ensures NextReturn(y, u, callback, io).world.orphans
            == y.world.orphans + if Mismatched(u, Callback(y.world, callback).value.target)
                                 then {y.world.session.nextStreamingFrame} else {}
  {
    hide *;
    ReturnAnswersZero(y, u, callback, io);
    ReturnKeeps(y, u, callback, io);
    NextReturnWorld(y, u, callback, io);
    InvTables(y, u);
    AnsweredOrphans(y.world, u.config, callback, ReturnDriver(y, callback, io).1);
  }

  lemma NoMismatch(y: System, u: Setup, callback: nat)
    requires SystemInv(y, u) && y.world.session.state.Streaming? && Callback(y.world, callback).Some?
    requires !LosesLeases(u)
    ensures !Mismatched(u, Callback(y.world, callback).value.target)
  {
    var output := Callback(y.world, callback).value;
    assert PreviewLinked(y, u) && PreviewOutput(u, output);
    StreamingPreviewStarted(y, u);
    var i :| 0 <= i < |u.config.previewBuffers| && u.config.previewBuffers[i] == output.target;
  }

  lemma StepLosesNothing(y: System, u: Setup, e: SystemEvent)
    requires SystemInv(y, u) && SysAdmissible(y, u, e) && !LosesLeases(u) && y.world.orphans == {}
    ensures SysNext(y, u, e).world.orphans == {}
  {
    hide SystemInv, LosesLeases, Mismatched;
    if e.SysReturn? && y.world.session.state.Streaming? && Callback(y.world, e.callback).Some? {
      NoMismatch(y, u, e.callback);
      ReturnLosesExactlyWhen(y, u, e.callback, e.io);
    } else {
      OtherStepsLoseNothing(y, u, e);
    }
  }

  lemma StreamingPreviewStarted(y: System, u: Setup)
    requires SystemInv(y, u) && y.world.session.state.Streaming? && u.config.continuousPreview
    ensures u.config.hasDriver && u.previewType in u.streams
  {
    assert PreviewLinked(y, u);
    EndpointForExists(y.multi, u, u.previewType);
  }

  lemma OtherStepsLoseNothing(y: System, u: Setup, e: SystemEvent)
    requires SysAdmissible(y, u, e) && y.world.orphans == {}
    requires e.SysReturn? ==> !y.world.session.state.Streaming? || Callback(y.world, e.callback).None?
    ensures SysNext(y, u, e).world.orphans == {}
  {
    hide ConfigureAll, StartDriver, SubmitDriver, DequeueAt, ReturnBuffer, StopAll, CloseAll, Resolve, Submit,
         StartStreaming, FlushOutcomes, ReturnLease;
  }

  /** A setup that does not lose leases keeps the tables in bijection over every run. */
  lemma {:induction false} RunLosesNothing(y: System, u: Setup, events: seq<SystemEvent>)
    requires SystemInv(y, u) && SysAdmissibleRun(y, u, events) && !LosesLeases(u) && y.world.orphans == {}
    ensures RunSystem(y, u, events).world.orphans == {}
    decreases |events|
  {
    hide SystemInv, SysNext, SysAdmissible, LosesLeases;
    if events != [] {
      NextKeepsSystemInv(y, u, events[0]);
      StepLosesNothing(y, u, events[0]);
      RunLosesNothing(SysNext(y, u, events[0]), u, events[1..]);
    }
  }
}
