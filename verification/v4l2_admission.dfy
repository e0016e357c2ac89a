/** When the V4L2 operations succeed: each answer of the adapter and of the router, decided by the state
    before the call. */
module V4L2Admission {
  import opened Wrappers
  import opened CameraTypes
  import opened V4L2Driver
  import opened V4L2Router

  const ALL_OK := Io(true, true, true)

  /* ---------------------------------- one device ---------------------------------- */

  lemma {:induction false} FreeSlotCounts(slots: seq<Slot>)
    ensures FreeCount(slots) <= |slots|
    ensures (FreeCount(slots) == 0 <==> forall k :: 0 <= k < |slots| ==> slots[k].queued)
    ensures (FreeCount(slots) == |slots| <==> forall k :: 0 <= k < |slots| ==> !slots[k].queued)
  {
    if slots != [] {
      var last := |slots| - 1;
      FreeSlotCounts(slots[..last]);
      assert forall k :: 0 <= k < last ==> slots[..last][k] == slots[k];
    }
  }

  /** Whatever the calls answer, a dma-buf is queued only by a streaming device that it fits and that has
      a free slot, and it takes one. */
  lemma QueuedTakesASlot(a: Adapter, token: nat, bufferFd: int, bufferSize: nat, io: Io)
    ensures var (a', answer) := QueueCapture(a, token, bufferFd, bufferSize, io);
            answer.Queued? ==>
              && a.streaming && a.fd >= 0 && bufferFd >= 0 && bufferSize >= a.bufferSize
              && FreeCount(a.slots) > 0 && FreeCount(a'.slots) == FreeCount(a.slots) - 1
              && a'.streaming && a'.fd == a.fd && a'.bufferSize == a.bufferSize && a'.continuous == a.continuous
  {
    var free := FirstFree(a.slots, 0);
    if free.Some? {
      FreeCountSet(a.slots, free.value, Slot(a.slots[free.value].index, token, bufferFd, bufferSize, true));
      FreeSlotCounts(a.slots);
    }
  }

  /** On a device in agreement with its kernel, with calls that succeed, a dma-buf is queued exactly when
      the device streams, the dma-buf fits, and a slot is free. */
  lemma QueuedExactlyWhen(a: Adapter, token: nat, bufferFd: int, bufferSize: nat)
    requires Agrees(a)
    ensures QueueCapture(a, token, bufferFd, bufferSize, ALL_OK).1.Queued?
            <==> a.streaming && a.fd >= 0 && bufferFd >= 0 && bufferSize >= a.bufferSize && FreeCount(a.slots) > 0
  {
    QueuedTakesASlot(a, token, bufferFd, bufferSize, ALL_OK);
    if a.streaming && bufferFd >= 0 && bufferSize >= a.bufferSize && FreeCount(a.slots) > 0 {
      QueueSucceeds(a, token, bufferFd, bufferSize, ALL_OK);
    }
  }

  /** A token is drawn exactly when the attempt gets past the argument checks and the acquire fence. */
  lemma TokenIsSpentExactlyWhen(a: Adapter, token: nat, bufferFd: int, bufferSize: nat, io: Io)
    ensures !QueueCapture(a, token, bufferFd, bufferSize, io).1.Refused?
            <==> a.streaming && a.fd >= 0 && bufferFd >= 0 && bufferSize >= a.bufferSize && io.fenceOk
  {
  }

  /** A completion comes out exactly when the ready descriptor is that of the device, the device streams,
      and the kernel hands back an index that it holds. */
  lemma DequeuedExactlyWhen(a: Adapter, readyFd: int, choice: Option<nat>)
    requires Agrees(a)
    ensures Dequeue(a, readyFd, choice).1.Some?
            <==> readyFd == a.fd && a.fd >= 0 && a.deviceStreaming && choice.Some? && choice.value in a.kernel.held
  {
    if choice.Some? && a.deviceStreaming && choice.value in a.kernel.held {
      DequeueFindsItsSlot(a, choice.value);
    }
  }

  /** What a device that was just opened and started accepts: as many outputs as it has buffers, each with a
      descriptor and at least the frame size. */
  lemma OpenedDeviceAccepts(device: Opened, targets: seq<Target>)
    requires device.count > 0
    ensures var a := StartStreaming(ConfigureStream(CLOSED, Some(device)));
            && a.fd == device.fd && Agrees(a)
            && (CanSubmit(a, targets) <==>
                  |targets| <= device.count
                  && forall k :: 0 <= k < |targets| ==> targets[k].bufferFd >= 0 && targets[k].bufferSize >= device.frameSize)
  {
    var a := ConfigureStream(CLOSED, Some(device));
    FreeSlotCounts(a.slots);
    assert Agrees(CLOSED);
    OtherOperationsAgree(CLOSED, Some(device), 0, None);
    OtherOperationsAgree(a, None, 0, None);
    hide Agrees;
    assert forall k :: 0 <= k < |targets| ==> Fits(a, targets[k]) == (targets[k].bufferFd >= 0 && targets[k].bufferSize >= device.frameSize);
  }

  /** After stop_streaming nothing is accepted and nothing comes out until the device is started again, and
      then every slot is free. */
  lemma StoppedDevice(a: Adapter, streamOffOk: bool, token: nat, bufferFd: int, bufferSize: nat, io: Io, readyFd: int,
                      choice: Option<nat>, targets: seq<Target>)
    ensures var stopped := StopStreaming(a, streamOffOk);
            && QueueCapture(stopped, token, bufferFd, bufferSize, io) == (stopped, Refused)
            && Dequeue(stopped, readyFd, choice) == (stopped, None)
            && !CanSubmit(stopped, targets) && !stopped.continuous
            && stopped.fd == a.fd && |stopped.slots| == |a.slots|
            && (CanSubmit(StartStreaming(stopped), targets) <==>
                  a.fd >= 0 && a.slots != [] && |targets| <= |a.slots|
                  && forall k :: 0 <= k < |targets| ==> Fits(a, targets[k]))
  {
    var stopped := StopStreaming(a, streamOffOk);
    FreeSlotCounts(stopped.slots);
    assert forall k :: 0 <= k < |targets| ==> Fits(StartStreaming(stopped), targets[k]) == Fits(a, targets[k]);
  }

  /* ---------------------------------- the preflight check ---------------------------------- */

  /** The other direction of PreflightIsAffordable. */
  lemma AffordableIsPreflighted(m: Multi, targets: seq<Target>)
    requires Affordable(m, targets)
    ensures CanSubmitAll(m, targets)
  {
    forall e | 0 <= e < |m.endpoints|
      ensures Group(m, targets, e) == [] || CanSubmit(m.endpoints[e].adapter, Group(m, targets, e))
    {
      GroupFits(m, targets, e);
    }
  }

  lemma {:induction false} GroupFits(m: Multi, targets: seq<Target>, e: nat)
    requires e < |m.endpoints|
    requires forall i :: 0 <= i < |targets| ==>
               && Route(m, targets[i]).Some?
               && var a := m.endpoints[Route(m, targets[i]).value].adapter;
                  a.streaming && a.fd >= 0 && Fits(a, targets[i])
    ensures var a := m.endpoints[e].adapter;
            var group := Group(m, targets, e);
            && (group != [] ==> a.streaming && a.fd >= 0)
            && forall k :: 0 <= k < |group| ==> Fits(a, group[k])
    decreases |targets|
  {
    if targets != [] {
      GroupFits(m, targets[..|targets| - 1], e);
    }
  }

  /** The first output was answered with a token: it could be afforded, and what the rest affords after it
      is what the whole list affords. */
  lemma FirstWasAffordable(m: Multi, targets: seq<Target>, io: Io)
    requires targets != [] && SubmitCapture(m, targets[0], io).1.Some?
    requires Affordable(SubmitCapture(m, targets[0], io).0, targets[1..])
    ensures Affordable(m, targets)
  {
    var e := Route(m, targets[0]).value;
    var m' := SubmitCapture(m, targets[0], io).0;
    QueuedTakesASlot(m.endpoints[e].adapter, m.nextToken, targets[0].bufferFd, targets[0].bufferSize, io);
    hide QueueCapture;
    assert SameRoutes(m, m');
    forall i | 0 <= i < |targets|
      ensures && Route(m, targets[i]).Some?
              && var a := m.endpoints[Route(m, targets[i]).value].adapter;
                 a.streaming && a.fd >= 0 && Fits(a, targets[i])
    {
      if i > 0 {
        assert targets[1..][i - 1] == targets[i];
        SameEndpointFor(m.endpoints, m'.endpoints, targets[i].streamType, 0);
      }
    }
    forall f | 0 <= f < |m.endpoints| ensures |Group(m, targets, f)| <= FreeCount(m.endpoints[f].adapter.slots) {
      GroupFirst(m, targets, f);
      SameGroup(m, m', targets[1..], f);
    }
  }

  predicate AllAnswered(responses: seq<Option<nat>>, n: nat) {
    |responses| == n && forall k :: 0 <= k < n ==> responses[k].Some?
  }

  /** Whatever the calls answer and whatever state the slots are in: a list of which every output was
      answered with a token could be afforded. */
  lemma {:induction false} AnsweredWasAffordable(m: Multi, targets: seq<Target>, ios: seq<Io>, i: nat)
    requires |ios| == |targets| && i <= |targets|
    requires AllAnswered(SubmitTargets(m, targets, ios, i).1, |targets| - i)
    ensures Affordable(m, targets[i..])
    decreases |targets| - i
  {
    if i < |targets| {
      var (m1, token) := SubmitCapture(m, targets[i], ios[i]);
      var responses := SubmitTargets(m, targets, ios, i).1;
      hide SubmitCapture, Affordable;
      assert responses[0].Some?;
      var rest := SubmitTargets(m1, targets, ios, i + 1).1;
      assert responses == [token] + rest;
      assert forall k :: 0 <= k < |rest| ==> rest[k] == responses[k + 1];
      AnsweredWasAffordable(m1, targets, ios, i + 1);
      assert targets[i..][0] == targets[i] && targets[i..][1..] == targets[i + 1..];
      FirstWasAffordable(m, targets[i..], ios[i]);
    } else {
      NothingIsAffordable(m);
      assert targets[i..] == [];
    }
  }

  lemma NothingIsAffordable(m: Multi)
    ensures Affordable(m, [])
  {
  }

  /** The preflight check is exact: while tables and kernels agree, it accepts a list exactly when every
      output of the list would be queued by calls that succeed. */
  lemma PreflightAcceptsExactlyWhen(m: Multi, targets: seq<Target>, ios: seq<Io>)
    requires AllAgree(m) && TokensApart(m) && |ios| == |targets| && AllAnswerOk(ios)
    ensures CanSubmitAll(m, targets) <==> AllAnswered(SubmitTargets(m, targets, ios, 0).1, |targets|)
  {
    hide *;
    if CanSubmitAll(m, targets) {
      PreflightIsSufficient(m, targets, ios);
      AnsweredIsAll(SubmitTargets(m, targets, ios, 0).1, |targets|);
    } else if AllAnswered(SubmitTargets(m, targets, ios, 0).1, |targets|) {
      RefusedIsNotAnswered(m, targets, ios);
    }
  }

  lemma AnsweredIsAll(responses: seq<Option<nat>>, n: nat)
    requires |responses| == n && forall k :: 0 <= k < |responses| ==> responses[k].Some?
    ensures AllAnswered(responses, n)
  {
  }

  /** A list that the preflight check refuses could not have been queued, whatever the calls answer. */
  lemma RefusedIsNotAnswered(m: Multi, targets: seq<Target>, ios: seq<Io>)
    requires |ios| == |targets|
    ensures AllAnswered(SubmitTargets(m, targets, ios, 0).1, |targets|) ==> CanSubmitAll(m, targets)
  {
    if AllAnswered(SubmitTargets(m, targets, ios, 0).1, |targets|) {
      AnsweredWasAffordable(m, targets, ios, 0);
      assert targets[0..] == targets;
      AffordableIsPreflighted(m, targets);
    }
  }

  /** Submitting stops at the first output that is refused, and no token is drawn for the outputs after it. */
  lemma {:induction false} SubmissionStopsAtFirstFailure(m: Multi, targets: seq<Target>, ios: seq<Io>, i: nat)
    requires |ios| == |targets| && i <= |targets|
    ensures var (m', responses) := SubmitTargets(m, targets, ios, i);
            && |responses| <= |targets| - i && (forall k :: 0 <= k < |responses| - 1 ==> responses[k].Some?)
            && (|responses| < |targets| - i ==> responses != [] && responses[|responses| - 1].None?)
            && m.nextToken <= m'.nextToken <= m.nextToken + |responses|
    decreases |targets| - i
  {
    hide QueueCapture;
    if i < |targets| {
      var (m1, token) := SubmitCapture(m, targets[i], ios[i]);
      if token.Some? {
        SubmissionStopsAtFirstFailure(m1, targets, ios, i + 1);
        var rest := SubmitTargets(m1, targets, ios, i + 1).1;
        assert forall k :: 0 <= k < |rest| ==> ([token] + rest)[k + 1] == rest[k];
      }
    }
  }

  /* ---------------------------------- the preview ---------------------------------- */

  lemma {:induction false} BuffersQueuedExactlyWhen(a: Adapter, next: nat, targets: seq<Target>, ios: seq<Io>, i: nat)
    requires Agrees(a) && a.streaming && a.fd >= 0 && |ios| == |targets| && i <= |targets| && AllAnswerOk(ios)
    ensures QueueBuffers(a, next, targets, ios, i).2.Some?
            <==> |targets| - i <= FreeCount(a.slots) && forall k :: i <= k < |targets| ==> Fits(a, targets[k])
    decreases |targets| - i
  {
    if i < |targets| {
      assert ios[i] == ALL_OK;
      var (a1, answer) := QueueCapture(a, next, targets[i].bufferFd, targets[i].bufferSize, ios[i]);
      QueuedExactlyWhen(a, next, targets[i].bufferFd, targets[i].bufferSize);
      QueuedTakesASlot(a, next, targets[i].bufferFd, targets[i].bufferSize, ios[i]);
      QueueAgreesExactlyWhen(a, next, targets[i].bufferFd, targets[i].bufferSize, ios[i]);
      hide Agrees, QueueCapture;
      if answer.Queued? {
        assert forall k :: i + 1 <= k < |targets| ==> Fits(a1, targets[k]) == Fits(a, targets[k]);
        BuffersQueuedExactlyWhen(a1, next + 1, targets, ios, i + 1);
      }
    }
  }

  /** A continuous stream starts, with calls that succeed, exactly when the endpoint of its type streams and
      has a free slot for each of the buffers, which all fit it. */
  lemma PreviewStartsExactlyWhen(m: Multi, streamType: StreamType, targets: seq<Target>, ios: seq<Io>)
    requires AllAgree(m) && |ios| == |targets| && AllAnswerOk(ios)
    ensures StartContinuous(m, streamType, targets, ios).1.Some?
            <==> var e := EndpointFor(m.endpoints, streamType, 0);
                 && e.Some?
                 && var a := m.endpoints[e.value].adapter;
                 && a.streaming && a.fd >= 0 && |targets| <= FreeCount(a.slots)
                 && forall k :: 0 <= k < |targets| ==> Fits(a, targets[k])
  {
    if CanStartContinuous(m, streamType) {
      var e := EndpointFor(m.endpoints, streamType, 0).value;
      var a := m.endpoints[e].adapter;
      SetContinuousAgrees(m, e, true);
      hide Agrees;
      var a1 := a.(continuous := true);
      assert SetContinuous(m, e, true).endpoints[e].adapter == a1;
      BuffersQueuedExactlyWhen(a1, m.nextToken, targets, ios, 0);
      assert forall k :: 0 <= k < |targets| ==> Fits(a1, targets[k]) == Fits(a, targets[k]);
      hide QueueBuffers;
    }
  }

  /** A preview that does not start leaves no endpoint streaming continuously that was not. */
  lemma FailedPreviewIsNotContinuous(m: Multi, streamType: StreamType, targets: seq<Target>, ios: seq<Io>)
    requires |ios| == |targets| && !Continuous(m, streamType)
    ensures var (m', tokens) := StartContinuous(m, streamType, targets, ios);
            tokens.None? ==> !Continuous(m', streamType)
  {
    hide QueueBuffers;
    if CanStartContinuous(m, streamType) {
      var e := EndpointFor(m.endpoints, streamType, 0).value;
      var m0 := SetContinuous(m, e, true);
      var m1 := QueueAll(m0, e, targets, ios, 0).0;
      SameEndpointFor(m.endpoints, SetContinuous(m1, e, false).endpoints, streamType, 0);
    }
  }

  /** A lease handed back is queued under a new token, when the calls succeed, exactly when the endpoint of
      its type streams continuously, it fits, and a slot is free. */
  lemma LeaseIsQueuedExactlyWhen(m: Multi, streamType: StreamType, bufferFd: int, bufferSize: nat)
    requires AllAgree(m) && m.nextToken >= 1
    ensures ReturnBuffer(m, streamType, bufferFd, bufferSize, ALL_OK).1 == Some(m.nextToken)
            <==> && Continuous(m, streamType)
                 && var a := m.endpoints[EndpointFor(m.endpoints, streamType, 0).value].adapter;
                 a.streaming && a.fd >= 0 && bufferFd >= 0 && bufferSize >= a.bufferSize && FreeCount(a.slots) > 0
  {
    if Continuous(m, streamType) {
      var e := EndpointFor(m.endpoints, streamType, 0).value;
      QueuedExactlyWhen(m.endpoints[e].adapter, m.nextToken, bufferFd, bufferSize);
      hide QueueCapture;
    }
  }

  /* ---------------------------------- configuring and starting ---------------------------------- */

  /** The endpoint was opened before, or its device opens with at least one buffer. */
  predicate Opens(a: Adapter, device: Option<Opened>) {
    a.fd >= 0 || (device.Some? && device.value.count > 0)
  }

  /** What configuring makes of one endpoint. */
  predicate ConfiguredAs(a: Adapter, device: Option<Opened>, a': Adapter) {
    if a.fd >= 0 then a' == a
    else
      && device.Some? && a'.fd == device.value.fd && a'.bufferSize == device.value.frameSize
      && |a'.slots| == device.value.count && FreeCount(a'.slots) == device.value.count && a'.kernel.held == map[]
  }

  predicate AllClosed(m: Multi) {
    forall e :: 0 <= e < |m.endpoints| ==>
      var a := m.endpoints[e].adapter;
      a.fd == -1 && a.slots == [] && !a.streaming && !a.deviceStreaming && !a.continuous && a.kernel.held == map[]
  }

  lemma {:induction false} ConfigureSucceedsExactlyWhen(m: Multi, devices: seq<Option<Opened>>, i: nat)
    requires i <= |m.endpoints| == |devices|
    ensures var (m', ok) := ConfigureFrom(m, devices, i);
            && |m'.endpoints| == |m.endpoints| && m'.nextToken == m.nextToken
            && (ok <==> forall e :: i <= e < |m.endpoints| ==> Opens(m.endpoints[e].adapter, devices[e]))
            && (ok ==> forall e :: 0 <= e < |m.endpoints| ==>
                  if e < i then m'.endpoints[e] == m.endpoints[e]
                  else ConfiguredAs(m.endpoints[e].adapter, devices[e], m'.endpoints[e].adapter))
            && (!ok ==> AllClosed(m'))
    decreases |m.endpoints| - i
  {
    if i < |m.endpoints| {
      var a := m.endpoints[i].adapter;
      var m1 := SetAdapter(m, i, ConfigureStream(a, devices[i]));
      if devices[i].Some? { FreeSlotCounts(FreshSlots(devices[i].value.count)); }
      assert ConfigureStream(a, devices[i]).fd >= 0 <==> Opens(a, devices[i]);
      assert Opens(a, devices[i]) ==> ConfiguredAs(a, devices[i], ConfigureStream(a, devices[i]));
      assert AllClosed(CloseAll(m1));
      hide ConfigureStream, CloseAll, ConfiguredAs, Opens, AllClosed;
      if m1.endpoints[i].adapter.fd >= 0 {
        ConfigureSucceedsExactlyWhen(m1, devices, i + 1);
      }
    }
  }

  /** The device is open and has buffers. */
  predicate Startable(a: Adapter) {
    a.fd >= 0 && a.slots != []
  }

  lemma {:induction false} StartSucceedsExactlyWhen(m: Multi, i: nat)
    requires i <= |m.endpoints|
    ensures var (m', ok) := StartFrom(m, i);
            && |m'.endpoints| == |m.endpoints| && m'.nextToken == m.nextToken
            && (ok <==> forall e :: i <= e < |m.endpoints| ==> Startable(m.endpoints[e].adapter))
            && (ok ==> forall e :: 0 <= e < |m.endpoints| ==>
                  if e < i then m'.endpoints[e] == m.endpoints[e]
                  else m'.endpoints[e] == m.endpoints[e].(adapter := m.endpoints[e].adapter.(streaming := true)))
    decreases |m.endpoints| - i
  {
    if i < |m.endpoints| {
      assert Startable(m.endpoints[i].adapter) <==> m.endpoints[i].adapter.fd >= 0 && m.endpoints[i].adapter.slots != [];
      if Startable(m.endpoints[i].adapter) {
        var m1 := SetAdapter(m, i, StartStreaming(m.endpoints[i].adapter));
        assert forall e :: i + 1 <= e < |m.endpoints| ==> m1.endpoints[e] == m.endpoints[e];
        StartSucceedsExactlyWhen(m1, i + 1);
      }
    }
  }
}
