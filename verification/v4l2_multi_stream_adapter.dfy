/** Several V4L2 devices behind one adapter: the object and the methods that update its endpoints. */
module V4L2MultiStreamDriverAdapters {
  import opened Wrappers
  import opened CameraTypes
  import opened V4L2Driver
  import opened V4L2Router
  import opened V4L2DriverAdapters

  class V4L2MultiStreamDriverAdapter {
    const tokens: TokenCounter
    const streamTypes: seq<StreamType>
    const adapters: seq<V4L2DriverAdapter>

    /** The endpoints are different devices that draw their tokens from one counter. */
    ghost predicate Valid()
      reads this, adapters
    {
      && |streamTypes| == |adapters|
      && (forall i, j :: 0 <= i < j < |adapters| ==> adapters[i] != adapters[j])
      && (forall i :: 0 <= i < |adapters| ==> adapters[i].tokens == tokens && adapters[i].Valid())
    }

    function View(): Multi
      requires |streamTypes| == |adapters|
      reads this, adapters, tokens
    {
      Multi(seq(|adapters|, i requires 0 <= i < |adapters| reads this, adapters =>
              Endpoint(streamTypes[i], adapters[i].View())), tokens.next)
    }

    constructor (streamTypes: seq<StreamType>)
      ensures Valid()
      ensures View() == Multi(seq(|streamTypes|, i requires 0 <= i < |streamTypes| => Endpoint(streamTypes[i], CLOSED)), 1)
    {
      var counter := new TokenCounter();
      var made: seq<V4L2DriverAdapter> := [];
      for i := 0 to |streamTypes|
        invariant |made| == i && counter.next == 1
        invariant forall k :: 0 <= k < i ==> made[k].tokens == counter && made[k].Valid() && made[k].View() == CLOSED
        invariant forall k, l :: 0 <= k < l < i ==> made[k] != made[l]
      {
        var adapter := new V4L2DriverAdapter(counter);
        made := made + [adapter];
      }
      this.tokens := counter;
      this.streamTypes := streamTypes;
      this.adapters := made;
    }

    /** Only endpoint e and the counter have changed. */
    twostate lemma OneEndpointChanged(e: nat)
      requires |streamTypes| == |adapters| && e < |adapters|
      requires forall i :: 0 <= i < |adapters| && i != e ==> adapters[i].View() == old(adapters[i].View())
      ensures View() == SetAdapter(old(View()), e, adapters[e].View()).(nextToken := tokens.next)
    {
    }

    method EndpointFor(streamType: StreamType) returns (e: Option<nat>)
      requires Valid()
      ensures e == V4L2Router.EndpointFor(View().endpoints, streamType, 0)
    {
      var i := 0;
      while i < |streamTypes|
        invariant i <= |streamTypes|
        invariant V4L2Router.EndpointFor(View().endpoints, streamType, 0)
               == V4L2Router.EndpointFor(View().endpoints, streamType, i)
      {
        if streamTypes[i] == streamType {
          return Some(i);
        }
        i := i + 1;
      }
      return None;
    }

    method EndpointForFd(fd: int) returns (e: Option<nat>)
      requires Valid()
      ensures e == V4L2Router.EndpointForFd(View().endpoints, fd, 0)
    {
      var i := 0;
      while i < |adapters|
        invariant i <= |adapters|
        invariant V4L2Router.EndpointForFd(View().endpoints, fd, 0)
               == V4L2Router.EndpointForFd(View().endpoints, fd, i)
      {
        if adapters[i].fd == fd {
          return Some(i);
        }
        i := i + 1;
      }
      return None;
    }

    /* ---------------------------------- preflight ---------------------------------- */

    /** Groups the outputs by endpoint, unless one of them has none. */
    method GroupByEndpoint(outputs: seq<Target>) returns (groups: Option<map<nat, seq<Target>>>)
      requires Valid()
      ensures groups.Some? ==> Grouped(View(), outputs, groups.value)
      ensures groups.Some? <==> forall k :: 0 <= k < |outputs| ==> Route(View(), outputs[k]).Some?
    {
      hide Grouped;
      ghost var m := View();
      var found: map<nat, seq<Target>> := map[];
      NothingGrouped(m);
      var i := 0;
      while i < |outputs|
        invariant i <= |outputs|
        invariant Grouped(m, outputs[..i], found)
        invariant forall k :: 0 <= k < i ==> Route(m, outputs[k]).Some?
      {
        var e := EndpointFor(outputs[i].streamType);
        if e.None? {
          assert Route(m, outputs[i]).None?;
          return None;
        }
        GroupedStep(m, outputs[..i], outputs[i], found);
        assert outputs[..i + 1] == outputs[..i] + [outputs[i]];
        found := found[e.value := (if e.value in found then found[e.value] else []) + [outputs[i]]];
        i := i + 1;
      }
      assert outputs[..|outputs|] == outputs;
      return Some(found);
    }

    /** Asks each endpoint that gets outputs whether it accepts its group. */
    method AskEndpoints(groups: map<nat, seq<Target>>) returns (ok: bool)
      requires Valid() && forall e :: e in groups ==> e < |adapters|
      ensures ok <==> forall e :: e in groups ==> Accepted(View(), groups, e)
    {
      var pending := groups.Keys;
      while pending != {}
        invariant pending <= groups.Keys
        invariant forall e :: e in groups && e !in pending ==> CanSubmit(adapters[e].View(), groups[e])
        decreases |pending|
      {
        var e :| e in pending;
        ok := adapters[e].CanSubmitCaptureOutputs(groups[e]);
        if !ok {
          assert !Accepted(View(), groups, e);
          return;
        }
        pending := pending - {e};
      }
      return true;
    }

    method CanSubmitCaptureOutputs(outputs: seq<Target>) returns (ok: bool)
      requires Valid()
      ensures ok == CanSubmitAll(View(), outputs)
    {
      var groups := GroupByEndpoint(outputs);
      hide Grouped, CanSubmit, Accepted;
      if groups.None? {
        NoRouteRefuses(View(), outputs);
        return false;
      }
      GroupsDecide(View(), outputs, groups.value);
      ok := AskEndpoints(groups.value);
    }

    /* ---------------------------------- capture ---------------------------------- */

    method SubmitCapture(target: Target, io: Io) returns (token: Option<nat>)
      requires Valid()
      modifies adapters, tokens
      ensures Valid() && (View(), token) == V4L2Router.SubmitCapture(old(View()), target, io)
    {
      var e := EndpointFor(target.streamType);
      if e.None? {
        return None;
      }
      token := adapters[e.value].QueueCaptureBuffer(target.bufferFd, target.bufferSize, io);
      OneEndpointChanged(e.value);
    }

    method DequeueCompletion(readyFd: int, choice: Option<nat>) returns (token: Option<nat>)
      requires Valid()
      modifies adapters
      ensures Valid() && (View(), token) == DequeueAt(old(View()), readyFd, choice)
    {
      var e := EndpointForFd(readyFd);
      if e.None? {
        return None;
      }
      token := adapters[e.value].DequeueCompletion(readyFd, choice);
      OneEndpointChanged(e.value);
    }

    method StartContinuousStream(streamType: StreamType, buffers: seq<Target>, ios: seq<Io>)
      returns (submissions: Option<seq<nat>>)
      requires Valid() && |ios| == |buffers|
      modifies adapters, tokens
      ensures Valid() && (View(), submissions) == StartContinuous(old(View()), streamType, buffers, ios)
    {
      var e := EndpointFor(streamType);
      if e.None? {
        return None;
      }
      ghost var m := View();
      StartContinuousAt(m, streamType, buffers, ios);
      hide QueueBuffers, StartContinuous;
      submissions := adapters[e.value].StartContinuousStream(buffers, ios);
      OneEndpointChanged(e.value);
    }

    method ReturnStreamBuffer(streamType: StreamType, bufferFd: int, size: nat, io: Io) returns (token: Option<nat>)
      requires Valid()
      modifies adapters, tokens
      ensures Valid() && (View(), token) == ReturnBuffer(old(View()), streamType, bufferFd, size, io)
    {
      var e := EndpointFor(streamType);
      if e.None? {
        return None;
      }
      ghost var m := View();
      token := adapters[e.value].ReturnStreamBuffer(bufferFd, size, io);
      OneEndpointChanged(e.value);
      assert adapters[e.value].View() == m.endpoints[e.value].adapter ==>
             SetAdapter(m, e.value, adapters[e.value].View()) == m;
    }

    /* ---------------------------------- lifecycle ---------------------------------- */

    /** Configures one endpoint, and closes them all when that fails. */
    method ConfigureOrClose(i: nat, device: Option<Opened>) returns (ok: bool)
      requires Valid() && i < |adapters|
      modifies adapters
      ensures Valid()
      ensures var m := SetAdapter(old(View()), i, V4L2Driver.ConfigureStream(old(View()).endpoints[i].adapter, device));
              ok == (m.endpoints[i].adapter.fd >= 0) && View() == if ok then m else CloseAll(m)
    {
      ok := adapters[i].ConfigureStream(device);
      hide CloseAll, V4L2Driver.ConfigureStream;
      OneEndpointChanged(i);
      if !ok {
        Close(true);
      }
    }

    method ConfigureStream(devices: seq<Option<Opened>>) returns (ok: bool)
      requires Valid() && |devices| == |adapters|
      modifies adapters
      ensures Valid()
      ensures if adapters == [] then View() == old(View()) && !ok
              else (View(), ok) == ConfigureFrom(old(View()), devices, 0)
    {
      hide ConfigureFrom, CloseAll, V4L2Driver.ConfigureStream;
      if adapters == [] {
        return false;
      }
      ghost var m := View();
      for i := 0 to |adapters|
        invariant Valid() && ConfigureFrom(View(), devices, i) == ConfigureFrom(m, devices, 0)
      {
        ConfigureFromStep(View(), devices, i);
        ok := ConfigureOrClose(i, devices[i]);
        if !ok {
          return;
        }
      }
      ConfigureFromEnd(View(), devices);
      return true;
    }

    method StartStreaming() returns (ok: bool)
      requires Valid()
      modifies adapters
      ensures Valid() && (View(), ok) == StartFrom(old(View()), 0)
    {
      ghost var m := View();
      for i := 0 to |adapters|
        invariant Valid() && StartFrom(View(), i) == StartFrom(m, 0)
      {
        hide StartFrom;
        StartFromStep(View(), i);
        label before:
        ok := adapters[i].StartStreaming();
        OneEndpointChanged@before(i);
        if !ok {
          return;
        }
      }
      return true;
    }

    method StopStreaming(streamOffs: seq<bool>)
      requires Valid() && |streamOffs| == |adapters|
      modifies adapters
      ensures Valid() && View() == StopAll(old(View()), streamOffs)
    {
      for i := 0 to |adapters|
        invariant Valid()
        invariant forall k :: 0 <= k < i ==> adapters[k].View() == V4L2Driver.StopStreaming(old(adapters[k].View()), streamOffs[k])
        invariant forall k :: i <= k < |adapters| ==> adapters[k].View() == old(adapters[k].View())
        invariant tokens.next == old(tokens.next)
      {
        adapters[i].StopStreaming(streamOffs[i]);
      }
    }

    method Close(streamOffOk: bool)
      requires Valid()
      modifies adapters
      ensures Valid() && View() == CloseAll(old(View()))
    {
      for i := 0 to |adapters|
        invariant Valid()
        invariant forall k :: 0 <= k < i ==> adapters[k].View() == V4L2Driver.Close(old(adapters[k].View()))
        invariant forall k :: i <= k < |adapters| ==> adapters[k].View() == old(adapters[k].View())
        invariant tokens.next == old(tokens.next)
      {
        adapters[i].Close(streamOffOk);
      }
    }
  }

  lemma ConfigureFromStep(m: Multi, devices: seq<Option<Opened>>, i: nat)
    requires i < |m.endpoints| == |devices|
    ensures var m' := SetAdapter(m, i, V4L2Driver.ConfigureStream(m.endpoints[i].adapter, devices[i]));
            ConfigureFrom(m, devices, i)
            == if m'.endpoints[i].adapter.fd < 0 then (CloseAll(m'), false) else ConfigureFrom(m', devices, i + 1)
  {
  }

  lemma ConfigureFromEnd(m: Multi, devices: seq<Option<Opened>>)
    requires |m.endpoints| == |devices|
    ensures ConfigureFrom(m, devices, |devices|) == (m, true)
  {
  }

  lemma StartFromStep(m: Multi, i: nat)
    requires i < |m.endpoints|
    ensures var a := m.endpoints[i].adapter;
            var m' := SetAdapter(m, i, V4L2Driver.StartStreaming(a));
            if a.fd < 0 || a.slots == [] then StartFrom(m, i) == (m, false) && m' == m
            else StartFrom(m, i) == StartFrom(m', i + 1)
  {
    assert SetAdapter(m, i, m.endpoints[i].adapter) == m;
  }

  /** Starting a continuous stream, in terms of the adapter of its endpoint. */
  lemma StartContinuousAt(m: Multi, streamType: StreamType, targets: seq<Target>, ios: seq<Io>)
    requires |ios| == |targets| && V4L2Router.EndpointFor(m.endpoints, streamType, 0).Some?
    ensures var e := V4L2Router.EndpointFor(m.endpoints, streamType, 0).value;
            var a := m.endpoints[e].adapter;
            StartContinuous(m, streamType, targets, ios) ==
            if !a.streaming || a.fd < 0 then (SetAdapter(m, e, a).(nextToken := m.nextToken), None)
            else
              var (a', next, tokens) := QueueBuffers(a.(continuous := true), m.nextToken, targets, ios, 0);
              (SetAdapter(m, e, if tokens.None? then a'.(continuous := false) else a').(nextToken := next), tokens)
  {
    hide QueueBuffers;
    var e := V4L2Router.EndpointFor(m.endpoints, streamType, 0).value;
    var a := m.endpoints[e].adapter;
    assert SetAdapter(m, e, a) == m;
    var (a', next, tokens) := QueueBuffers(a.(continuous := true), m.nextToken, targets, ios, 0);
    var m1 := SetContinuous(m, e, true);
    assert SetAdapter(m1, e, a').endpoints == SetAdapter(m, e, a').endpoints;
    assert SetAdapter(SetAdapter(m, e, a'), e, a'.(continuous := false)).endpoints
        == SetAdapter(m, e, a'.(continuous := false)).endpoints;
  }

  /** The groups hold, for each endpoint that gets any of the outputs, those outputs in order. */
  ghost predicate Grouped(m: Multi, outputs: seq<Target>, groups: map<nat, seq<Target>>) {
    && (forall e :: e in groups ==> e < |m.endpoints| && groups[e] == Group(m, outputs, e))
    && (forall e: nat :: e !in groups ==> Group(m, outputs, e) == [])
    && (forall e :: e in groups ==> groups[e] != [])
  }

  predicate Accepted(m: Multi, groups: map<nat, seq<Target>>, e: nat) {
    e in groups && e < |m.endpoints| && CanSubmit(m.endpoints[e].adapter, groups[e])
  }

  lemma NothingGrouped(m: Multi)
    ensures Grouped(m, [], map[])
  {
  }

  lemma NoRouteRefuses(m: Multi, outputs: seq<Target>)
    requires exists k :: 0 <= k < |outputs| && Route(m, outputs[k]).None?
    ensures !CanSubmitAll(m, outputs)
  {
  }

  /** The list is accepted exactly when every group is. */
  lemma GroupsDecide(m: Multi, outputs: seq<Target>, groups: map<nat, seq<Target>>)
    requires Grouped(m, outputs, groups) && forall k :: 0 <= k < |outputs| ==> Route(m, outputs[k]).Some?
    ensures forall e :: e in groups ==> e < |m.endpoints|
    ensures CanSubmitAll(m, outputs) <==> forall e :: e in groups ==> Accepted(m, groups, e)
  {
    hide CanSubmit;
    if forall e :: e in groups ==> Accepted(m, groups, e) {
      forall e | 0 <= e < |m.endpoints|
        ensures Group(m, outputs, e) == [] || CanSubmit(m.endpoints[e].adapter, Group(m, outputs, e))
      {
        if e in groups { assert Accepted(m, groups, e); }
      }
    }
  }

  lemma GroupedStep(m: Multi, outputs: seq<Target>, target: Target, groups: map<nat, seq<Target>>)
    requires Grouped(m, outputs, groups) && Route(m, target).Some?
    ensures var e := Route(m, target).value;
            Grouped(m, outputs + [target], groups[e := (if e in groups then groups[e] else []) + [target]])
  {
    assert (outputs + [target])[..|outputs|] == outputs;
  }
}
