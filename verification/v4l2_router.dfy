/** Several V4L2 endpoints behind one adapter, sharing one token counter. */
module V4L2Router {
  import opened Wrappers
  import opened CameraTypes
  import opened V4L2Driver

  datatype Endpoint = Endpoint(streamType: StreamType, adapter: Adapter)

  datatype Multi = Multi(endpoints: seq<Endpoint>, nextToken: nat)

  /** The first endpoint of this stream type, at or after position i. */
  function EndpointFor(endpoints: seq<Endpoint>, streamType: StreamType, i: nat): (e: Option<nat>)
    ensures e.Some? ==> i <= e.value < |endpoints| && endpoints[e.value].streamType == streamType
    ensures forall k :: i <= k < (if e.Some? then e.value else |endpoints|) ==> endpoints[k].streamType != streamType
    decreases |endpoints| - i
  {
    if i >= |endpoints| then None
    else if endpoints[i].streamType == streamType then Some(i)
    else EndpointFor(endpoints, streamType, i + 1)
  }

  function EndpointForFd(endpoints: seq<Endpoint>, fd: int, i: nat): (e: Option<nat>)
    ensures e.Some? ==> i <= e.value < |endpoints| && endpoints[e.value].adapter.fd == fd
    ensures forall k :: i <= k < (if e.Some? then e.value else |endpoints|) ==> endpoints[k].adapter.fd != fd
    decreases |endpoints| - i
  {
    if i >= |endpoints| then None
    else if endpoints[i].adapter.fd == fd then Some(i)
    else EndpointForFd(endpoints, fd, i + 1)
  }

  function Route(m: Multi, target: Target): Option<nat> {
    EndpointFor(m.endpoints, target.streamType, 0)
  }

  function SetAdapter(m: Multi, e: nat, a: Adapter): Multi
    requires e < |m.endpoints|
  {
    m.(endpoints := m.endpoints[e := m.endpoints[e].(adapter := a)])
  }

  function SetContinuous(m: Multi, e: nat, on: bool): Multi
    requires e < |m.endpoints|
  {
    SetAdapter(m, e, m.endpoints[e].adapter.(continuous := on))
  }

  /** The outputs that go to endpoint e, in order. */
  function Group(m: Multi, targets: seq<Target>, e: nat): seq<Target> {
    if targets == [] then []
    else
      var rest := Group(m, targets[..|targets| - 1], e);
      var last := targets[|targets| - 1];
      if Route(m, last) == Some(e) then rest + [last] else rest
  }

  /** Every output has an endpoint, and each endpoint that gets outputs accepts its group. */
  predicate CanSubmitAll(m: Multi, targets: seq<Target>) {
    && (forall i :: 0 <= i < |targets| ==> Route(m, targets[i]).Some?)
    && (forall e :: 0 <= e < |m.endpoints| ==>
          Group(m, targets, e) == [] || CanSubmit(m.endpoints[e].adapter, Group(m, targets, e)))
  }

  /** Queues a dma-buf at endpoint e under the next token. */
  function QueueAt(m: Multi, e: nat, bufferFd: int, bufferSize: nat, io: Io): (Multi, Option<nat>)
    requires e < |m.endpoints|
  {
    var (a, answer) := QueueCapture(m.endpoints[e].adapter, m.nextToken, bufferFd, bufferSize, io);
    (SetAdapter(m, e, a).(nextToken := if answer.Refused? then m.nextToken else m.nextToken + 1),
     if answer.Queued? then Some(m.nextToken) else None)
  }

  function SubmitCapture(m: Multi, target: Target, io: Io): (Multi, Option<nat>) {
    var e := Route(m, target);
    if e.None? then (m, None) else QueueAt(m, e.value, target.bufferFd, target.bufferSize, io)
  }

  /** Submits the targets from the i-th on, stopping at the first failure;
      the responses include that failure. */
  function SubmitTargets(m: Multi, targets: seq<Target>, ios: seq<Io>, i: nat): (Multi, seq<Option<nat>>)
    requires |ios| == |targets|
    decreases |targets| - i
  {
    if i >= |targets| then (m, [])
    else
      var (m1, token) := SubmitCapture(m, targets[i], ios[i]);
      if token.None? then (m1, [None])
      else
        var (m2, rest) := SubmitTargets(m1, targets, ios, i + 1);
        (m2, [token] + rest)
  }

  /** Queues preview buffers at endpoint e; the tokens, unless one buffer is refused. */
  function QueueAll(m: Multi, e: nat, targets: seq<Target>, ios: seq<Io>, i: nat): (r: (Multi, Option<seq<nat>>))
    requires |ios| == |targets| && e < |m.endpoints|
    ensures |r.0.endpoints| == |m.endpoints|
  {
    var (a, next, tokens) := QueueBuffers(m.endpoints[e].adapter, m.nextToken, targets, ios, i);
    (SetAdapter(m, e, a).(nextToken := next), tokens)
  }

  lemma QueueAllStep(m: Multi, e: nat, targets: seq<Target>, ios: seq<Io>, i: nat)
    requires |ios| == |targets| && e < |m.endpoints|
    ensures QueueAll(m, e, targets, ios, i) ==
            if i >= |targets| then (m, Some([]))
            else
              var (m1, token) := QueueAt(m, e, targets[i].bufferFd, targets[i].bufferSize, ios[i]);
              if token.None? then (m1, None)
              else
                var (m2, rest) := QueueAll(m1, e, targets, ios, i + 1);
                (m2, if rest.None? then None else Some([token.value] + rest.value))
  {
    hide QueueCapture;
    assert SetAdapter(m, e, m.endpoints[e].adapter) == m;
    if i < |targets| {
      var m1 := QueueAt(m, e, targets[i].bufferFd, targets[i].bufferSize, ios[i]).0;
      var a2 := QueueBuffers(m1.endpoints[e].adapter, m1.nextToken, targets, ios, i + 1).0;
      assert SetAdapter(m1, e, a2).endpoints == SetAdapter(m, e, a2).endpoints;
    }
  }

  function StartContinuous(m: Multi, streamType: StreamType, targets: seq<Target>, ios: seq<Io>)
    : (Multi, Option<seq<nat>>)
    requires |ios| == |targets|
  {
    var e := EndpointFor(m.endpoints, streamType, 0);
    if e.None? then (m, None)
    else
      var a := m.endpoints[e.value].adapter;
      if !a.streaming || a.fd < 0 then (m, None)
      else
        var (m', tokens) := QueueAll(SetContinuous(m, e.value, true), e.value, targets, ios, 0);
        if tokens.Some? then (m', tokens) else (SetContinuous(m', e.value, false), None)
  }

  /** A lease handed back by a callback goes to the endpoint of its stream type; an endpoint that is
      not streaming continuously answers with token 0 without queueing anything. */
  function ReturnBuffer(m: Multi, streamType: StreamType, bufferFd: int, bufferSize: nat, io: Io): (Multi, Option<nat>) {
    var e := EndpointFor(m.endpoints, streamType, 0);
    if e.None? then (m, None)
    else if !m.endpoints[e.value].adapter.continuous then (m, Some(0))
    else QueueAt(m, e.value, bufferFd, bufferSize, io)
  }

  function DequeueAt(m: Multi, readyFd: int, choice: Option<nat>): (Multi, Option<nat>) {
    var e := EndpointForFd(m.endpoints, readyFd, 0);
    if e.None? then (m, None)
    else
      var (a, token) := Dequeue(m.endpoints[e.value].adapter, readyFd, choice);
      (SetAdapter(m, e.value, a), token)
  }

  /** streamOffs gives the answer of STREAMOFF at each endpoint. */
  function StopAll(m: Multi, streamOffs: seq<bool>): Multi
    requires |streamOffs| == |m.endpoints|
  {
    m.(endpoints := seq(|m.endpoints|, i requires 0 <= i < |m.endpoints| =>
      m.endpoints[i].(adapter := StopStreaming(m.endpoints[i].adapter, streamOffs[i]))))
  }

  function CloseAll(m: Multi): Multi {
    m.(endpoints := seq(|m.endpoints|, i requires 0 <= i < |m.endpoints| =>
      m.endpoints[i].(adapter := Close(m.endpoints[i].adapter))))
  }

  /** Starts the endpoints in order until one refuses. */
  function StartFrom(m: Multi, i: nat): (Multi, bool)
    requires i <= |m.endpoints|
    decreases |m.endpoints| - i
  {
    if i == |m.endpoints| then (m, true)
    else
      var a := m.endpoints[i].adapter;
      if a.fd < 0 || a.slots == [] then (m, false)
      else StartFrom(SetAdapter(m, i, StartStreaming(a)), i + 1)
  }

  /** Configures the endpoints in order; when one fails, all are closed. */
  function ConfigureFrom(m: Multi, devices: seq<Option<Opened>>, i: nat): (Multi, bool)
    requires i <= |m.endpoints| == |devices|
    decreases |m.endpoints| - i
  {
    if i == |m.endpoints| then (m, true)
    else
      var a := ConfigureStream(m.endpoints[i].adapter, devices[i]);
      if a.fd < 0 then (CloseAll(SetAdapter(m, i, a)), false)
      else ConfigureFrom(SetAdapter(m, i, a), devices, i + 1)
  }

  /* ---------------------------------- invariants ---------------------------------- */

  /** At every endpoint the table and the kernel agree. */
  predicate AllAgree(m: Multi) {
    forall e :: 0 <= e < |m.endpoints| ==> Agrees(m.endpoints[e].adapter)
  }

  /** At every endpoint the kernel holds what the table calls queued. */
  predicate AllCovered(m: Multi) {
    forall e :: 0 <= e < |m.endpoints| ==> Covered(m.endpoints[e].adapter)
  }

  lemma AgreeIsCovered(m: Multi)
    requires AllAgree(m)
    ensures AllCovered(m)
  {
    forall e | 0 <= e < |m.endpoints| ensures Covered(m.endpoints[e].adapter) {
      AgreesIsCovered(m.endpoints[e].adapter);
    }
  }

  predicate QueuedAt(m: Multi, e: int, i: int) {
    0 <= e < |m.endpoints| && 0 <= i < |m.endpoints[e].adapter.slots| && m.endpoints[e].adapter.slots[i].queued
  }

  function TokenAt(m: Multi, e: int, i: int): nat
    requires QueuedAt(m, e, i)
  {
    m.endpoints[e].adapter.slots[i].token
  }

  /** The tokens in the slot tables of all endpoints were drawn from the shared counter and are
      pairwise different. */
  ghost predicate TokensApart(m: Multi) {
    && m.nextToken >= 1
    && (forall e, i :: QueuedAt(m, e, i) ==> 0 < TokenAt(m, e, i) < m.nextToken)
    && (forall e, i, f, j :: QueuedAt(m, e, i) && QueuedAt(m, f, j) && TokenAt(m, e, i) == TokenAt(m, f, j)
          ==> e == f && i == j)
  }

  /** A queueing attempt at endpoint e keeps every slot it leaves queued, or queues one slot. */
  lemma QueueAtSlots(m: Multi, e: nat, bufferFd: int, bufferSize: nat, io: Io, f: int, j: int)
    requires e < |m.endpoints|
    requires QueuedAt(QueueAt(m, e, bufferFd, bufferSize, io).0, f, j)
    ensures var (m', token) := QueueAt(m, e, bufferFd, bufferSize, io);
            var slot := m'.endpoints[f].adapter.slots[j];
            || (QueuedAt(m, f, j) && m.endpoints[f].adapter.slots[j] == slot)
            || (token == Some(slot.token) && slot.token == m.nextToken && slot.bufferFd == bufferFd
                && f == e && Some(j) == FirstFree(m.endpoints[e].adapter.slots, 0))
  {
  }

  lemma QueueAtAgrees(m: Multi, e: nat, bufferFd: int, bufferSize: nat, io: Io)
    requires e < |m.endpoints| && AllAgree(m) && io.streamOnOk
    ensures AllAgree(QueueAt(m, e, bufferFd, bufferSize, io).0)
  {
    hide Agrees;
    QueueAgreesExactlyWhen(m.endpoints[e].adapter, m.nextToken, bufferFd, bufferSize, io);
  }

  lemma QueueAtCovered(m: Multi, e: nat, bufferFd: int, bufferSize: nat, io: Io)
    requires e < |m.endpoints| && AllCovered(m)
    ensures AllCovered(QueueAt(m, e, bufferFd, bufferSize, io).0)
  {
    hide Covered;
    QueueKeepsCovered(m.endpoints[e].adapter, m.nextToken, bufferFd, bufferSize, io);
  }

  lemma QueueAtTokens(m: Multi, e: nat, bufferFd: int, bufferSize: nat, io: Io)
    requires e < |m.endpoints| && TokensApart(m)
    ensures TokensApart(QueueAt(m, e, bufferFd, bufferSize, io).0)
  {
    var m' := QueueAt(m, e, bufferFd, bufferSize, io).0;
    assert m'.nextToken >= m.nextToken && (m'.nextToken == m.nextToken ==> m'.endpoints == m.endpoints);
    hide QueueAt;
    forall f, j | QueuedAt(m', f, j) ensures 0 < TokenAt(m', f, j) < m'.nextToken {
      QueueAtSlots(m, e, bufferFd, bufferSize, io, f, j);
    }
    forall f, j, g, k | QueuedAt(m', f, j) && QueuedAt(m', g, k) && TokenAt(m', f, j) == TokenAt(m', g, k)
      ensures f == g && j == k
    {
      QueueAtSlots(m, e, bufferFd, bufferSize, io, f, j);
      QueueAtSlots(m, e, bufferFd, bufferSize, io, g, k);
    }
  }

  /* ---------------------------------- queueing only adds ---------------------------------- */

  predicate SlotKept(m: Multi, m': Multi, e: int, i: int)
    requires QueuedAt(m, e, i)
  {
    QueuedAt(m', e, i) && m'.endpoints[e].adapter.slots[i] == m.endpoints[e].adapter.slots[i]
  }

  /** Every queued slot stays as it is, every slot queued since carries a token drawn since,
      and each endpoint keeps its stream type and whether it streams continuously. */
  ghost predicate Grows(m: Multi, m': Multi) {
    && |m'.endpoints| == |m.endpoints| && m.nextToken <= m'.nextToken
    && (forall e, i :: QueuedAt(m, e, i) ==> SlotKept(m, m', e, i))
    && (forall e, i :: QueuedAt(m', e, i) ==> m.nextToken <= TokenAt(m', e, i) || SlotKept(m', m, e, i))
    && (forall e :: 0 <= e < |m.endpoints| ==>
          && m'.endpoints[e].streamType == m.endpoints[e].streamType
          && m'.endpoints[e].adapter.continuous == m.endpoints[e].adapter.continuous)
  }

  /** The kernels hold what the tables call queued, and the tokens in the tables are pairwise
      different. */
  ghost predicate Sound(m: Multi) {
    AllCovered(m) && TokensApart(m)
  }

  /** Endpoint e has queued this dma-buf under this token. */
  ghost predicate HoldsAt(m: Multi, e: nat, token: nat, bufferFd: int) {
    exists i :: QueuedAt(m, e, i) && TokenAt(m, e, i) == token && m.endpoints[e].adapter.slots[i].bufferFd == bufferFd
  }

  lemma GrowsTwice(a: Multi, b: Multi, c: Multi)
    requires Grows(a, b) && Grows(b, c)
    ensures Grows(a, c)
  {
    forall e, i | QueuedAt(c, e, i) ensures a.nextToken <= TokenAt(c, e, i) || SlotKept(c, a, e, i) {
      if TokenAt(c, e, i) < b.nextToken {
        assert SlotKept(c, b, e, i);
      }
    }
    forall e, i | QueuedAt(a, e, i) ensures SlotKept(a, c, e, i) {
      assert SlotKept(a, b, e, i);
    }
  }

  lemma GrowsHolds(m: Multi, m': Multi, e: nat, token: nat, bufferFd: int)
    requires Grows(m, m') && HoldsAt(m, e, token, bufferFd)
    ensures HoldsAt(m', e, token, bufferFd)
  {
    var i :| QueuedAt(m, e, i) && TokenAt(m, e, i) == token && m.endpoints[e].adapter.slots[i].bufferFd == bufferFd;
    assert SlotKept(m, m', e, i);
  }

  /** Queueing at endpoint e answers with the next token of the shared counter exactly when the
      dma-buf is then queued there under it. */
  lemma QueueAtGrows(m: Multi, e: nat, bufferFd: int, bufferSize: nat, io: Io)
    requires e < |m.endpoints| && Sound(m)
    ensures var (m', token) := QueueAt(m, e, bufferFd, bufferSize, io);
            && Sound(m') && Grows(m, m')
            && (token.Some? ==> token.value == m.nextToken < m'.nextToken && HoldsAt(m', e, m.nextToken, bufferFd))
  {
    QueueAtCovered(m, e, bufferFd, bufferSize, io);
    QueueAtTokens(m, e, bufferFd, bufferSize, io);
    QueueAtAdds(m, e, bufferFd, bufferSize, io);
    var (m', token) := QueueAt(m, e, bufferFd, bufferSize, io);
    hide QueueAt, AllCovered, TokensApart;
    forall f, i | QueuedAt(m', f, i) ensures m.nextToken <= TokenAt(m', f, i) || SlotKept(m', m, f, i) {
      QueueAtSlots(m, e, bufferFd, bufferSize, io, f, i);
    }
  }

  lemma QueueAtAdds(m: Multi, e: nat, bufferFd: int, bufferSize: nat, io: Io)
    requires e < |m.endpoints|
    ensures var (m', token) := QueueAt(m, e, bufferFd, bufferSize, io);
            && |m'.endpoints| == |m.endpoints| && m.nextToken <= m'.nextToken
            && (forall f, i :: QueuedAt(m, f, i) ==> SlotKept(m, m', f, i))
            && (forall f :: 0 <= f < |m.endpoints| ==>
                  && m'.endpoints[f].streamType == m.endpoints[f].streamType
                  && m'.endpoints[f].adapter.continuous == m.endpoints[f].adapter.continuous)
            && (token.Some? ==> token.value == m.nextToken < m'.nextToken && HoldsAt(m', e, m.nextToken, bufferFd))
  {
    var (m', token) := QueueAt(m, e, bufferFd, bufferSize, io);
    if token.Some? {
      var k := FirstFree(m.endpoints[e].adapter.slots, 0).value;
      assert QueuedAt(m', e, k) && TokenAt(m', e, k) == m.nextToken;
    }
  }

  /** An accepted output is queued, at the endpoint of its stream type, under a token drawn since m. */
  ghost predicate Placed(m: Multi, m': Multi, target: Target, response: Option<nat>) {
    response.Some? ==>
      && m.nextToken <= response.value < m'.nextToken
      && Route(m, target).Some?
      && HoldsAt(m', Route(m, target).value, response.value, target.bufferFd)
  }

  lemma PlacedFirst(m: Multi, m': Multi, target: Target, io: Io)
    requires Sound(m) && Grows(SubmitCapture(m, target, io).0, m')
    ensures Placed(m, m', target, SubmitCapture(m, target, io).1)
  {
    var (m1, token) := SubmitCapture(m, target, io);
    if token.Some? {
      QueueAtGrows(m, Route(m, target).value, target.bufferFd, target.bufferSize, io);
      GrowsHolds(m1, m', Route(m, target).value, token.value, target.bufferFd);
    }
  }

  lemma PlacedEarlier(m: Multi, m1: Multi, m': Multi, target: Target, response: Option<nat>)
    requires Grows(m, m1) && Placed(m1, m', target, response)
    ensures Placed(m, m', target, response)
  {
    GrowsRoutes(m, m1, [target]);
    assert [target][0] == target;
  }

  lemma SubmitCaptureGrows(m: Multi, target: Target, io: Io)
    requires Sound(m)
    ensures var (m', token) := SubmitCapture(m, target, io);
            && Sound(m') && Grows(m, m') && m.nextToken <= m'.nextToken
            && (token.Some? ==> token.value == m.nextToken < m'.nextToken)
  {
    if Route(m, target).Some? {
      QueueAtGrows(m, Route(m, target).value, target.bufferFd, target.bufferSize, io);
    }
  }

  /** Every accepted output of a request is queued at the endpoint of its stream type under its own
      token, drawn from the shared counter in the order of submission. */
  lemma {:induction false} SubmitTargetsGrows(m: Multi, targets: seq<Target>, ios: seq<Io>, i: nat)
    requires Sound(m) && |ios| == |targets| && i <= |targets|
    ensures var (m', responses) := SubmitTargets(m, targets, ios, i);
            && Sound(m') && Grows(m, m') && |responses| <= |targets| - i
            && (forall j :: i <= j < i + |responses| ==> Placed(m, m', targets[j], responses[j - i]))
            && (forall k :: 0 <= k < |responses| && responses[k].Some? ==> m.nextToken <= responses[k].value)
            && (forall k, l :: 0 <= k < l < |responses| && responses[k].Some? && responses[l].Some? ==>
                  responses[k].value < responses[l].value)
    decreases |targets| - i
  {
    GrowsSame(m);
    hide Sound, SubmitCapture, Grows, Placed;
    if i < |targets| {
      var (m1, token) := SubmitCapture(m, targets[i], ios[i]);
      SubmitCaptureGrows(m, targets[i], ios[i]);
      GrowsSame(m1);
      PlacedFirst(m, m1, targets[i], ios[i]);
      if token.Some? {
        var (m', rest) := SubmitTargets(m1, targets, ios, i + 1);
        SubmitTargetsGrows(m1, targets, ios, i + 1);
        GrowsTwice(m, m1, m');
        PlacedFirst(m, m', targets[i], ios[i]);
        forall j | i < j < i + 1 + |rest| ensures Placed(m, m', targets[j], rest[j - i - 1]) {
          PlacedEarlier(m, m1, m', targets[j], rest[j - i - 1]);
        }
      }
    }
  }

  lemma GrowsSame(m: Multi)
    ensures Grows(m, m)
  {
  }

  lemma GrowsRoutes(m: Multi, m': Multi, targets: seq<Target>)
    requires Grows(m, m')
    ensures m.nextToken <= m'.nextToken
    ensures forall k :: 0 <= k < |targets| ==> Route(m', targets[k]) == Route(m, targets[k])
  {
    forall k | 0 <= k < |targets| ensures Route(m', targets[k]) == Route(m, targets[k]) {
      SameEndpointFor(m.endpoints, m'.endpoints, targets[k].streamType, 0);
    }
  }

  /** The dma-buf is queued somewhere under this token, drawn since the counter was at from. */
  ghost predicate HeldSince(from: nat, m: Multi, token: nat, bufferFd: int) {
    from <= token < m.nextToken && exists e :: HoldsAt(m, e, token, bufferFd)
  }

  /** Each preview buffer is queued under a token of its own, drawn since the counter was at from. */
  ghost predicate PreviewTokens(from: nat, m: Multi, buffers: seq<Target>, tokens: seq<nat>) {
    && |tokens| == |buffers|
    && (forall k :: 0 <= k < |tokens| ==> HeldSince(from, m, tokens[k], buffers[k].bufferFd))
    && (forall k, l :: 0 <= k < l < |tokens| ==> tokens[k] < tokens[l])
  }

  lemma HeldFirst(m: Multi, m': Multi, e: nat, target: Target, io: Io)
    requires e < |m.endpoints| && Sound(m)
    requires QueueAt(m, e, target.bufferFd, target.bufferSize, io).1.Some?
    requires Grows(QueueAt(m, e, target.bufferFd, target.bufferSize, io).0, m')
    ensures HeldSince(m.nextToken, m', m.nextToken, target.bufferFd)
  {
    QueueAtGrows(m, e, target.bufferFd, target.bufferSize, io);
    GrowsHolds(QueueAt(m, e, target.bufferFd, target.bufferSize, io).0, m', e, m.nextToken, target.bufferFd);
  }

  lemma HeldEarlier(from: nat, later: nat, m: Multi, token: nat, bufferFd: int)
    requires from <= later && HeldSince(later, m, token, bufferFd)
    ensures HeldSince(from, m, token, bufferFd) && later <= token
  {
  }

  lemma {:induction false} QueueAllGrows(m: Multi, e: nat, targets: seq<Target>, ios: seq<Io>, i: nat)
    requires Sound(m) && |ios| == |targets| && i <= |targets| && e < |m.endpoints|
    ensures var (m', tokens) := QueueAll(m, e, targets, ios, i);
            && Sound(m') && Grows(m, m')
            && (tokens.Some? ==> PreviewTokens(m.nextToken, m', targets[i..], tokens.value))
    decreases |targets| - i
  {
    hide Sound, QueueAt, HeldSince, Grows, QueueAll;
    GrowsSame(m);
    QueueAllStep(m, e, targets, ios, i);
    if i < |targets| {
      QueueAtGrows(m, e, targets[i].bufferFd, targets[i].bufferSize, ios[i]);
      var (m1, token) := QueueAt(m, e, targets[i].bufferFd, targets[i].bufferSize, ios[i]);
      if token.Some? {
        GrowsLength(m, m1);
        var (m', rest) := QueueAll(m1, e, targets, ios, i + 1);
        QueueAllGrows(m1, e, targets, ios, i + 1);
        GrowsTwice(m, m1, m');
        HeldFirst(m, m', e, targets[i], ios[i]);
        if rest.Some? {
          PreviewTokensFirst(m.nextToken, m1.nextToken, m', targets[i..], rest.value);
        }
      }
    }
  }

  lemma PreviewTokensFirst(from: nat, later: nat, m: Multi, buffers: seq<Target>, rest: seq<nat>)
    requires from < later && buffers != [] && PreviewTokens(later, m, buffers[1..], rest)
    requires HeldSince(from, m, from, buffers[0].bufferFd)
    ensures PreviewTokens(from, m, buffers, [from] + rest)
  {
    hide HeldSince;
    forall k | 1 <= k < |buffers|
      ensures HeldSince(from, m, ([from] + rest)[k], buffers[k].bufferFd) && later <= ([from] + rest)[k]
    {
      assert buffers[1..][k - 1] == buffers[k];
      HeldEarlier(from, later, m, rest[k - 1], buffers[k].bufferFd);
    }
  }

  lemma GrowsLength(m: Multi, m': Multi)
    requires Grows(m, m')
    ensures |m'.endpoints| == |m.endpoints| && m.nextToken <= m'.nextToken
  {
  }

  /* ---------------------------------- preflight ---------------------------------- */

  /** What the preflight check establishes about a list of outputs: each has an endpoint that
      streams and fits it, and no endpoint gets more of them than it has free slots. */
  predicate Affordable(m: Multi, targets: seq<Target>) {
    && (forall i :: 0 <= i < |targets| ==>
          && Route(m, targets[i]).Some?
          && var a := m.endpoints[Route(m, targets[i]).value].adapter;
             a.streaming && a.fd >= 0 && Fits(a, targets[i]))
    && (forall e :: 0 <= e < |m.endpoints| ==>
          |Group(m, targets, e)| <= FreeCount(m.endpoints[e].adapter.slots))
  }

  lemma {:induction false} GroupHas(m: Multi, targets: seq<Target>, i: nat)
    requires i < |targets| && Route(m, targets[i]).Some?
    ensures targets[i] in Group(m, targets, Route(m, targets[i]).value)
    decreases |targets|
  {
    if i < |targets| - 1 {
      GroupHas(m, targets[..|targets| - 1], i);
    }
  }

  lemma PreflightIsAffordable(m: Multi, targets: seq<Target>)
    requires CanSubmitAll(m, targets)
    ensures Affordable(m, targets)
  {
    forall i | 0 <= i < |targets|
      ensures Route(m, targets[i]).Some?
              && var a := m.endpoints[Route(m, targets[i]).value].adapter;
                 a.streaming && a.fd >= 0 && Fits(a, targets[i])
    {
      GroupHas(m, targets, i);
      var e := Route(m, targets[i]).value;
      var k :| 0 <= k < |Group(m, targets, e)| && Group(m, targets, e)[k] == targets[i];
      assert Fits(m.endpoints[e].adapter, Group(m, targets, e)[k]);
    }
  }

  lemma {:induction false} GroupFirst(m: Multi, targets: seq<Target>, e: nat)
    requires targets != []
    ensures Group(m, targets, e) == (if Route(m, targets[0]) == Some(e) then [targets[0]] else [])
                                    + Group(m, targets[1..], e)
    decreases |targets|
  {
    if |targets| > 1 {
      var front := targets[..|targets| - 1];
      GroupFirst(m, front, e);
      assert front[1..] == targets[1..][..|targets| - 2];
    } else {
      assert targets[..0] == [];
      assert Group(m, targets[..0], e) == [];
    }
  }

  /** Queueing does not change which endpoint a stream type belongs to. */
  predicate SameRoutes(m: Multi, m': Multi) {
    |m'.endpoints| == |m.endpoints|
    && forall e :: 0 <= e < |m.endpoints| ==> m'.endpoints[e].streamType == m.endpoints[e].streamType
  }

  lemma {:induction false} SameEndpointFor(a: seq<Endpoint>, b: seq<Endpoint>, streamType: StreamType, i: nat)
    requires |a| == |b| && forall e :: 0 <= e < |a| ==> a[e].streamType == b[e].streamType
    ensures EndpointFor(a, streamType, i) == EndpointFor(b, streamType, i)
    decreases |a| - i
  {
    if i < |a| {
      SameEndpointFor(a, b, streamType, i + 1);
    }
  }

  lemma {:induction false} SameGroup(m: Multi, m': Multi, targets: seq<Target>, e: nat)
    requires SameRoutes(m, m')
    ensures Group(m', targets, e) == Group(m, targets, e)
    decreases |targets|
  {
    if targets != [] {
      SameEndpointFor(m.endpoints, m'.endpoints, targets[|targets| - 1].streamType, 0);
      SameGroup(m, m', targets[..|targets| - 1], e);
    }
  }

  predicate AllAnswerOk(ios: seq<Io>) {
    forall k :: 0 <= k < |ios| ==> ios[k].fenceOk && ios[k].qbufOk && ios[k].streamOnOk
  }

  /** The first output of an affordable list is queued, and only its endpoint changes. */
  lemma SubmitFirst(m: Multi, targets: seq<Target>, io: Io)
    requires AllAgree(m) && targets != [] && Affordable(m, targets)
    requires io.fenceOk && io.qbufOk && io.streamOnOk
    ensures var (m', token) := SubmitCapture(m, targets[0], io);
            var e := Route(m, targets[0]).value;
            var a := m.endpoints[e].adapter;
            var a' := m'.endpoints[e].adapter;
            && token == Some(m.nextToken) && m'.nextToken == m.nextToken + 1
            && m' == SetAdapter(m, e, a').(nextToken := m'.nextToken)
            && a'.streaming && a'.fd == a.fd && a'.bufferSize == a.bufferSize
            && FreeCount(a'.slots) == FreeCount(a.slots) - 1
  {
    hide Agrees;
    var e := Route(m, targets[0]).value;
    GroupFirst(m, targets, e);
    QueueSucceeds(m.endpoints[e].adapter, m.nextToken, targets[0].bufferFd, targets[0].bufferSize, io);
  }

  /** After the first output of an affordable list is queued, the rest is still affordable. */
  lemma RestIsAffordable(m: Multi, targets: seq<Target>, io: Io)
    requires AllAgree(m) && targets != [] && Affordable(m, targets)
    requires io.fenceOk && io.qbufOk && io.streamOnOk
    ensures Affordable(SubmitCapture(m, targets[0], io).0, targets[1..])
  {
    hide AllAgree, SubmitCapture;
    SubmitFirst(m, targets, io);
    var m' := SubmitCapture(m, targets[0], io).0;
    forall i | 0 <= i < |targets[1..]|
      ensures Route(m', targets[1..][i]) == Route(m, targets[i + 1])
    {
      SameEndpointFor(m.endpoints, m'.endpoints, targets[i + 1].streamType, 0);
    }
    forall f | 0 <= f < |m'.endpoints|
      ensures |Group(m', targets[1..], f)| <= FreeCount(m'.endpoints[f].adapter.slots)
    {
      GroupFirst(m, targets, f);
      SameGroup(m, m', targets[1..], f);
    }
  }

  lemma {:induction false} AffordableIsAccepted(m: Multi, targets: seq<Target>, ios: seq<Io>, i: nat)
    requires AllAgree(m) && TokensApart(m) && |ios| == |targets| && i <= |targets|
    requires Affordable(m, targets[i..]) && AllAnswerOk(ios)
    ensures var (m', responses) := SubmitTargets(m, targets, ios, i);
            && |responses| == |targets| - i
            && (forall k :: 0 <= k < |responses| ==> responses[k] == Some(m.nextToken + k))
            && AllAgree(m') && TokensApart(m')
    decreases |targets| - i
  {
    hide Affordable, AllAgree, TokensApart, QueueAt, Agrees;
    if i < |targets| {
      assert targets[i..][0] == targets[i] && targets[i..][1..] == targets[i + 1..];
      FirstIsAccepted(m, targets[i..], ios[i]);
      AffordableIsAccepted(SubmitCapture(m, targets[i], ios[i]).0, targets, ios, i + 1);
    }
  }

  lemma FirstIsAccepted(m: Multi, targets: seq<Target>, io: Io)
    requires AllAgree(m) && TokensApart(m) && targets != [] && Affordable(m, targets)
    requires io.fenceOk && io.qbufOk && io.streamOnOk
    ensures var (m', token) := SubmitCapture(m, targets[0], io);
            && token == Some(m.nextToken) && m'.nextToken == m.nextToken + 1
            && AllAgree(m') && TokensApart(m') && Affordable(m', targets[1..])
  {
    SubmitFirst(m, targets, io);
    RestIsAffordable(m, targets, io);
    hide Affordable, AllAgree, TokensApart, Agrees, QueueAt;
    var e := Route(m, targets[0]).value;
    QueueAtAgrees(m, e, targets[0].bufferFd, targets[0].bufferSize, io);
    QueueAtTokens(m, e, targets[0].bufferFd, targets[0].bufferSize, io);
  }

  /** The preflight check is sufficient: when it accepts a list and the fences and system calls
      succeed, every output of the list is queued at the endpoint of its stream type, and the tokens
      are pairwise different and never used before. */
  lemma PreflightIsSufficient(m: Multi, targets: seq<Target>, ios: seq<Io>)
    requires AllAgree(m) && TokensApart(m) && |ios| == |targets| && CanSubmitAll(m, targets)
    requires AllAnswerOk(ios)
    ensures var (m', responses) := SubmitTargets(m, targets, ios, 0);
            && |responses| == |targets|
            && (forall k :: 0 <= k < |responses| ==> responses[k].Some? && Placed(m, m', targets[k], responses[k]))
            && (forall k, l :: 0 <= k < l < |responses| ==> responses[k] != responses[l])
            && AllAgree(m') && TokensApart(m')
  {
    AgreeIsCovered(m);
    PreflightIsAffordable(m, targets);
    assert targets[0..] == targets;
    SubmitTargetsGrows(m, targets, ios, 0);
    AffordableIsAccepted(m, targets, ios, 0);
    hide *;
  }

  /* ---------------------------------- the other operations ---------------------------------- */

  /** No slot is queued that was not, and no token is drawn. */
  ghost predicate Shrinks(m: Multi, m': Multi) {
    && m'.nextToken == m.nextToken
    && forall e, i :: QueuedAt(m', e, i) ==> SlotKept(m', m, e, i)
  }

  lemma ShrinksApart(m: Multi, m': Multi)
    requires TokensApart(m) && Shrinks(m, m')
    ensures TokensApart(m')
  {
    forall e, i | QueuedAt(m', e, i) ensures QueuedAt(m, e, i) && TokenAt(m, e, i) == TokenAt(m', e, i) {
      assert SlotKept(m', m, e, i);
    }
  }

  /** The dma-buf the kernel holds for the index that DQBUF hands back. */
  function KernelFd(m: Multi, readyFd: int, choice: Option<nat>): int {
    var e := EndpointForFd(m.endpoints, readyFd, 0);
    if e.None? || choice.None? || choice.value !in m.endpoints[e.value].adapter.kernel.held then -1
    else m.endpoints[e.value].adapter.kernel.held[choice.value]
  }

  lemma DequeueAtSound(m: Multi, readyFd: int, choice: Option<nat>)
    requires Sound(m)
    ensures Sound(DequeueAt(m, readyFd, choice).0) && Shrinks(m, DequeueAt(m, readyFd, choice).0)
  {
    var e := EndpointForFd(m.endpoints, readyFd, 0);
    if e.Some? {
      DequeueIsCovered(m.endpoints[e.value].adapter, readyFd, choice);
      hide Covered;
      ShrinksApart(m, DequeueAt(m, readyFd, choice).0);
    }
  }

  /** DQBUF serves one slot, the one whose index the kernel chose, or there is no completion and no
      slot changes. */
  lemma DequeueAtServes(m: Multi, readyFd: int, choice: Option<nat>) returns (served: Option<(nat, nat)>)
    requires AllCovered(m)
    ensures var (m', token) := DequeueAt(m, readyFd, choice);
            && |m'.endpoints| == |m.endpoints| && m'.nextToken == m.nextToken
            && (served.None? ==>
                  token.None?
                  && forall f :: 0 <= f < |m.endpoints| ==> m'.endpoints[f].adapter.slots == m.endpoints[f].adapter.slots)
            && (served.Some? ==>
                  var (e, i) := served.value;
                  && QueuedAt(m, e, i) && token == Some(TokenAt(m, e, i))
                  && m.endpoints[e].adapter.slots[i].bufferFd == KernelFd(m, readyFd, choice)
                  && m' == SetAdapter(m, e, m.endpoints[e].adapter.(
                       slots := m.endpoints[e].adapter.slots[i := FreeSlot(i)],
                       kernel := m'.endpoints[e].adapter.kernel)))
  {
    var e := EndpointForFd(m.endpoints, readyFd, 0);
    served := None;
    if e.Some? {
      DequeueIsCovered(m.endpoints[e.value].adapter, readyFd, choice);
      if DequeueAt(m, readyFd, choice).1.Some? {
        served := Some((e.value, choice.value));
      }
    }
  }

  /** A completion carries the one token under which the dma-buf that the kernel held for the
      dequeued index was queued, and that token is in no slot afterwards. */
  lemma DequeueAtEffect(m: Multi, readyFd: int, choice: Option<nat>)
    requires Sound(m)
    ensures var (m', token) := DequeueAt(m, readyFd, choice);
            && (token.None? ==> forall e, i :: QueuedAt(m, e, i) ==> SlotKept(m, m', e, i))
            && (token.Some? ==>
                  && token.value < m.nextToken
                  && (forall e, i :: QueuedAt(m, e, i) ==>
                        if TokenAt(m, e, i) == token.value
                        then m.endpoints[e].adapter.slots[i].bufferFd == KernelFd(m, readyFd, choice)
                        else SlotKept(m, m', e, i))
                  && (forall e, i :: QueuedAt(m', e, i) ==> TokenAt(m', e, i) != token.value)
                  && exists e :: HoldsAt(m, e, token.value, KernelFd(m, readyFd, choice)))
  {
    var served := DequeueAtServes(m, readyFd, choice);
    hide DequeueAt, KernelFd, AllCovered;
    if served.Some? {
      var (e, i) := served.value;
      assert HoldsAt(m, e, TokenAt(m, e, i), KernelFd(m, readyFd, choice));
    }
  }

  /** The stream type of each endpoint and whether it streams continuously. */
  function Flags(m: Multi): seq<(StreamType, bool)> {
    seq(|m.endpoints|, i requires 0 <= i < |m.endpoints| => (m.endpoints[i].streamType, m.endpoints[i].adapter.continuous))
  }

  predicate Continuous(m: Multi, streamType: StreamType) {
    var e := EndpointFor(m.endpoints, streamType, 0);
    e.Some? && m.endpoints[e.value].adapter.continuous
  }

  lemma SameFlagsContinuous(m: Multi, m': Multi, streamType: StreamType)
    requires Flags(m) == Flags(m')
    ensures Continuous(m, streamType) == Continuous(m', streamType)
  {
    assert |m.endpoints| == |Flags(m)| == |m'.endpoints|;
    forall e | 0 <= e < |m.endpoints|
      ensures m.endpoints[e].streamType == m'.endpoints[e].streamType
              && m.endpoints[e].adapter.continuous == m'.endpoints[e].adapter.continuous
    {
      assert Flags(m)[e] == Flags(m')[e];
    }
    SameEndpointFor(m.endpoints, m'.endpoints, streamType, 0);
  }

  lemma GrowsFlags(m: Multi, m': Multi)
    requires Grows(m, m')
    ensures Flags(m) == Flags(m')
  {
  }

  /** No endpoint changes its stream type or starts to stream continuously. */
  predicate FlagsWithin(m: Multi, m': Multi) {
    && |m'.endpoints| == |m.endpoints|
    && forall e :: 0 <= e < |m.endpoints| ==>
         && m'.endpoints[e].streamType == m.endpoints[e].streamType
         && (m'.endpoints[e].adapter.continuous ==> m.endpoints[e].adapter.continuous)
  }

  lemma GrowsFlagsWithin(m: Multi, m': Multi)
    requires Grows(m, m')
    ensures FlagsWithin(m, m')
  {
  }

  lemma DequeueAtFlags(m: Multi, readyFd: int, choice: Option<nat>)
    ensures Flags(DequeueAt(m, readyFd, choice).0) == Flags(m)
    ensures FlagsWithin(m, DequeueAt(m, readyFd, choice).0)
  {
    var e := EndpointForFd(m.endpoints, readyFd, 0);
    if e.Some? {
      assert Dequeue(m.endpoints[e.value].adapter, readyFd, choice).0.continuous == m.endpoints[e.value].adapter.continuous;
      hide Dequeue;
    }
  }

  lemma StopAllFlags(m: Multi, streamOffs: seq<bool>)
    requires |streamOffs| == |m.endpoints|
    ensures FlagsWithin(m, StopAll(m, streamOffs)) && FlagsWithin(m, CloseAll(m))
    ensures FlagsWithin(m, CloseAll(StopAll(m, streamOffs)))
  {
  }

  lemma {:induction false} ConfigureFromFlags(m: Multi, devices: seq<Option<Opened>>, i: nat)
    requires i <= |m.endpoints| == |devices|
    ensures FlagsWithin(m, ConfigureFrom(m, devices, i).0)
    decreases |m.endpoints| - i
  {
    if i < |m.endpoints| {
      var m1 := SetAdapter(m, i, ConfigureStream(m.endpoints[i].adapter, devices[i]));
      assert FlagsWithin(m, m1);
      assert FlagsWithin(m1, CloseAll(m1));
      ConfigureFromFlags(m1, devices, i + 1);
    }
  }

  /** Starting a continuous stream touches the flag of its own endpoint only. */
  lemma StartContinuousFlags(m: Multi, streamType: StreamType, targets: seq<Target>, ios: seq<Io>)
    requires Sound(m) && |ios| == |targets|
    ensures var m' := StartContinuous(m, streamType, targets, ios).0;
            && |m'.endpoints| == |m.endpoints|
            && forall e :: 0 <= e < |m.endpoints| ==>
                 && m'.endpoints[e].streamType == m.endpoints[e].streamType
                 && (m'.endpoints[e].adapter.continuous ==>
                       m.endpoints[e].adapter.continuous || EndpointFor(m.endpoints, streamType, 0) == Some(e))
  {
    if CanStartContinuous(m, streamType) {
      var e := EndpointFor(m.endpoints, streamType, 0).value;
      SetContinuousEffect(m, e, true);
      QueueAllGrows(SetContinuous(m, e, true), e, targets, ios, 0);
      GrowsFlagsWithin(SetContinuous(m, e, true), QueueAll(SetContinuous(m, e, true), e, targets, ios, 0).0);
      hide QueueAll, Sound, Grows, PreviewTokens;
    }
  }

  /** A continuous stream starts only with buffers that all have a descriptor. */
  lemma StartContinuousUsable(m: Multi, streamType: StreamType, targets: seq<Target>, ios: seq<Io>)
    requires |ios| == |targets|
    ensures StartContinuous(m, streamType, targets, ios).1.Some? ==>
              forall k :: 0 <= k < |targets| ==> targets[k].bufferFd >= 0
  {
    hide QueueBuffers;
    if CanStartContinuous(m, streamType) {
      var e := EndpointFor(m.endpoints, streamType, 0).value;
      QueueBuffersUsable(SetContinuous(m, e, true).endpoints[e].adapter, m.nextToken, targets, ios, 0);
    }
  }

  lemma {:induction false} QueueBuffersUsable(a: Adapter, next: nat, targets: seq<Target>, ios: seq<Io>, i: nat)
    requires |ios| == |targets|
    ensures QueueBuffers(a, next, targets, ios, i).2.Some? ==>
              forall k :: i <= k < |targets| ==> targets[k].bufferFd >= 0
    decreases |targets| - i
  {
    if i < |targets| {
      var (a1, answer) := QueueCapture(a, next, targets[i].bufferFd, targets[i].bufferSize, ios[i]);
      assert answer.Queued? ==> targets[i].bufferFd >= 0;
      hide QueueCapture;
      if answer.Queued? { QueueBuffersUsable(a1, next + 1, targets, ios, i + 1); }
    }
  }

  predicate NothingQueued(m: Multi) {
    forall e, i :: 0 <= e < |m.endpoints| && 0 <= i < |m.endpoints[e].adapter.slots| ==>
      !m.endpoints[e].adapter.slots[i].queued
  }

  lemma StopAllEffect(m: Multi, streamOffs: seq<bool>)
    requires Sound(m) && |streamOffs| == |m.endpoints|
    ensures var m' := StopAll(m, streamOffs); Sound(m') && NothingQueued(m') && Shrinks(m, m')
  {
    forall e | 0 <= e < |m.endpoints| ensures Covered(StopStreaming(m.endpoints[e].adapter, streamOffs[e])) {
      OtherOperationsCovered(m.endpoints[e].adapter, None, streamOffs[e]);
    }
  }

  lemma CloseAllEffect(m: Multi)
    requires Sound(m)
    ensures Sound(CloseAll(m)) && NothingQueued(CloseAll(m)) && Shrinks(m, CloseAll(m))
  {
  }

  lemma {:induction false} StartFromEffect(m: Multi, i: nat)
    requires Sound(m) && i <= |m.endpoints|
    ensures var m' := StartFrom(m, i).0; Sound(m') && Grows(m, m') && m'.nextToken == m.nextToken
    decreases |m.endpoints| - i
  {
    GrowsSame(m);
    if i < |m.endpoints| && m.endpoints[i].adapter.fd >= 0 && m.endpoints[i].adapter.slots != [] {
      var m1 := SetAdapter(m, i, StartStreaming(m.endpoints[i].adapter));
      OtherOperationsCovered(m.endpoints[i].adapter, None, true);
      assert Grows(m, m1);
      ShrinksApart(m, m1);
      StartFromEffect(m1, i + 1);
      GrowsTwice(m, m1, StartFrom(m1, i + 1).0);
    }
  }

  lemma {:induction false} ConfigureFromEffect(m: Multi, devices: seq<Option<Opened>>, i: nat)
    requires Sound(m) && i <= |m.endpoints| == |devices|
    ensures var m' := ConfigureFrom(m, devices, i).0; Sound(m') && Shrinks(m, m')
    decreases |m.endpoints| - i
  {
    if i < |m.endpoints| {
      OtherOperationsCovered(m.endpoints[i].adapter, devices[i], true);
      var m1 := SetAdapter(m, i, ConfigureStream(m.endpoints[i].adapter, devices[i]));
      assert Shrinks(m, m1);
      ShrinksApart(m, m1);
      CloseAllEffect(m1);
      if m1.endpoints[i].adapter.fd >= 0 {
        ConfigureFromEffect(m1, devices, i + 1);
        ShrinksTwice(m, m1, ConfigureFrom(m1, devices, i + 1).0);
      } else {
        ShrinksTwice(m, m1, CloseAll(m1));
      }
    }
  }

  lemma ShrinksTwice(a: Multi, b: Multi, c: Multi)
    requires Shrinks(a, b) && Shrinks(b, c)
    ensures Shrinks(a, c)
  {
    forall e, i | QueuedAt(c, e, i) ensures SlotKept(c, a, e, i) {
      assert SlotKept(c, b, e, i);
    }
  }

  predicate CanStartContinuous(m: Multi, streamType: StreamType) {
    var e := EndpointFor(m.endpoints, streamType, 0);
    e.Some? && m.endpoints[e.value].adapter.streaming && m.endpoints[e.value].adapter.fd >= 0
  }

  /** Starting a continuous stream queues its buffers at the endpoint of the stream type; if one is
      refused, the tokens of those already queued are lost. */
  lemma StartContinuousSound(m: Multi, streamType: StreamType, targets: seq<Target>, ios: seq<Io>)
    requires Sound(m) && |ios| == |targets|
    ensures var (m', tokens) := StartContinuous(m, streamType, targets, ios);
            && Sound(m') && m.nextToken <= m'.nextToken
            && (forall e, i :: QueuedAt(m', e, i) ==> m.nextToken <= TokenAt(m', e, i) || SlotKept(m', m, e, i))
            && (tokens.Some? ==> Continuous(m', streamType))
  {
    GrowsSame(m);
    if CanStartContinuous(m, streamType) {
      var e := EndpointFor(m.endpoints, streamType, 0).value;
      var m0 := SetContinuous(m, e, true);
      SetContinuousEffect(m, e, true);
      var (m1, tokens) := QueueAll(m0, e, targets, ios, 0);
      QueueAllGrows(m0, e, targets, ios, 0);
      SetContinuousEffect(m1, e, false);
      hide QueueAll, Sound, HoldsAt;
      forall f, i | QueuedAt(m1, f, i) ensures m.nextToken <= TokenAt(m1, f, i) || SlotKept(m1, m, f, i) {
        assert m0.nextToken <= TokenAt(m1, f, i) || SlotKept(m1, m0, f, i);
      }
      SameEndpointFor(m.endpoints, m1.endpoints, streamType, 0);
    }
  }

  lemma StartContinuousTokens(m: Multi, streamType: StreamType, targets: seq<Target>, ios: seq<Io>)
    requires Sound(m) && |ios| == |targets|
    ensures var (m', tokens) := StartContinuous(m, streamType, targets, ios);
            tokens.Some? ==> PreviewTokens(m.nextToken, m', targets, tokens.value)
  {
    if CanStartContinuous(m, streamType) {
      var e := EndpointFor(m.endpoints, streamType, 0).value;
      SetContinuousEffect(m, e, true);
      QueueAllGrows(SetContinuous(m, e, true), e, targets, ios, 0);
      assert targets[0..] == targets;
      hide QueueAll, Sound, EndpointFor, PreviewTokens, Grows;
    }
  }

  lemma SetContinuousEffect(m: Multi, e: nat, on: bool)
    requires e < |m.endpoints| && Sound(m)
    ensures Sound(SetContinuous(m, e, on)) && Shrinks(m, SetContinuous(m, e, on))
  {
    assert Covered(m.endpoints[e].adapter.(continuous := on)) by {
      forall i | 0 <= i < |m.endpoints[e].adapter.slots|
        ensures SlotCovered(m.endpoints[e].adapter.(continuous := on), i)
      {
        assert SlotCovered(m.endpoints[e].adapter, i);
      }
    }
    ShrinksApart(m, SetContinuous(m, e, on));
  }

  /** return_stream_buffer answers with token 0 exactly when the endpoint of the lease's stream type
      exists and is not streaming continuously. */
  lemma ReturnAnswersZeroExactlyWhen(m: Multi, streamType: StreamType, bufferFd: int, bufferSize: nat, io: Io)
    requires TokensApart(m)
    ensures ReturnBuffer(m, streamType, bufferFd, bufferSize, io).1 == Some(0)
            <==> EndpointFor(m.endpoints, streamType, 0).Some? && !Continuous(m, streamType)
  {
  }

  /** A lease handed back is queued under a new token, or refused, or answered with token 0. */
  lemma ReturnBufferEffect(m: Multi, streamType: StreamType, bufferFd: int, bufferSize: nat, io: Io)
    requires Sound(m)
    ensures var (m', token) := ReturnBuffer(m, streamType, bufferFd, bufferSize, io);
            && Sound(m') && Grows(m, m')
            && (token.Some? && token.value != 0 ==>
                  && token.value == m.nextToken < m'.nextToken
                  && exists e :: HoldsAt(m', e, token.value, bufferFd))
  {
    GrowsSame(m);
    var e := EndpointFor(m.endpoints, streamType, 0);
    if e.Some? {
      hide Sound, HoldsAt, Grows, QueueAt;
      QueueAtGrows(m, e.value, bufferFd, bufferSize, io);
    }
  }

  /* ---------------------------------- while STREAMON and STREAMOFF succeed ---------------------------------- */

  predicate StreamOnsOk(ios: seq<Io>) {
    forall k :: 0 <= k < |ios| ==> ios[k].streamOnOk
  }

  lemma SetAdapterAgrees(m: Multi, e: nat, a: Adapter)
    requires e < |m.endpoints| && AllAgree(m) && Agrees(a)
    ensures AllAgree(SetAdapter(m, e, a))
  {
    hide Agrees;
  }

  lemma SetContinuousAgrees(m: Multi, e: nat, on: bool)
    requires e < |m.endpoints| && AllAgree(m)
    ensures AllAgree(SetContinuous(m, e, on))
  {
    var a := m.endpoints[e].adapter;
    forall i | 0 <= i < |a.slots| ensures SlotAgrees(a.(continuous := on), i) {
      assert SlotAgrees(a, i);
    }
    SetAdapterAgrees(m, e, a.(continuous := on));
  }

  lemma {:induction false} SubmitTargetsAgrees(m: Multi, targets: seq<Target>, ios: seq<Io>, i: nat)
    requires AllAgree(m) && |ios| == |targets| && StreamOnsOk(ios)
    ensures AllAgree(SubmitTargets(m, targets, ios, i).0)
    decreases |targets| - i
  {
    hide AllAgree, QueueAt;
    if i < |targets| && Route(m, targets[i]).Some? {
      QueueAtAgrees(m, Route(m, targets[i]).value, targets[i].bufferFd, targets[i].bufferSize, ios[i]);
      SubmitTargetsAgrees(SubmitCapture(m, targets[i], ios[i]).0, targets, ios, i + 1);
    }
  }

  lemma {:induction false} QueueAllAgrees(m: Multi, e: nat, targets: seq<Target>, ios: seq<Io>, i: nat)
    requires AllAgree(m) && |ios| == |targets| && e < |m.endpoints| && StreamOnsOk(ios)
    ensures AllAgree(QueueAll(m, e, targets, ios, i).0)
    decreases |targets| - i
  {
    hide AllAgree, QueueAll;
    QueueAllStep(m, e, targets, ios, i);
    if i < |targets| {
      QueueAtAgrees(m, e, targets[i].bufferFd, targets[i].bufferSize, ios[i]);
      QueueAllAgrees(QueueAt(m, e, targets[i].bufferFd, targets[i].bufferSize, ios[i]).0, e, targets, ios, i + 1);
    }
  }

  lemma StartContinuousAgrees(m: Multi, streamType: StreamType, targets: seq<Target>, ios: seq<Io>)
    requires AllAgree(m) && |ios| == |targets| && StreamOnsOk(ios)
    ensures AllAgree(StartContinuous(m, streamType, targets, ios).0)
  {
    hide AllAgree, QueueAll;
    if CanStartContinuous(m, streamType) {
      var e := EndpointFor(m.endpoints, streamType, 0).value;
      SetContinuousAgrees(m, e, true);
      QueueAllAgrees(SetContinuous(m, e, true), e, targets, ios, 0);
      SetContinuousAgrees(QueueAll(SetContinuous(m, e, true), e, targets, ios, 0).0, e, false);
    }
  }

  lemma {:induction false} StartFromAgrees(m: Multi, i: nat)
    requires AllAgree(m) && i <= |m.endpoints|
    ensures AllAgree(StartFrom(m, i).0)
    decreases |m.endpoints| - i
  {
    if i < |m.endpoints| {
      OtherOperationsAgree(m.endpoints[i].adapter, None, 0, None);
      SetAdapterAgrees(m, i, StartStreaming(m.endpoints[i].adapter));
      hide AllAgree;
      StartFromAgrees(SetAdapter(m, i, StartStreaming(m.endpoints[i].adapter)), i + 1);
    }
  }

  lemma CloseAllAgrees(m: Multi)
    ensures AllAgree(CloseAll(m))
  {
  }

  lemma {:induction false} ConfigureFromAgrees(m: Multi, devices: seq<Option<Opened>>, i: nat)
    requires AllAgree(m) && i <= |m.endpoints| == |devices|
    ensures AllAgree(ConfigureFrom(m, devices, i).0)
    decreases |m.endpoints| - i
  {
    if i < |m.endpoints| {
      OtherOperationsAgree(m.endpoints[i].adapter, devices[i], 0, None);
      var m1 := SetAdapter(m, i, ConfigureStream(m.endpoints[i].adapter, devices[i]));
      SetAdapterAgrees(m, i, ConfigureStream(m.endpoints[i].adapter, devices[i]));
      hide AllAgree;
      CloseAllAgrees(m1);
      ConfigureFromAgrees(m1, devices, i + 1);
    }
  }

  lemma StopAllAgrees(m: Multi, streamOffs: seq<bool>)
    requires AllAgree(m) && |streamOffs| == |m.endpoints|
    requires forall e :: 0 <= e < |streamOffs| ==> streamOffs[e]
    ensures AllAgree(StopAll(m, streamOffs))
  {
    hide Agrees;
    forall e | 0 <= e < |m.endpoints| ensures Agrees(StopStreaming(m.endpoints[e].adapter, streamOffs[e])) {
      StopAgreesExactlyWhen(m.endpoints[e].adapter, streamOffs[e]);
    }
  }

  lemma DequeueAtAgrees(m: Multi, readyFd: int, choice: Option<nat>)
    requires AllAgree(m)
    ensures AllAgree(DequeueAt(m, readyFd, choice).0)
  {
    var e := EndpointForFd(m.endpoints, readyFd, 0);
    if e.Some? {
      OtherOperationsAgree(m.endpoints[e.value].adapter, None, readyFd, choice);
      SetAdapterAgrees(m, e.value, Dequeue(m.endpoints[e.value].adapter, readyFd, choice).0);
    }
  }

  lemma ReturnBufferAgrees(m: Multi, streamType: StreamType, bufferFd: int, bufferSize: nat, io: Io)
    requires AllAgree(m) && io.streamOnOk
    ensures AllAgree(ReturnBuffer(m, streamType, bufferFd, bufferSize, io).0)
  {
    var e := EndpointFor(m.endpoints, streamType, 0);
    if e.Some? {
      QueueAtAgrees(m, e.value, bufferFd, bufferSize, io);
    }
  }
}
