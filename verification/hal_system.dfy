/** A session together with the multi-endpoint V4L2 adapter that it drives, and their runs. */
module HalSystem {
  import opened Wrappers
  import opened CameraTypes
  import opened InFlightTracker
  import opened CameraSession
  import opened SessionHistory
  import opened SessionLaws
  import opened SessionPreviews
  import V4L2 = V4L2Driver
  import opened V4L2Router

  /** held: for each token that a completion has carried, the dma-buf that the kernel held for the
      index DQBUF handed back. filler: for each output completed, the token that completed it. */
  datatype System = System(world: World, multi: Multi, held: map<nat, int>, filler: map<Context, nat>)

  /** The configuration of a session, the stream type of its continuous preview, and the stream types
      of the endpoints of its driver. A preview buffer carries a stream type of its own. */
  datatype Setup = Setup(config: Config, previewType: StreamType, streams: seq<StreamType>)

  /** One critical section of the session together with the driver calls made inside it. */
  datatype SystemEvent =
    | SysConfigure(devices: seq<Option<V4L2.Opened>>, registered: bool)
    | SysStart(ios: seq<V4L2.Io>)
    | SysSubmit(request: Request, ios: seq<V4L2.Io>)
    | SysDequeue(readyFd: int, choice: Option<nat>)
    | SysResolve(token: nat, timestamp: int, fences: seq<int>)
    | SysReturn(callback: nat, io: V4L2.Io)
    | SysFlush(order: seq<nat>, streamOffs: seq<bool>)
    | SysClose(order: seq<nat>, streamOffs: seq<bool>)

  /** What the environment may do: client frame numbers lie below the streaming ones, and a completion
      is resolved only after it was dequeued. System calls and fences may answer anything. */
  predicate SysAdmissible(y: System, u: Setup, e: SystemEvent) {
    match e
    case SysConfigure(devices, _) => |devices| == |y.multi.endpoints|
    case SysStart(ios) => |ios| == |u.config.previewBuffers|
    case SysSubmit(request, ios) =>
      request.frameNumber < FIRST_STREAMING_FRAME && |ios| == |RequestOutputs(request)|
    case SysDequeue(_, _) => true
    case SysResolve(token, _, fences) => token in y.held && |fences| >= |u.config.processors|
    case SysReturn(_, _) => true
    case SysFlush(order, streamOffs) => VisitsRows(y, order) && |streamOffs| == |y.multi.endpoints|
    case SysClose(order, streamOffs) => VisitsRows(y, order) && |streamOffs| == |y.multi.endpoints|
  }

  predicate VisitsRows(y: System, order: seq<nat>) {
    multiset(order) == multiset(y.world.session.tracker.requests.Keys)
  }

  function NewSystem(u: Setup): System {
    System(NewWorld(),
           Multi(seq(|u.streams|, i requires 0 <= i < |u.streams| => Endpoint(u.streams[i], V4L2.CLOSED)), 1),
           map[], map[])
  }

  function ConfigureAll(m: Multi, devices: seq<Option<V4L2.Opened>>): (Multi, bool)
    requires |devices| == |m.endpoints|
  {
    if m.endpoints == [] then (m, false) else ConfigureFrom(m, devices, 0)
  }

  /** The driver calls of start_streaming: what they leave, whether the endpoints started, and the
      tokens of the preview buffers. */
  function StartDriver(m: Multi, u: Setup, ios: seq<V4L2.Io>): (Multi, bool, Option<seq<nat>>)
    requires |ios| == |u.config.previewBuffers|
  {
    var (m', started) := StartFrom(m, 0);
    if !started || !u.config.continuousPreview || u.config.previewBuffers == [] then (m', started, None)
    else
      var (m'', tokens) := StartContinuous(m', u.previewType, u.config.previewBuffers, ios);
      (m'', true, tokens)
  }

  function Callback(w: World, callback: nat): Option<StreamingOutput> {
    if callback in w.out then Some(w.out[callback])
    else if callback in w.stale then Some(w.stale[callback])
    else None
  }

  /** The driver call of a returning callback. */
  function ReturnDriver(y: System, callback: nat, io: V4L2.Io): (Multi, Option<nat>) {
    var output := Callback(y.world, callback);
    if !y.world.session.state.Streaming? || output.None? then (y.multi, None)
    else ReturnBuffer(y.multi, output.value.streamType, output.value.target.bufferFd, output.value.target.bufferSize, io)
  }

  function SubmitDriver(y: System, u: Setup, request: Request, ios: seq<V4L2.Io>): (Multi, bool, seq<Option<nat>>)
    requires |ios| == |RequestOutputs(request)|
  {
    var targets := RequestOutputs(request);
    var preflight := CanSubmitAll(y.multi, targets);
    if !Begins(y.world.session, u.config, request, preflight) then (y.multi, preflight, [])
    else
      var (m, responses) := SubmitTargets(y.multi, targets, ios, 0);
      (m, preflight, responses)
  }

  /** The step of the session that a system event amounts to; dequeueing is none. */
  function SessionEvent(y: System, u: Setup, e: SystemEvent): Option<Event>
    requires SysAdmissible(y, u, e)
  {
    match e
    case SysConfigure(devices, registered) => Some(DoConfigure(ConfigureAll(y.multi, devices).1, registered))
    case SysStart(ios) =>
      if !y.world.session.state.Configured? then Some(DoStart(false, None))
      else
        var (_, started, tokens) := StartDriver(y.multi, u, ios);
        Some(DoStart(started, tokens))
    case SysSubmit(request, ios) =>
      var (_, preflight, responses) := SubmitDriver(y, u, request, ios);
      Some(DoSubmit(request, preflight, responses))
    case SysDequeue(_, _) => None
    case SysResolve(token, timestamp, fences) => Some(DoResolve(token, timestamp, fences))
    case SysReturn(callback, io) => Some(DoReturn(callback, ReturnDriver(y, callback, io).1))
    case SysFlush(order, _) => Some(DoFlush(order))
    case SysClose(order, _) => Some(DoClose(order))
  }

  /** The session takes its step when the driver's answers are admissible, which StepIsASessionStep
      shows they always are. */
  function StepWorld(w: World, u: Setup, step: Event): World {
    if Admissible(w, u.config, step) then WorldNext(w, u.config, step) else w
  }

  function NextConfigure(y: System, u: Setup, devices: seq<Option<V4L2.Opened>>, registered: bool): System
    requires |devices| == |y.multi.endpoints|
  {
    var (m, ok) := ConfigureAll(y.multi, devices);
    y.(multi := if u.config.hasDriver && y.world.session.state.Created? then m else y.multi,
       world := StepWorld(y.world, u, DoConfigure(ok, registered)))
  }

  function NextStart(y: System, u: Setup, ios: seq<V4L2.Io>): System
    requires |ios| == |u.config.previewBuffers|
  {
    if !y.world.session.state.Configured? then y.(world := StepWorld(y.world, u, DoStart(false, None)))
    else
      var (m, started, tokens) := StartDriver(y.multi, u, ios);
      y.(multi := m, world := StepWorld(y.world, u, DoStart(started, tokens)))
  }

  function NextSubmit(y: System, u: Setup, request: Request, ios: seq<V4L2.Io>): System
    requires |ios| == |RequestOutputs(request)|
  {
    var (m, preflight, responses) := SubmitDriver(y, u, request, ios);
    y.(multi := m, world := StepWorld(y.world, u, DoSubmit(request, preflight, responses)))
  }

  function NextDequeue(y: System, readyFd: int, choice: Option<nat>): System {
    if !y.world.session.state.Streaming? then y
    else
      var (m, token) := DequeueAt(y.multi, readyFd, choice);
      y.(multi := m,
         held := if token.Some? then y.held[token.value := KernelFd(y.multi, readyFd, choice)] else y.held)
  }

  function NextResolve(y: System, u: Setup, token: nat, timestamp: int, fences: seq<int>): System {
    var tokens := y.world.session.tracker.tokens;
    y.(world := StepWorld(y.world, u, DoResolve(token, timestamp, fences)),
       filler := if token in tokens then y.filler[tokens[token] := token] else y.filler)
  }

  function NextReturn(y: System, u: Setup, callback: nat, io: V4L2.Io): System {
    var (m, answer) := ReturnDriver(y, callback, io);
    y.(multi := m, world := StepWorld(y.world, u, DoReturn(callback, answer)))
  }

  function NextFlush(y: System, u: Setup, order: seq<nat>, streamOffs: seq<bool>): System
    requires |streamOffs| == |y.multi.endpoints|
  {
    y.(multi := if CanFlush(y.world.session) then StopAll(y.multi, streamOffs) else y.multi,
       world := StepWorld(y.world, u, DoFlush(order)))
  }

  function NextClose(y: System, u: Setup, order: seq<nat>, streamOffs: seq<bool>): System
    requires |streamOffs| == |y.multi.endpoints|
  {
    y.(multi := if y.world.session.state.Stopped? then y.multi else CloseAll(StopAll(y.multi, streamOffs)),
       world := StepWorld(y.world, u, DoClose(order)))
  }

  function SysNext(y: System, u: Setup, e: SystemEvent): System
    requires SysAdmissible(y, u, e)
  {
    match e
    case SysConfigure(devices, registered) => NextConfigure(y, u, devices, registered)
    case SysStart(ios) => NextStart(y, u, ios)
    case SysSubmit(request, ios) => NextSubmit(y, u, request, ios)
    case SysDequeue(readyFd, choice) => NextDequeue(y, readyFd, choice)
    case SysResolve(token, timestamp, fences) => NextResolve(y, u, token, timestamp, fences)
    case SysReturn(callback, io) => NextReturn(y, u, callback, io)
    case SysFlush(order, streamOffs) => NextFlush(y, u, order, streamOffs)
    case SysClose(order, streamOffs) => NextClose(y, u, order, streamOffs)
  }

  predicate SysAdmissibleRun(y: System, u: Setup, events: seq<SystemEvent>)
    decreases |events|
  {
    events == [] || (SysAdmissible(y, u, events[0]) && SysAdmissibleRun(SysNext(y, u, events[0]), u, events[1..]))
  }

  function RunSystem(y: System, u: Setup, events: seq<SystemEvent>): System
    requires SysAdmissibleRun(y, u, events)
    decreases |events|
  {
    if events == [] then y else RunSystem(SysNext(y, u, events[0]), u, events[1..])
  }

  /* ---------------------------------- invariant ---------------------------------- */

  /** Every token the session has seen was drawn from the adapter's counter, and a token that a
      completion has carried is in no slot. */
  ghost predicate TokensLinked(y: System) {
    && (forall t :: t in y.world.used ==> t < y.multi.nextToken)
    && (forall t :: t in y.held ==> t < y.multi.nextToken)
    && (forall e, i :: QueuedAt(y.multi, e, i) ==> TokenAt(y.multi, e, i) !in y.held)
  }

  /** The token stands for this dma-buf: it is queued under the token, or the kernel held it for the
      index whose completion carried the token. */
  ghost predicate Backed(y: System, token: nat, bufferFd: int) {
    (token in y.held && y.held[token] == bufferFd) || exists e :: HoldsAt(y.multi, e, token, bufferFd)
  }

  /** The dma-buf of the output or streaming output that a context stands for. */
  function ContextFd(t: Tracker, c: Context): int {
    if c.outputIndex < 0 then
      if c.frameNumber in t.streaming then t.streaming[c.frameNumber].target.bufferFd else -1
    else if c.frameNumber in t.requests && c.outputIndex < |t.requests[c.frameNumber].outputs| then
      t.requests[c.frameNumber].outputs[c.outputIndex].target.bufferFd
    else -1
  }

  ghost predicate TokensBacked(y: System) {
    var t := y.world.session.tracker;
    forall k :: k in t.tokens ==> Backed(y, k, ContextFd(t, t.tokens[k]))
  }

  predicate CompletedIn(t: Tracker, c: Context) {
    && c.frameNumber in t.requests
    && 0 <= c.outputIndex < |t.requests[c.frameNumber].outputs|
    && t.requests[c.frameNumber].outputs[c.outputIndex].completed
  }

  /** Every completed output of a row in flight was completed by a token of its own, whose completion
      came from an index for which the kernel held the output's dma-buf. */
  ghost predicate FillersOk(y: System) {
    var t := y.world.session.tracker;
    && (forall c :: CompletedIn(t, c) ==>
          && c in y.filler && y.filler[c] in y.held && y.held[y.filler[c]] == ContextFd(t, c)
          && y.filler[c] !in t.tokens)
    && (forall c, d :: CompletedIn(t, c) && CompletedIn(t, d) && y.filler[c] == y.filler[d] ==> c == d)
  }

  /** The outputs of a row stand, in order, for the targets of the request it was inserted for. */
  predicate RowsFromRequests(t: Tracker) {
    forall f :: f in t.requests ==> FromRequest(t.requests[f])
  }

  predicate FromRequest(row: Row) {
    && |row.outputs| == |RequestOutputs(row.request)|
    && forall i :: 0 <= i < |row.outputs| ==> row.outputs[i].target == RequestOutputs(row.request)[i]
  }

  /** No preview buffer is refused for its descriptor. */
  predicate UsableBuffers(u: Setup) {
    forall i :: 0 <= i < |u.config.previewBuffers| ==> u.config.previewBuffers[i].bufferFd >= 0
  }

  /** The output stands for one of the configured preview buffers, which all have a descriptor. */
  predicate PreviewOutput(u: Setup, output: StreamingOutput) {
    && u.config.continuousPreview && UsableBuffers(u)
    && output.target in u.config.previewBuffers && output.streamType == output.target.streamType
  }

  /** The endpoints keep their stream types, and no endpoint but that of the preview stream streams
      continuously. */
  predicate EndpointsOk(m: Multi, u: Setup) {
    && |m.endpoints| == |u.streams|
    && (forall e :: 0 <= e < |m.endpoints| ==> m.endpoints[e].streamType == u.streams[e])
    && (forall e :: 0 <= e < |m.endpoints| && m.endpoints[e].adapter.continuous ==>
          EndpointFor(m.endpoints, u.previewType, 0) == Some(e))
  }

  /** Every streaming output, in the table or at a callback, is a configured preview buffer, and while
      the session streams with a preview its endpoint streams continuously. */
  ghost predicate PreviewLinked(y: System, u: Setup) {
    && (forall f :: f in y.world.session.tracker.streaming ==> PreviewOutput(u, y.world.session.tracker.streaming[f]))
    && (forall k :: k in y.world.out ==> PreviewOutput(u, y.world.out[k]))
    && (forall k :: k in y.world.stale ==> PreviewOutput(u, y.world.stale[k]))
    && EndpointsOk(y.multi, u)
    && (y.world.session.state.Streaming? && u.config.continuousPreview ==> Continuous(y.multi, u.previewType))
  }

  ghost predicate SystemInv(y: System, u: Setup) {
    && WorldInv(y.world, u.config) && EpochOver(y.world) && PreviewsOk(y.world)
    && Sound(y.multi)
    && TokensLinked(y) && TokensBacked(y) && FillersOk(y)
    && RowsFromRequests(y.world.session.tracker)
    && PreviewLinked(y, u)
  }

  lemma NewSystemInv(u: Setup)
    ensures SystemInv(NewSystem(u), u)
  {
    NewWorldInv(u.config);
    NewPreviewsOk();
  }
}
