/** Whole runs of a session: what its critical sections produce, counted over any interleaving. */
module SessionHistory {
  import opened Wrappers
  import opened CameraTypes
  import opened InFlightTracker
  import opened CameraSession
  import opened SessionConsistency

  /** A session together with what has happened to it.
      used: every token the driver has answered with. log: every result produced, in order.
      started: the frames of the rows inserted. issued: the release fences that left the processors.
      out: the streaming outputs whose callback runs in the current streaming epoch; stale: those of
      earlier epochs. configured, refused, adopted: for this epoch, the preview targets it began
      with, those the driver refused to take back, and those of stale leases it took back.
      registered: the streaming frame numbers registered so far, in order. orphans: those registered
      in this epoch without a token. */
  datatype World = World(
    session: Session,
    used: set<nat>,
    log: seq<Outcome>,
    started: multiset<nat>,
    issued: multiset<int>,
    out: map<nat, StreamingOutput>,
    stale: map<nat, StreamingOutput>,
    callbacks: nat,
    configured: multiset<Target>,
    refused: multiset<Target>,
    adopted: multiset<Target>,
    registered: seq<nat>,
    orphans: set<nat>)

  /** One critical section, with the answers of the driver, the processors and the callbacks. */
  datatype Event =
    | DoConfigure(driverConfigured: bool, registered: bool)
    | DoStart(driverStarted: bool, tokens: Option<seq<nat>>)
    | DoSubmit(request: Request, preflight: bool, responses: seq<Option<nat>>)
    | DoResolve(token: nat, timestamp: int, fences: seq<int>)
    | DoReturn(callback: nat, answer: Option<nat>)
    | DoFlush(order: seq<nat>)
    | DoClose(order: seq<nat>)

  function NewWorld(): World {
    World(NEW_SESSION, {}, [], multiset{}, multiset{}, map[], map[], 0, multiset{}, multiset{}, multiset{}, [], {})
  }

  function Answers(responses: seq<Option<nat>>): set<nat> {
    set r | r in responses && r.Some? :: r.value
  }

  function FenceBag(fence: int): multiset<int> {
    if fence >= 0 then multiset{fence} else multiset{}
  }

  /** What the environment may answer: fresh tokens, for a returned lease also token 0, client frame
      numbers below the streaming ones, one fence for each processor, and flush orders that visit each row once. */
  predicate Admissible(w: World, c: Config, e: Event) {
    match e
    case DoConfigure(_, _) => true
    case DoStart(_, tokens) => tokens.Some? ==> FreshTokens(tokens.value, w.used)
    case DoSubmit(request, _, responses) =>
      request.frameNumber < FIRST_STREAMING_FRAME && FreshResponses(responses, w.used)
    case DoResolve(_, _, fences) => |fences| >= |c.processors|
    case DoReturn(_, answer) => answer.Some? ==> answer.value == 0 || answer.value !in w.used
    case DoFlush(order) => multiset(order) == multiset(w.session.tracker.requests.Keys)
    case DoClose(order) => multiset(order) == multiset(w.session.tracker.requests.Keys)
  }

  lemma OrderInRequests(order: seq<nat>, keys: set<nat>)
    requires multiset(order) == multiset(keys)
    ensures forall i :: 0 <= i < |order| ==> order[i] in keys
  {
    forall i | 0 <= i < |order| ensures order[i] in keys {
      assert order[i] in multiset(order);
    }
  }

  /** Whether the row of the request is inserted. */
  predicate Begins(s: Session, c: Config, request: Request, preflight: bool) {
    !Rejects(s, c) && preflight && request.frameNumber !in s.tracker.requests
  }

  function AfterStart(w: World, c: Config, driverStarted: bool, tokens: Option<seq<nat>>): World {
    var s := StartStreaming(w.session, c, driverStarted, tokens);
    var w' := w.(session := s, used := w.used + if tokens.Some? then set t | t in tokens.value else {});
    if w.session.state.Configured? && s.state.Streaming? then
      w'.(configured := if c.continuousPreview then multiset(c.previewBuffers) else multiset{},
          registered := w.registered + if c.continuousPreview then NextFrames(w.session, |c.previewBuffers|) else [])
    else w'
  }

  /** The next streaming frame numbers. */
  function NextFrames(s: Session, count: nat): (frames: seq<nat>)
    ensures |frames| == count
  {
    if count == 0 then [] else NextFrames(s, count - 1) + [s.nextStreamingFrame + count - 1]
  }

  function AfterSubmit(w: World, c: Config, request: Request, preflight: bool, responses: seq<Option<nat>>): World {
    var (s, outcome) := Submit(w.session, c, request, preflight, responses);
    w.(session := s,
       used := w.used + Answers(responses),
       log := if outcome.Some? then w.log + [outcome.value] else w.log,
       started := if Begins(w.session, c, request, preflight) then w.started + multiset{request.frameNumber}
                  else w.started)
  }

  function AfterResolve(w: World, c: Config, token: nat, timestamp: int, fences: seq<int>): World
    requires |fences| >= |c.processors|
  {
    var (s, resolution) := Resolve(w.session, c, token, timestamp, fences);
    var w' := w.(session := s,
                 issued := if Take(w.session.tracker, token).1.Some?
                           then w.issued + FenceBag(ReleaseFence(c.processors, fences)) else w.issued);
    match resolution
    case Nothing => w'
    case RowDone(outcome) => w'.(log := w.log + [outcome])
    case PreviewDone(outcome, output) =>
      w'.(log := w.log + [outcome], out := w.out[w.callbacks := output], callbacks := w.callbacks + 1)
  }

  /** The driver takes the buffer of a returned lease back, with a token or with token 0. */
  predicate TakesBack(s: Session, c: Config, answer: Option<nat>) {
    c.hasDriver && s.state.Streaming? && answer.Some?
  }

  function Returned(w: World, c: Config, output: StreamingOutput, answer: Option<nat>): World {
    w.(session := ReturnLease(w.session, c, output, answer),
       used := w.used + (if answer.Some? then {answer.value} else {}),
       registered := w.registered + (if TakesBack(w.session, c, answer) then [w.session.nextStreamingFrame] else []),
       orphans := w.orphans + NewOrphan(w.session, c, answer))
  }

  function AfterReturn(w: World, c: Config, callback: nat, answer: Option<nat>): World {
    if callback in w.out then
      var output := w.out[callback];
      Returned(w, c, output, answer).(
        out := w.out - {callback},
        refused := if answer.None? then w.refused + multiset{output.target} else w.refused)
    else if callback in w.stale then
      var output := w.stale[callback];
      Returned(w, c, output, answer).(
        stale := w.stale - {callback},
        adopted := if w.session.state.Streaming? && answer.Some? then w.adopted + multiset{output.target}
                   else w.adopted)
    else w
  }

  /** The epoch ends: its callbacks are stale from now on. */
  function EndEpoch(w: World, s: Session, order: seq<nat>): World
    requires forall i :: 0 <= i < |order| ==> order[i] in w.session.tracker.requests
  {
    w.(session := s, log := w.log + FlushOutcomes(w.session.tracker, order),
       out := map[], stale := w.stale + w.out,
       configured := multiset{}, refused := multiset{}, adopted := multiset{}, orphans := {})
  }

  function WorldNext(w: World, c: Config, e: Event): World
    requires Admissible(w, c, e)
  {
    match e
    case DoConfigure(driverConfigured, registered) =>
      w.(session := Configure(w.session, c, driverConfigured, registered))
    case DoStart(driverStarted, tokens) => AfterStart(w, c, driverStarted, tokens)
    case DoSubmit(request, preflight, responses) => AfterSubmit(w, c, request, preflight, responses)
    case DoResolve(token, timestamp, fences) => AfterResolve(w, c, token, timestamp, fences)
    case DoReturn(callback, answer) => AfterReturn(w, c, callback, answer)
    case DoFlush(order) =>
      OrderInRequests(order, w.session.tracker.requests.Keys);
      if CanFlush(w.session) then EndEpoch(w, Flush(w.session, order), order) else w
    case DoClose(order) =>
      OrderInRequests(order, w.session.tracker.requests.Keys);
      if w.session.state.Stopped? then w else EndEpoch(w, Close(w.session, order), order)
  }

  /* ---------------------------------- counting ---------------------------------- */

  function CountOk(log: seq<Outcome>): nat {
    if log == [] then 0
    else CountOk(log[..|log| - 1]) + (if log[|log| - 1].result.status.Ok? then 1 else 0)
  }

  /** The frames of the results that stand for a row leaving the table. */
  function FinishedFrames(log: seq<Outcome>): multiset<nat> {
    if log == [] then multiset{}
    else
      var last := log[|log| - 1];
      FinishedFrames(log[..|log| - 1])
      + if last.origin.FromRow? then multiset{last.result.frameNumber} else multiset{}
  }

  function OutputFences(outputs: seq<Output>): multiset<int> {
    if outputs == [] then multiset{}
    else OutputFences(outputs[..|outputs| - 1]) + FenceBag(outputs[|outputs| - 1].releaseFence)
  }

  function RowFences(row: Row): multiset<int> {
    OutputFences(row.outputs)
  }

  function BufferFences(buffers: seq<CompletedBuffer>): multiset<int> {
    if buffers == [] then multiset{}
    else BufferFences(buffers[..|buffers| - 1]) + FenceBag(buffers[|buffers| - 1].releaseFence)
  }

  function LogFences(log: seq<Outcome>): multiset<int> {
    if log == [] then multiset{}
    else LogFences(log[..|log| - 1]) + BufferFences(log[|log| - 1].result.buffers)
  }

  function StreamTarget(output: StreamingOutput): multiset<Target> {
    multiset{output.target}
  }

  lemma LogAppend(log: seq<Outcome>, o: Outcome)
    ensures CountOk(log + [o]) == CountOk(log) + if o.result.status.Ok? then 1 else 0
    ensures FinishedFrames(log + [o])
            == FinishedFrames(log) + if o.origin.FromRow? then multiset{o.result.frameNumber} else multiset{}
    ensures LogFences(log + [o]) == LogFences(log) + BufferFences(o.result.buffers)
  {
    assert (log + [o])[..|log|] == log;
  }

  /** A result carries exactly the fences stored in the outputs it reports. */
  lemma {:induction false} BuffersCarryFences(outputs: seq<Output>, status: CaptureStatus)
    ensures BufferFences(CompletedBuffers(outputs, status)) == OutputFences(outputs)
  {
    if outputs != [] {
      var front := outputs[..|outputs| - 1];
      assert CompletedBuffers(outputs, status)[..|front|] == CompletedBuffers(front, status);
      BuffersCarryFences(front, status);
    }
  }

  lemma {:induction false} NoFences(outputs: seq<Output>)
    requires forall i :: 0 <= i < |outputs| ==> outputs[i].releaseFence < 0
    ensures OutputFences(outputs) == multiset{}
  {
    if outputs != [] {
      NoFences(outputs[..|outputs| - 1]);
    }
  }

  lemma AddedInFront(whole: multiset<int>, whole': multiset<int>, front: multiset<int>, front': multiset<int>,
                     last: multiset<int>, added: multiset<int>)
    requires whole == front + last && whole' == front' + last && front' == front + added
    ensures whole' == whole + added
  {
  }

  /** The fences of the outputs are those of the front and that of the last one. */
  lemma LastFence(outputs: seq<Output>, front: seq<Output>, last: Output)
    requires outputs == front + [last]
    ensures OutputFences(outputs) == OutputFences(front) + FenceBag(last.releaseFence)
  {
    assert outputs[..|front|] == front;
  }

  /** Completing an output that held no fence stores exactly the new one. */
  lemma {:induction false} StoreFence(outputs: seq<Output>, i: nat, output: Output)
    requires i < |outputs| && outputs[i].releaseFence < 0
    ensures OutputFences(outputs[i := output]) == OutputFences(outputs) + FenceBag(output.releaseFence)
    decreases |outputs|
  {
    hide OutputFences;
    var n := |outputs| - 1;
    var front, last := outputs[..n], outputs[n];
    LastFence(outputs, front, last);
    if i < n {
      StoreFence(front, i, output);
      assert outputs[i := output] == front[i := output] + [last];
      LastFence(outputs[i := output], front[i := output], last);
      hide FenceBag;
      AddedInFront(OutputFences(outputs), OutputFences(outputs[i := output]), OutputFences(front),
                   OutputFences(front[i := output]), FenceBag(last.releaseFence), FenceBag(output.releaseFence));
    } else {
      LastFence(outputs[i := output], front, output);
    }
  }
}
