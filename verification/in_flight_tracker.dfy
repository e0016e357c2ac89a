/** The in-flight tables: active requests, streaming outputs, and the driver tokens bound to them. */
module InFlightTracker {
  import opened Wrappers
  import opened CameraTypes

  datatype InFlightState = Submitted | QueuedToDriver | Completed | Failed | Flushed

  datatype Output = Output(target: Target, outputIndex: int, completed: bool, releaseFence: int)

  /** One row of the request table. */
  datatype Row = Row(frameNumber: nat, request: Request, outputs: seq<Output>, timestamp: int, state: InFlightState)

  datatype StreamingOutput = StreamingOutput(frameNumber: nat, target: Target, streamType: StreamType)

  /** What a driver token stands for: an output of a frame, or, with index -1, a streaming output. */
  datatype Context = Context(frameNumber: nat, outputIndex: int)

  datatype Resolved = Resolved(
    frameNumber: nat,
    outputIndex: int,
    target: Target,
    streaming: Option<StreamingOutput>)

  datatype OutputCompletion = NotFound | WaitingForMoreOutputs | RequestComplete(row: Row)

  datatype Tracker = Tracker(
    requests: map<nat, Row>,
    streaming: map<nat, StreamingOutput>,
    tokens: map<nat, Context>)

  const EMPTY := Tracker(map[], map[], map[])

  predicate CanStart(t: Tracker, frame: nat, outputs: seq<Output>) {
    frame !in t.requests && outputs != []
  }

  function Start(t: Tracker, request: Request, outputs: seq<Output>): Tracker {
    if CanStart(t, request.frameNumber, outputs) then
      t.(requests := t.requests[request.frameNumber := Row(request.frameNumber, request, outputs, 0, Submitted)])
    else t
  }

  predicate CanMarkQueued(t: Tracker, frame: nat) {
    frame in t.requests && t.requests[frame].state.Submitted?
  }

  function MarkQueued(t: Tracker, frame: nat): Tracker {
    if CanMarkQueued(t, frame) then
      t.(requests := t.requests[frame := t.requests[frame].(state := QueuedToDriver)])
    else t
  }

  function MarkOutput(output: Output, outputIndex: int, fence: int): Output {
    if output.outputIndex == outputIndex then output.(completed := true, releaseFence := fence) else output
  }

  /** Every output carrying the index is completed with the fence. */
  function MarkOutputs(outputs: seq<Output>, outputIndex: int, fence: int): (marked: seq<Output>)
    ensures |marked| == |outputs|
  {
    seq(|outputs|, i requires 0 <= i < |outputs| => MarkOutput(outputs[i], outputIndex, fence))
  }

  predicate Matches(outputs: seq<Output>, outputIndex: int) {
    exists i :: 0 <= i < |outputs| && outputs[i].outputIndex == outputIndex
  }

  predicate AllCompleted(outputs: seq<Output>) {
    forall i :: 0 <= i < |outputs| ==> outputs[i].completed
  }

  function CompleteOutput(t: Tracker, frame: nat, outputIndex: int, fence: int, timestamp: int)
    : (Tracker, OutputCompletion)
  {
    if frame !in t.requests then (t, NotFound)
    else
      var row := t.requests[frame];
      var row' := row.(outputs := MarkOutputs(row.outputs, outputIndex, fence));
      if !Matches(row.outputs, outputIndex) then (t, NotFound)
      else if !AllCompleted(row'.outputs) then (t.(requests := t.requests[frame := row']), WaitingForMoreOutputs)
      else (t.(requests := t.requests - {frame}), RequestComplete(row'.(timestamp := timestamp, state := Completed)))
  }

  function RegisterStreaming(t: Tracker, output: StreamingOutput): Tracker {
    if output.frameNumber in t.streaming then t
    else t.(streaming := t.streaming[output.frameNumber := output])
  }

  predicate CanBind(t: Tracker, token: nat) {
    token != 0 && token !in t.tokens
  }

  function Bind(t: Tracker, token: nat, context: Context): Tracker {
    if CanBind(t, token) then t.(tokens := t.tokens[token := context]) else t
  }

  /** The target of the first output of the row that carries the index. */
  function OutputTarget(outputs: seq<Output>, outputIndex: int): Option<Target> {
    if outputs == [] then None
    else if outputs[0].outputIndex == outputIndex then Some(outputs[0].target)
    else OutputTarget(outputs[1..], outputIndex)
  }

  /** A token is consumed by its first lookup, whether or not it still leads anywhere. */
  function Take(t: Tracker, token: nat): (Tracker, Option<Resolved>) {
    if token !in t.tokens then (t, None)
    else
      var context := t.tokens[token];
      var t' := t.(tokens := t.tokens - {token});
      if context.outputIndex < 0 then
        if context.frameNumber !in t.streaming then (t', None)
        else
          var output := t.streaming[context.frameNumber];
          (t'.(streaming := t.streaming - {context.frameNumber}),
           Some(Resolved(context.frameNumber, context.outputIndex, output.target, Some(output))))
      else if context.frameNumber !in t.requests then (t', None)
      else
        var target := OutputTarget(t.requests[context.frameNumber].outputs, context.outputIndex);
        (t', if target.None? then None
             else Some(Resolved(context.frameNumber, context.outputIndex, target.value, None)))
  }

  function ClearFrame(t: Tracker, frame: nat): Tracker {
    t.(tokens := map k | k in t.tokens && t.tokens[k].frameNumber != frame :: t.tokens[k])
  }

  function ClearStreaming(t: Tracker): Tracker {
    t.(streaming := map[])
  }

  /** The row removed by fail, already marked failed. */
  function FailedRow(t: Tracker, frame: nat): Option<Row> {
    if frame in t.requests then Some(t.requests[frame].(state := Failed)) else None
  }

  function Fail(t: Tracker, frame: nat): Tracker {
    t.(requests := t.requests - {frame})
  }

  function FlushAll(t: Tracker): Tracker {
    t.(requests := map[], tokens := map[])
  }

  /** The flushed rows in some order of the request table. */
  function FlushedRows(t: Tracker, order: seq<nat>): (rows: seq<Row>)
    requires forall i :: 0 <= i < |order| ==> order[i] in t.requests
    ensures |rows| == |order|
  {
    seq(|order|, i requires 0 <= i < |order| => t.requests[order[i]].(state := Flushed))
  }

  /* ---------------------------------- consistency ---------------------------------- */

  /** A row between critical sections: at least one output is still outstanding. */
  predicate RowOk(row: Row, frame: nat) {
    && row.frameNumber == frame
    && row.state.QueuedToDriver?
    && (forall i :: 0 <= i < |row.outputs| ==> row.outputs[i].outputIndex == i)
    && (forall i :: 0 <= i < |row.outputs| && !row.outputs[i].completed ==> row.outputs[i].releaseFence == -1)
    && !AllCompleted(row.outputs)
  }

  /** The driver still owes a completion for this context. */
  predicate Outstanding(t: Tracker, c: Context) {
    if c.outputIndex >= 0 then
      && c.frameNumber in t.requests
      && c.outputIndex < |t.requests[c.frameNumber].outputs|
      && !t.requests[c.frameNumber].outputs[c.outputIndex].completed
    else
      c.outputIndex == -1 && c.frameNumber in t.streaming
  }

  /** Bound tokens and outstanding contexts are in one-to-one correspondence. */
  ghost predicate Bijective(t: Tracker) {
    && (forall a, b :: a in t.tokens && b in t.tokens && t.tokens[a] == t.tokens[b] ==> a == b)
    && (forall a :: a in t.tokens ==> Outstanding(t, t.tokens[a]))
    && (forall c :: Outstanding(t, c) ==> c in t.tokens.Values)
  }

  /** The streaming rows that no token reaches. */
  function Orphans(t: Tracker): set<nat> {
    set f | f in t.streaming && Context(f, -1) !in t.tokens.Values
  }

  /** The correspondence, up to the orphans: every context that is owed, unless it is an orphan, has
      exactly one token. */
  ghost predicate Matched(t: Tracker) {
    && (forall a, b :: a in t.tokens && b in t.tokens && t.tokens[a] == t.tokens[b] ==> a == b)
    && (forall a :: a in t.tokens ==> Outstanding(t, t.tokens[a]))
    && (forall c :: Outstanding(t, c) && c.outputIndex >= 0 ==> c in t.tokens.Values)
  }

  lemma BijectiveExactlyWhen(t: Tracker)
    ensures Bijective(t) <==> Matched(t) && Orphans(t) == {}
  {
    if Matched(t) && Orphans(t) == {} {
      forall c | Outstanding(t, c) ensures c in t.tokens.Values {
        if c.outputIndex < 0 {
          assert c.frameNumber !in Orphans(t);
          assert c == Context(c.frameNumber, -1);
        }
      }
    }
    if Bijective(t) {
      forall f | f in t.streaming ensures f !in Orphans(t) {
        assert Outstanding(t, Context(f, -1));
      }
    }
  }

  predicate RowsOk(t: Tracker) {
    && (forall f :: f in t.requests ==> RowOk(t.requests[f], f))
    && (forall f :: f in t.streaming ==> t.streaming[f].frameNumber == f)
  }

  /** Client frame numbers lie below base; streaming frame numbers between base and next. */
  predicate FramesApart(t: Tracker, base: nat, next: nat) {
    && (forall f :: f in t.requests ==> f < base)
    && (forall f :: f in t.streaming ==> base <= f < next)
  }

  ghost predicate Consistent(t: Tracker, base: nat, next: nat) {
    Matched(t) && RowsOk(t) && FramesApart(t, base, next) && 0 !in t.tokens
  }

  lemma OutputTargetAt(outputs: seq<Output>, index: nat)
    requires index < |outputs|
    requires forall i :: 0 <= i < |outputs| ==> outputs[i].outputIndex == i
    ensures OutputTarget(outputs, index) == Some(outputs[index].target)
  {
    OutputTargetFrom(outputs, 0, index);
    assert outputs[0..] == outputs;
  }

  lemma {:induction false} OutputTargetFrom(outputs: seq<Output>, from: nat, index: nat)
    requires from <= index < |outputs|
    requires forall i :: 0 <= i < |outputs| ==> outputs[i].outputIndex == i
    ensures OutputTarget(outputs[from..], index) == Some(outputs[index].target)
    decreases index - from
  {
    if from < index {
      OutputTargetFrom(outputs, from + 1, index);
      assert outputs[from..][1..] == outputs[from + 1..];
    }
  }

  /** In a row whose indices are its positions, completing an index changes that position only. */
  lemma MarkOutputsAt(outputs: seq<Output>, index: nat, fence: int)
    requires index < |outputs|
    requires forall i :: 0 <= i < |outputs| ==> outputs[i].outputIndex == i
    ensures MarkOutputs(outputs, index, fence)
            == outputs[index := outputs[index].(completed := true, releaseFence := fence)]
    ensures Matches(outputs, index)
  {
    assert outputs[index].outputIndex == index;
  }

  /** Removing a token, and with it only its own context, from the correspondence. */
  lemma DropToken(t: Tracker, t': Tracker, token: nat)
    requires Matched(t) && token in t.tokens && t'.tokens == t.tokens - {token}
    requires forall c :: Outstanding(t', c) <==> Outstanding(t, c) && c != t.tokens[token]
    ensures Matched(t')
  {
    forall a | a in t'.tokens ensures Outstanding(t', t'.tokens[a]) {
      assert Outstanding(t, t.tokens[a]) && t.tokens[a] != t.tokens[token];
    }
    forall c | Outstanding(t', c) && c.outputIndex >= 0 ensures c in t'.tokens.Values {
      assert c in t.tokens.Values;
      var a :| a in t.tokens && t.tokens[a] == c;
      assert t'.tokens[a] == c;
    }
  }

  /** Nothing becomes an orphan when a token goes together with its own context. */
  lemma DropTokenOrphans(t: Tracker, t': Tracker, token: nat)
    requires Matched(t) && token in t.tokens && t'.tokens == t.tokens - {token}
    requires t'.streaming == t.streaming - (if t.tokens[token].outputIndex == -1 then {t.tokens[token].frameNumber} else {})
    ensures Orphans(t') == Orphans(t)
  {
    forall f ensures f in Orphans(t') <==> f in Orphans(t) {
      if f in t'.streaming && Context(f, -1) in t.tokens.Values {
        var a :| a in t.tokens && t.tokens[a] == Context(f, -1);
        assert t'.tokens[a] == Context(f, -1);
      }
      if f in Orphans(t) {
        assert t.tokens[token] in t.tokens.Values;
        assert t.tokens[token].outputIndex == -1 ==> t.tokens[token] == Context(t.tokens[token].frameNumber, -1);
      }
    }
  }

  /** After one of several outstanding outputs has completed, only that one is settled. */
  lemma OutstandingAfterWait(t: Tracker, frame: nat, index: nat, fence: int, c: Context)
    requires frame in t.requests && RowOk(t.requests[frame], frame) && Outstanding(t, Context(frame, index))
    ensures var row := t.requests[frame];
            var t' := t.(requests := t.requests[frame := row.(outputs := MarkOutputs(row.outputs, index, fence))]);
            Outstanding(t', c) <==> Outstanding(t, c) && c != Context(frame, index)
  {
    MarkOutputsAt(t.requests[frame].outputs, index, fence);
  }

  /** When the last outstanding output of a row completes, nothing else of the row was owed. */
  lemma OutstandingAfterLast(t: Tracker, frame: nat, index: nat, fence: int, c: Context)
    requires frame in t.requests && RowOk(t.requests[frame], frame) && Outstanding(t, Context(frame, index))
    requires AllCompleted(MarkOutputs(t.requests[frame].outputs, index, fence))
    ensures Outstanding(t.(requests := t.requests - {frame}), c) <==> Outstanding(t, c) && c != Context(frame, index)
  {
    var outputs := t.requests[frame].outputs;
    MarkOutputsAt(outputs, index, fence);
    if c.frameNumber == frame && 0 <= c.outputIndex < |outputs| && c.outputIndex != index {
      assert MarkOutputs(outputs, index, fence)[c.outputIndex].completed;
    }
  }

  /** Taking a token that leads to a request output finds the target of that output. */
  lemma TakeRequestToken(t: Tracker, token: nat)
    requires Matched(t) && RowsOk(t) && token in t.tokens && t.tokens[token].outputIndex >= 0
    ensures var c := t.tokens[token];
            && Outstanding(t, c) && RowOk(t.requests[c.frameNumber], c.frameNumber)
            && Take(t, token) == (t.(tokens := t.tokens - {token}),
                                  Some(Resolved(c.frameNumber, c.outputIndex,
                                                t.requests[c.frameNumber].outputs[c.outputIndex].target, None)))
  {
    var c := t.tokens[token];
    assert Outstanding(t, c) && RowOk(t.requests[c.frameNumber], c.frameNumber);
    hide Matched, RowsOk;
    OutputTargetAt(t.requests[c.frameNumber].outputs, c.outputIndex);
  }

  /** Completing the output whose token was taken restores the correspondence. */
  lemma CompleteTaken(t: Tracker, t2: Tracker, token: nat, fence: int)
    requires Matched(t) && RowsOk(t) && token in t.tokens && t.tokens[token].outputIndex >= 0
    requires var c := t.tokens[token];
             && Outstanding(t, c) && RowOk(t.requests[c.frameNumber], c.frameNumber)
             && AfterComplete(t, t2, c.frameNumber, c.outputIndex, fence)
    requires t2.tokens == t.tokens - {token}
    ensures Matched(t2) && RowsOk(t2) && Orphans(t2) == Orphans(t)
  {
    var c := t.tokens[token];
    CompletedRowsOk(t, t2, c.frameNumber, c.outputIndex, fence);
    assert c == Context(c.frameNumber, c.outputIndex);
    assert t2.streaming == t.streaming - {};
    hide Matched, RowsOk, RowOk, AfterComplete, Orphans;
    DropTokenOrphans(t, t2, token);
    forall d ensures Outstanding(t2, d) <==> Outstanding(t, d) && d != c {
      OutstandingAfterCompletion(t, t2, c.frameNumber, c.outputIndex, fence, d);
    }
    DropToken(t, t2, token);
  }

  /** A token that leads to a request output always completes it: never NotFound. */
  lemma TakeThenComplete(t: Tracker, base: nat, next: nat, token: nat, fence: int, timestamp: int)
    requires Consistent(t, base, next) && token in t.tokens && t.tokens[token].outputIndex >= 0
    ensures var c := t.tokens[token];
            var (t1, resolved) := Take(t, token);
            var (t2, completion) := CompleteOutput(t1, c.frameNumber, c.outputIndex, fence, timestamp);
            && Outstanding(t, c)
            && resolved == Some(Resolved(c.frameNumber, c.outputIndex,
                                         t.requests[c.frameNumber].outputs[c.outputIndex].target, None))
            && t1 == t.(tokens := t.tokens - {token})
            && !completion.NotFound?
            && Consistent(t2, base, next) && Orphans(t2) == Orphans(t)
  {
    hide Matched, RowsOk, RowOk, Take, CompleteOutput, AllCompleted, Orphans;
    var c := t.tokens[token];
    TakeRequestToken(t, token);
    var t1 := Take(t, token).0;
    CompleteOutputTables(t1, c.frameNumber, c.outputIndex, fence, timestamp);
    var (t2, _) := CompleteOutput(t1, c.frameNumber, c.outputIndex, fence, timestamp);
    CompleteTaken(t, t2, token, fence);
  }

  /** What completing an outstanding output of a well-formed row leaves of the row table. */
  predicate AfterComplete(t: Tracker, t2: Tracker, frame: nat, index: nat, fence: int)
    requires frame in t.requests
  {
    var row := t.requests[frame];
    var marked := MarkOutputs(row.outputs, index, fence);
    && t2.streaming == t.streaming
    && t2.requests == if AllCompleted(marked) then t.requests - {frame}
                      else t.requests[frame := row.(outputs := marked)]
  }

  lemma CompleteOutputTables(t: Tracker, frame: nat, index: nat, fence: int, timestamp: int)
    requires frame in t.requests && RowOk(t.requests[frame], frame) && index < |t.requests[frame].outputs|
    ensures var (t2, completion) := CompleteOutput(t, frame, index, fence, timestamp);
            AfterComplete(t, t2, frame, index, fence) && t2.tokens == t.tokens && !completion.NotFound?
  {
    MarkOutputsAt(t.requests[frame].outputs, index, fence);
    hide AllCompleted, MarkOutputs, Matches;
  }

  lemma OutstandingAfterCompletion(t: Tracker, t2: Tracker, frame: nat, index: nat, fence: int, d: Context)
    requires frame in t.requests && RowOk(t.requests[frame], frame) && Outstanding(t, Context(frame, index))
    requires AfterComplete(t, t2, frame, index, fence)
    ensures Outstanding(t2, d) <==> Outstanding(t, d) && d != Context(frame, index)
  {
    hide RowOk, MarkOutputs, AllCompleted;
    if AllCompleted(MarkOutputs(t.requests[frame].outputs, index, fence)) {
      OutstandingAfterLast(t, frame, index, fence, d);
    } else {
      OutstandingAfterWait(t, frame, index, fence, d);
    }
  }

  lemma CompletedRowsOk(t: Tracker, t2: Tracker, frame: nat, index: nat, fence: int)
    requires RowsOk(t) && frame in t.requests && index < |t.requests[frame].outputs|
    requires AfterComplete(t, t2, frame, index, fence)
    ensures RowsOk(t2)
  {
    assert RowOk(t.requests[frame], frame);
    MarkOutputsAt(t.requests[frame].outputs, index, fence);
    hide MarkOutputs, Matches;
  }

  /** A token that leads to a streaming output removes its row and nothing else. */
  lemma TakeStreaming(t: Tracker, base: nat, next: nat, token: nat)
    requires Consistent(t, base, next) && token in t.tokens && t.tokens[token].outputIndex < 0
    ensures var f := t.tokens[token].frameNumber;
            var (t', resolved) := Take(t, token);
            && f in t.streaming
            && t' == Tracker(t.requests, t.streaming - {f}, t.tokens - {token})
            && resolved == Some(Resolved(f, -1, t.streaming[f].target, Some(t.streaming[f])))
            && Consistent(t', base, next) && Orphans(t') == Orphans(t)
  {
    var c := t.tokens[token];
    assert Outstanding(t, c);
    var (t', resolved) := Take(t, token);
    forall d ensures Outstanding(t', d) <==> Outstanding(t, d) && d != c {
    }
    DropToken(t, t', token);
    DropTokenOrphans(t, t', token);
  }

  /** Registering a streaming output under a new frame number and binding a new token to it. */
  function RegisterAndBind(t: Tracker, output: StreamingOutput, token: nat): Tracker {
    Bind(RegisterStreaming(t, output), token, Context(output.frameNumber, -1))
  }

  /** Whether or not the token binds, the correspondence is kept up to the orphans, and the new row
      becomes an orphan exactly when the token does not bind. */
  lemma RegisterKeepsConsistent(t: Tracker, base: nat, next: nat, output: StreamingOutput, token: nat)
    requires Consistent(t, base, next) && output.frameNumber == next >= base
    ensures Consistent(RegisterAndBind(t, output, token), base, next + 1)
    ensures Orphans(RegisterAndBind(t, output, token)) == Orphans(t) + if CanBind(t, token) then {} else {next}
  {
    hide Matched, Orphans, Bind;
    RegisterMatched(t, output, token);
    RegisterOrphans(t, output, token);
    BindTables(RegisterStreaming(t, output), token, Context(next, -1));
  }

  lemma BindTables(t: Tracker, token: nat, c: Context)
    ensures var t' := Bind(t, token, c);
            && t'.requests == t.requests && t'.streaming == t.streaming
            && t'.tokens == if CanBind(t, token) then t.tokens[token := c] else t.tokens
  {
  }

  lemma RegisterMatched(t: Tracker, output: StreamingOutput, token: nat)
    requires Matched(t) && output.frameNumber !in t.streaming
    ensures Matched(RegisterAndBind(t, output, token))
  {
    var t' := RegisterAndBind(t, output, token);
    assert !Outstanding(t, Context(output.frameNumber, -1));
    forall a | a in t'.tokens ensures Outstanding(t', t'.tokens[a]) {
      if a in t.tokens { assert Outstanding(t, t.tokens[a]); }
    }
    forall d | Outstanding(t', d) && d.outputIndex >= 0 ensures d in t'.tokens.Values {
      assert Outstanding(t, d);
      var a :| a in t.tokens && t.tokens[a] == d;
      assert t'.tokens[a] == d;
    }
  }

  lemma RegisterOrphans(t: Tracker, output: StreamingOutput, token: nat)
    requires Matched(t) && output.frameNumber !in t.streaming
    ensures Orphans(RegisterAndBind(t, output, token))
            == Orphans(t) + if CanBind(t, token) then {} else {output.frameNumber}
  {
    var t' := RegisterAndBind(t, output, token);
    var added := Context(output.frameNumber, -1);
    assert !Outstanding(t, added);
    if CanBind(t, token) {
      assert t'.tokens == t.tokens[token := added];
      assert t'.tokens[token] == added;
      forall c: Context | c in t.tokens.Values ensures c in t'.tokens.Values {
        var a :| a in t.tokens && t.tokens[a] == c;
        assert t'.tokens[a] == c;
      }
    }
  }

  /** Re-registering a streaming output keeps the bijection exactly when its token binds. */
  lemma RegisterBijectiveExactlyWhen(t: Tracker, base: nat, next: nat, output: StreamingOutput, token: nat)
    requires Consistent(t, base, next) && output.frameNumber == next >= base
    ensures Bijective(RegisterAndBind(t, output, token)) <==> Bijective(t) && CanBind(t, token)
  {
    RegisterKeepsConsistent(t, base, next, output, token);
    BijectiveExactlyWhen(t);
    BijectiveExactlyWhen(RegisterAndBind(t, output, token));
    hide Bijective, Matched, Orphans;
  }

  lemma FailMatched(t: Tracker, frame: nat)
    requires Matched(t) && frame !in t.streaming
    ensures Matched(ClearFrame(Fail(t, frame), frame))
    ensures Orphans(ClearFrame(Fail(t, frame), frame)) == Orphans(t)
  {
    var t' := ClearFrame(Fail(t, frame), frame);
    forall a | a in t'.tokens ensures Outstanding(t', t'.tokens[a]) {
      assert Outstanding(t, t.tokens[a]);
    }
    forall d | d in t.tokens.Values && d.frameNumber != frame ensures d in t'.tokens.Values {
      var a :| a in t.tokens && t.tokens[a] == d;
      assert t'.tokens[a] == d;
    }
    forall d | Outstanding(t', d) && d.outputIndex >= 0 ensures d in t'.tokens.Values {
      assert Outstanding(t, d);
    }
  }

  /** Removing a row together with the tokens of its frame. */
  lemma FailKeepsConsistent(t: Tracker, base: nat, next: nat, frame: nat)
    requires Consistent(t, base, next) && frame < base
    ensures Consistent(ClearFrame(Fail(t, frame), frame), base, next)
    ensures Orphans(ClearFrame(Fail(t, frame), frame)) == Orphans(t)
  {
    assert frame !in t.streaming;
    hide Matched, RowOk, Orphans;
    FailMatched(t, frame);
  }

  /** Completing an output of a well-formed row: when another output is still owed, the row stays with this
      one completed; otherwise it leaves as completed at this time, every target as it was and every fence
      that of its own completion. An index or a frame that is not there is not found. */
  lemma CompletionIsExact(t: Tracker, frame: nat, index: int, fence: int, timestamp: int)
    requires forall f :: f in t.requests ==> RowOk(t.requests[f], f)
    ensures var (t', completion) := CompleteOutput(t, frame, index, fence, timestamp);
            if frame in t.requests && 0 <= index < |t.requests[frame].outputs| then
              var row := t.requests[frame];
              var outputs := row.outputs[index := row.outputs[index].(completed := true, releaseFence := fence)];
              if exists i :: 0 <= i < |row.outputs| && i != index && !row.outputs[i].completed then
                completion == WaitingForMoreOutputs && t'.requests == t.requests[frame := row.(outputs := outputs)]
              else
                && completion == RequestComplete(Row(frame, row.request, outputs, timestamp, Completed))
                && t'.requests == t.requests - {frame}
            else completion == NotFound && t' == t
  {
    if frame in t.requests {
      var row := t.requests[frame];
      assert RowOk(row, frame);
      if 0 <= index < |row.outputs| {
        MarkOutputsAt(row.outputs, index, fence);
        assert row.outputs[index].outputIndex == index;
        var marked := MarkOutputs(row.outputs, index, fence);
        assert AllCompleted(marked) <==> forall i :: 0 <= i < |row.outputs| && i != index ==> row.outputs[i].completed by {
          forall i | 0 <= i < |row.outputs| ensures marked[i].completed <==> i == index || row.outputs[i].completed {
          }
        }
      }
    }
  }

  /** A row that fails or is flushed leaves as it was but for its state, which says how it left. */
  lemma RowsLeaveMarked(t: Tracker, frame: nat, order: seq<nat>)
    requires multiset(order) == multiset(t.requests.Keys)
    ensures FailedRow(t, frame).Some? <==> frame in t.requests
    ensures frame in t.requests ==>
              FailedRow(t, frame).value.state.Failed? && FailedRow(t, frame).value.(state := t.requests[frame].state) == t.requests[frame]
    ensures forall k :: 0 <= k < |order| ==> order[k] in t.requests
    ensures forall k :: 0 <= k < |order| ==>
              var row := FlushedRows(t, order)[k];
              row.state.Flushed? && row.(state := t.requests[order[k]].state) == t.requests[order[k]]
  {
    forall k | 0 <= k < |order| ensures order[k] in t.requests {
      assert order[k] in multiset(order);
    }
  }

  /** A frame is taken up once, with at least one output, and marked once; failing it takes exactly its row
      out again. */
  lemma RowIsStartedAndMarkedOnce(t: Tracker, request: Request, outputs: seq<Output>, others: seq<Output>)
    ensures var frame := request.frameNumber;
            var started := Start(t, request, outputs);
            var marked := MarkQueued(started, frame);
            if frame in t.requests || outputs == [] then
              !CanStart(t, frame, outputs) && started == t
            else
              && CanStart(t, frame, outputs) && !CanStart(started, frame, others)
              && CanMarkQueued(started, frame) && !CanMarkQueued(marked, frame) && MarkQueued(marked, frame) == marked
              && marked == t.(requests := t.requests[frame := Row(frame, request, outputs, 0, QueuedToDriver)])
              && Fail(marked, frame) == t
  {
    var frame := request.frameNumber;
    if frame !in t.requests && outputs != [] {
      var marked := MarkQueued(Start(t, request, outputs), frame);
      assert marked.requests == t.requests[frame := Row(frame, request, outputs, 0, QueuedToDriver)];
      assert marked.requests - {frame} == t.requests;
    }
  }

  lemma {:induction false} FirstWithIndex(outputs: seq<Output>, index: int)
    ensures OutputTarget(outputs, index).Some? <==> Matches(outputs, index)
    ensures forall i :: 0 <= i < |outputs| && outputs[i].outputIndex == index
                        && (forall j :: 0 <= j < i ==> outputs[j].outputIndex != index)
                        ==> OutputTarget(outputs, index) == Some(outputs[i].target)
  {
    if outputs != [] {
      FirstWithIndex(outputs[1..], index);
      if outputs[0].outputIndex != index {
        assert forall i :: 1 <= i < |outputs| ==> outputs[i] == outputs[1..][i - 1];
      }
    }
  }

  /** Where a context leads: to a streaming row, or to an output of a row. */
  predicate LeadsSomewhere(t: Tracker, c: Context) {
    if c.outputIndex < 0 then c.frameNumber in t.streaming
    else c.frameNumber in t.requests && Matches(t.requests[c.frameNumber].outputs, c.outputIndex)
  }

  /** In any tables, a token is consumed by its first lookup and by no other; the lookup finds something
      exactly when the token is bound and still leads somewhere, and takes only a streaming row with it. */
  lemma TokenIsTakenOnce(t: Tracker, token: nat)
    ensures var (t', resolved) := Take(t, token);
            && t'.tokens == t.tokens - {token} && t'.requests == t.requests
            && (resolved.Some? <==> token in t.tokens && LeadsSomewhere(t, t.tokens[token]))
            && (resolved.Some? ==>
                  var c := t.tokens[token];
                  && resolved.value.frameNumber == c.frameNumber && resolved.value.outputIndex == c.outputIndex
                  && if c.outputIndex < 0 then
                       resolved.value.streaming == Some(t.streaming[c.frameNumber])
                       && t'.streaming == t.streaming - {c.frameNumber}
                     else
                       resolved.value.streaming.None? && t'.streaming == t.streaming
                       && Some(resolved.value.target) == OutputTarget(t.requests[c.frameNumber].outputs, c.outputIndex))
            && (resolved.None? ==> t'.streaming == t.streaming)
            && Take(t', token) == (t', None)
  {
    if token in t.tokens {
      var c := t.tokens[token];
      if c.outputIndex >= 0 && c.frameNumber in t.requests {
        FirstWithIndex(t.requests[c.frameNumber].outputs, c.outputIndex);
      }
    } else {
      assert t.tokens - {token} == t.tokens;
    }
  }
}
