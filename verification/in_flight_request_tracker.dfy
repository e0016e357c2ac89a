/** The tracker object: three tables updated in place. */
module InFlightRequestTrackers {
  import opened Wrappers
  import opened CameraTypes
  import opened InFlightTracker

  class InFlightRequestTracker {
    var requests: map<nat, Row>
    var streamingOutputs: map<nat, StreamingOutput>
    var driverOutputs: map<nat, Context>

    function View(): Tracker
      reads this
    {
      Tracker(requests, streamingOutputs, driverOutputs)
    }

    constructor ()
      ensures View() == EMPTY
    {
      requests, streamingOutputs, driverOutputs := map[], map[], map[];
    }

    method Start(request: Request, outputs: seq<Output>) returns (started: bool)
      modifies this
      ensures started == CanStart(old(View()), request.frameNumber, outputs)
      ensures View() == InFlightTracker.Start(old(View()), request, outputs)
    {
      if request.frameNumber in requests || outputs == [] {
        return false;
      }
      requests := requests[request.frameNumber := Row(request.frameNumber, request, outputs, 0, Submitted)];
      return true;
    }

    method MarkQueuedToDriver(frame: nat) returns (marked: bool)
      modifies this
      ensures marked == CanMarkQueued(old(View()), frame)
      ensures View() == MarkQueued(old(View()), frame)
    {
      if frame !in requests || !requests[frame].state.Submitted? {
        return false;
      }
      requests := requests[frame := requests[frame].(state := QueuedToDriver)];
      return true;
    }

    /** One pass over the outputs marks the matching ones and finds out whether any is left. */
    method CompleteOutput(frame: nat, outputIndex: int, fence: int, timestamp: int)
      returns (completion: OutputCompletion)
      modifies this
      ensures (View(), completion) == InFlightTracker.CompleteOutput(old(View()), frame, outputIndex, fence, timestamp)
    {
      if frame !in requests {
        return NotFound;
      }
      var row := requests[frame];
      var outputs := row.outputs;
      var matched, allCompleted := false, true;
      for i := 0 to |outputs|
        invariant |outputs| == |row.outputs|
        invariant forall k :: 0 <= k < i ==> outputs[k] == MarkOutput(row.outputs[k], outputIndex, fence)
        invariant forall k :: i <= k < |outputs| ==> outputs[k] == row.outputs[k]
        invariant matched <==> exists k :: 0 <= k < i && row.outputs[k].outputIndex == outputIndex
        invariant allCompleted <==> forall k :: 0 <= k < i ==> outputs[k].completed
      {
        if outputs[i].outputIndex == outputIndex {
          outputs := outputs[i := outputs[i].(completed := true, releaseFence := fence)];
          matched := true;
        }
        allCompleted := outputs[i].completed && allCompleted;
      }
      assert outputs == MarkOutputs(row.outputs, outputIndex, fence);
      if !matched {
        return NotFound;
      }
      if !allCompleted {
        requests := requests[frame := row.(outputs := outputs)];
        return WaitingForMoreOutputs;
      }
      requests := requests - {frame};
      return RequestComplete(row.(outputs := outputs, timestamp := timestamp, state := Completed));
    }

    method RegisterStreamingOutput(output: StreamingOutput) returns (registered: bool)
      modifies this
      ensures registered == (output.frameNumber !in old(streamingOutputs))
      ensures View() == RegisterStreaming(old(View()), output)
    {
      if output.frameNumber in streamingOutputs {
        return false;
      }
      streamingOutputs := streamingOutputs[output.frameNumber := output];
      return true;
    }

    method BindDriverOutput(token: nat, context: Context) returns (bound: bool)
      modifies this
      ensures bound == CanBind(old(View()), token)
      ensures View() == Bind(old(View()), token, context)
    {
      if token == 0 || token in driverOutputs {
        return false;
      }
      driverOutputs := driverOutputs[token := context];
      return true;
    }

    method FindOutputTarget(frame: nat, outputIndex: int) returns (target: Option<Target>)
      ensures target == if frame in requests then OutputTarget(requests[frame].outputs, outputIndex) else None
    {
      if frame !in requests {
        return None;
      }
      var outputs := requests[frame].outputs;
      for i := 0 to |outputs|
        invariant OutputTarget(outputs, outputIndex) == OutputTarget(outputs[i..], outputIndex)
      {
        if outputs[i].outputIndex == outputIndex {
          return Some(outputs[i].target);
        }
        assert outputs[i..][1..] == outputs[i + 1..];
      }
      return None;
    }

    method TakeDriverOutputContext(token: nat) returns (resolved: Option<Resolved>)
      modifies this
      ensures (View(), resolved) == Take(old(View()), token)
    {
      if token !in driverOutputs {
        return None;
      }
      var context := driverOutputs[token];
      driverOutputs := driverOutputs - {token};
      if context.outputIndex < 0 {
        if context.frameNumber !in streamingOutputs {
          return None;
        }
        var output := streamingOutputs[context.frameNumber];
        streamingOutputs := streamingOutputs - {context.frameNumber};
        return Some(Resolved(context.frameNumber, context.outputIndex, output.target, Some(output)));
      }
      var target := FindOutputTarget(context.frameNumber, context.outputIndex);
      if target.None? {
        return None;
      }
      return Some(Resolved(context.frameNumber, context.outputIndex, target.value, None));
    }

    /** Visits every token once and erases those of the frame. */
    method ClearDriverOutputsForFrame(frame: nat)
      modifies this
      ensures View() == ClearFrame(old(View()), frame)
    {
      var unvisited := driverOutputs.Keys;
      while unvisited != {}
        invariant unvisited <= driverOutputs.Keys <= old(driverOutputs).Keys
        invariant forall k :: k in driverOutputs ==> driverOutputs[k] == old(driverOutputs)[k]
        invariant forall k :: k in old(driverOutputs) ==>
                    (k in driverOutputs <==> k in unvisited || old(driverOutputs)[k].frameNumber != frame)
        invariant requests == old(requests) && streamingOutputs == old(streamingOutputs)
        decreases |unvisited|
      {
        var k :| k in unvisited;
        unvisited := unvisited - {k};
        if driverOutputs[k].frameNumber == frame {
          driverOutputs := driverOutputs - {k};
        }
      }
    }

    method ClearStreamingOutputs()
      modifies this
      ensures View() == ClearStreaming(old(View()))
    {
      streamingOutputs := map[];
    }

    method Fail(frame: nat) returns (row: Option<Row>)
      modifies this
      ensures row == FailedRow(old(View()), frame)
      ensures View() == InFlightTracker.Fail(old(View()), frame)
    {
      if frame !in requests {
        assert requests - {frame} == requests;
        return None;
      }
      row := Some(requests[frame].(state := Failed));
      requests := requests - {frame};
    }

    /** Copies every row out, each exactly once, and empties the request and token tables. */
    method FlushAll() returns (rows: seq<Row>, order: seq<nat>)
      modifies this
      ensures View() == InFlightTracker.FlushAll(old(View()))
      ensures multiset(order) == multiset(old(requests).Keys)
      ensures forall i :: 0 <= i < |order| ==> order[i] in old(requests)
      ensures rows == FlushedRows(old(View()), order)
    {
      rows, order := [], [];
      var unvisited := requests.Keys;
      while unvisited != {}
        invariant unvisited <= requests.Keys && View() == old(View())
        invariant multiset(order) + multiset(unvisited) == multiset(requests.Keys)
        invariant |rows| == |order|
        invariant forall i :: 0 <= i < |order| ==>
                    order[i] in requests && rows[i] == requests[order[i]].(state := Flushed)
        decreases |unvisited|
      {
        var k :| k in unvisited;
        unvisited := unvisited - {k};
        rows, order := rows + [requests[k].(state := Flushed)], order + [k];
      }
      assert multiset(unvisited) == multiset{};
      assert rows == FlushedRows(old(View()), order);
      requests, driverOutputs := map[], map[];
    }
  }
}
