/** One V4L2 capture device: the adapter's fields and the methods that update them in place. */
module V4L2DriverAdapters {
  import opened Wrappers
  import opened CameraTypes
  import opened V4L2Driver

  /** The source of tokens; the endpoints of a multi-stream adapter share one. */
  class TokenCounter {
    var next: nat

    constructor ()
      ensures next == 1
    {
      next := 1;
    }

    method NextToken() returns (token: nat)
      modifies this
      ensures token == old(next) && next == old(next) + 1
    {
      token := next;
      next := next + 1;
    }
  }

  /** The outcome of queueing more buffers after those that have answered with the tokens taken. */
  function After(taken: seq<nat>, rest: (Adapter, nat, Option<seq<nat>>)): (Adapter, nat, Option<seq<nat>>) {
    (rest.0, rest.1, if rest.2.None? then None else Some(taken + rest.2.value))
  }

  lemma AfterNothing(rest: (Adapter, nat, Option<seq<nat>>))
    ensures After([], rest) == rest
  {
    assert rest.2.Some? ==> [] + rest.2.value == rest.2.value;
  }

  lemma QueueBuffersStep(a: Adapter, next: nat, targets: seq<Target>, ios: seq<Io>, i: nat, taken: seq<nat>)
    requires |ios| == |targets| && i < |targets|
    requires QueueCapture(a, next, targets[i].bufferFd, targets[i].bufferSize, ios[i]).1.Queued?
    ensures var a' := QueueCapture(a, next, targets[i].bufferFd, targets[i].bufferSize, ios[i]).0;
            After(taken, QueueBuffers(a, next, targets, ios, i))
            == After(taken + [next], QueueBuffers(a', next + 1, targets, ios, i + 1))
  {
    var (a', _) := QueueCapture(a, next, targets[i].bufferFd, targets[i].bufferSize, ios[i]);
    var rest := QueueBuffers(a', next + 1, targets, ios, i + 1).2;
    hide QueueCapture;
    assert rest.Some? ==> taken + ([next] + rest.value) == taken + [next] + rest.value;
  }

  class V4L2DriverAdapter {
    const tokens: TokenCounter
    var fd: int
    var bufferSize: nat
    var queuedRequests: seq<Slot>
    var streaming: bool
    var deviceStreaming: bool
    var continuous: bool
    var kernel: Kernel

    function View(): Adapter
      reads this
    {
      Adapter(fd, bufferSize, queuedRequests, streaming, deviceStreaming, continuous, kernel)
    }

    /** The slots are in index order, and a closed device leaves nothing behind. */
    predicate Valid()
      reads this
    {
      && IndexedByPosition(queuedRequests)
      && (fd < 0 ==>
            && queuedRequests == [] && !streaming && !deviceStreaming && !continuous
            && kernel == Kernel(map[], false))
    }

    constructor (tokens: TokenCounter)
      ensures View() == CLOSED && Valid() && this.tokens == tokens
    {
      this.tokens := tokens;
      fd := -1;
      bufferSize := 0;
      queuedRequests := [];
      streaming := false;
      deviceStreaming := false;
      continuous := false;
      kernel := Kernel(map[], false);
    }

    /* ---------------------------------- the slot table ---------------------------------- */

    method FreeQueuedRequestCount() returns (n: nat)
      ensures n == FreeCount(queuedRequests)
    {
      n := 0;
      for i := 0 to |queuedRequests|
        invariant n == FreeCount(queuedRequests[..i])
      {
        assert queuedRequests[..i + 1][..i] == queuedRequests[..i];
        if !queuedRequests[i].queued { n := n + 1; }
      }
      assert queuedRequests[..|queuedRequests|] == queuedRequests;
    }

    method BindFreeQueuedRequest(token: nat, bufferFd: int, bufferSize: nat) returns (bound: Option<nat>)
      requires Valid()
      modifies this`queuedRequests
      ensures Valid() && bound == FirstFree(old(queuedRequests), 0)
      ensures queuedRequests == if bound.None? then old(queuedRequests)
                                else old(queuedRequests)[bound.value := Slot(bound.value, token, bufferFd, bufferSize, true)]
    {
      var i := 0;
      while i < |queuedRequests|
        invariant i <= |queuedRequests| && queuedRequests == old(queuedRequests)
        invariant FirstFree(queuedRequests, 0) == FirstFree(queuedRequests, i)
      {
        if !queuedRequests[i].queued {
          queuedRequests := queuedRequests[i := Slot(queuedRequests[i].index, token, bufferFd, bufferSize, true)];
          return Some(i);
        }
        i := i + 1;
      }
      return None;
    }

    method QueuedRequestForIndex(index: nat) returns (position: Option<nat>)
      ensures position == SlotForIndex(queuedRequests, index, 0)
    {
      var i := 0;
      while i < |queuedRequests|
        invariant i <= |queuedRequests|
        invariant SlotForIndex(queuedRequests, index, 0) == SlotForIndex(queuedRequests, index, i)
      {
        if queuedRequests[i].index == index {
          return Some(i);
        }
        i := i + 1;
      }
      return None;
    }

    method ClearQueuedRequest(index: nat)
      requires Valid()
      modifies this`queuedRequests
      ensures Valid()
      ensures queuedRequests == if index < |old(queuedRequests)| then old(queuedRequests)[index := FreeSlot(index)]
                                else old(queuedRequests)
    {
      var position := QueuedRequestForIndex(index);
      IndexIsPosition(queuedRequests, index);
      if position.Some? {
        queuedRequests := queuedRequests[position.value := FreeSlot(queuedRequests[position.value].index)];
      }
    }

    method ResetQueuedRequests()
      requires Valid()
      modifies this`queuedRequests
      ensures Valid() && queuedRequests == Cleared(old(queuedRequests))
    {
      var i := 0;
      while i < |queuedRequests|
        invariant i <= |queuedRequests| == |old(queuedRequests)|
        invariant forall k :: 0 <= k < i ==> queuedRequests[k] == FreeSlot(old(queuedRequests)[k].index)
        invariant forall k :: i <= k < |queuedRequests| ==> queuedRequests[k] == old(queuedRequests)[k]
      {
        queuedRequests := queuedRequests[i := FreeSlot(queuedRequests[i].index)];
        i := i + 1;
      }
    }

    /* ---------------------------------- streaming ---------------------------------- */

    /** device tells what opening and configuring the device gives, if it succeeds. */
    method ConfigureStream(device: Option<Opened>) returns (ok: bool)
      requires Valid()
      modifies this
      ensures Valid() && View() == V4L2Driver.ConfigureStream(old(View()), device)
      ensures ok <==> fd >= 0
    {
      if fd >= 0 {
        return true;
      }
      if device.None? {
        fd := -1;
        return false;
      }
      fd := device.value.fd;
      if device.value.count == 0 {
        Close(true);
        return false;
      }
      bufferSize := device.value.frameSize;
      queuedRequests := [];
      for i := 0 to device.value.count
        invariant queuedRequests == FreshSlots(i)
        invariant fd == device.value.fd && bufferSize == device.value.frameSize
        invariant !streaming && !deviceStreaming && !continuous && kernel == Kernel(map[], false)
      {
        queuedRequests := queuedRequests + [FreeSlot(i)];
      }
      return true;
    }

    method StartStreaming() returns (ok: bool)
      requires Valid()
      modifies this`streaming
      ensures Valid() && View() == V4L2Driver.StartStreaming(old(View()))
      ensures ok <==> fd >= 0 && queuedRequests != []
    {
      if fd < 0 || queuedRequests == [] {
        return false;
      }
      streaming := true;
      return true;
    }

    /** STREAMOFF, if it succeeds, makes the kernel hand every buffer back; its answer is ignored. */
    method StopStreaming(streamOffOk: bool)
      requires Valid()
      modifies this
      ensures Valid() && View() == V4L2Driver.StopStreaming(old(View()), streamOffOk)
    {
      if fd >= 0 && deviceStreaming && streamOffOk {
        kernel := Kernel(map[], false);
      }
      ResetQueuedRequests();
      deviceStreaming := false;
      streaming := false;
      continuous := false;
    }

    method Close(streamOffOk: bool)
      requires Valid()
      modifies this
      ensures Valid() && View() == V4L2Driver.Close(old(View()))
    {
      StopStreaming(streamOffOk);
      queuedRequests := [];
      fd := -1;
      kernel := Kernel(map[], false);
      deviceStreaming := false;
      streaming := false;
    }

    method CanSubmitCaptureOutputs(outputs: seq<Target>) returns (ok: bool)
      ensures ok == CanSubmit(View(), outputs)
    {
      var free := FreeQueuedRequestCount();
      if !streaming || fd < 0 || |outputs| > free {
        return false;
      }
      for i := 0 to |outputs|
        invariant forall k :: 0 <= k < i ==> Fits(View(), outputs[k])
      {
        if outputs[i].bufferFd < 0 || outputs[i].bufferSize < bufferSize {
          assert !Fits(View(), outputs[i]);
          return false;
        }
      }
      return true;
    }

    /** io tells what the wait for the fence, QBUF and STREAMON answer. */
    method QueueCaptureBuffer(bufferFd: int, size: nat, io: Io) returns (token: Option<nat>)
      requires Valid()
      modifies this, tokens
      ensures Valid()
      ensures var (a, answer) := QueueCapture(old(View()), old(tokens.next), bufferFd, size, io);
              && View() == a
              && tokens.next == old(tokens.next) + (if answer.Refused? then 0 else 1)
              && token == if answer.Queued? then Some(old(tokens.next)) else None
    {
      if !streaming || fd < 0 || bufferFd < 0 || size < bufferSize || !io.fenceOk {
        return None;
      }
      var drawn := tokens.NextToken();
      var bound := BindFreeQueuedRequest(drawn, bufferFd, size);
      if bound.None? {
        return None;
      }
      var index := bound.value;
      if !io.qbufOk || index in kernel.held {
        ClearQueuedRequest(index);
        assert queuedRequests == old(queuedRequests)[index := FreeSlot(index)];
        return None;
      }
      kernel := kernel.(held := kernel.held[index := bufferFd]);
      if !deviceStreaming {
        if !io.streamOnOk {
          ClearQueuedRequest(index);
          assert queuedRequests == old(queuedRequests)[index := FreeSlot(index)];
          return None;
        }
        deviceStreaming := true;
      }
      kernel := kernel.(on := true);
      return Some(drawn);
    }

    /** choice is the index DQBUF hands back, if any. */
    method DequeueCompletion(readyFd: int, choice: Option<nat>) returns (token: Option<nat>)
      requires Valid()
      modifies this
      ensures Valid() && (View(), token) == V4L2Driver.Dequeue(old(View()), readyFd, choice)
    {
      if readyFd != fd || !deviceStreaming || fd < 0 {
        return None;
      }
      if choice.None? || choice.value !in kernel.held || !kernel.on {
        return None;
      }
      var index := choice.value;
      kernel := kernel.(held := kernel.held - {index});
      var position := QueuedRequestForIndex(index);
      IndexIsPosition(queuedRequests, index);
      if position.None? || !queuedRequests[position.value].queued {
        return None;
      }
      token := Some(queuedRequests[position.value].token);
      ClearQueuedRequest(index);
    }

    method StartContinuousStream(buffers: seq<Target>, ios: seq<Io>) returns (submissions: Option<seq<nat>>)
      requires Valid() && |ios| == |buffers|
      modifies this, tokens
      ensures Valid()
      ensures if !old(streaming) || old(fd) < 0 then
                View() == old(View()) && submissions == None && tokens.next == old(tokens.next)
              else
                var (a, next, answers) := QueueBuffers(old(View()).(continuous := true), old(tokens.next), buffers, ios, 0);
                && View() == (if answers.None? then a.(continuous := false) else a)
                && tokens.next == next && submissions == answers
    {
      if !streaming || fd < 0 {
        return None;
      }
      continuous := true;
      var taken: seq<nat> := [];
      ghost var a0, n0 := View(), tokens.next;
      AfterNothing(QueueBuffers(a0, n0, buffers, ios, 0));
      for i := 0 to |buffers|
        invariant Valid()
        invariant After([], QueueBuffers(a0, n0, buffers, ios, 0))
               == After(taken, QueueBuffers(View(), tokens.next, buffers, ios, i))
      {
        ghost var a, next := View(), tokens.next;
        var token := QueueCaptureBuffer(buffers[i].bufferFd, buffers[i].bufferSize, ios[i]);
        if token.None? {
          continuous := false;
          return None;
        }
        QueueBuffersStep(a, next, buffers, ios, i, taken);
        taken := taken + [token.value];
      }
      assert taken + [] == taken;
      return Some(taken);
    }

    /** A stream that is not continuous answers with token 0 and queues nothing. */
    method ReturnStreamBuffer(bufferFd: int, size: nat, io: Io) returns (token: Option<nat>)
      requires Valid()
      modifies this, tokens
      ensures Valid()
      ensures !old(continuous) ==> View() == old(View()) && token == Some(0) && tokens.next == old(tokens.next)
      ensures old(continuous) ==>
                var (a, answer) := QueueCapture(old(View()), old(tokens.next), bufferFd, size, io);
                && View() == a
                && tokens.next == old(tokens.next) + (if answer.Refused? then 0 else 1)
                && token == if answer.Queued? then Some(old(tokens.next)) else None
    {
      if !continuous {
        return Some(0);
      }
      token := QueueCaptureBuffer(bufferFd, size, io);
    }
  }

  predicate IndexedByPosition(slots: seq<Slot>) {
    forall i :: 0 <= i < |slots| ==> slots[i].index == i
  }

  lemma IndexIsPosition(slots: seq<Slot>, index: nat)
    requires IndexedByPosition(slots)
    ensures SlotForIndex(slots, index, 0) == if index < |slots| then Some(index) else None
  {
    if index < |slots| { assert slots[index].index == index; }
  }
}
