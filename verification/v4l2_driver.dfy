/** The V4L2 adapter's slot table against an abstract kernel queue, and the multi-endpoint router. */
module V4L2Driver {
  import opened Wrappers
  import opened CameraTypes

  /** One entry of the slot table. */
  datatype Slot = Slot(index: int, token: nat, bufferFd: int, bufferSize: nat, queued: bool)

  /** The device: the buffer indices it holds, each with its dma-buf, and whether it streams.
      QBUF refuses an index it already holds; DQBUF hands back any index it holds while streaming. */
  datatype Kernel = Kernel(held: map<nat, int>, on: bool)

  datatype Adapter = Adapter(
    fd: int,
    bufferSize: nat,
    slots: seq<Slot>,
    streaming: bool,
    deviceStreaming: bool,
    continuous: bool,
    kernel: Kernel)

  /** What the system calls of one queueing attempt answer. */
  datatype Io = Io(fenceOk: bool, qbufOk: bool, streamOnOk: bool)

  /** What opening and configuring the device gives: its fd, buffer count and frame size. */
  datatype Opened = Opened(fd: nat, count: nat, frameSize: nat)

  const CLOSED := Adapter(-1, 0, [], false, false, false, Kernel(map[], false))

  function FreeSlot(index: int): Slot {
    Slot(index, 0, -1, 0, false)
  }

  function FreshSlots(count: nat): (slots: seq<Slot>)
    ensures |slots| == count
  {
    seq(count, i => FreeSlot(i))
  }

  function Cleared(slots: seq<Slot>): (cleared: seq<Slot>)
    ensures |cleared| == |slots|
  {
    seq(|slots|, i requires 0 <= i < |slots| => FreeSlot(slots[i].index))
  }

  /** STREAMOFF makes the kernel hand every buffer back, if it succeeds; its answer is ignored. */
  function StopStreaming(a: Adapter, streamOffOk: bool): Adapter {
    a.(slots := Cleared(a.slots), streaming := false, deviceStreaming := false, continuous := false,
       kernel := if a.fd >= 0 && a.deviceStreaming && streamOffOk then Kernel(map[], false) else a.kernel)
  }

  /** Closing the device releases every buffer the kernel holds. */
  function Close(a: Adapter): Adapter {
    a.(slots := [], fd := -1, streaming := false, deviceStreaming := false, continuous := false,
       kernel := Kernel(map[], false))
  }

  function ConfigureStream(a: Adapter, device: Option<Opened>): Adapter {
    if a.fd >= 0 then a
    else if device.None? || device.value.count == 0 then Close(a)
    else a.(fd := device.value.fd, bufferSize := device.value.frameSize, slots := FreshSlots(device.value.count),
            kernel := Kernel(map[], false))
  }

  function StartStreaming(a: Adapter): Adapter {
    if a.fd < 0 || a.slots == [] then a else a.(streaming := true)
  }

  /** The position of the first slot that is not queued, at or after position i. */
  function FirstFree(slots: seq<Slot>, i: nat): (free: Option<nat>)
    ensures free.Some? ==> i <= free.value < |slots| && !slots[free.value].queued
    ensures forall k :: i <= k < (if free.Some? then free.value else |slots|) ==> slots[k].queued
    decreases |slots| - i
  {
    if i >= |slots| then None else if !slots[i].queued then Some(i) else FirstFree(slots, i + 1)
  }

  function FreeCount(slots: seq<Slot>): nat {
    if slots == [] then 0 else FreeCount(slots[..|slots| - 1]) + (if slots[|slots| - 1].queued then 0 else 1)
  }

  /** Refused: no token was drawn. Spent: a token was drawn and the attempt failed after that. */
  datatype Answer = Refused | Spent | Queued

  /** Queues one dma-buf under the token, which is drawn only after the argument checks and the wait
      for the acquire fence. */
  function QueueCapture(a: Adapter, token: nat, bufferFd: int, bufferSize: nat, io: Io): (Adapter, Answer) {
    if !a.streaming || a.fd < 0 || bufferFd < 0 || bufferSize < a.bufferSize || !io.fenceOk then (a, Refused)
    else
      var free := FirstFree(a.slots, 0);
      if free.None? then (a, Spent)
      else
        var k := free.value;
        var index := a.slots[k].index;
        if !io.qbufOk || index < 0 || index in a.kernel.held then
          (a.(slots := a.slots[k := FreeSlot(index)]), Spent)
        else
          var kernel := a.kernel.(held := a.kernel.held[index := bufferFd]);
          if !a.deviceStreaming && !io.streamOnOk then
            (a.(slots := a.slots[k := FreeSlot(index)], kernel := kernel), Spent)
          else
            (a.(slots := a.slots[k := Slot(index, token, bufferFd, bufferSize, true)],
                deviceStreaming := true, kernel := kernel.(on := true)), Queued)
  }

  /** Queues the buffers from the i-th on under the tokens from next on: the adapter and the next
      token that this leaves, and the tokens answered unless one buffer is refused. */
  function QueueBuffers(a: Adapter, next: nat, targets: seq<Target>, ios: seq<Io>, i: nat)
    : (Adapter, nat, Option<seq<nat>>)
    requires |ios| == |targets|
    decreases |targets| - i
  {
    if i >= |targets| then (a, next, Some([]))
    else
      var (a1, answer) := QueueCapture(a, next, targets[i].bufferFd, targets[i].bufferSize, ios[i]);
      var next1 := if answer.Refused? then next else next + 1;
      if !answer.Queued? then (a1, next1, None)
      else
        var (a2, next2, rest) := QueueBuffers(a1, next1, targets, ios, i + 1);
        (a2, next2, if rest.None? then None else Some([next] + rest.value))
  }

  /** The position of the first slot with this index, at or after position i. */
  function SlotForIndex(slots: seq<Slot>, index: nat, i: nat): (position: Option<nat>)
    ensures position.Some? ==> i <= position.value < |slots| && slots[position.value].index == index
    ensures forall k :: i <= k < (if position.Some? then position.value else |slots|) ==> slots[k].index != index
    decreases |slots| - i
  {
    if i >= |slots| then None else if slots[i].index == index then Some(i) else SlotForIndex(slots, index, i + 1)
  }

  /** DQBUF hands back the index the kernel has chosen; without a choice there is nothing ready. */
  function Dequeue(a: Adapter, readyFd: int, choice: Option<nat>): (Adapter, Option<nat>) {
    if readyFd != a.fd || !a.deviceStreaming || a.fd < 0 then (a, None)
    else if choice.None? || choice.value !in a.kernel.held || !a.kernel.on then (a, None)
    else
      var index := choice.value;
      var a' := a.(kernel := a.kernel.(held := a.kernel.held - {index}));
      var slot := SlotForIndex(a.slots, index, 0);
      if slot.None? || !a.slots[slot.value].queued then (a', None)
      else (a'.(slots := a.slots[slot.value := FreeSlot(index)]), Some(a.slots[slot.value].token))
  }

  predicate Fits(a: Adapter, target: Target) {
    target.bufferFd >= 0 && target.bufferSize >= a.bufferSize
  }

  predicate CanSubmit(a: Adapter, targets: seq<Target>) {
    && a.streaming && a.fd >= 0 && |targets| <= FreeCount(a.slots)
    && forall i :: 0 <= i < |targets| ==> Fits(a, targets[i])
  }

  /* ---------------------------------- the table and the kernel ---------------------------------- */

  predicate SlotAgrees(a: Adapter, i: nat)
    requires i < |a.slots|
  {
    && a.slots[i].index == i
    && (a.slots[i].queued <==> i in a.kernel.held)
    && (a.slots[i].queued ==> a.kernel.held[i] == a.slots[i].bufferFd)
  }

  /** The table and the kernel agree on which indices are queued and with which dma-buf. */
  predicate Agrees(a: Adapter) {
    && (forall i :: 0 <= i < |a.slots| ==> SlotAgrees(a, i))
    && (forall i :: i in a.kernel.held ==> i < |a.slots|)
    && a.deviceStreaming == a.kernel.on
    && (!a.deviceStreaming ==> a.kernel.held == map[])
    && (a.streaming || a.deviceStreaming ==> a.fd >= 0)
  }

  /** One queueing attempt keeps the table and the kernel in agreement exactly when STREAMON does not
      fail after a successful QBUF. */
  lemma QueueAgreesExactlyWhen(a: Adapter, token: nat, bufferFd: int, bufferSize: nat, io: Io)
    requires Agrees(a)
    ensures var (a', answer) := QueueCapture(a, token, bufferFd, bufferSize, io);
            var queues := a.streaming && bufferFd >= 0 && bufferSize >= a.bufferSize && io.fenceOk
                          && FirstFree(a.slots, 0).Some? && io.qbufOk;
            && (answer.Queued? <==> queues && (a.deviceStreaming || io.streamOnOk))
            && (Agrees(a') <==> !(queues && !a.deviceStreaming && !io.streamOnOk))
  {
    var free := FirstFree(a.slots, 0);
    if free.Some? {
      assert SlotAgrees(a, free.value);
      var (a', answer) := QueueCapture(a, token, bufferFd, bufferSize, io);
      if answer.Queued? || !(io.qbufOk && !a.deviceStreaming && !io.streamOnOk) {
        forall i | 0 <= i < |a'.slots| ensures SlotAgrees(a', i) {
          assert SlotAgrees(a, i);
        }
      } else if a' != a {
        assert a'.slots[free.value].queued <==> false;
      }
    }
  }

  /** After a failed STREAMON the kernel holds the index of the first free slot, so QBUF refuses it:
      every later attempt fails in the same way, whatever the other calls answer, also after
      stop_streaming, which sends STREAMOFF only to a streaming device. */
  predicate Stuck(a: Adapter) {
    var free := FirstFree(a.slots, 0);
    && !a.deviceStreaming && free.Some?
    && a.slots[free.value].index >= 0 && a.slots[free.value].index in a.kernel.held
    && (forall i :: 0 <= i < |a.slots| ==> !a.slots[i].queued)
  }

  lemma FailedStreamOnSticks(a: Adapter, token: nat, bufferFd: int, bufferSize: nat, io: Io)
    requires Agrees(a) && !a.deviceStreaming
    requires !Agrees(QueueCapture(a, token, bufferFd, bufferSize, io).0)
    ensures Stuck(QueueCapture(a, token, bufferFd, bufferSize, io).0)
  {
    QueueAgreesExactlyWhen(a, token, bufferFd, bufferSize, io);
    var (a', _) := QueueCapture(a, token, bufferFd, bufferSize, io);
    var k := FirstFree(a.slots, 0).value;
    forall i | 0 <= i < |a.slots| ensures !a.slots[i].queued {
      assert SlotAgrees(a, i);
    }
    assert SlotAgrees(a, k);
    assert FirstFree(a'.slots, 0) == Some(0) && k == 0;
  }

  lemma StuckStaysStuck(a: Adapter, token: nat, bufferFd: int, bufferSize: nat, io: Io, streamOffOk: bool)
    requires Stuck(a)
    ensures var (a', answer) := QueueCapture(a, token, bufferFd, bufferSize, io);
            !answer.Queued? && Stuck(a')
    ensures Stuck(StopStreaming(a, streamOffOk))
    ensures Agrees(Close(a))
  {
    var (a', _) := QueueCapture(a, token, bufferFd, bufferSize, io);
    assert FirstFree(a.slots, 0) == Some(0);
    assert FirstFree(a'.slots, 0) == Some(0);
    assert FirstFree(StopStreaming(a, streamOffOk).slots, 0) == Some(0);
  }

  /** In agreement, DQBUF never hands back an unknown or unqueued index: the completion carries the
      token of the slot whose dma-buf the kernel held. */
  lemma DequeueFindsItsSlot(a: Adapter, choice: nat)
    requires Agrees(a) && a.deviceStreaming && choice in a.kernel.held
    ensures var (a', token) := Dequeue(a, a.fd, Some(choice));
            && choice < |a.slots| && token == Some(a.slots[choice].token)
            && a.slots[choice].queued && a.slots[choice].bufferFd == a.kernel.held[choice]
            && a' == a.(slots := a.slots[choice := FreeSlot(choice)],
                        kernel := a.kernel.(held := a.kernel.held - {choice}))
            && Agrees(a')
  {
    forall k | 0 <= k < |a.slots| ensures a.slots[k].index == k {
      assert SlotAgrees(a, k);
    }
    assert SlotAgrees(a, choice);
    var (a', _) := Dequeue(a, a.fd, Some(choice));
    forall i | 0 <= i < |a'.slots| ensures SlotAgrees(a', i) {
      assert SlotAgrees(a, i);
    }
  }

  lemma OtherOperationsAgree(a: Adapter, device: Option<Opened>, readyFd: int, choice: Option<nat>)
    requires Agrees(a)
    ensures Agrees(ConfigureStream(a, device)) && Agrees(StartStreaming(a)) && Agrees(Close(a))
    ensures Agrees(Dequeue(a, readyFd, choice).0)
  {
    forall i | 0 <= i < |a.slots| ensures SlotAgrees(StartStreaming(a), i) {
      assert SlotAgrees(a, i);
    }
    if choice.Some? && choice.value in a.kernel.held && a.deviceStreaming {
      DequeueFindsItsSlot(a, choice.value);
    }
  }

  /** stop_streaming keeps the table and the kernel in agreement exactly when STREAMOFF does not fail
      on a streaming device. */
  lemma StopAgreesExactlyWhen(a: Adapter, streamOffOk: bool)
    requires Agrees(a)
    ensures Agrees(StopStreaming(a, streamOffOk)) <==> streamOffOk || !a.deviceStreaming
  {
    forall i | 0 <= i < |a.slots| ensures a.slots[i].index == i && (a.slots[i].queued ==> i in a.kernel.held) {
      assert SlotAgrees(a, i);
    }
  }

  /** A failed STREAMOFF leaves the kernel with every index that was queued, while the slots are all free.
      It sticks as a failed STREAMON does exactly when the first slot was queued. */
  lemma FailedStreamOffSticksExactlyWhen(a: Adapter)
    requires Agrees(a) && a.deviceStreaming && a.slots != []
    ensures var a' := StopStreaming(a, false);
            && (forall i: nat :: i in a'.kernel.held <==> i < |a.slots| && a.slots[i].queued)
            && (Stuck(a') <==> a.slots[0].queued)
  {
    forall i: nat | i < |a.slots| ensures a.slots[i].index == i && (a.slots[i].queued <==> i in a.kernel.held) {
      assert SlotAgrees(a, i);
    }
    assert FirstFree(StopStreaming(a, false).slots, 0) == Some(0);
  }

  /** Of the attempts with a fitting buffer and system calls that succeed, on an adapter that streams, those
      fail that find no free slot, or whose first free slot has an index that the kernel still holds. */
  lemma AttemptFailsExactlyWhen(a: Adapter, token: nat, bufferFd: int, bufferSize: nat)
    requires Covered(a) && a.streaming && a.fd >= 0 && bufferFd >= 0 && bufferSize >= a.bufferSize
    ensures !QueueCapture(a, token, bufferFd, bufferSize, Io(true, true, true)).1.Queued?
            <==> forall i: nat :: i < |a.slots| && !a.slots[i].queued && (forall k: nat :: k < i ==> a.slots[k].queued)
                                  ==> i in a.kernel.held
  {
    forall i: nat | i < |a.slots| ensures a.slots[i].index == i {
      assert SlotCovered(a, i);
    }
    var free := FirstFree(a.slots, 0);
    if free.Some? {
      assert forall k: nat :: k < free.value ==> a.slots[k].queued;
    }
  }

  /* ---------------------------------- without any assumption ---------------------------------- */

  predicate SlotCovered(a: Adapter, i: nat)
    requires i < |a.slots|
  {
    && a.slots[i].index == i
    && (a.slots[i].queued ==> i in a.kernel.held && a.kernel.held[i] == a.slots[i].bufferFd)
  }

  /** Every queued slot stands for an index that the kernel holds with the dma-buf of the slot; the
      kernel may hold more. No failure of any call breaks this. */
  predicate Covered(a: Adapter) {
    forall i :: 0 <= i < |a.slots| ==> SlotCovered(a, i)
  }

  lemma AgreesIsCovered(a: Adapter)
    requires Agrees(a)
    ensures Covered(a)
  {
    forall i | 0 <= i < |a.slots| ensures SlotCovered(a, i) {
      assert SlotAgrees(a, i);
    }
  }

  lemma QueueKeepsCovered(a: Adapter, token: nat, bufferFd: int, bufferSize: nat, io: Io)
    requires Covered(a)
    ensures Covered(QueueCapture(a, token, bufferFd, bufferSize, io).0)
  {
    var a' := QueueCapture(a, token, bufferFd, bufferSize, io).0;
    forall i | 0 <= i < |a'.slots| ensures SlotCovered(a', i) {
      assert SlotCovered(a, i);
    }
  }

  /** A completion carries the token of the slot whose dma-buf the kernel held for the dequeued
      index; without a completion no slot changes. */
  lemma DequeueIsCovered(a: Adapter, readyFd: int, choice: Option<nat>)
    requires Covered(a)
    ensures var (a', token) := Dequeue(a, readyFd, choice);
            && Covered(a')
            && (token.None? ==> a'.slots == a.slots)
            && (token.Some? ==>
                  && choice.Some? && choice.value < |a.slots| && choice.value in a.kernel.held
                  && a.slots[choice.value].queued && token.value == a.slots[choice.value].token
                  && a.slots[choice.value].bufferFd == a.kernel.held[choice.value]
                  && a'.slots == a.slots[choice.value := FreeSlot(choice.value)])
  {
    var (a', token) := Dequeue(a, readyFd, choice);
    forall i | 0 <= i < |a.slots| ensures a.slots[i].index == i {
      assert SlotCovered(a, i);
    }
    if choice.Some? && choice.value < |a.slots| {
      assert SlotCovered(a, choice.value);
    }
    forall i | 0 <= i < |a'.slots| ensures SlotCovered(a', i) {
      assert SlotCovered(a, i);
    }
  }

  lemma OtherOperationsCovered(a: Adapter, device: Option<Opened>, streamOffOk: bool)
    requires Covered(a)
    ensures Covered(ConfigureStream(a, device)) && Covered(StartStreaming(a))
    ensures Covered(StopStreaming(a, streamOffOk)) && Covered(Close(a))
  {
    forall i | 0 <= i < |a.slots| ensures a.slots[i].index == i && SlotCovered(StartStreaming(a), i) {
      assert SlotCovered(a, i);
    }
  }

  /* ---------------------------------- counting free slots ---------------------------------- */

  lemma {:induction false} FreeCountSet(slots: seq<Slot>, k: nat, slot: Slot)
    requires k < |slots|
    ensures FreeCount(slots[k := slot])
            == FreeCount(slots) - (if slots[k].queued then 0 else 1) + (if slot.queued then 0 else 1)
    decreases |slots|
  {
    var last := |slots| - 1;
    if k < last {
      FreeCountSet(slots[..last], k, slot);
      assert slots[k := slot][..last] == slots[..last][k := slot];
    } else {
      assert slots[k := slot][..last] == slots[..last];
    }
  }

  lemma {:induction false} FreeCountPositive(slots: seq<Slot>)
    requires FreeCount(slots) > 0
    ensures exists k :: 0 <= k < |slots| && !slots[k].queued
  {
    if slots[|slots| - 1].queued {
      FreeCountPositive(slots[..|slots| - 1]);
      var k :| 0 <= k < |slots| - 1 && !slots[..|slots| - 1][k].queued;
      assert !slots[k].queued;
    }
  }

  /** With a free slot and system calls that succeed, a fitting dma-buf is queued in the first free
      slot under the token. */
  lemma QueueSucceeds(a: Adapter, token: nat, bufferFd: int, bufferSize: nat, io: Io)
    requires Agrees(a) && a.streaming && bufferFd >= 0 && bufferSize >= a.bufferSize
    requires io.fenceOk && io.qbufOk && io.streamOnOk
    requires FreeCount(a.slots) > 0
    ensures var (a', answer) := QueueCapture(a, token, bufferFd, bufferSize, io);
            && answer.Queued? && Agrees(a') && FreeCount(a'.slots) == FreeCount(a.slots) - 1
            && a'.streaming && a'.fd == a.fd && a'.bufferSize == a.bufferSize
  {
    FreeCountPositive(a.slots);
    QueueAgreesExactlyWhen(a, token, bufferFd, bufferSize, io);
    var k := FirstFree(a.slots, 0).value;
    assert SlotAgrees(a, k);
    FreeCountSet(a.slots, k, Slot(a.slots[k].index, token, bufferFd, bufferSize, true));
  }
}
