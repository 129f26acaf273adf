/**
 * The polling loop of the firmware (Src/main.c:352-414): a button press
 * captures one frame into `frameBuffer`, which is then scanned for the JPEG
 * frame and sent over the serial port. The loop's state lives in the
 * globals `mutex`, `bufferPointer` and `headerFound` (Src/main.c:149-151).
 */
module MainLoop {
  import opened CTypes
  import opened FrameScanner

  /** Size of `frameBuffer` in the shipped configuration, STM320x240 (Src/main.c:95, 104-107). */
  const IMG_RES: nat := RES_STM320x240

  /**
   * firstNonZeroValue (Src/main.c:180-188): the first index below `size`
   * holding a non-zero byte, or -1 when there is none.
   */
  method FirstNonZeroValue(a: array<bv8>, size: int32) returns (r: int32)
    requires size <= a.Length
    ensures r == -1 <==> forall k :: 0 <= k < size ==> a[k] == 0
    ensures r != -1 ==> 0 <= r < size && a[r] != 0 && forall k :: 0 <= k < r ==> a[k] == 0
  {
    var i: int32 := 0;
    while i < size
      invariant 0 <= i && (i == 0 || i <= size)
      invariant forall k :: 0 <= k < i ==> a[k] == 0
    {
      if a[i] != 0 {
        return i;
      }
      i := i + 1;
    }
    return -1;
  }

  /** The globals the loop keeps between polls, and whether main is still looping. */
  datatype LoopState = LoopState(mutex: bool, bufferPointer: uint16, headerFound: bool, running: bool)

  /** The state at the first poll: every global is 0. */
  const BOOT: LoopState := LoopState(false, 0, false, true)

  /** What one poll does. */
  datatype PollOutcome =
    | Idle               // no capture
    | Delivered(length: nat)  // the first `length` bytes of the buffer are sent
    | Aborted            // no complete frame was found; nothing is sent
    | MainLoopLeft       // a `break` left the main loop: nothing is sent, main returns
    | ReadPastBuffer     // the scan read outside the buffer

  /** A poll captures only while the loop runs, the button is pressed and the latch is armed. */
  predicate Triggers(s: LoopState, pressed: bool) {
    s.running && pressed && s.mutex
  }

  /** A poll that does not capture: a released button arms the latch; nothing else changes. */
  function Latch(s: LoopState, pressed: bool): (t: LoopState)
    ensures t.mutex == (s.mutex || (s.running && !pressed))
    ensures t.bufferPointer == s.bufferPointer && t.headerFound == s.headerFound && t.running == s.running
  {
    if s.running && !pressed then s.(mutex := true) else s
  }

  /** The buffer after a capture: zero-filled, then the bytes the camera delivered from the start. */
  function Captured(image: seq<bv8>): (buf: seq<bv8>)
    requires |image| <= IMG_RES
    ensures |buf| == IMG_RES
    ensures buf[..|image|] == image
    ensures forall k :: |image| <= k < IMG_RES ==> buf[k] == 0
  {
    image + seq(IMG_RES - |image|, _ => 0)
  }

  /**
   * One poll as shipped. The loop at Src/main.c:361 is commented out, so
   * the scan body runs once per capture and its `break`s leave the main
   * loop itself, skipping the transmit and the resets.
   */
  function ShippedPoll(s: LoopState, pressed: bool, frame: seq<bv8>): (LoopState, PollOutcome) {
    if !Triggers(s, pressed) then (Latch(s, pressed), Idle)
    else
      var st := ScanStep(frame, s.bufferPointer, s.headerFound);
      if st.exit == Continue then (LoopState(false, 0, st.headerFound, true), Delivered(st.pointer))
      else if st.exit == ReadPastEnd then (s.(running := false), ReadPastBuffer)
      else (LoopState(s.mutex, st.pointer, st.headerFound, false), MainLoopLeft)
  }

  /**
   * One poll with the loop at Src/main.c:361 enabled and everything else as
   * written: the scan runs to a `break`, and whatever the pointer then
   * holds is sent, at the bound as well as at an end marker.
   */
  function LoopedPoll(s: LoopState, pressed: bool, frame: seq<bv8>): (LoopState, PollOutcome) {
    if !Triggers(s, pressed) then (Latch(s, pressed), Idle)
    else
      var st := ScanFrom(frame, s.bufferPointer, s.headerFound);
      if st.exit == ReadPastEnd then (s.(running := false), ReadPastBuffer)
      else (LoopState(false, 0, st.headerFound, true), Delivered(st.pointer))
  }

  /**
   * One poll as evidently intended: the whole buffer is scanned from its
   * start with a fresh header flag, a complete frame is sent with its full
   * length, a capture without one is dropped, and the capture state is
   * reset either way.
   */
  function CorrectedPoll(s: LoopState, pressed: bool, frame: seq<bv8>): (LoopState, PollOutcome) {
    if !Triggers(s, pressed) then (Latch(s, pressed), Idle)
    else
      var f := ScanToCapacity(frame, 0, false);
      (LoopState(false, 0, false, true), if f.Frame? then Delivered(f.length) else Aborted)
  }

  /** How many of the polls capture, as shipped; frames[k] is what a capture at poll k would yield. */
  function Captures(s: LoopState, polls: seq<bool>, frames: seq<seq<bv8>>): nat
    requires |frames| == |polls|
    decreases |polls|
  {
    if polls == [] then 0
    else
      (if Triggers(s, polls[0]) then 1 else 0) + Captures(ShippedPoll(s, polls[0], frames[0]).0, polls[1..], frames[1..])
  }

  /**
   * Every capture disarms the latch or ends the loop, and the pointer is 0
   * whenever the loop still runs: a capture returns it to 0, and only a
   * `break` leaves it elsewhere.
   */
  lemma CaptureDisarms(s: LoopState, pressed: bool, frame: seq<bv8>)
    requires Triggers(s, pressed)
    ensures var t := ShippedPoll(s, pressed, frame).0; !t.mutex || !t.running
    ensures var t := ShippedPoll(s, pressed, frame).0; t.running ==> t.bufferPointer == 0
    ensures var t := CorrectedPoll(s, pressed, frame).0; !t.mutex && t.running && t.bufferPointer == 0
  {
  }

  /**
   * Holding the button across any number of polls captures at most once,
   * and not at all unless the latch was armed on entry; in particular a
   * press held since boot captures nothing.
   */
  lemma {:induction false} HeldButtonCapturesAtMostOnce(s: LoopState, polls: seq<bool>, frames: seq<seq<bv8>>)
    requires |frames| == |polls|
    requires forall k :: 0 <= k < |polls| ==> polls[k]
    ensures Captures(s, polls, frames) <= (if s.mutex && s.running then 1 else 0)
    ensures s == BOOT ==> Captures(s, polls, frames) == 0
    decreases |polls|
  {
    if polls != [] {
      var t := ShippedPoll(s, polls[0], frames[0]).0;
      HeldButtonCapturesAtMostOnce(t, polls[1..], frames[1..]);
      if Triggers(s, polls[0]) {
        CaptureDisarms(s, polls[0], frames[0]);
      } else {
        assert t == s;
      }
    }
  }

  /** A released poll followed by a pressed poll always captures while the loop runs. */
  lemma ReleaseThenPressCaptures(s: LoopState, frame: seq<bv8>)
    requires s.running
    ensures Triggers(ShippedPoll(s, false, frame).0, true)
    ensures Triggers(CorrectedPoll(s, false, frame).0, true)
  {
  }

  /**
   * As shipped, a capture from the state the loop keeps (pointer 0) never
   * sends the frame: it sends exactly one byte, unless the header flag is
   * left set from an earlier capture and the new frame starts with FF D9,
   * in which case main returns and nothing is sent.
   */
  lemma ShippedCaptureSendsOneByte(s: LoopState, frame: seq<bv8>)
    requires s.running && s.mutex && s.bufferPointer == 0 && |frame| == IMG_RES
    ensures var (t, out) := ShippedPoll(s, true, frame);
            (out == Delivered(1) && t.running) <==> !(s.headerFound && MarkerAt(frame, 0, EOI))
    ensures var (t, out) := ShippedPoll(s, true, frame);
            out != Delivered(1) ==> out == MainLoopLeft && !t.running
  {
  }

  /** With the loop enabled, a frame of at most 65535 bytes is sent with its length. */
  lemma LoopedCaptureDeliversFrame(s: LoopState, frame: seq<bv8>, i: int, j: int)
    requires s.running && s.mutex && s.bufferPointer == 0 && !s.headerFound && |frame| == IMG_RES
    requires MarkerAt(frame, i, SOI) && forall k :: 0 <= k < i ==> !MarkerAt(frame, k, SOI)
    requires i < j && j + 2 < 0x1_0000 && MarkerAt(frame, j, EOI)
    requires forall k :: i < k < j ==> !MarkerAt(frame, k, EOI)
    ensures LoopedPoll(s, true, frame) == (LoopState(false, 0, false, true), Delivered(j + 2))
  {
    ScanFindsFrame(frame, i, j);
  }

  /**
   * With the loop enabled, a frame without an end marker is still sent as
   * 65535 bytes, and the header flag stays set for the next capture.
   */
  lemma LoopedOverrunIsDelivered(s: LoopState, frame: seq<bv8>)
    requires s.running && s.mutex && s.bufferPointer == 0 && |frame| == IMG_RES
    requires MarkerAt(frame, 0, SOI)
    requires forall k :: 0 <= k <= SCAN_LIMIT ==> !MarkerAt(frame, k, EOI)
    ensures LoopedPoll(s, true, frame) == (LoopState(false, 0, true, true), Delivered(0xFFFF))
  {
    if s.headerFound {
      ScanOverrunsWithHeader(frame, 0);
    } else {
      assert ScanStep(frame, 0, false) == Step(Continue, 1, true);
      ScanOverrunsWithHeader(frame, 1);
    }
  }

  /**
   * With the loop enabled, the stale header flag left by an overrun makes
   * the next capture accept an end marker without any start marker.
   */
  lemma StaleHeaderAcceptsEndWithoutStart(s: LoopState, frame: seq<bv8>, j: int)
    requires s.running && s.mutex && s.bufferPointer == 0 && s.headerFound && |frame| == IMG_RES
    requires forall k :: 0 <= k < IMG_RES ==> !MarkerAt(frame, k, SOI)
    requires j + 2 < 0x1_0000 && MarkerAt(frame, j, EOI) && forall k :: 0 <= k < j ==> !MarkerAt(frame, k, EOI)
    ensures LoopedPoll(s, true, frame).1 == Delivered(j + 2)
    ensures CorrectedPoll(s, true, frame).1 == Aborted
  {
    ScanSeeksEnd(frame, 0, j);
    ScanToCapacityNoHeader(frame, 0);
  }

  /**
   * The corrected poll sends the whole frame between the first start marker
   * and the first end marker after it, wherever it ends in the buffer; a
   * capture without a complete frame sends nothing.
   */
  lemma CorrectedCaptureDeliversFrame(s: LoopState, frame: seq<bv8>, i: int, j: int)
    requires s.running && s.mutex
    requires MarkerAt(frame, i, SOI) && forall k :: 0 <= k < i ==> !MarkerAt(frame, k, SOI)
    requires i < j && MarkerAt(frame, j, EOI)
    requires forall k :: i < k < j ==> !MarkerAt(frame, k, EOI)
    ensures CorrectedPoll(s, true, frame) == (LoopState(false, 0, false, true), Delivered(j + 2))
  {
    ScanToCapacityFindsFrame(frame, i, j);
  }

  /** The corrected poll drops a capture whose frame has a start marker but no end marker. */
  lemma CorrectedOverrunIsAborted(s: LoopState, frame: seq<bv8>, i: int)
    requires s.running && s.mutex
    requires MarkerAt(frame, i, SOI) && forall k :: 0 <= k < i ==> !MarkerAt(frame, k, SOI)
    requires forall k :: i < k ==> !MarkerAt(frame, k, EOI)
    ensures CorrectedPoll(s, true, frame) == (LoopState(false, 0, false, true), Aborted)
  {
    CapacitySeeksHeader(frame, 0, i);
    ScanToCapacityOverrun(frame, i + 1);
  }

  /** The firmware's globals and its frame buffer. */
  class Firmware {
    var mutex: bool
    var bufferPointer: uint16
    var headerFound: bool
    /** False once a `break` has left the main loop and main has returned. */
    var running: bool
    /** Everything sent over the serial port, one entry per transmission. */
    var sent: seq<seq<bv8>>
    const frameBuffer: array<bv8>

    /** The buffer has the configured size, and the pointer is 0 while the loop runs. */
    ghost predicate Valid()
      reads this
    {
      frameBuffer.Length == IMG_RES && (running ==> bufferPointer == 0)
    }

    function State(): LoopState
      reads this
    {
      LoopState(mutex, bufferPointer, headerFound, running)
    }

    /** The globals as the C runtime initialises them. */
    constructor ()
      ensures Valid() && State() == BOOT && sent == []
      ensures fresh(frameBuffer) && frameBuffer[..] == seq(IMG_RES, _ => 0)
    {
      mutex, bufferPointer, headerFound, running := false, 0, false, true;
      sent := [];
      frameBuffer := new bv8[IMG_RES](_ => 0);
    }

    /** memset(frameBuffer, 0, sizeof frameBuffer). */
    method ZeroFill()
      modifies frameBuffer
      ensures frameBuffer[..] == seq(frameBuffer.Length, _ => 0)
    {
      forall k | 0 <= k < frameBuffer.Length {
        frameBuffer[k] := 0;
      }
    }

    /** OV2640_CaptureSnapshot: the camera writes `image` at the start of the buffer. */
    method CaptureSnapshot(image: seq<bv8>)
      requires |image| <= frameBuffer.Length
      modifies frameBuffer
      ensures frameBuffer[..] == image + old(frameBuffer[..])[|image|..]
    {
      forall k | 0 <= k < |image| {
        frameBuffer[k] := image[k];
      }
    }

    /** The scan body at Src/main.c:363-388, run once. */
    method ScanBody() returns (exit: Exit)
      requires frameBuffer.Length == IMG_RES
      modifies this
      ensures Step(exit, bufferPointer, headerFound) == ScanStep(frameBuffer[..], old(bufferPointer), old(headerFound))
      ensures mutex == old(mutex) && running == old(running) && sent == old(sent)
    {
      var p := bufferPointer as int;
      if !headerFound && frameBuffer[p] == 0xFF && frameBuffer[p + 1] == 0xD8 {
        headerFound := true;
      }
      if headerFound && frameBuffer[p] == 0xFF && frameBuffer[p + 1] == 0xD9 {
        bufferPointer := (bufferPointer + 2) % 0x1_0000;
        headerFound := false;
        return EndOfImage;
      }
      if bufferPointer >= SCAN_LIMIT {
        return LimitReached;
      }
      bufferPointer := bufferPointer + 1;
      return Continue;
    }

    /**
     * One iteration of the main loop as shipped. Once a `break` has left
     * the loop, main has returned and later polls do nothing.
     */
    method Poll(pressed: bool, image: seq<bv8>) returns (outcome: PollOutcome)
      requires Valid() && |image| <= IMG_RES
      modifies this, frameBuffer
      ensures Valid()
      ensures (State(), outcome) == ShippedPoll(old(State()), pressed, frameBuffer[..])
      ensures frameBuffer[..] == if Triggers(old(State()), pressed) then Captured(image) else old(frameBuffer[..])
      ensures sent == old(sent) + if outcome.Delivered? then [frameBuffer[..outcome.length]] else []
    {
      outcome := Idle;
      if !running {
        return;
      }
      if pressed {
        if mutex {
          ZeroFill();
          CaptureSnapshot(image);
          assert frameBuffer[..] == Captured(image);
          var exit := ScanBody();
          if exit != Continue {
            running := false;
            outcome := MainLoopLeft;
            return;
          }
          sent := sent + [frameBuffer[..bufferPointer]];
          outcome := Delivered(bufferPointer);
          bufferPointer := 0;
          mutex := false;
        }
      } else {
        mutex := true;
      }
    }

    /**
     * One iteration of the main loop as evidently intended: the scan loop
     * restored, bounded by the buffer instead of 65535, with a length that
     * is not truncated, a fresh header flag per capture, and nothing sent
     * when no complete frame is found.
     */
    method PollCorrected(pressed: bool, image: seq<bv8>) returns (outcome: PollOutcome)
      requires Valid() && |image| <= IMG_RES
      modifies this, frameBuffer
      ensures Valid()
      ensures (State(), outcome) == CorrectedPoll(old(State()), pressed, frameBuffer[..])
      ensures frameBuffer[..] == if Triggers(old(State()), pressed) then Captured(image) else old(frameBuffer[..])
      ensures sent == old(sent) + if outcome.Delivered? then [frameBuffer[..outcome.length]] else []
    {
      outcome := Idle;
      if !running {
        return;
      }
      if pressed {
        if mutex {
          ZeroFill();
          CaptureSnapshot(image);
          assert frameBuffer[..] == Captured(image);
          ghost var goal := ScanToCapacity(frameBuffer[..], 0, false);
          var p: nat := 0;
          var found := false;
          outcome := Aborted;
          while p + 1 < frameBuffer.Length
            invariant ScanToCapacity(frameBuffer[..], p, found) == goal
            invariant outcome == Aborted
            decreases frameBuffer.Length - p
          {
            if !found && frameBuffer[p] == 0xFF && frameBuffer[p + 1] == 0xD8 {
              found := true;
            }
            if found && frameBuffer[p] == 0xFF && frameBuffer[p + 1] == 0xD9 {
              outcome := Delivered(p + 2);
              break;
            }
            p := p + 1;
          }
          assert outcome == if goal.Frame? then Delivered(goal.length) else Aborted;
          if outcome.Delivered? {
            sent := sent + [frameBuffer[..outcome.length]];
          }
          bufferPointer := 0;
          headerFound := false;
          mutex := false;
        }
      } else {
        mutex := true;
      }
    }
  }
}
