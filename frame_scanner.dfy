/**
 * The JPEG frame scan of the capture loop (Src/main.c:363-388): after a
 * capture, the frame buffer is searched pair by pair for the start-of-image
 * marker FF D8 and then for the end-of-image marker FF D9 (ITU-T T.81,
 * Annex B, section B.1.1.3, Table B.1). `bufferPointer` is a `uint16_t`,
 * so the length it reports is taken modulo 65536.
 */
module FrameScanner {
  import opened CTypes

  /** The byte that opens every JPEG marker. */
  const MARKER: bv8 := 0xFF
  /** Second byte of the start-of-image marker. */
  const SOI: bv8 := 0xD8
  /** Second byte of the end-of-image marker. */
  const EOI: bv8 := 0xD9

  /** The pointer value at which the scan stops instead of advancing. */
  const SCAN_LIMIT: uint16 := 0xFFFF

  // Frame buffer sizes of the two board configurations the lemmas use (Inc/STM_registers.h:13-14).
  const RES_STM160x120: nat := 160 * 120 * 3
  const RES_STM320x240: nat := 320 * 240 * 3

  /** The marker FF `code` occupies positions k and k + 1 of `buf`. */
  predicate MarkerAt(buf: seq<bv8>, k: int, code: bv8) {
    0 <= k && k + 1 < |buf| && buf[k] == MARKER && buf[k + 1] == code
  }

  /**
   * Whether the comparisons at position p read outside `buf`. The byte at
   * p is always compared; the byte at p + 1 only when the first is 0xFF,
   * since `&&` stops at the first false operand.
   */
  predicate ReadsPastEnd(buf: seq<bv8>, p: nat) {
    p >= |buf| || (p == |buf| - 1 && buf[p] == MARKER)
  }

  /** How one pass of the scan body ends. */
  datatype Exit =
    | Continue      // the pointer was advanced
    | EndOfImage    // `break` after an end marker
    | LimitReached  // `break` at the bound
    | ReadPastEnd   // a comparison would read outside the buffer

  datatype Step = Step(exit: Exit, pointer: uint16, headerFound: bool)

  /**
   * One pass of the scan body at pointer p. A start marker sets the header
   * flag; an end marker ends the frame only if the flag was already set on
   * entry (a start marker at p cannot also be an end marker), moving the
   * pointer past it with 16-bit wrap-around and clearing the flag; otherwise
   * the pointer stops at the bound or advances by one.
   */
  function ScanStep(buf: seq<bv8>, p: uint16, headerFound: bool): (s: Step)
    ensures s.exit == ReadPastEnd <==> ReadsPastEnd(buf, p)
    ensures s.exit == EndOfImage <==> !ReadsPastEnd(buf, p) && headerFound && MarkerAt(buf, p, EOI)
    ensures s.exit == LimitReached <==>
              !ReadsPastEnd(buf, p) && !(headerFound && MarkerAt(buf, p, EOI)) && p == SCAN_LIMIT
    ensures s.exit == EndOfImage ==> s.pointer == (p + 2) % 0x1_0000 && !s.headerFound
    ensures s.exit == Continue ==> s.pointer == p + 1
    ensures s.exit == LimitReached ==> s.pointer == p
    ensures s.exit == Continue || s.exit == LimitReached ==>
              s.headerFound == (headerFound || MarkerAt(buf, p, SOI))
    ensures s.exit == ReadPastEnd ==> s.pointer == p && s.headerFound == headerFound
  {
    if ReadsPastEnd(buf, p) then Step(ReadPastEnd, p, headerFound)
    else
      var found := headerFound || MarkerAt(buf, p, SOI);
      if found && MarkerAt(buf, p, EOI) then Step(EndOfImage, (p + 2) % 0x1_0000, false)
      else if p >= SCAN_LIMIT then Step(LimitReached, p, found)
      else Step(Continue, p + 1, found)
  }

  /**
   * What the scan would do if the `while (1)` at Src/main.c:361 were not
   * commented out: the body repeated until it breaks. On a buffer longer
   * than 65536 bytes it never reads outside the buffer.
   */
  function ScanFrom(buf: seq<bv8>, p: uint16, headerFound: bool): (s: Step)
    ensures s.exit != Continue
    ensures |buf| > 0x1_0000 ==> s.exit != ReadPastEnd
    ensures s.exit == LimitReached ==> s.pointer == SCAN_LIMIT
    decreases 0x1_0000 - p
  {
    var s := ScanStep(buf, p, headerFound);
    if s.exit == Continue then ScanFrom(buf, s.pointer, s.headerFound) else s
  }

  /** Before the header, the scan skips to the first start marker and sets the flag there. */
  lemma {:induction false} ScanSeeksHeader(buf: seq<bv8>, p: uint16, i: int)
    requires |buf| > 0x1_0000
    requires p <= i < SCAN_LIMIT && MarkerAt(buf, i, SOI)
    requires forall k :: p <= k < i ==> !MarkerAt(buf, k, SOI)
    ensures ScanFrom(buf, p, false) == ScanFrom(buf, i + 1, true)
    decreases i - p
  {
    if p < i {
      ScanSeeksHeader(buf, p + 1, i);
    }
  }

  /** With the header set, the scan stops at the first end marker and reports its end, modulo 65536. */
  lemma {:induction false} ScanSeeksEnd(buf: seq<bv8>, p: uint16, j: int)
    requires |buf| > 0x1_0000
    requires p <= j <= SCAN_LIMIT && MarkerAt(buf, j, EOI)
    requires forall k :: p <= k < j ==> !MarkerAt(buf, k, EOI)
    ensures ScanFrom(buf, p, true) == Step(EndOfImage, (j + 2) % 0x1_0000, false)
    decreases j - p
  {
    if p < j {
      ScanSeeksEnd(buf, p + 1, j);
    }
  }

  /**
   * Scanning from the start with the flag clear: if the first start marker
   * is at i and the first end marker after it at j <= 65535, the scan ends
   * the frame there with pointer (j + 2) mod 65536 and the flag cleared.
   * End markers before i are ignored.
   */
  lemma ScanFindsFrame(buf: seq<bv8>, i: int, j: int)
    requires |buf| > 0x1_0000
    requires MarkerAt(buf, i, SOI) && forall k :: 0 <= k < i ==> !MarkerAt(buf, k, SOI)
    requires i < j <= SCAN_LIMIT && MarkerAt(buf, j, EOI)
    requires forall k :: i < k < j ==> !MarkerAt(buf, k, EOI)
    ensures ScanFrom(buf, 0, false) == Step(EndOfImage, (j + 2) % 0x1_0000, false)
  {
    ScanSeeksHeader(buf, 0, i);
    ScanSeeksEnd(buf, i + 1, j);
  }

  /**
   * With the header set and no end marker up to the bound, the scan stops
   * at 65535 with the header flag still set: an overrun is not told apart
   * from a frame by the pointer, and the flag is not cleared.
   */
  lemma {:induction false} ScanOverrunsWithHeader(buf: seq<bv8>, p: uint16)
    requires |buf| > 0x1_0000
    requires forall k :: p <= k <= SCAN_LIMIT ==> !MarkerAt(buf, k, EOI)
    ensures ScanFrom(buf, p, true) == Step(LimitReached, SCAN_LIMIT, true)
    decreases 0x1_0000 - p
  {
    if p < SCAN_LIMIT {
      ScanOverrunsWithHeader(buf, p + 1);
    }
  }

  /** Without any start marker up to the bound, the scan stops at 65535 with the flag clear. */
  lemma {:induction false} ScanOverrunsWithoutHeader(buf: seq<bv8>, p: uint16)
    requires |buf| > 0x1_0000
    requires forall k :: p <= k <= SCAN_LIMIT ==> !MarkerAt(buf, k, SOI)
    ensures ScanFrom(buf, p, false) == Step(LimitReached, SCAN_LIMIT, false)
    decreases 0x1_0000 - p
  {
    if p < SCAN_LIMIT {
      ScanOverrunsWithoutHeader(buf, p + 1);
    }
  }

  /**
   * With the loop of line 361 restored, on a buffer of at most 65535 bytes
   * with no 0xFF byte from p on, the scan walks off the end: its last comparison reads the byte just past
   * the buffer.
   */
  lemma {:induction false} ScanRunsOffEnd(buf: seq<bv8>, p: uint16)
    requires |buf| <= SCAN_LIMIT && p <= |buf|
    requires forall k :: p <= k < |buf| ==> buf[k] != MARKER
    ensures ScanFrom(buf, p, false) == Step(ReadPastEnd, |buf|, false)
    decreases |buf| - p
  {
    if p < |buf| {
      ScanRunsOffEnd(buf, p + 1);
    }
  }

  /**
   * The buffer of the STM160x120 configuration holds 57600 bytes, below the
   * 65537 the bound assumes: with the loop of line 361 restored, when the
   * capture leaves it all zero the scan reads frameBuffer[57600], past its
   * end. The shipped single pass stops at pointer 1 and never gets there.
   */
  lemma SmallBufferReadsPastEnd()
    ensures ScanFrom(seq(RES_STM160x120, _ => 0), 0, false) == Step(ReadPastEnd, RES_STM160x120, false)
  {
    ScanRunsOffEnd(seq(RES_STM160x120, _ => 0), 0);
  }

  /** A 320x240 buffer holding one 65536-byte frame: FF D8 at 0 and FF D9 at 65534. */
  function WrapWitness(): (buf: seq<bv8>)
    ensures |buf| == RES_STM320x240
  {
    seq(RES_STM320x240, k => if k == 0 || k == 65534 then MARKER else if k == 1 then SOI else if k == 65535 then EOI else 0)
  }

  /** With the loop of line 361 restored, the frame of WrapWitness ends at byte 65536 but is reported with length 0. */
  lemma ScanLengthWraps()
    ensures MarkerAt(WrapWitness(), 0, SOI) && MarkerAt(WrapWitness(), 65534, EOI)
    ensures ScanFrom(WrapWitness(), 0, false) == Step(EndOfImage, 0, false)
  {
    var buf := WrapWitness();
    forall k | 0 < k < 65534 ensures !MarkerAt(buf, k, EOI) {
      assert buf[k] != MARKER;
    }
    ScanFindsFrame(buf, 0, 65534);
  }

  // ------------------------------------------------------------ corrected scan

  /** Result of the corrected scan: the length of the frame, or no complete frame. */
  datatype Frame = Frame(length: nat) | NoFrame

  /**
   * The scan as evidently intended: every adjacent pair inside the buffer
   * is inspected and nothing outside it, and the length is not truncated.
   * A reported frame ends with an end marker and lies within the buffer.
   */
  function ScanToCapacity(buf: seq<bv8>, p: nat, headerFound: bool): (f: Frame)
    ensures f.Frame? ==> p + 2 <= f.length <= |buf| && MarkerAt(buf, f.length - 2, EOI)
    decreases |buf| - p
  {
    if p + 1 >= |buf| then NoFrame
    else
      var found := headerFound || MarkerAt(buf, p, SOI);
      if found && MarkerAt(buf, p, EOI) then Frame(p + 2)
      else ScanToCapacity(buf, p + 1, found)
  }

  /** Before the header, the corrected scan skips to the first start marker. */
  lemma {:induction false} CapacitySeeksHeader(buf: seq<bv8>, p: nat, i: int)
    requires p <= i && MarkerAt(buf, i, SOI)
    requires forall k :: p <= k < i ==> !MarkerAt(buf, k, SOI)
    ensures ScanToCapacity(buf, p, false) == ScanToCapacity(buf, i + 1, true)
    decreases i - p
  {
    if p < i {
      CapacitySeeksHeader(buf, p + 1, i);
    }
  }

  /** With the header set, the corrected scan stops at the first end marker. */
  lemma {:induction false} CapacitySeeksEnd(buf: seq<bv8>, p: nat, j: int)
    requires p <= j && MarkerAt(buf, j, EOI)
    requires forall k :: p <= k < j ==> !MarkerAt(buf, k, EOI)
    ensures ScanToCapacity(buf, p, true) == Frame(j + 2)
    decreases j - p
  {
    if p < j {
      CapacitySeeksEnd(buf, p + 1, j);
    }
  }

  /**
   * The corrected scan finds the frame from the first start marker i to the
   * first end marker j after it, for any buffer size, and reports its full
   * length j + 2.
   */
  lemma ScanToCapacityFindsFrame(buf: seq<bv8>, i: int, j: int)
    requires MarkerAt(buf, i, SOI) && forall k :: 0 <= k < i ==> !MarkerAt(buf, k, SOI)
    requires i < j && MarkerAt(buf, j, EOI)
    requires forall k :: i < k < j ==> !MarkerAt(buf, k, EOI)
    ensures ScanToCapacity(buf, 0, false) == Frame(j + 2)
  {
    CapacitySeeksHeader(buf, 0, i);
    CapacitySeeksEnd(buf, i + 1, j);
  }

  /** With the header set and no end marker before the end of the buffer, the corrected scan reports no frame. */
  lemma {:induction false} ScanToCapacityOverrun(buf: seq<bv8>, p: nat)
    requires forall k :: p <= k ==> !MarkerAt(buf, k, EOI)
    ensures ScanToCapacity(buf, p, true) == NoFrame
    decreases |buf| - p
  {
    if p + 1 < |buf| {
      ScanToCapacityOverrun(buf, p + 1);
    }
  }

  /** Without a start marker, the corrected scan reports no frame, whatever end markers the buffer holds. */
  lemma {:induction false} ScanToCapacityNoHeader(buf: seq<bv8>, p: nat)
    requires forall k :: p <= k ==> !MarkerAt(buf, k, SOI)
    ensures ScanToCapacity(buf, p, false) == NoFrame
    decreases |buf| - p
  {
    if p + 1 < |buf| {
      ScanToCapacityNoHeader(buf, p + 1);
    }
  }

  /**
   * Where the restored scan is sound (a buffer longer than 65536 bytes
   * and a frame that ends before byte 65535) the corrected scan agrees
   * with it.
   */
  lemma CorrectedScanAgrees(buf: seq<bv8>, i: int, j: int)
    requires |buf| > 0x1_0000
    requires MarkerAt(buf, i, SOI) && forall k :: 0 <= k < i ==> !MarkerAt(buf, k, SOI)
    requires i < j && j + 2 < 0x1_0000 && MarkerAt(buf, j, EOI)
    requires forall k :: i < k < j ==> !MarkerAt(buf, k, EOI)
    ensures ScanFrom(buf, 0, false).exit == EndOfImage
    ensures ScanToCapacity(buf, 0, false) == Frame(ScanFrom(buf, 0, false).pointer)
  {
    ScanFindsFrame(buf, i, j);
    ScanToCapacityFindsFrame(buf, i, j);
  }

  /**
   * On the all-zero 57600-byte buffer of the STM160x120 configuration the
   * corrected scan stays inside the buffer and reports no frame.
   */
  lemma SmallBufferHasNoFrame()
    ensures ScanToCapacity(seq(RES_STM160x120, _ => 0), 0, false) == NoFrame
  {
    ScanToCapacityNoHeader(seq(RES_STM160x120, _ => 0), 0);
  }

  /** A 9-byte frame FF D8 01 02 03 FF D9 00 00: both scans report length 7. */
  lemma ShortFrame()
    ensures ScanFrom([0xFF, 0xD8, 0x01, 0x02, 0x03, 0xFF, 0xD9, 0x00, 0x00], 0, false) == Step(EndOfImage, 7, false)
    ensures ScanToCapacity([0xFF, 0xD8, 0x01, 0x02, 0x03, 0xFF, 0xD9, 0x00, 0x00], 0, false) == Frame(7)
  {
    var buf: seq<bv8> := [0xFF, 0xD8, 0x01, 0x02, 0x03, 0xFF, 0xD9, 0x00, 0x00];
    assert MarkerAt(buf, 0, SOI) && MarkerAt(buf, 5, EOI);
    ScanToCapacityFindsFrame(buf, 0, 5);
    assert !MarkerAt(buf, 1, EOI) && !MarkerAt(buf, 2, EOI) && !MarkerAt(buf, 3, EOI) && !MarkerAt(buf, 4, EOI);
    assert ScanFrom(buf, 1, true) == ScanFrom(buf, 2, true);
  }
}
