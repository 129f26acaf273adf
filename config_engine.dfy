/**
 * The register-program engine (OV2640_Configuration) and the bus it drives.
 *
 * The bus is seen at two levels. `ops` is the trace of SCCB register
 * operations and HAL delays the driver issues, in order: this is what the
 * engine's contract is about. `wire` records the underlying I2C transfers
 * together with the outcome the hardware reported; those outcomes, and
 * every byte read back from the sensor, are chosen by the hardware and are
 * left unconstrained.
 */
module ConfigEngine {
  import opened Sccb
  import opened RegisterTables
  import opened CTypes

  /** One operation the driver performs on the sensor. */
  datatype BusOp = Read(addr: bv8) | Write(addr: bv8, value: bv8) | Delay(ms: nat)

  /** Milliseconds the engine waits between a write and its read-back. */
  const SETTLE_MS: nat := 10

  /** The operations issued for one real entry: read, write, settle, read back. */
  function EntryOps(e: RegPair): seq<BusOp> {
    [Read(e.0), Write(e.0, e.1), Delay(SETTLE_MS), Read(e.0)]
  }

  /** Index of the first sentinel in `p`, or |p| when there is none. */
  function FirstSentinel(p: Program): (k: nat)
    ensures k <= |p|
    ensures k < |p| ==> p[k] == SENTINEL
    ensures forall m :: 0 <= m < k ==> p[m] != SENTINEL
  {
    if |p| == 0 || p[0] == SENTINEL then 0 else 1 + FirstSentinel(p[1..])
  }

  /** The trace of the engine over `p`: the entries before the first sentinel, in order. */
  function ProgramOps(p: Program): seq<BusOp> {
    if |p| == 0 || p[0] == SENTINEL then [] else EntryOps(p[0]) + ProgramOps(p[1..])
  }

  /** The register writes of a trace, in order. */
  function Writes(ops: seq<BusOp>): seq<RegPair> {
    if ops == [] then []
    else (if ops[0].Write? then [(ops[0].addr, ops[0].value)] else []) + Writes(ops[1..])
  }

  /** Registers that are read in a trace, in order. */
  function ReadAddrs(ops: seq<BusOp>): seq<bv8> {
    if ops == [] then []
    else (if ops[0].Read? then [ops[0].addr] else []) + ReadAddrs(ops[1..])
  }

  /** The write of one entry is that entry; its reads are of its register, twice. */
  lemma EntryOpsTrace(e: RegPair)
    ensures Writes(EntryOps(e)) == [e]
    ensures ReadAddrs(EntryOps(e)) == [e.0, e.0]
  {
    var last := [Read(e.0)];
    assert last[1..] == [];
    assert Writes(last) == [] && ReadAddrs(last) == [e.0];
    var settle := [Delay(SETTLE_MS)] + last;
    assert settle[1..] == last;
    assert Writes(settle) == [] && ReadAddrs(settle) == [e.0];
    var write := [Write(e.0, e.1)] + settle;
    assert write[1..] == settle;
    assert Writes(write) == [e] && ReadAddrs(write) == [e.0];
    var o := [Read(e.0)] + write;
    assert o[1..] == write;
    assert o == EntryOps(e);
  }

  lemma {:induction false} WritesAppend(a: seq<BusOp>, b: seq<BusOp>)
    ensures Writes(a + b) == Writes(a) + Writes(b)
  {
    if a != [] {
      assert (a + b)[1..] == a[1..] + b;
      WritesAppend(a[1..], b);
    } else {
      assert a + b == b;
    }
  }

  lemma {:induction false} ReadAddrsAppend(a: seq<BusOp>, b: seq<BusOp>)
    ensures ReadAddrs(a + b) == ReadAddrs(a) + ReadAddrs(b)
  {
    if a != [] {
      assert (a + b)[1..] == a[1..] + b;
      ReadAddrsAppend(a[1..], b);
    } else {
      assert a + b == b;
    }
  }

  /**
   * Entry k of the program (before the sentinel) produces exactly the
   * operations 4k .. 4k+3 of the trace: Read(a), Write(a, v), Delay(10),
   * Read(a); the trace holds four operations per entry and nothing else.
   */
  lemma {:induction false} ProgramOpsAt(p: Program, k: nat)
    requires k < FirstSentinel(p)
    ensures |ProgramOps(p)| == 4 * FirstSentinel(p)
    ensures ProgramOps(p)[4 * k .. 4 * k + 4] == EntryOps(p[k])
  {
    var rest := ProgramOps(p[1..]);
    assert ProgramOps(p) == EntryOps(p[0]) + rest;
    if k == 0 {
      if FirstSentinel(p[1..]) > 0 {
        ProgramOpsAt(p[1..], 0);
      } else {
        assert rest == [];
      }
    } else {
      ProgramOpsAt(p[1..], k - 1);
      assert p[1..][k - 1] == p[k];
      assert ProgramOps(p)[4 * k .. 4 * k + 4] == rest[4 * (k - 1) .. 4 * (k - 1) + 4];
    }
  }

  /**
   * The registers written are exactly the entries before the first
   * sentinel, in table order: nothing at or after the sentinel is written.
   */
  lemma {:induction false} ProgramWritesTable(p: Program)
    ensures Writes(ProgramOps(p)) == p[..FirstSentinel(p)]
  {
    if |p| == 0 || p[0] == SENTINEL {
    } else {
      ProgramWritesTable(p[1..]);
      WritesAppend(EntryOps(p[0]), ProgramOps(p[1..]));
      EntryOpsTrace(p[0]);
      assert p[..FirstSentinel(p)] == [p[0]] + p[1..][..FirstSentinel(p[1..])];
    }
  }

  /** Every entry before the sentinel has its register read twice: before the write and after it. */
  lemma {:induction false} ProgramReadsTable(p: Program)
    ensures |ReadAddrs(ProgramOps(p))| == 2 * FirstSentinel(p)
    ensures forall k :: 0 <= k < FirstSentinel(p) ==>
              ReadAddrs(ProgramOps(p))[2 * k] == p[k].0 && ReadAddrs(ProgramOps(p))[2 * k + 1] == p[k].0
  {
    if |p| == 0 || p[0] == SENTINEL {
    } else {
      ProgramReadsTable(p[1..]);
      ReadAddrsAppend(EntryOps(p[0]), ProgramOps(p[1..]));
      EntryOpsTrace(p[0]);
      var r := ReadAddrs(ProgramOps(p));
      forall k | 0 <= k < FirstSentinel(p) ensures r[2 * k] == p[k].0 && r[2 * k + 1] == p[k].0 {
        if k > 0 {
          assert p[k] == p[1..][k - 1];
        }
      }
    }
  }

  /**
   * Anything placed after a sentinel is never touched: the trace of
   * `body + [SENTINEL] + poison` is the trace of `body` alone.
   */
  lemma {:induction false} SentinelHidesPoison(body: Program, poison: Program)
    requires SENTINEL !in body
    ensures ProgramOps(body + [SENTINEL] + poison) == ProgramOps(body)
  {
    if body == [] {
      assert (body + [SENTINEL] + poison)[0] == SENTINEL;
    } else {
      assert (body + [SENTINEL] + poison)[1..] == body[1..] + [SENTINEL] + poison;
      assert body[0] in body;
      SentinelHidesPoison(body[1..], poison);
    }
  }

  /** One step of the engine at entry i, before the first sentinel. */
  lemma ProgramOpsStep(p: Program, i: nat)
    requires i < FirstSentinel(p)
    ensures ProgramOps(p[i..]) == EntryOps(p[i]) + ProgramOps(p[i + 1..])
  {
    assert p[i..][0] == p[i] && p[i..][1..] == p[i + 1..];
  }

  /** The engine stops at the first sentinel. */
  lemma ProgramOpsStop(p: Program, i: nat)
    requires i <= FirstSentinel(p) && i < |p| && p[i] == SENTINEL
    ensures i == FirstSentinel(p)
    ensures ProgramOps(p[i..]) == []
  {
    assert p[i..][0] == p[i];
  }

  /** On a well-formed program the engine runs through every entry but the last. */
  lemma WellFormedRunsWholeTable(p: Program)
    requires WellFormed(p)
    ensures FirstSentinel(p) == |p| - 1
    ensures Writes(ProgramOps(p)) == p[..|p| - 1]
  {
    assert EntryOk(p[FirstSentinel(p)]) || FirstSentinel(p) == |p| - 1;
    ProgramWritesTable(p);
  }

  /**
   * A well-formed program can be recovered from the engine's trace: two
   * well-formed programs with the same trace are the same program.
   */
  lemma TraceDeterminesTable(p: Program, q: Program)
    requires WellFormed(p) && WellFormed(q)
    requires ProgramOps(p) == ProgramOps(q)
    ensures p == q
  {
    WellFormedRunsWholeTable(p);
    WellFormedRunsWholeTable(q);
    assert p == p[..|p| - 1] + [SENTINEL];
    assert q == q[..|q| - 1] + [SENTINEL];
  }

  /**
   * The driver's view of the camera's control bus: the operations issued so
   * far and the I2C transfers they caused.
   */
  class SensorBus {
    var ops: seq<BusOp>
    var wire: seq<Transfer>

    constructor ()
      ensures ops == [] && wire == []
    {
      ops := [];
      wire := [];
    }

    /** SCCB_Write: one 2-byte transmit; the status is 1 iff the transmit succeeded. */
    method SccbWrite(addr: bv8, value: bv8) returns (status: int)
      modifies this
      ensures ops == old(ops) + [Write(addr, value)]
      ensures |wire| == |old(wire)| + 1
      ensures wire == old(wire) + WriteTransfers(addr, value, wire[|old(wire)|].status)
      ensures status == WriteStatus(wire[|old(wire)|].status)
    {
      var tx: HalStatus := *;  // outcome reported by HAL_I2C_Master_Transmit
      wire := wire + WriteTransfers(addr, value, tx);
      status := WriteStatus(tx);
      ops := ops + [Write(addr, value)];
    }

    /**
     * SCCB_Read: transmit the register address, then receive one byte only
     * if that succeeded; status 0 on success, 1 on a failed receive, 2 on a
     * failed address transmit. The byte returned is whatever the sensor sent;
     * `tx` and `rx` name the outcomes the hardware reported.
     */
    method SccbRead(addr: bv8) returns (status: int, data: bv8, ghost tx: HalStatus, ghost rx: HalStatus)
      modifies this
      ensures ops == old(ops) + [Read(addr)]
      ensures wire == old(wire) + ReadTransfers(addr, tx, rx, data)
      ensures status == ReadStatus(tx, rx)
    {
      var transmitted: HalStatus := *;  // outcome of the address transmit
      var received: HalStatus := *;     // outcome of the receive, when attempted
      data := *;                        // the byte the sensor answers with
      wire := wire + ReadTransfers(addr, transmitted, received, data);
      status := ReadStatus(transmitted, received);
      ops := ops + [Read(addr)];
      tx, rx := transmitted, received;
    }

    /** HAL_Delay. */
    method HalDelay(ms: nat)
      modifies this
      ensures ops == old(ops) + [Delay(ms)]
      ensures wire == old(wire)
    {
      ops := ops + [Delay(ms)];
    }

    /**
     * OV2640_Configuration: replay `p` up to its first sentinel. Each entry
     * is read, written, given 10 ms to settle and read back; a read-back
     * that differs from the value written is only reported on the debug
     * console, and the statuses of the bus calls are not looked at, so the
     * trace is the same whatever the hardware answers.
     */
    method Configuration(p: Program)
      requires FirstSentinel(p) < |p| && FirstSentinel(p) < 0x1_0000
      modifies this
      ensures ops == old(ops) + ProgramOps(p)
      ensures old(wire) <= wire
      ensures FirstSentinel(p) == 0 ==> wire == old(wire)
    {
      var i: uint16 := 0;  // `unsigned short i`; it never wraps, as the sentinel comes first
      while true
        invariant i <= FirstSentinel(p)
        invariant old(ops) + ProgramOps(p) == ops + ProgramOps(p[i..])
        invariant old(wire) <= wire
        invariant i == 0 ==> wire == old(wire)
        decreases FirstSentinel(p) - i
      {
        var regAddr, data := p[i].0, p[i].1;
        if regAddr == 0xff && data == 0xff {
          ProgramOpsStop(p, i);
          break;
        }
        ProgramOpsStep(p, i);
        ghost var before := ops;
        ghost var tx, rx;
        var readStatus, dataRead;
        readStatus, dataRead, tx, rx := SccbRead(regAddr);
        var writeStatus := SccbWrite(regAddr, data);
        HalDelay(SETTLE_MS);
        readStatus, dataRead, tx, rx := SccbRead(regAddr);
        if data != dataRead {
          // "SCCB write failure" goes to the debug console; the loop goes on.
        }
        assert ops == before + EntryOps(p[i]);
        i := i + 1;
      }
    }
  }
}
