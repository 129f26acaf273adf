/**
 * The SCCB (I2C-compatible) register transport of the OV2640 driver:
 * which I2C transfers SCCB_Write and SCCB_Read issue, and how they turn
 * the HAL's transfer outcomes into a status code. The two functions use
 * opposite conventions: a write reports 1 on success, a read reports 0.
 */
module Sccb {
  /** HAL_StatusTypeDef: the outcome of one HAL I2C transfer. */
  datatype HalStatus = HalOk | HalError | HalBusy | HalTimeout

  /** 8-bit SCCB write address of the sensor (the 7-bit address 0x30 shifted left). */
  const WRITE_ADDRESS: bv16 := 0x60
  /** 8-bit SCCB read address: the write address with the read bit set. */
  const READ_ADDRESS: bv16 := 0x61

  /** One I2C master transfer as the HAL saw it, with its outcome. */
  datatype Transfer =
    | Transmit(device: bv16, bytes: seq<bv8>, status: HalStatus)
    | Receive(device: bv16, data: bv8, status: HalStatus)

  /** SCCB_Write issues a single 2-byte transmit of [address, value]. */
  function WriteTransfers(addr: bv8, value: bv8, tx: HalStatus): seq<Transfer> {
    [Transmit(WRITE_ADDRESS, [addr, value], tx)]
  }

  /** SCCB_Write's status: 1 when the transmit succeeded, 0 otherwise. */
  function WriteStatus(tx: HalStatus): (s: int)
    ensures s == 0 || s == 1
    ensures s == 1 <==> tx == HalOk
  {
    if tx == HalOk then 1 else 0
  }

  /**
   * SCCB_Read first transmits the register address; only if that succeeds
   * does it receive one byte from the read address.
   */
  function ReadTransfers(addr: bv8, tx: HalStatus, rx: HalStatus, data: bv8): (t: seq<Transfer>)
    ensures 1 <= |t| <= 2
    ensures t[0] == Transmit(WRITE_ADDRESS, [addr], tx)
    ensures |t| == 2 <==> tx == HalOk
    ensures |t| == 2 ==> t[1] == Receive(READ_ADDRESS, data, rx)
  {
    [Transmit(WRITE_ADDRESS, [addr], tx)] + if tx == HalOk then [Receive(READ_ADDRESS, data, rx)] else []
  }

  /** SCCB_Read's status: 2 when the address transmit failed, 1 when the receive failed, 0 on success. */
  function ReadStatus(tx: HalStatus, rx: HalStatus): (s: int)
    ensures s == 0 <==> tx == HalOk && rx == HalOk
    ensures s == 1 <==> tx == HalOk && rx != HalOk
    ensures s == 2 <==> tx != HalOk
  {
    if tx == HalOk then (if rx == HalOk then 0 else 1) else 2
  }

  /**
   * A read whose status is 2 attempted no receive at all; any other status
   * means the receive from the read address was attempted and its outcome
   * decided the status.
   */
  lemma ReceiveAttemptedIffAddressAcked(addr: bv8, tx: HalStatus, rx: HalStatus, data: bv8)
    ensures ReadStatus(tx, rx) == 2 <==>
            (forall k :: 0 <= k < |ReadTransfers(addr, tx, rx, data)| ==> !ReadTransfers(addr, tx, rx, data)[k].Receive?)
    ensures ReadStatus(tx, rx) != 2 ==>
            ReadTransfers(addr, tx, rx, data)[1].status == rx && (ReadStatus(tx, rx) == 0 <==> rx == HalOk)
  {
    if tx == HalOk {
      assert ReadTransfers(addr, tx, rx, data)[1].Receive?;
    }
  }

  /**
   * The two status conventions are inverted: for the same successful bus,
   * a write says 1 and a read says 0; on a failed transmit a write says 0
   * and a read says 2, so neither status can be tested with the other's
   * success value.
   */
  lemma StatusConventionsInverted(tx: HalStatus, rx: HalStatus)
    ensures WriteStatus(tx) == 1 <==> ReadStatus(tx, HalOk) == 0
    ensures ReadStatus(tx, rx) == 0 ==> WriteStatus(tx) == 1
    ensures WriteStatus(tx) == 0 <==> ReadStatus(tx, rx) == 2
  {
  }
}
