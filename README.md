# OV2640 camera driver and capture loop — a Dafny model

This project models the core of the firmware for an STM32 Nucleo-F767ZI board
with an OV2640 camera. It covers two parts and proves properties of both.

- **The register-programming layer of the OV2640 driver** (`Src/ov2640.c`).
  - The constant register programs are tables of (address, value) pairs, each
    closed by the sentinel `{0xff, 0xff}`.
  - `OV2640_Configuration` replays a program over the SCCB bus. For each entry
    it reads the register, writes it, waits 10 ms and reads it back.
  - `SCCB_Write` and `SCCB_Read` turn the HAL's I2C outcomes into status codes.
  - The resolution selector and the brightness, contrast, saturation, special
    effect, light mode and white balance adjustments choose which programs and
    direct writes reach the sensor.
- **The capture loop of `main`** (`Src/main.c`).
  - The `mutex` latch arms on a released button and fires on the next press.
  - Each capture zero-fills `frameBuffer`, then the camera fills it.
  - A scan of the buffer looks for the JPEG start-of-image marker `FF D8`, then
    the end-of-image marker `FF D9` (ITU-T T.81, Annex B, section B.1.1.3,
    Table B.1). `bufferPointer` is a `uint16_t`.
  - The first `bufferPointer` bytes are sent over the serial port.
  - `firstNonZeroValue` is a linear search over the buffer.

The bus is modelled as a trace. `ConfigEngine.SensorBus.ops` lists the register
operations (`Read a`, `Write a v`, `Delay ms`). `wire` lists the I2C transfers
together with the outcome the hardware reported. Those outcomes and every byte
read back from the sensor are chosen by the hardware, so the model leaves them
unconstrained. The capture loop is the class `MainLoop.Firmware`; its fields are
the loop's globals and the frame buffer. Each poll is proved equal to a pure
state-transition function, and the properties are proved about that function.

Modules: `CTypes` (C integer ranges), `Sccb`, `RegisterTables`, `ConfigEngine`,
`ModeComposer`, `FrameScanner`, `MainLoop`.

The model follows these details of the code:

- The adjustment levels are the codes 0..4, not −2..+2. Codes 0, 1, 2 select the
  0, +1 and +2 tables; code 3 selects −1 and code 4 selects −2.
- A read-back mismatch is not recorded in any report. It only produces a debug
  message, and the statuses returned by the bus functions are discarded.
- The engine reads each register once before it writes it, as well as after.
- The scan loop at `Src/main.c:361` is commented out in the code. As shipped,
  the scan body runs once per capture from pointer 0, and its `break`s at lines
  381 and 386 leave the main loop at line 352.
- There is no aborted state. With line 361 restored, an overrun of the scan
  would still send `bufferPointer` bytes and leave `headerFound` set; the
  shipped build never reaches the bound, because its single pass stops at
  pointer 1, or at pointer 2 when a stale header flag meets FF D9 and `main`
  returns.

## Model

| member | source | states |
|---|---|---|
| `Sccb.WriteStatus` | Src/ov2640.c:1222-1239 | the write status is 0 or 1, and 1 exactly when the transmit returned HAL_OK |
| `Sccb.ReadTransfers` | Src/ov2640.c:1247-1267 | a read transmits the address to 0x60, then receives one byte from 0x61 if and only if that transmit succeeded |
| `Sccb.ReadStatus` | Src/ov2640.c:1247-1267 | the read status is 0 when both steps succeed, 1 when only the receive fails, 2 when the address transmit fails (each an if-and-only-if) |
| `Sccb.ReceiveAttemptedIffAddressAcked` | Src/ov2640.c:1253-1263 | status 2 means no receive was attempted; any other status comes from the receive's outcome |
| `Sccb.StatusConventionsInverted` | Src/ov2640.c:1222-1267 | write and read use opposite success values: 1 for a write, 0 for a read; a failed transmit gives 0 and 2 |
| `RegisterTables.JpegInitWellFormed` | Src/ov2640.c:642-691 | the JPEG initialisation program ends with the sentinel, holds it nowhere else, and selects only bank 0 or 1 |
| `RegisterTables.BaselineWellFormed` | Src/ov2640.c:693-703 | the same for the YUV422 and JPEG programs |
| `RegisterTables.Res160WellFormed` | Src/ov2640.c:705-716 | the same for the 160x120 program |
| `RegisterTables.Res320WellFormed` | Src/ov2640.c:717-728 | the same for the 320x240 program |
| `RegisterTables.Res640WellFormed` | Src/ov2640.c:730-742 | the same for the 640x480 program |
| `RegisterTables.Res800WellFormed` | Src/ov2640.c:744-756 | the same for the 800x600 program |
| `RegisterTables.Res1024WellFormed` | Src/ov2640.c:757-768 | the same for the 1024x768 program |
| `RegisterTables.Res1280WellFormed` | Src/ov2640.c:769-780 | the same for the 1280x960 program |
| `RegisterTables.AdjustmentsWellFormed` | Src/ov2640.c:782-846 | the same for the contrast, saturation and brightness programs |
| `RegisterTables.EffectsWellFormed` | Src/ov2640.c:847-896 | the same for the special-effect and light-mode programs |
| `RegisterTables.AllProgramsWellFormed` | Src/ov2640.c:642-896 | every one of the 36 programs the driver hands to the engine is well formed |
| `RegisterTables.PrefixKeepsWellFormed` | Src/ov2640.c:642-691 | real entries placed in front of a well-formed program keep it well formed |
| `ConfigEngine.FirstSentinel` | Src/ov2640.c:1020-1025 | the index where the engine stops: a sentinel, with no sentinel before it |
| `ConfigEngine.EntryOps` | Src/ov2640.c:1026-1033 | the four operations of one entry: read, write, 10 ms settle, read back; characterised by `EntryOpsTrace` |
| `ConfigEngine.ProgramOps` | Src/ov2640.c:1016-1042 | the engine's trace over a program, stopping at the first sentinel; characterised by `ProgramOpsAt`, `ProgramWritesTable`, `ProgramReadsTable`, `SentinelHidesPoison` and `TraceDeterminesTable` |
| `ConfigEngine.EntryOpsTrace` | Src/ov2640.c:1026-1033 | one entry writes exactly that entry and reads its register twice |
| `ConfigEngine.ProgramOpsAt` | Src/ov2640.c:1018-1041 | the trace has four operations per entry before the sentinel; entry k produces operations 4k..4k+3: Read(a), Write(a, v), Delay(10), Read(a) |
| `ConfigEngine.ProgramWritesTable` | Src/ov2640.c:1018-1041 | the registers written are exactly the entries before the first sentinel, in table order |
| `ConfigEngine.ProgramReadsTable` | Src/ov2640.c:1026-1033 | every entry's register is read before and after its write |
| `ConfigEngine.SentinelHidesPoison` | Src/ov2640.c:1023-1025 | entries after a sentinel are never read or written |
| `ConfigEngine.WellFormedRunsWholeTable` | Src/ov2640.c:1016-1042 | on a well-formed program the engine writes every entry but the sentinel |
| `ConfigEngine.TraceDeterminesTable` | Src/ov2640.c:1016-1042 | two well-formed programs with the same trace are the same program |
| `ConfigEngine.SensorBus.SccbWrite` | Src/ov2640.c:1222-1239 | records Write(a, v) and one transmit; the status follows WriteStatus for whatever outcome the hardware gave |
| `ConfigEngine.SensorBus.SccbRead` | Src/ov2640.c:1247-1267 | records Read(a) and the transfers of ReadTransfers; the status follows ReadStatus; the byte read is unconstrained |
| `ConfigEngine.SensorBus.Configuration` | Src/ov2640.c:1016-1042 | the new trace is the old one followed by ProgramOps(p), whatever the sensor answers; mismatches and statuses change nothing; a program that starts with the sentinel causes no I2C transfer |
| `ModeComposer.ResolutionConfigurationOps` | Src/ov2640.c:969-1009 | the trace of a resolution change for an option; characterised by `ResolutionConfigurationWrites` and `ResolutionConfiguration` |
| `ModeComposer.ResolutionOptionsOps` | Src/ov2640.c:938-963 | the trace of a resolution change for a resolution code; characterised by `ResolutionOptionsSelect` and `ResolutionOptions` |
| `ModeComposer.ResolutionOption` | Src/ov2640.c:938-963 | a recognised code selects the option at its position in [15533, 15534, 15535, 25535, 45535, 65535]; any other code selects option 1 |
| `ModeComposer.ResolutionOptionsSelect` | Src/ov2640.c:938-963 | the six codes give six different traces, and every unrecognised code gives the trace of 15534 |
| `ModeComposer.ResolutionTable` | Src/ov2640.c:982-1004 | options 0..5 select the six resolution programs in order; any other option selects 320x240 |
| `ModeComposer.ResolutionTablesWellFormed` | Src/ov2640.c:705-780 | the six resolution programs are well formed |
| `ModeComposer.ResolutionTablesDistinct` | Src/ov2640.c:705-780 | the six resolution programs are pairwise different |
| `ModeComposer.ModeSwitchTrace` | Src/ov2640.c:977-980 | the direct operations write (0xff, 0x01) and then (0x15, 0x00), and read nothing |
| `ModeComposer.ResolutionConfigurationWrites` | Src/ov2640.c:969-1009 | a resolution change writes all of JPEG_INIT, YUV422 and JPEG, then the two direct writes, then all of exactly one resolution program, and nothing else |
| `ModeComposer.ApplyBaseline` | Src/ov2640.c:974-980 | the option-independent part: three programs in fixed order, Delay(10), Write(0xff, 1), Delay(10), Write(0x15, 0) |
| `ModeComposer.ResolutionConfiguration` | Src/ov2640.c:969-1009 | the new trace is the baseline followed by the chosen resolution program |
| `ModeComposer.ResolutionOptions` | Src/ov2640.c:938-963 | the new trace is that of ResolutionConfiguration for the code's option |
| `ModeComposer.LevelStep` | Src/ov2640.c:1102-1119 | codes 0..4 and only they are accepted; codes 0, 1, 2 are the steps 0, +1, +2 and codes 3, 4 the steps −1, −2 |
| `ModeComposer.LevelCode` | Src/ov2640.c:1102-1119 | every step −2..+2 has a code in 0..4 |
| `ModeComposer.LevelCodeRoundTrip` | Src/ov2640.c:1102-1119 | LevelStep and LevelCode are inverse bijections between codes 0..4 and steps −2..+2 |
| `ModeComposer.BrightnessProgram` | Src/ov2640.c:1102-1119 | exactly the codes 0..4 select a table, the brightness table of the code's step; the table is well formed |
| `ModeComposer.ContrastProgram` | Src/ov2640.c:1170-1187 | the same for contrast |
| `ModeComposer.SaturationProgram` | Src/ov2640.c:1147-1164 | the same for saturation |
| `ModeComposer.SpecialEffectProgram` | Src/ov2640.c:1048-1070 | exactly the codes 0..7 select a table: antique, bluish, greenish, reddish, black, negative, black-negative, normal |
| `ModeComposer.StepTablesDistinct` | Src/ov2640.c:782-846 | the five tables of each adjustment are pairwise different |
| `ModeComposer.AdjustmentsDistinguishLevels` | Src/ov2640.c:1102-1187 | two different accepted levels never produce the same brightness, contrast or saturation trace |
| `ModeComposer.EffectTablesDistinct` | Src/ov2640.c:847-878 | the eight effect tables are pairwise different |
| `ModeComposer.SpecialEffectsDistinguishCodes` | Src/ov2640.c:1048-1070 | two different effect codes produce different traces |
| `ModeComposer.LightModeOps` | Src/ov2640.c:1125-1142 | code 0 gives automatic white balance, codes 1..4 the sunny, cloudy, office and home programs, any other code nothing |
| `ModeComposer.WhiteBalanceTraces` | Src/ov2640.c:1075-1096 | both helpers write (0xff, 0x00) then register 0xc7 with no read-back; advanced writes 0x00, simple writes 0x10 |
| `ModeComposer.Brightness` | Src/ov2640.c:1102-1119 | the new trace is the old one followed by the selected table's trace; for a code outside 0..4 neither the trace nor the I2C transfers change |
| `ModeComposer.Contrast` | Src/ov2640.c:1170-1187 | the same for contrast |
| `ModeComposer.Saturation` | Src/ov2640.c:1147-1164 | the same for saturation |
| `ModeComposer.SpecialEffect` | Src/ov2640.c:1048-1070 | the same for the effect codes 0..7 |
| `ModeComposer.LightMode` | Src/ov2640.c:1125-1142 | the new trace is the old one followed by LightModeOps(mode); for a code outside 0..4 no I2C transfer happens |
| `ModeComposer.Run` | Src/ov2640.c:1016-1042 | `OV2640_Configuration` on one of the driver's own (well-formed) tables: appends ProgramOps(p) |
| `ModeComposer.AdvancedWhiteBalance` | Src/ov2640.c:1075-1083 | appends Write(0xff, 0x00), Delay(1), Write(0xc7, 0x00) |
| `ModeComposer.SimpleWhiteBalance` | Src/ov2640.c:1088-1096 | appends Write(0xff, 0x00), Delay(1), Write(0xc7, 0x10) |
| `FrameScanner.ScanStep` | Src/main.c:363-388 | the scan body: an out-of-buffer read exactly when the buffer ends at p, or at p + 1 after an 0xFF byte; an end marker is honoured only if the header flag was set on entry and moves the pointer 2 on, mod 65536; otherwise the step stops at 65535 with the pointer left there, or advances by one |
| `FrameScanner.ScanFrom` | Src/main.c:361-388 | the loop of line 361 restored always breaks, and on a buffer longer than 65536 bytes it never reads outside it |
| `FrameScanner.ScanSeeksHeader` | Src/main.c:363-369 | with line 361 restored, before the header the scan skips to the first start marker and sets the flag |
| `FrameScanner.ScanSeeksEnd` | Src/main.c:372-382 | with line 361 restored and the flag set, the scan stops at the first end marker with pointer (j + 2) mod 65536 |
| `FrameScanner.ScanFindsFrame` | Src/main.c:361-388 | with line 361 restored, from the start the scan reports the first end marker after the first start marker; earlier end markers are ignored |
| `FrameScanner.ScanOverrunsWithHeader` | Src/main.c:384-388 | with line 361 restored and no end marker up to 65535, the scan stops at 65535 with the header flag still set |
| `FrameScanner.ScanOverrunsWithoutHeader` | Src/main.c:384-388 | with line 361 restored and no start marker up to 65535, the scan stops at 65535 |
| `FrameScanner.ScanRunsOffEnd` | Src/main.c:363-366 | with line 361 restored, on a buffer of at most 65535 bytes without 0xFF, the scan reads the byte just past the end |
| `FrameScanner.SmallBufferReadsPastEnd` | Src/main.c:99-102 | with line 361 restored, in the STM160x120 configuration an all-zero capture makes the scan read frameBuffer[57600] |
| `FrameScanner.ScanLengthWraps` | Src/main.c:376 | with line 361 restored, a 65536-byte frame from 0 to 65535 is reported with length 0 |
| `FrameScanner.ScanToCapacity` | Src/main.c:361-388 | the corrected scan reports only frames that end with an end marker and lie inside the buffer |
| `FrameScanner.ScanToCapacityFindsFrame` | Src/main.c:361-388 | the corrected scan reports length j + 2 for the first end marker j after the first start marker, for any buffer size |
| `FrameScanner.ScanToCapacityOverrun` | Src/main.c:384-388 | with the header set and no end marker, the corrected scan reports no frame |
| `FrameScanner.ScanToCapacityNoHeader` | Src/main.c:363-369 | without a start marker, the corrected scan reports no frame |
| `FrameScanner.SmallBufferHasNoFrame` | Src/main.c:99-102 | on the all-zero 57600-byte buffer the corrected scan reports no frame |
| `FrameScanner.CorrectedScanAgrees` | Src/main.c:361-388 | where the restored scan's bound and pointer width suffice, the corrected scan reports the same length |
| `FrameScanner.ShortFrame` | Src/main.c:361-388 | on FF D8 01 02 03 FF D9 00 00 both scans report length 7 |
| `MainLoop.FirstNonZeroValue` | Src/main.c:180-188 | −1 if and only if the first `size` bytes are all zero; otherwise the least index below `size` holding a non-zero byte |
| `MainLoop.Latch` | Src/main.c:411-414 | a poll that does not capture arms the latch when the button is released and changes nothing else |
| `MainLoop.Captured` | Src/main.c:359-360 | after a capture the buffer holds the camera's bytes from the start and zeros after them |
| `MainLoop.ShippedPoll` | Src/main.c:352-414 | one poll as shipped (single scan pass, `break` leaves main); characterised by `CaptureDisarms`, `HeldButtonCapturesAtMostOnce`, `ReleaseThenPressCaptures` and `ShippedCaptureSendsOneByte`, and implemented by `Firmware.Poll` |
| `MainLoop.LoopedPoll` | Src/main.c:352-414 | one poll with line 361 restored; characterised by `LoopedCaptureDeliversFrame`, `LoopedOverrunIsDelivered` and `StaleHeaderAcceptsEndWithoutStart` |
| `MainLoop.CorrectedPoll` | Src/main.c:352-414 | the corrected poll; characterised by `CorrectedCaptureDeliversFrame`, `CorrectedOverrunIsAborted` and `StaleHeaderAcceptsEndWithoutStart`, and implemented by `Firmware.PollCorrected` |
| `MainLoop.CaptureDisarms` | Src/main.c:399-400 | every capture clears the latch or ends the loop, and the pointer is 0 while the loop runs |
| `MainLoop.HeldButtonCapturesAtMostOnce` | Src/main.c:352-414 | a held button captures at most once, and never if held since boot |
| `MainLoop.ReleaseThenPressCaptures` | Src/main.c:354-414 | a released poll followed by a pressed poll captures |
| `MainLoop.ShippedCaptureSendsOneByte` | Src/main.c:361-400 | as shipped, a capture sends exactly one byte, unless a stale header flag meets a buffer starting FF D9; then main returns and nothing is sent |
| `MainLoop.LoopedCaptureDeliversFrame` | Src/main.c:361-400 | with line 361 restored, a frame of at most 65535 bytes is sent with its length |
| `MainLoop.LoopedOverrunIsDelivered` | Src/main.c:384-400 | with line 361 restored, a frame without an end marker is sent as 65535 bytes and the header flag stays set |
| `MainLoop.StaleHeaderAcceptsEndWithoutStart` | Src/main.c:363-382 | after that, the next capture accepts an end marker with no start marker; the corrected poll drops it |
| `MainLoop.CorrectedCaptureDeliversFrame` | Src/main.c:361-400 | the corrected poll sends the whole frame, wherever it ends in the buffer |
| `MainLoop.CorrectedOverrunIsAborted` | Src/main.c:384-400 | the corrected poll sends nothing for a frame without an end marker |
| `MainLoop.Firmware.constructor` | Src/main.c:149-151 | the globals start at 0 and the buffer is zero |
| `MainLoop.Firmware.ZeroFill` | Src/main.c:359 | every byte of the buffer becomes 0 |
| `MainLoop.Firmware.CaptureSnapshot` | Src/main.c:360 | the camera's bytes overwrite the start of the buffer |
| `MainLoop.Firmware.ScanBody` | Src/main.c:363-388 | one pass of the body on the buffer moves the globals exactly as ScanStep says |
| `MainLoop.Firmware.Poll` | Src/main.c:352-414 | a poll updates the globals and the outcome as ShippedPoll says, captures the image when triggered, and sends the first `bufferPointer` bytes when it delivers |
| `MainLoop.Firmware.PollCorrected` | Src/main.c:352-414 | the corrected poll, with its scan loop, follows CorrectedPoll |

## Left out

- HAL I/O is not modelled beyond its effect on the trace. I2C transfers, UART, GPIO and DCMI/DMA appear only as trace events or parameters. The 100 ms I2C timeout and the length of each delay in time are not modelled.
- The `__disable_irq` / `__enable_irq` critical sections in `SCCB_Write` and `SCCB_Read` are left out, because they concern interrupt concurrency.
- `OV2640_Init`, `OV2640_StopDCMI` and the DMA and 2 s wait of `OV2640_CaptureSnapshot` are left out because they are hardware sequencing. A capture is modelled as the camera's bytes, given as a parameter, landing at the start of the buffer.
- Debug output (`my_printf`) is left out. This includes the mismatch message in `OV2640_Configuration` and the message that prints `firstNonZeroValue`'s result after each capture. The loop calls `firstNonZeroValue` only to print that message, so `Poll` does not call it.
- `GUI_DrawImage` (the LCD) is left out. `HAL_UART_Transmit_DMA` is modelled as appending the bytes sent to `sent`.
- `STM_OV2640_ResolutionConfiguration` is not part of this model: its body is not among the sources.
- The `InitializationSequence` and `OV2640_LIGHT_MODE_AUTO` tables are never used by the code, so they are not modelled. The meaning of the register values is not modelled either.
- The 16-bit `mutex` and `headerFound` are modelled as booleans, because the code only ever stores 0 or 1 in them.
- After a `break` leaves the main loop, `main` returns to the startup code. The model treats every later poll as doing nothing.
- A scan comparison outside the buffer is undefined behaviour in C. The model stops there with the outcome `ReadPastBuffer`.
- The idempotence of replaying a program is not stated: the sensor's answers are unconstrained here, with no model of what the sensor stores.
- ConfigEngine.SensorBus.Configuration: requires the sentinel within the first 65536 entries. On a longer table the `unsigned short` counter would wrap, and the loop would restart from entry 0 forever. The requirement `FirstSentinel(p) < |p|` also excludes a table with no sentinel at all, on which the C loop reads past the end of the array; every table of the driver has one (`RegisterTables.AllProgramsWellFormed`).
- ConfigEngine.SensorBus.SccbRead: the byte it returns is unconstrained, so the mismatch test in `OV2640_Configuration` is modelled as having no effect, not by its outcome.

## Findings

| source | as written | input that shows it | evidently intended | confidence | as-written member | corrected member |
|---|---|---|---|---|---|---|
| Src/main.c:361 | the scan loop is commented out, so the body runs once per capture and its `break`s leave the main loop | any capture from the loop's state (pointer 0): it sends 1 byte, or returns from main if the stale header flag meets a buffer starting FF D9 | scan to the end marker and send the whole frame | not executed; high | `MainLoop.ShippedCaptureSendsOneByte` | `MainLoop.CorrectedCaptureDeliversFrame` |
| Src/main.c:376 | with line 361 restored, the frame length is kept in the `uint16_t bufferPointer`, so it is taken modulo 65536 | `FrameScanner.WrapWitness`: FF D8 at 0 and FF D9 at 65534 in the 230400-byte buffer gives length 0 for a 65536-byte frame | report the full length j + 2 | not executed; high; latent in the shipped build, as it needs line 361 restored | `FrameScanner.ScanLengthWraps` | `FrameScanner.ScanToCapacityFindsFrame` |
| Src/main.c:384 | with line 361 restored, the scan is bounded at 65535 whatever the buffer size, so its last comparison reads byte 65536 | STM160x120 configuration (57600-byte buffer) with an all-zero capture: the scan reads frameBuffer[57600] | bound the scan by the buffer's size | not executed; high; latent in the shipped build, as it needs line 361 restored | `FrameScanner.SmallBufferReadsPastEnd` | `FrameScanner.SmallBufferHasNoFrame` |
| Src/main.c:384-400 | reaching the bound still sends `bufferPointer` bytes and leaves `headerFound` set | with line 361 restored, FF D8 at 0 and no FF D9: 65535 bytes are sent, and the next capture accepts an FF D9 without FF D8 | drop a capture without a complete frame and reset the header flag | not executed; medium | `MainLoop.LoopedOverrunIsDelivered` | `MainLoop.CorrectedOverrunIsAborted` |
