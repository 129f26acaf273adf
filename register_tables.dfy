/**
 * The sensor's register programs: constant tables of (address, value)
 * pairs, each closed by the sentinel pair (0xff, 0xff). The values are
 * sensor-specific data and are not interpreted here. Address 0xff is the
 * sensor's bank-select register, so real entries may use it with the
 * values 0x00 or 0x01, never with 0xff.
 */
module RegisterTables {
  /** One register transaction: (register address, value). */
  type RegPair = (bv8, bv8)

  /** A register program as stored in flash, sentinel included. */
  type Program = seq<RegPair>

  /** The terminator every program ends with. */
  const SENTINEL: RegPair := (0xff, 0xff)

  /** Address of the bank-select register. */
  const BANK_SELECT: bv8 := 0xff

  /** A real instruction: not the sentinel, and a bank select picks bank 0 or 1. */
  predicate EntryOk(e: RegPair) {
    e != SENTINEL && (e.0 == BANK_SELECT ==> e.1 == 0x00 || e.1 == 0x01)
  }

  /** Every entry of `s` is a real instruction. */
  predicate BodyOk(s: seq<RegPair>) {
    forall k :: 0 <= k < |s| ==> EntryOk(s[k])
  }

  /**
   * What the programming loop relies on: the sentinel occurs exactly once,
   * as the last entry; every bank select before it picks bank 0 or 1; and
   * the index of the sentinel fits the loop's `unsigned short` counter.
   */
  predicate WellFormed(p: Program) {
    && 0 < |p| <= 0x1_0000
    && p[|p| - 1] == SENTINEL
    && forall k :: 0 <= k < |p| - 1 ==> EntryOk(p[k])
  }

  /** OV2640_JPEG_INIT (Src/ov2640.c:642), 191 entries. */
  const JPEG_INIT: Program := JPEG_INIT_1 + JPEG_INIT_2 + JPEG_INIT_3 + JPEG_INIT_4 + JPEG_INIT_5

  // JPEG_INIT is stored as five consecutive runs of at most 40 entries, in table order,
  // so that the verifier can check each run on its own.
  const JPEG_INIT_1: seq<RegPair> := [
      (0xff, 0x00), (0x2c, 0xff), (0x2e, 0xdf), (0xff, 0x01), (0x3c, 0x32), (0x11, 0x00),
      (0x09, 0x02), (0x04, 0x28), (0x13, 0xe5), (0x14, 0x48), (0x2c, 0x0c), (0x33, 0x78),
      (0x3a, 0x33), (0x3b, 0xfb), (0x3e, 0x00), (0x43, 0x11), (0x16, 0x10), (0x39, 0x92),
      (0x35, 0xda), (0x22, 0x1a), (0x37, 0xc3), (0x23, 0x00), (0x34, 0xc0), (0x36, 0x1a),
      (0x06, 0x88), (0x07, 0xc0), (0x0d, 0x87), (0x0e, 0x41), (0x4c, 0x00), (0x48, 0x00),
      (0x5b, 0x00), (0x42, 0x03), (0x4a, 0x81), (0x21, 0x99), (0x24, 0x40), (0x25, 0x38),
      (0x26, 0x82), (0x5c, 0x00), (0x63, 0x00), (0x61, 0x70)
  ]
  const JPEG_INIT_2: seq<RegPair> := [
      (0x62, 0x80), (0x7c, 0x05), (0x20, 0x80), (0x28, 0x30), (0x6c, 0x00), (0x6d, 0x80),
      (0x6e, 0x00), (0x70, 0x02), (0x71, 0x94), (0x73, 0xc1), (0x12, 0x40), (0x17, 0x11),
      (0x18, 0x43), (0x19, 0x00), (0x1a, 0x4b), (0x32, 0x09), (0x37, 0xc0), (0x4f, 0x60),
      (0x50, 0xa8), (0x6d, 0x00), (0x3d, 0x38), (0x46, 0x3f), (0x4f, 0x60), (0x0c, 0x3c),
      (0xff, 0x00), (0xe5, 0x7f), (0xf9, 0xc0), (0x41, 0x24), (0xe0, 0x14), (0x76, 0xff),
      (0x33, 0xa0), (0x42, 0x20), (0x43, 0x18), (0x4c, 0x00), (0x87, 0xd5), (0x88, 0x3f),
      (0xd7, 0x03), (0xd9, 0x10), (0xd3, 0x82), (0xc8, 0x08)
  ]
  const JPEG_INIT_3: seq<RegPair> := [
      (0xc9, 0x80), (0x7c, 0x00), (0x7d, 0x00), (0x7c, 0x03), (0x7d, 0x48), (0x7d, 0x48),
      (0x7c, 0x08), (0x7d, 0x20), (0x7d, 0x10), (0x7d, 0x0e), (0x90, 0x00), (0x91, 0x0e),
      (0x91, 0x1a), (0x91, 0x31), (0x91, 0x5a), (0x91, 0x69), (0x91, 0x75), (0x91, 0x7e),
      (0x91, 0x88), (0x91, 0x8f), (0x91, 0x96), (0x91, 0xa3), (0x91, 0xaf), (0x91, 0xc4),
      (0x91, 0xd7), (0x91, 0xe8), (0x91, 0x20), (0x92, 0x00), (0x93, 0x06), (0x93, 0xe3),
      (0x93, 0x05), (0x93, 0x05), (0x93, 0x00), (0x93, 0x04), (0x93, 0x00), (0x93, 0x00),
      (0x93, 0x00), (0x93, 0x00), (0x93, 0x00), (0x93, 0x00)
  ]
  const JPEG_INIT_4: seq<RegPair> := [
      (0x93, 0x00), (0x96, 0x00), (0x97, 0x08), (0x97, 0x19), (0x97, 0x02), (0x97, 0x0c),
      (0x97, 0x24), (0x97, 0x30), (0x97, 0x28), (0x97, 0x26), (0x97, 0x02), (0x97, 0x98),
      (0x97, 0x80), (0x97, 0x00), (0x97, 0x00), (0xc3, 0xed), (0xa4, 0x00), (0xa8, 0x00),
      (0xc5, 0x11), (0xc6, 0x51), (0xbf, 0x80), (0xc7, 0x10), (0xb6, 0x66), (0xb8, 0xa5),
      (0xb7, 0x64), (0xb9, 0x7c), (0xb3, 0xaf), (0xb4, 0x97), (0xb5, 0xff), (0xb0, 0xc5),
      (0xb1, 0x94), (0xb2, 0x0f), (0xc4, 0x5c), (0xc0, 0x64), (0xc1, 0x4b), (0x8c, 0x00),
      (0x86, 0x3d), (0x50, 0x00), (0x51, 0xc8), (0x52, 0x96)
  ]
  const JPEG_INIT_5: seq<RegPair> := [
      (0x53, 0x00), (0x54, 0x00), (0x55, 0x00), (0x5a, 0xc8), (0x5b, 0x96), (0x5c, 0x00),
      (0xd3, 0x00), (0xc3, 0xed), (0x7f, 0x00), (0xda, 0x00), (0xe5, 0x1f), (0xe1, 0x67),
      (0xe0, 0x00), (0xdd, 0x7f), (0x05, 0x00), (0x12, 0x40), (0xd3, 0x04), (0xc0, 0x16),
      (0xc1, 0x12), (0x8c, 0x00), (0x86, 0x3d), (0x50, 0x00), (0x51, 0x2c), (0x52, 0x24),
      (0x53, 0x00), (0x54, 0x00), (0x55, 0x00), (0x5a, 0x2c), (0x5b, 0x24), (0x5c, 0x00),
      (0xff, 0xff)
  ]

  /** OV2640_YUV422 (Src/ov2640.c:693), 10 entries. */
  const YUV422: Program := [
      (0xff, 0x00), (0x05, 0x00), (0xda, 0x10), (0xd7, 0x03), (0xdf, 0x00), (0x33, 0x80),
      (0x3c, 0x40), (0xe1, 0x77), (0x00, 0x00), (0xff, 0xff)
  ]

  /** OV2640_JPEG (Src/ov2640.c:699), 9 entries. */
  const JPEG: Program := [
      (0xe0, 0x14), (0xe1, 0x77), (0xe5, 0x1f), (0xd7, 0x03), (0xda, 0x10), (0xe0, 0x00),
      (0xff, 0x01), (0x04, 0x08), (0xff, 0xff)
  ]

  /** OV2640_160x120_JPEG (Src/ov2640.c:705), 40 entries. */
  const RES_160x120: Program := [
      (0xff, 0x01), (0x12, 0x40), (0x17, 0x11), (0x18, 0x43), (0x19, 0x00), (0x1a, 0x4b),
      (0x32, 0x09), (0x4f, 0xca), (0x50, 0xa8), (0x5a, 0x23), (0x6d, 0x00), (0x39, 0x12),
      (0x35, 0xda), (0x22, 0x1a), (0x37, 0xc3), (0x23, 0x00), (0x34, 0xc0), (0x36, 0x1a),
      (0x06, 0x88), (0x07, 0xc0), (0x0d, 0x87), (0x0e, 0x41), (0x4c, 0x00), (0xff, 0x00),
      (0xe0, 0x04), (0xc0, 0x64), (0xc1, 0x4b), (0x86, 0x35), (0x50, 0x92), (0x51, 0xc8),
      (0x52, 0x96), (0x53, 0x00), (0x54, 0x00), (0x55, 0x00), (0x57, 0x00), (0x5a, 0x2c),
      (0x5b, 0x24), (0x5c, 0x00), (0xe0, 0x00), (0xff, 0xff)
  ]

  /** OV2640_320x240_JPEG (Src/ov2640.c:717), 40 entries. */
  const RES_320x240: Program := [
      (0xff, 0x01), (0x12, 0x40), (0x17, 0x11), (0x18, 0x43), (0x19, 0x00), (0x1a, 0x4b),
      (0x32, 0x09), (0x4f, 0xca), (0x50, 0xa8), (0x5a, 0x23), (0x6d, 0x00), (0x39, 0x12),
      (0x35, 0xda), (0x22, 0x1a), (0x37, 0xc3), (0x23, 0x00), (0x34, 0xc0), (0x36, 0x1a),
      (0x06, 0x88), (0x07, 0xc0), (0x0d, 0x87), (0x0e, 0x41), (0x4c, 0x00), (0xff, 0x00),
      (0xe0, 0x04), (0xc0, 0x64), (0xc1, 0x4b), (0x86, 0x35), (0x50, 0x89), (0x51, 0xc8),
      (0x52, 0x96), (0x53, 0x00), (0x54, 0x00), (0x55, 0x00), (0x57, 0x00), (0x5a, 0x50),
      (0x5b, 0x3c), (0x5c, 0x00), (0xe0, 0x00), (0xff, 0xff)
  ]

  /** OV2640_640x480_JPEG (Src/ov2640.c:730), 41 entries. */
  const RES_640x480: Program := [
      (0xff, 0x01), (0x11, 0x01), (0x12, 0x00), (0x17, 0x11), (0x18, 0x75), (0x32, 0x36),
      (0x19, 0x01), (0x1a, 0x97), (0x03, 0x0f), (0x37, 0x40), (0x4f, 0xbb), (0x50, 0x9c),
      (0x5a, 0x57), (0x6d, 0x80), (0x3d, 0x34), (0x39, 0x02), (0x35, 0x88), (0x22, 0x0a),
      (0x37, 0x40), (0x34, 0xa0), (0x06, 0x02), (0x0d, 0xb7), (0x0e, 0x01), (0xff, 0x00),
      (0xe0, 0x04), (0xc0, 0xc8), (0xc1, 0x96), (0x86, 0x3d), (0x50, 0x89), (0x51, 0x90),
      (0x52, 0x2c), (0x53, 0x00), (0x54, 0x00), (0x55, 0x88), (0x57, 0x00), (0x5a, 0xa0),
      (0x5b, 0x78), (0x5c, 0x00), (0xd3, 0x04), (0xe0, 0x00), (0xff, 0xff)
  ]

  /** OV2640_800x600_JPEG (Src/ov2640.c:744), 41 entries. */
  const RES_800x600: Program := [
      (0xff, 0x01), (0x11, 0x01), (0x12, 0x00), (0x17, 0x11), (0x18, 0x75), (0x32, 0x36),
      (0x19, 0x01), (0x1a, 0x97), (0x03, 0x0f), (0x37, 0x40), (0x4f, 0xbb), (0x50, 0x9c),
      (0x5a, 0x57), (0x6d, 0x80), (0x3d, 0x34), (0x39, 0x02), (0x35, 0x88), (0x22, 0x0a),
      (0x37, 0x40), (0x34, 0xa0), (0x06, 0x02), (0x0d, 0xb7), (0x0e, 0x01), (0xff, 0x00),
      (0xe0, 0x04), (0xc0, 0xc8), (0xc1, 0x96), (0x86, 0x35), (0x50, 0x89), (0x51, 0x90),
      (0x52, 0x2c), (0x53, 0x00), (0x54, 0x00), (0x55, 0x88), (0x57, 0x00), (0x5a, 0xc8),
      (0x5b, 0x96), (0x5c, 0x00), (0xd3, 0x02), (0xe0, 0x00), (0xff, 0xff)
  ]

  /** OV2640_1024x768_JPEG (Src/ov2640.c:757), 39 entries. */
  const RES_1024x768: Program := [
      (0xff, 0x01), (0x11, 0x01), (0x12, 0x00), (0x17, 0x11), (0x18, 0x75), (0x32, 0x36),
      (0x19, 0x01), (0x1a, 0x97), (0x03, 0x0f), (0x37, 0x40), (0x4f, 0xbb), (0x50, 0x9c),
      (0x5a, 0x57), (0x6d, 0x80), (0x3d, 0x34), (0x39, 0x02), (0x35, 0x88), (0x22, 0x0a),
      (0x37, 0x40), (0x34, 0xa0), (0x06, 0x02), (0x0d, 0xb7), (0x0e, 0x01), (0xff, 0x00),
      (0xc0, 0xc8), (0xc1, 0x96), (0x8c, 0x00), (0x86, 0x3d), (0x50, 0x00), (0x51, 0x90),
      (0x52, 0x2c), (0x53, 0x00), (0x54, 0x00), (0x55, 0x88), (0x5a, 0x00), (0x5b, 0xc0),
      (0x5c, 0x01), (0xd3, 0x02), (0xff, 0xff)
  ]

  /** OV2640_1280x960_JPEG (Src/ov2640.c:769), 41 entries. */
  const RES_1280x960: Program := [
      (0xff, 0x01), (0x11, 0x01), (0x12, 0x00), (0x17, 0x11), (0x18, 0x75), (0x32, 0x36),
      (0x19, 0x01), (0x1a, 0x97), (0x03, 0x0f), (0x37, 0x40), (0x4f, 0xbb), (0x50, 0x9c),
      (0x5a, 0x57), (0x6d, 0x80), (0x3d, 0x34), (0x39, 0x02), (0x35, 0x88), (0x22, 0x0a),
      (0x37, 0x40), (0x34, 0xa0), (0x06, 0x02), (0x0d, 0xb7), (0x0e, 0x01), (0xff, 0x00),
      (0xe0, 0x04), (0xc0, 0xc8), (0xc1, 0x96), (0x86, 0x3d), (0x50, 0x00), (0x51, 0x90),
      (0x52, 0x2c), (0x53, 0x00), (0x54, 0x00), (0x55, 0x88), (0x57, 0x00), (0x5a, 0x40),
      (0x5b, 0xf0), (0x5c, 0x01), (0xd3, 0x02), (0xe0, 0x00), (0xff, 0xff)
  ]

  /** OV2640_CONTRAST2 (Src/ov2640.c:782), 9 entries. */
  const CONTRAST2: Program := [
      (0xff, 0x00), (0x7c, 0x00), (0x7d, 0x04), (0x7c, 0x07), (0x7d, 0x20), (0x7d, 0x28),
      (0x7d, 0x0c), (0x7d, 0x06), (0xff, 0xff)
  ]

  /** OV2640_CONTRAST1 (Src/ov2640.c:787), 9 entries. */
  const CONTRAST1: Program := [
      (0xff, 0x00), (0x7c, 0x00), (0x7d, 0x04), (0x7c, 0x07), (0x7d, 0x20), (0x7d, 0x24),
      (0x7d, 0x16), (0x7d, 0x06), (0xff, 0xff)
  ]

  /** OV2640_CONTRAST0 (Src/ov2640.c:792), 9 entries. */
  const CONTRAST0: Program := [
      (0xff, 0x00), (0x7c, 0x00), (0x7d, 0x04), (0x7c, 0x07), (0x7d, 0x20), (0x7d, 0x20),
      (0x7d, 0x20), (0x7d, 0x06), (0xff, 0xff)
  ]

  /** OV2640_CONTRAST_1 (Src/ov2640.c:797), 9 entries. */
  const CONTRAST_MINUS1: Program := [
      (0xff, 0x00), (0x7c, 0x00), (0x7d, 0x04), (0x7c, 0x07), (0x7d, 0x20), (0x7d, 0x1c),
      (0x7d, 0x2a), (0x7d, 0x06), (0xff, 0xff)
  ]

  /** OV2640_CONTRAST_2 (Src/ov2640.c:802), 9 entries. */
  const CONTRAST_MINUS2: Program := [
      (0xff, 0x00), (0x7c, 0x00), (0x7d, 0x04), (0x7c, 0x07), (0x7d, 0x20), (0x7d, 0x18),
      (0x7d, 0x34), (0x7d, 0x06), (0xff, 0xff)
  ]

  /** OV2640_SATURATION2 (Src/ov2640.c:807), 7 entries. */
  const SATURATION2: Program := [
      (0xff, 0x00), (0x7c, 0x00), (0x7d, 0x02), (0x7c, 0x03), (0x7d, 0x68), (0x7d, 0x68),
      (0xff, 0xff)
  ]

  /** OV2640_SATURATION1 (Src/ov2640.c:811), 7 entries. */
  const SATURATION1: Program := [
      (0xff, 0x00), (0x7c, 0x00), (0x7d, 0x02), (0x7c, 0x03), (0x7d, 0x58), (0x7d, 0x68),
      (0xff, 0xff)
  ]

  /** OV2640_SATURATION0 (Src/ov2640.c:815), 7 entries. */
  const SATURATION0: Program := [
      (0xff, 0x00), (0x7c, 0x00), (0x7d, 0x02), (0x7c, 0x03), (0x7d, 0x48), (0x7d, 0x48),
      (0xff, 0xff)
  ]

  /** OV2640_SATURATION_1 (Src/ov2640.c:819), 7 entries. */
  const SATURATION_MINUS1: Program := [
      (0xff, 0x00), (0x7c, 0x00), (0x7d, 0x02), (0x7c, 0x03), (0x7d, 0x38), (0x7d, 0x38),
      (0xff, 0xff)
  ]

  /** OV2640_SATURATION_2 (Src/ov2640.c:823), 7 entries. */
  const SATURATION_MINUS2: Program := [
      (0xff, 0x00), (0x7c, 0x00), (0x7d, 0x02), (0x7c, 0x03), (0x7d, 0x28), (0x7d, 0x28),
      (0xff, 0xff)
  ]

  /** OV2640_BRIGHTNESS2 (Src/ov2640.c:827), 7 entries. */
  const BRIGHTNESS2: Program := [
      (0xff, 0x00), (0x7c, 0x00), (0x7d, 0x04), (0x7c, 0x09), (0x7d, 0x40), (0x7d, 0x00),
      (0xff, 0xff)
  ]

  /** OV2640_BRIGHTNESS1 (Src/ov2640.c:831), 7 entries. */
  const BRIGHTNESS1: Program := [
      (0xff, 0x00), (0x7c, 0x00), (0x7d, 0x04), (0x7c, 0x09), (0x7d, 0x30), (0x7d, 0x00),
      (0xff, 0xff)
  ]

  /** OV2640_BRIGHTNESS0 (Src/ov2640.c:835), 7 entries. */
  const BRIGHTNESS0: Program := [
      (0xff, 0x00), (0x7c, 0x00), (0x7d, 0x04), (0x7c, 0x09), (0x7d, 0x20), (0x7d, 0x00),
      (0xff, 0xff)
  ]

  /** OV2640_BRIGHTNESS_1 (Src/ov2640.c:839), 7 entries. */
  const BRIGHTNESS_MINUS1: Program := [
      (0xff, 0x00), (0x7c, 0x00), (0x7d, 0x04), (0x7c, 0x09), (0x7d, 0x10), (0x7d, 0x00),
      (0xff, 0xff)
  ]

  /** OV2640_BRIGHTNESS_2 (Src/ov2640.c:843), 7 entries. */
  const BRIGHTNESS_MINUS2: Program := [
      (0xff, 0x00), (0x7c, 0x00), (0x7d, 0x04), (0x7c, 0x09), (0x7d, 0x00), (0x7d, 0x00),
      (0xff, 0xff)
  ]

  /** OV2640_SPECIAL_EFFECTS_NORMAL (Src/ov2640.c:847), 7 entries. */
  const SPECIAL_EFFECTS_NORMAL: Program := [
      (0xff, 0x00), (0x7c, 0x00), (0x7d, 0x00), (0x7c, 0x05), (0x7d, 0x80), (0x7d, 0x80),
      (0xff, 0xff)
  ]

  /** OV2640_SPECIAL_EFFECTS_ANTIQUE (Src/ov2640.c:851), 7 entries. */
  const SPECIAL_EFFECTS_ANTIQUE: Program := [
      (0xff, 0x00), (0x7c, 0x00), (0x7d, 0x18), (0x7c, 0x05), (0x7d, 0x40), (0x7d, 0xa6),
      (0xff, 0xff)
  ]

  /** OV2640_SPECIAL_EFFECTS_BLACK_NEGATIVE (Src/ov2640.c:855), 7 entries. */
  const SPECIAL_EFFECTS_BLACK_NEGATIVE: Program := [
      (0xff, 0x00), (0x7c, 0x00), (0x7d, 0x58), (0x7c, 0x05), (0x7d, 0x80), (0x7d, 0x80),
      (0xff, 0xff)
  ]

  /** OV2640_SPECIAL_EFFECTS_BLUISH (Src/ov2640.c:859), 7 entries. */
  const SPECIAL_EFFECTS_BLUISH: Program := [
      (0xff, 0x00), (0x7c, 0x00), (0x7d, 0x18), (0x7c, 0x05), (0x7d, 0xa0), (0x7d, 0x40),
      (0xff, 0xff)
  ]

  /** OV2640_SPECIAL_EFFECTS_BLACK (Src/ov2640.c:863), 7 entries. */
  const SPECIAL_EFFECTS_BLACK: Program := [
      (0xff, 0x00), (0x7c, 0x00), (0x7d, 0x18), (0x7c, 0x05), (0x7d, 0x80), (0x7d, 0x80),
      (0xff, 0xff)
  ]

  /** OV2640_SPECIAL_EFFECTS_NEGATIVE (Src/ov2640.c:867), 7 entries. */
  const SPECIAL_EFFECTS_NEGATIVE: Program := [
      (0xff, 0x00), (0x7c, 0x00), (0x7d, 0x40), (0x7c, 0x05), (0x7d, 0x80), (0x7d, 0x80),
      (0xff, 0xff)
  ]

  /** OV2640_SPECIAL_EFFECTS_GREENISH (Src/ov2640.c:871), 7 entries. */
  const SPECIAL_EFFECTS_GREENISH: Program := [
      (0xff, 0x00), (0x7c, 0x00), (0x7d, 0x18), (0x7c, 0x05), (0x7d, 0x40), (0x7d, 0x40),
      (0xff, 0xff)
  ]

  /** OV2640_SPECIAL_EFFECTS_REDDISH (Src/ov2640.c:875), 7 entries. */
  const SPECIAL_EFFECTS_REDDISH: Program := [
      (0xff, 0x00), (0x7c, 0x00), (0x7d, 0x18), (0x7c, 0x05), (0x7d, 0x40), (0x7d, 0xc0),
      (0xff, 0xff)
  ]

  /** OV2640_LIGHT_MODE_SUNNY (Src/ov2640.c:882), 6 entries. */
  const LIGHT_MODE_SUNNY: Program := [
      (0xff, 0x00), (0xc7, 0x40), (0xcc, 0x5e), (0xcd, 0x41), (0xce, 0x54), (0xff, 0xff)
  ]

  /** OV2640_LIGHT_MODE_CLOUDY (Src/ov2640.c:886), 6 entries. */
  const LIGHT_MODE_CLOUDY: Program := [
      (0xff, 0x00), (0xc7, 0x40), (0xcc, 0x65), (0xcd, 0x41), (0xce, 0x4f), (0xff, 0xff)
  ]

  /** OV2640_LIGHT_MODE_OFFICE (Src/ov2640.c:890), 6 entries. */
  const LIGHT_MODE_OFFICE: Program := [
      (0xff, 0x00), (0xc7, 0x40), (0xcc, 0x52), (0xcd, 0x41), (0xce, 0x66), (0xff, 0xff)
  ]

  /** OV2640_LIGHT_MODE_HOME (Src/ov2640.c:894), 6 entries. */
  const LIGHT_MODE_HOME: Program := [
      (0xff, 0x00), (0xc7, 0x40), (0xcc, 0x42), (0xcd, 0x3f), (0xce, 0x71), (0xff, 0xff)
  ]

  /** The programs the resolution switch selects, indexed by option 0..5. */
  const RESOLUTION_PROGRAMS: seq<Program> :=
    [RES_160x120, RES_320x240, RES_640x480, RES_800x600, RES_1024x768, RES_1280x960]

  /** Every program of the driver that is ever handed to the programming loop. */
  const ALL_PROGRAMS: seq<Program> := [
    JPEG_INIT, YUV422, JPEG,
    RES_160x120, RES_320x240, RES_640x480, RES_800x600, RES_1024x768, RES_1280x960,
    CONTRAST2, CONTRAST1, CONTRAST0, CONTRAST_MINUS1, CONTRAST_MINUS2,
    SATURATION2, SATURATION1, SATURATION0, SATURATION_MINUS1, SATURATION_MINUS2,
    BRIGHTNESS2, BRIGHTNESS1, BRIGHTNESS0, BRIGHTNESS_MINUS1, BRIGHTNESS_MINUS2,
    SPECIAL_EFFECTS_NORMAL, SPECIAL_EFFECTS_ANTIQUE, SPECIAL_EFFECTS_BLACK_NEGATIVE,
    SPECIAL_EFFECTS_BLUISH, SPECIAL_EFFECTS_BLACK, SPECIAL_EFFECTS_NEGATIVE,
    SPECIAL_EFFECTS_GREENISH, SPECIAL_EFFECTS_REDDISH,
    LIGHT_MODE_SUNNY, LIGHT_MODE_CLOUDY, LIGHT_MODE_OFFICE, LIGHT_MODE_HOME
  ]

  /** A run of real instructions in front of a well-formed program keeps it well formed. */
  lemma {:induction false} PrefixKeepsWellFormed(body: seq<RegPair>, p: Program)
    requires BodyOk(body) && WellFormed(p) && |body| + |p| <= 0x1_0000
    ensures WellFormed(body + p)
  {
    var q := body + p;
    forall k | 0 <= k < |q| - 1 ensures EntryOk(q[k]) {
      if k < |body| { assert q[k] == body[k]; } else { assert q[k] == p[k - |body|]; }
    }
    assert q[|q| - 1] == p[|p| - 1];
  }

  /** Runs of real instructions concatenate. */
  lemma {:induction false} BodyAppend(a: seq<RegPair>, b: seq<RegPair>)
    requires BodyOk(a) && BodyOk(b)
    ensures BodyOk(a + b)
  {
    forall k | 0 <= k < |a + b| ensures EntryOk((a + b)[k]) {
      if k < |a| { assert (a + b)[k] == a[k]; } else { assert (a + b)[k] == b[k - |a|]; }
    }
  }

  /** The initialisation program is well formed, checked run by run. */
  lemma JpegInitWellFormed()
    ensures WellFormed(JPEG_INIT)
  {
    assert BodyOk(JPEG_INIT_1);
    assert BodyOk(JPEG_INIT_2);
    assert BodyOk(JPEG_INIT_3);
    assert BodyOk(JPEG_INIT_4);
    assert WellFormed(JPEG_INIT_5);
    BodyAppend(JPEG_INIT_1, JPEG_INIT_2);
    BodyAppend(JPEG_INIT_1 + JPEG_INIT_2, JPEG_INIT_3);
    BodyAppend(JPEG_INIT_1 + JPEG_INIT_2 + JPEG_INIT_3, JPEG_INIT_4);
    PrefixKeepsWellFormed(JPEG_INIT_1 + JPEG_INIT_2 + JPEG_INIT_3 + JPEG_INIT_4, JPEG_INIT_5);
  }

  /** The colour-format and JPEG-enable programs are well formed. */
  lemma BaselineWellFormed()
    ensures WellFormed(YUV422) && WellFormed(JPEG)
  {
  }

  // The six resolution programs, one lemma each to keep every proof small.
  lemma Res160WellFormed() ensures WellFormed(RES_160x120) {}
  lemma Res320WellFormed() ensures WellFormed(RES_320x240) {}
  lemma Res640WellFormed() ensures WellFormed(RES_640x480) {}
  lemma Res800WellFormed() ensures WellFormed(RES_800x600) {}
  lemma Res1024WellFormed() ensures WellFormed(RES_1024x768) {}
  lemma Res1280WellFormed() ensures WellFormed(RES_1280x960) {}

  /** The contrast, saturation and brightness programs are well formed. */
  lemma AdjustmentsWellFormed()
    ensures WellFormed(CONTRAST2) && WellFormed(CONTRAST1) && WellFormed(CONTRAST0)
    ensures WellFormed(CONTRAST_MINUS1) && WellFormed(CONTRAST_MINUS2)
    ensures WellFormed(SATURATION2) && WellFormed(SATURATION1) && WellFormed(SATURATION0)
    ensures WellFormed(SATURATION_MINUS1) && WellFormed(SATURATION_MINUS2)
    ensures WellFormed(BRIGHTNESS2) && WellFormed(BRIGHTNESS1) && WellFormed(BRIGHTNESS0)
    ensures WellFormed(BRIGHTNESS_MINUS1) && WellFormed(BRIGHTNESS_MINUS2)
  {
  }

  /** The special-effect and light-mode programs are well formed. */
  lemma EffectsWellFormed()
    ensures WellFormed(SPECIAL_EFFECTS_NORMAL) && WellFormed(SPECIAL_EFFECTS_ANTIQUE)
    ensures WellFormed(SPECIAL_EFFECTS_BLACK_NEGATIVE) && WellFormed(SPECIAL_EFFECTS_BLUISH)
    ensures WellFormed(SPECIAL_EFFECTS_BLACK) && WellFormed(SPECIAL_EFFECTS_NEGATIVE)
    ensures WellFormed(SPECIAL_EFFECTS_GREENISH) && WellFormed(SPECIAL_EFFECTS_REDDISH)
    ensures WellFormed(LIGHT_MODE_SUNNY) && WellFormed(LIGHT_MODE_CLOUDY)
    ensures WellFormed(LIGHT_MODE_OFFICE) && WellFormed(LIGHT_MODE_HOME)
  {
  }

  /** Every table of the driver satisfies the program invariant. */
  lemma AllProgramsWellFormed()
    ensures forall p <- ALL_PROGRAMS :: WellFormed(p)
  {
    JpegInitWellFormed();
    BaselineWellFormed();
    Res160WellFormed();
    Res320WellFormed();
    Res640WellFormed();
    Res800WellFormed();
    Res1024WellFormed();
    Res1280WellFormed();
    AdjustmentsWellFormed();
    EffectsWellFormed();
  }
}
