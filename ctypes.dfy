/** The fixed-width C integer types the driver's signatures use, as subset types of int. */
module CTypes {
  /** `short` / `int16_t`. */
  type int16 = x: int | -0x8000 <= x < 0x8000

  /** `uint16_t`. */
  type uint16 = x: int | 0 <= x < 0x1_0000

  /** `int32_t`. */
  type int32 = x: int | -0x8000_0000 <= x < 0x8000_0000
}
