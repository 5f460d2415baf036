/** Go's fixed-width integer types, as bounded integers. */
module Primitives {

  /** A Go `byte` (`uint8`). */
  type byte = x: int | 0 <= x < 0x100

  /** A Go `int64`; also the width of Go's `int` on the 64-bit platforms the tool targets. */
  type int64 = x: int | -0x8000_0000_0000_0000 <= x < 0x8000_0000_0000_0000
}
