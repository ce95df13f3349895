/** Fixed-width integers of the Swift and Objective-C types the core uses. */
module Numeric {
  /** Swift `Int32` (and Objective-C `int`). */
  newtype int32 = x: int | -0x8000_0000 <= x < 0x8000_0000

  /** Swift `Int` and `Int64` on the 64-bit platforms the SDK targets. */
  newtype int64 = x: int | -0x8000_0000_0000_0000 <= x < 0x8000_0000_0000_0000

  /** Swift `UInt32`. */
  newtype uint32 = x: int | 0 <= x < 0x1_0000_0000

  /** Swift `UInt` on a 64-bit platform. */
  newtype uint64 = x: int | 0 <= x < 0x1_0000_0000_0000_0000

  /** Whether `Int32(x)` succeeds rather than trapping. */
  predicate InInt32(x: int) {
    -0x8000_0000 <= x < 0x8000_0000
  }
}
