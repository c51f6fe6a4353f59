/** Shared vocabulary: optional values and Go's 64-bit counters. */
module Basics {
  datatype Option<+T> = None | Some(value: T)

  const MAX_UINT64: nat := 0xFFFF_FFFF_FFFF_FFFF

  type uint64 = x: nat | x <= MAX_UINT64

  /** Go's `x++` on a uint64: the largest value wraps to zero. */
  function Inc64(x: uint64): uint64 {
    if x >= MAX_UINT64 then 0 else x + 1
  }
}
