/** Go's 64-bit integers: int and time.Duration. */
module Ints {

  const MAX_INT64: int := 0x7FFF_FFFF_FFFF_FFFF
  const MIN_INT64: int := -0x8000_0000_0000_0000

  type Int64 = n: int | MIN_INT64 <= n <= MAX_INT64

  /** Arithmetic wraps around. */
  function Wrap64(n: int): Int64 {
    (n + 0x8000_0000_0000_0000) % 0x1_0000_0000_0000_0000 - 0x8000_0000_0000_0000
  }
}
