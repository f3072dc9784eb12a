/** Fixed-width integers of the source, written out as bounded subsets of `int`. */
module Primitives {

  const U8_LIMIT: int := 0x100
  const U32_LIMIT: int := 0x1_0000_0000

  type u8 = x: int | 0 <= x < U8_LIMIT
  type u32 = x: int | 0 <= x < U32_LIMIT

  /** Rust's `n as u32` on a `usize`: keeps the low 32 bits. */
  function TruncateU32(n: nat): (r: u32)
    ensures n < U32_LIMIT ==> r == n
    ensures r == n % U32_LIMIT
  {
    n % U32_LIMIT
  }
}
