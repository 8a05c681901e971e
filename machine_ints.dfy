// Fixed-width unsigned integers of the Rust reader. Dafny integers are
// unbounded, so each width is a subset type and each narrowing cast of the
// source (`n as u32`) is written out as a reduction modulo 2^32.
module MachineInts {
  const U8_LIMIT: int := 0x100
  const U16_LIMIT: int := 0x1_0000
  const U32_LIMIT: int := 0x1_0000_0000
  const U64_LIMIT: int := 0x1_0000_0000_0000_0000

  type u8 = x: int | 0 <= x < U8_LIMIT
  type u16 = x: int | 0 <= x < U16_LIMIT
  type u32 = x: int | 0 <= x < U32_LIMIT
  // `usize` on a 64-bit target.
  type u64 = x: int | 0 <= x < U64_LIMIT

  /** Rust's `n as u32` on a 64-bit `usize`: keeps the low 32 bits. */
  function AsU32(n: u64): (r: u32)
    ensures n < U32_LIMIT ==> r == n
  {
    n % U32_LIMIT
  }
}
