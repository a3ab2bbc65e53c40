/**
 * The fixed-width integers of the C++ source: `ma_uint32`, `std::size_t`
 * (64 bits) and `std::int64_t`, with the wrap-around of unsigned
 * multiplication and the two's-complement conversion written out.
 */
module MachineInts {

  const TWO_TO_32: int := 0x1_0000_0000
  const TWO_TO_63: int := 0x8000_0000_0000_0000
  const TWO_TO_64: int := 0x1_0000_0000_0000_0000

  type u32 = x: int | 0 <= x < 0x1_0000_0000
  type u64 = x: int | 0 <= x < 0x1_0000_0000_0000_0000
  type i64 = x: int | -0x8000_0000_0000_0000 <= x < 0x8000_0000_0000_0000

  /** Reduction of an exact result to 64 bits: congruent modulo 2^64, unchanged when it fits. */
  function Wrap64(p: nat): (r: u64)
    ensures (p - r) % TWO_TO_64 == 0
    ensures p < TWO_TO_64 ==> r == p
  {
    p % TWO_TO_64
  }

  /** Reduction of an exact result to 32 bits. */
  function Wrap32(p: nat): (r: u32)
    ensures (p - r) % TWO_TO_32 == 0
    ensures p < TWO_TO_32 ==> r == p
  {
    p % TWO_TO_32
  }

  /** Unsigned 64-bit product (`std::size_t` arithmetic): the exact product modulo 2^64. */
  function MulU64(a: u64, b: u64): (r: u64)
    ensures (a * b - r) % TWO_TO_64 == 0
    ensures a * b < TWO_TO_64 ==> r == a * b
  {
    Wrap64(a * b)
  }

  /** Unsigned 32-bit product (`ma_uint32 * ma_uint32`): the exact product modulo 2^32. */
  function MulU32(a: u32, b: u32): (r: u32)
    ensures (a * b - r) % TWO_TO_32 == 0
    ensures a * b < TWO_TO_32 ==> r == a * b
  {
    Wrap32(a * b)
  }

  /** `static_cast<std::int64_t>` of a `std::size_t`: same bits, two's complement. */
  function U64ToI64(x: u64): (r: i64)
    ensures (x - r) % TWO_TO_64 == 0
    ensures x < TWO_TO_63 <==> r >= 0
    ensures x < TWO_TO_63 ==> r == x
  {
    if x < TWO_TO_63 then x else x - TWO_TO_64
  }
}
