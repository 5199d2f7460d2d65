/**
  Machine integers of the on-chain program, as bounded mathematical integers.
  Where the program saturates or traps, the model says so explicitly.
*/
module Numbers {
  const U8_MAX: int := 0xFF
  const U32_MAX: int := 0xFFFF_FFFF
  const U64_MAX: int := 0xFFFF_FFFF_FFFF_FFFF
  const I64_MAX: int := 0x7FFF_FFFF_FFFF_FFFF
  const I64_MIN: int := -0x8000_0000_0000_0000

  type U8 = n: int | 0 <= n <= U8_MAX
  type U32 = n: int | 0 <= n <= U32_MAX
  type U64 = n: int | 0 <= n <= U64_MAX
  type I64 = n: int | I64_MIN <= n <= I64_MAX

  /** What a saturating 64-bit counter shows for an unbounded total. */
  function Clamp64(total: nat): U64 {
    if total <= U64_MAX then total else U64_MAX
  }

  /** What a saturating 32-bit counter shows for an unbounded total. */
  function Clamp32(total: nat): U32 {
    if total <= U32_MAX then total else U32_MAX
  }

  function SaturatingAdd64(a: U64, b: U64): U64 {
    Clamp64(a + b)
  }

  function SaturatingAdd32(a: U32, b: U32): U32 {
    Clamp32(a + b)
  }
}
