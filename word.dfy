/** Machine words as the driver uses them: `u32` fields and C `int` globals. */
module Word {

  /** 2^32: u32 arithmetic in C is arithmetic modulo this number. */
  const WORD_MODULUS: int := 0x1_0000_0000

  /** Values of a C `u32`. */
  type U32 = x: int | 0 <= x < 0x1_0000_0000

  /** Values of a C `int` (32-bit two's complement). */
  predicate IsI32(x: int)
  {
    -0x8000_0000 <= x < 0x8000_0000
  }

  /** `a * b` on two u32 operands: the product wraps around modulo 2^32. */
  function MulU32(a: U32, b: U32): (r: U32)
    ensures a * b < WORD_MODULUS ==> r == a * b
    ensures r <= a * b
  {
    (a * b) % WORD_MODULUS
  }

  /** `a + b` on two u32 operands: the sum wraps around modulo 2^32. */
  function AddU32(a: U32, b: U32): (r: U32)
    ensures a + b < WORD_MODULUS ==> r == a + b
    ensures a + b >= WORD_MODULUS ==> r == a + b - WORD_MODULUS
  {
    (a + b) % WORD_MODULUS
  }

  /** The usual arithmetic conversion of a C `int` to `u32`, applied when an
      `int` is compared with or divides a `u32`. */
  function IntToU32(x: int): (r: U32)
    requires IsI32(x)
    ensures 0 <= x ==> r == x
    ensures x < 0 ==> r == x + WORD_MODULUS && r >= 0x8000_0000
  {
    x % WORD_MODULUS
  }
}
