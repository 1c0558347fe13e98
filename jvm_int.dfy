/**
 * Kotlin `Int` arithmetic as the view uses it: 32-bit two's complement values,
 * `+` and `-` that wrap around, and `/` that truncates toward zero.
 */
module JvmInt {
  const MIN_VALUE: int := -0x8000_0000
  const MAX_VALUE: int := 0x7fff_ffff
  const MODULUS: int := 0x1_0000_0000

  type Int32 = x: int | -0x8000_0000 <= x <= 0x7fff_ffff

  /** The Int32 congruent to `x` modulo 2^32: what a 32-bit register keeps of `x`. */
  function Wrap(x: int): (r: Int32)
    ensures (x - r) % MODULUS == 0
    ensures MIN_VALUE <= x <= MAX_VALUE ==> r == x
  {
    var m := x % MODULUS;
    if m <= MAX_VALUE then m else m - MODULUS
  }

  /** Kotlin `a + b` on Int. */
  function Plus(a: Int32, b: Int32): (r: Int32)
    ensures (a + b - r) % MODULUS == 0
    ensures MIN_VALUE <= a + b <= MAX_VALUE ==> r == a + b
  {
    Wrap(a + b)
  }

  /** Kotlin `a - b` on Int. */
  function Minus(a: Int32, b: Int32): (r: Int32)
    ensures (a - b - r) % MODULUS == 0
    ensures MIN_VALUE <= a - b <= MAX_VALUE ==> r == a - b
  {
    Wrap(a - b)
  }

  /** Kotlin `x / 2` on Int, which rounds toward zero (Dafny's `/` rounds down). */
  function Half(x: Int32): (r: Int32)
    ensures x >= 0 ==> 0 <= x - 2 * r <= 1
    ensures x < 0 ==> -1 <= x - 2 * r <= 0
  {
    if x >= 0 then x / 2 else -((-(x as int)) / 2)
  }
}
