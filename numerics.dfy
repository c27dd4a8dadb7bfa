/**
 * The parts of Java's numeric semantics that the rigid body depends on:
 * 32-bit `int` wrap-around, the saturating `(int)` cast of a non-negative
 * float, and the range of finite `float` values.
 */
module Numerics {

  const IntMax: int := 0x7fff_ffff
  const IntMin: int := -0x8000_0000
  const IntRange: int := 0x1_0000_0000

  /** `Float.MAX_VALUE`, (2 - 2^-23) * 2^127, written out exactly. */
  const MaxFloat: real := 340282346638528859811704183484516925440.0

  /** The 32-bit two's-complement value of the mathematical integer `x`. */
  function Wrap32(x: int): (r: int)
    ensures IntMin <= r <= IntMax
    ensures (r - x) % IntRange == 0
    ensures IntMin <= x <= IntMax ==> r == x
  {
    (x - IntMin) % IntRange + IntMin
  }

  /** Java's `(int)` applied to a non-negative float whose integer part is `n`: it saturates. */
  function SaturatingCast(n: nat): (r: int)
    ensures 0 <= r <= IntMax
    ensures r == n || (n > IntMax && r == IntMax)
  {
    if n <= IntMax then n else IntMax
  }

  /** A real that a `float` can hold without overflowing to an infinity. */
  predicate IsFiniteFloat(x: real) {
    -MaxFloat <= x <= MaxFloat
  }
}
