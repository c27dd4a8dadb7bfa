/**
 * The jME math values the rigid body works with (`Vector3f`, `Quaternion`),
 * over the reals, and the few vector operations the body uses.
 *
 * Dafny's reals have no square root, so lengths are handled through their
 * squares: `LengthSquared` is `Vector3f.lengthSquared()`, and a real `s` is
 * the length of `v` exactly when `IsLengthOf(s, v)`.
 */
module Geometry {

  datatype Vec3 = Vec3(x: real, y: real, z: real)

  datatype Quat = Quat(x: real, y: real, z: real, w: real)

  const Zero: Vec3 := Vec3(0.0, 0.0, 0.0)

  const Identity: Quat := Quat(0.0, 0.0, 0.0, 1.0)

  /** `x * x`, kept as a function so that facts about the sign of squares can be stated once. */
  function Sq(x: real): real {
    x * x
  }

  lemma SquareNonNegative(x: real)
    ensures Sq(x) >= 0.0
  {
  }

  lemma SquarePositive(x: real)
    requires x != 0.0
    ensures Sq(x) > 0.0
  {
    var a := if x > 0.0 then x else -x;
    assert Sq(x) == Sq(a);
    var q := Sq(a);
    assert q == a * a;
    assert q / a == a;
  }

  lemma SquareOfProduct(a: real, b: real)
    ensures Sq(a * b) == Sq(a) * Sq(b)
  {
  }

  lemma SquareOfNegation(a: real)
    ensures Sq(-a) == Sq(a)
  {
  }

  lemma DifferenceOfSquares(a: real, b: real)
    ensures Sq(a) - Sq(b) == (a - b) * (a + b)
  {
  }

  lemma MulNegative(x: real, y: real)
    requires x < 0.0 && y > 0.0
    ensures x * y < 0.0
  {
  }

  lemma MulNonPositive(x: real, y: real)
    requires x <= 0.0 && y >= 0.0
    ensures x * y <= 0.0
  {
  }

  /** Scaling a vector scales its squared length by the square of the factor. */
  lemma LengthSquaredOfScale(v: Vec3, c: real)
    ensures LengthSquared(Scale(v, c)) == Sq(c) * LengthSquared(v)
  {
    SquareOfProduct(v.x, c);
    SquareOfProduct(v.y, c);
    SquareOfProduct(v.z, c);
    Distribute(Sq(v.x), Sq(v.y), Sq(v.z), Sq(c));
  }

  lemma Distribute(a: real, b: real, c: real, d: real)
    ensures a * d + b * d + c * d == d * (a + b + c)
  {
  }

  /** The dot product of a scaled vector with the vector itself. */
  lemma DotOfScale(v: Vec3, c: real)
    ensures Dot(Scale(v, c), v) == c * LengthSquared(v)
  {
    assert (v.x * c) * v.x == Sq(v.x) * c;
    assert (v.y * c) * v.y == Sq(v.y) * c;
    assert (v.z * c) * v.z == Sq(v.z) * c;
    Distribute(Sq(v.x), Sq(v.y), Sq(v.z), c);
  }

  lemma MulPositive(x: real, y: real)
    requires x > 0.0 && y > 0.0
    ensures x * y > 0.0
  {
  }

  lemma MulNonNegative(x: real, y: real)
    requires x >= 0.0 && y >= 0.0
    ensures x * y >= 0.0
  {
  }

  function LengthSquared(v: Vec3): (r: real)
    ensures r >= 0.0
  {
    SquareNonNegative(v.x);
    SquareNonNegative(v.y);
    SquareNonNegative(v.z);
    Sq(v.x) + Sq(v.y) + Sq(v.z)
  }

  /** Only the zero vector has zero length. */
  lemma LengthSquaredPositive(v: Vec3)
    requires v != Zero
    ensures LengthSquared(v) > 0.0
  {
    SquareNonNegative(v.x);
    SquareNonNegative(v.y);
    SquareNonNegative(v.z);
    if v.x != 0.0 { SquarePositive(v.x); }
    else if v.y != 0.0 { SquarePositive(v.y); }
    else { SquarePositive(v.z); }
  }

  /** `s` is the Euclidean length of `v` (the value `Vector3f.length()` approximates). */
  ghost predicate IsLengthOf(s: real, v: Vec3) {
    s >= 0.0 && Sq(s) == LengthSquared(v)
  }

  /** `Vector3f.mult(scalar)`, and `multLocal` on a fresh copy. */
  function Scale(v: Vec3, s: real): Vec3 {
    Vec3(v.x * s, v.y * s, v.z * s)
  }

  function Add(a: Vec3, b: Vec3): Vec3 {
    Vec3(a.x + b.x, a.y + b.y, a.z + b.z)
  }

  function Dot(a: Vec3, b: Vec3): real {
    a.x * b.x + a.y * b.y + a.z * b.z
  }

  /** On non-negative reals, squaring preserves and reflects strict order. */
  lemma SquareMonotone(a: real, b: real)
    requires a >= 0.0 && b >= 0.0
    ensures a > b <==> Sq(a) > Sq(b)
  {
    DifferenceOfSquares(a, b);
    if a > b {
      MulPositive(a - b, a + b);
    } else {
      MulNonPositive(a - b, a + b);
    }
  }

  lemma NatSquareMonotone(a: nat, b: nat)
    ensures a > b <==> a * a > b * b
  {
    assert a * a - b * b == (a - b) * (a + b);
  }

  /** The integer square root: the largest `r` with `r * r <= n`. */
  function ISqrt(n: nat): (r: nat)
    ensures r * r <= n < (r + 1) * (r + 1)
  {
    if n == 0 then 0
    else
      var s := ISqrt(n - 1);
      if (s + 1) * (s + 1) <= n then s + 1 else s
  }

  /**
   * The integer part of the length of `v`: what Java's `(int)` makes of
   * `v.length()` before saturation.
   */
  function FloorLength(v: Vec3): (r: nat)
    ensures (r * r) as real <= LengthSquared(v) < ((r + 1) * (r + 1)) as real
  {
    var n := LengthSquared(v).Floor;
    ISqrt(n)
  }

  /** Only one natural number has the property that `FloorLength` promises. */
  lemma FloorLengthUnique(v: Vec3, n: nat)
    requires (n * n) as real <= LengthSquared(v) < ((n + 1) * (n + 1)) as real
    ensures FloorLength(v) == n
  {
    var r := FloorLength(v);
    if r < n {
      NatSquareMonotone(n, r + 1);
    } else if r > n {
      NatSquareMonotone(r, n + 1);
    }
  }
}
