/**
  The part of three.js's `Vector3` that the boids use, over real numbers.

  Every vector operation is exact real arithmetic except the Euclidean
  length, which three.js computes with the host's `Math.sqrt`. Dafny has
  no square root on `real`, so the root is a parameter `sqrt` of every
  function that needs a length, and the lemmas that depend on it being a
  square root assume the law `IsSqrt(sqrt)`.
*/
module Vectors {

  datatype Vec3 = Vec3(x: real, y: real, z: real)

  const Zero := Vec3(0.0, 0.0, 0.0)

  function Min(a: real, b: real): real { if a <= b then a else b }
  function Max(a: real, b: real): real { if a >= b then a else b }
  function Abs(a: real): real { if a >= 0.0 then a else -a }

  /** `add` */
  function Add(a: Vec3, b: Vec3): Vec3 {
    Vec3(a.x + b.x, a.y + b.y, a.z + b.z)
  }

  /** `sub` and `subVectors` */
  function Sub(a: Vec3, b: Vec3): Vec3 {
    Vec3(a.x - b.x, a.y - b.y, a.z - b.z)
  }

  /** `multiplyScalar` */
  function Scale(a: Vec3, s: real): Vec3 {
    Vec3(a.x * s, a.y * s, a.z * s)
  }

  /** `divideScalar`, which three.js implements as a multiplication by `1 / s` */
  function Div(a: Vec3, s: real): Vec3
    requires s != 0.0
  {
    Scale(a, 1.0 / s)
  }

  /** `crossVectors` */
  function Cross(a: Vec3, b: Vec3): Vec3 {
    Vec3(a.y * b.z - a.z * b.y, a.z * b.x - a.x * b.z, a.x * b.y - a.y * b.x)
  }

  /** `lerp(b, alpha)`: each component moves by `(b - a) * alpha` */
  function Lerp(a: Vec3, b: Vec3, alpha: real): Vec3 {
    Vec3(a.x + (b.x - a.x) * alpha, a.y + (b.y - a.y) * alpha, a.z + (b.z - a.z) * alpha)
  }

  /**
    The square of a real number. The second factor goes through `Id` so
    that the solver sees a product of two terms rather than a power, which
    its non-linear arithmetic handles far more reliably.
  */
  function Sq(c: real): real { c * Id(c) }

  function Id(c: real): real { c }

  /** `lengthSq` */
  function LengthSq(a: Vec3): real {
    Sq(a.x) + Sq(a.y) + Sq(a.z)
  }

  // ---------------------------------------------------------------------
  // Scalar facts about squares

  lemma SquareNonNegative(c: real)
    ensures Sq(c) >= 0.0
    ensures c != 0.0 ==> Sq(c) > 0.0
  {
  }

  lemma SquareOfProduct(k: real, r: real)
    ensures Sq(k * r) == Sq(k) * Sq(r)
  {
  }

  lemma SquareOfNegation(c: real)
    ensures Sq(-c) == Sq(c)
  {
  }

  lemma SquareOfAbs(c: real)
    ensures Sq(Abs(c)) == Sq(c)
  {
    if c < 0.0 {
      assert Abs(c) == -c;
      assert (-c) * Id(-c) == c * Id(c);
    }
  }

  lemma MulNonNegative(a: real, b: real)
    requires a >= 0.0 && b >= 0.0
    ensures a * b >= 0.0
  {
    if a > 0.0 && b > 0.0 {
      assert a * b > 0.0;
    }
  }

  /** Multiplying by a non-negative number keeps an inequality. */
  lemma MulMonotone(f: real, x: real, y: real)
    requires f >= 0.0 && x <= y
    ensures f * x <= f * y
  {
    assert f * y - f * x == f * (y - x);
    if f > 0.0 && y > x {
      assert f * (y - x) > 0.0;
    }
  }

  /** Multiplying by a positive number keeps a strict inequality. */
  lemma MulStrict(f: real, x: real, y: real)
    requires f > 0.0 && x < y
    ensures f * x < f * y
  {
    assert f * y - f * x == f * (y - x);
    assert f * (y - x) > 0.0;
  }

  lemma ProductZero(a: real, b: real)
    requires a * b == 0.0
    ensures a == 0.0 || b == 0.0
  {
    if a != 0.0 {
      assert b == (a * b) / a;
    }
  }

  /** Two non-negative numbers with the same square are equal. */
  lemma SquareInjective(a: real, b: real)
    requires a >= 0.0 && b >= 0.0
    requires Sq(a) == Sq(b)
    ensures a == b
  {
    assert (a - b) * (a + b) == Sq(a) - Sq(b);
    ProductZero(a - b, a + b);
  }

  /** The squared length is never negative. */
  lemma LengthSqNonNegative(a: Vec3)
    ensures LengthSq(a) >= 0.0
  {
    SquareNonNegative(a.x);
    SquareNonNegative(a.y);
    SquareNonNegative(a.z);
  }

  /** The squared length is zero only for the zero vector. */
  lemma LengthSqPositive(a: Vec3)
    requires a != Zero
    ensures LengthSq(a) > 0.0
  {
    SquareNonNegative(a.x);
    SquareNonNegative(a.y);
    SquareNonNegative(a.z);
  }

  /** The law the host's `Math.sqrt` obeys on non-negative arguments. */
  ghost predicate IsSqrt(sqrt: real -> real) {
    forall r :: SqrtLaw(sqrt, r)
  }

  /**
    The law at one argument. `IsSqrt` states it through this predicate so
    that the law is applied only where a proof asks for it (`SqrtAt`).
  */
  ghost predicate SqrtLaw(sqrt: real -> real, r: real) {
    r >= 0.0 ==> sqrt(r) >= 0.0 && Sq(sqrt(r)) == r
  }

  lemma SqrtAt(sqrt: real -> real, r: real)
    requires IsSqrt(sqrt) && r >= 0.0
    ensures sqrt(r) >= 0.0 && Sq(sqrt(r)) == r
  {
    assert SqrtLaw(sqrt, r);
  }

  /** `length` */
  function Length(sqrt: real -> real, a: Vec3): real {
    sqrt(LengthSq(a))
  }

  /** `distanceTo`: the length of `a - b` */
  function DistanceTo(sqrt: real -> real, a: Vec3, b: Vec3): real {
    Length(sqrt, Sub(a, b))
  }

  /** The divisor three.js writes `length || 1`: a zero length divides by one. */
  function NonZero(l: real): (r: real)
    ensures r != 0.0
    ensures l != 0.0 ==> r == l
  {
    if l == 0.0 then 1.0 else l
  }

  /**
    `normalize`. The zero vector stays zero whatever the root gives for
    its length, since its components are scaled by `1 / (length || 1)`.
  */
  function Normalize(sqrt: real -> real, a: Vec3): (r: Vec3)
    ensures a == Zero ==> r == Zero
  {
    Div(a, NonZero(Length(sqrt, a)))
  }

  /** `setLength`: normalise, then multiply by the new length */
  function SetLength(sqrt: real -> real, a: Vec3, l: real): (r: Vec3)
    ensures a == Zero ==> r == Zero
  {
    var u := Normalize(sqrt, a);
    ScaleOfZero(u, l);
    Scale(u, l)
  }

  lemma ScaleOfZero(u: Vec3, s: real)
    ensures u == Zero ==> Scale(u, s) == Zero
  {
  }

  /** `clampLength(lo, hi)` */
  function ClampLength(sqrt: real -> real, a: Vec3, lo: real, hi: real): Vec3 {
    var l := Length(sqrt, a);
    Scale(Div(a, NonZero(l)), Max(lo, Min(hi, l)))
  }

  // ---------------------------------------------------------------------
  // Consequences of the square-root law

  lemma SqrtOfSquare(sqrt: real -> real, c: real)
    requires IsSqrt(sqrt)
    requires c >= 0.0
    ensures sqrt(Sq(c)) == c
  {
    SquareNonNegative(c);
    SqrtAt(sqrt, Sq(c));
    SquareInjective(sqrt(Sq(c)), c);
  }

  lemma SqrtOfProduct(sqrt: real -> real, k: real, v: real)
    requires IsSqrt(sqrt)
    requires k >= 0.0 && v >= 0.0
    ensures sqrt(Sq(k) * v) == k * sqrt(v)
  {
    var r := sqrt(v);
    SqrtAt(sqrt, v);
    SquareOfProduct(k, r);
    assert Sq(r) == v;
    assert Sq(k * r) == Sq(k) * v;
    assert k * r >= 0.0;
    SqrtOfSquare(sqrt, k * r);
  }

  /** A length is never negative. */
  lemma LengthNonNegative(sqrt: real -> real, a: Vec3)
    requires IsSqrt(sqrt)
    ensures Length(sqrt, a) >= 0.0
  {
    LengthSqNonNegative(a);
    SqrtAt(sqrt, LengthSq(a));
  }

  /** The square of a length is the squared length. */
  lemma LengthSquared(sqrt: real -> real, a: Vec3)
    requires IsSqrt(sqrt)
    ensures Sq(Length(sqrt, a)) == LengthSq(a)
  {
    LengthSqNonNegative(a);
    SqrtAt(sqrt, LengthSq(a));
  }

  /** Only the zero vector has length zero. */
  lemma LengthZeroIff(sqrt: real -> real, a: Vec3)
    requires IsSqrt(sqrt)
    ensures Length(sqrt, a) == 0.0 <==> a == Zero
  {
    if a == Zero {
      assert LengthSq(a) == Sq(0.0);
      SqrtOfSquare(sqrt, 0.0);
    } else {
      LengthSqPositive(a);
      LengthSquared(sqrt, a);
    }
  }

  lemma LengthOfZero(sqrt: real -> real)
    requires IsSqrt(sqrt)
    ensures Length(sqrt, Zero) == 0.0
  {
    LengthZeroIff(sqrt, Zero);
  }

  lemma LengthSqOfScale(a: Vec3, s: real)
    ensures LengthSq(Scale(a, s)) == Sq(s) * LengthSq(a)
  {
    SquareOfProduct(a.x, s);
    SquareOfProduct(a.y, s);
    SquareOfProduct(a.z, s);
  }

  /** Scaling a vector scales its length by the absolute value of the factor. */
  lemma LengthOfScale(sqrt: real -> real, a: Vec3, s: real)
    requires IsSqrt(sqrt)
    ensures Length(sqrt, Scale(a, s)) == Abs(s) * Length(sqrt, a)
  {
    LengthSqOfScale(a, s);
    LengthSqNonNegative(a);
    RootOfScaled(sqrt, s, LengthSq(a), LengthSq(Scale(a, s)));
  }

  /** Scaling by a factor of smaller absolute value gives a vector no longer. */
  lemma LengthOfScaleMonotone(sqrt: real -> real, a: Vec3, s2: real, s1: real)
    requires IsSqrt(sqrt)
    requires Abs(s2) <= Abs(s1)
    ensures Length(sqrt, Scale(a, s2)) <= Length(sqrt, Scale(a, s1))
  {
    LengthOfScale(sqrt, a, s2);
    LengthOfScale(sqrt, a, s1);
    LengthNonNegative(sqrt, a);
    MulMonotone(Length(sqrt, a), Abs(s2), Abs(s1));
    assert Abs(s2) * Length(sqrt, a) == Length(sqrt, a) * Abs(s2);
    assert Abs(s1) * Length(sqrt, a) == Length(sqrt, a) * Abs(s1);
  }

  lemma RootOfScaled(sqrt: real -> real, s: real, v: real, w: real)
    requires IsSqrt(sqrt)
    requires v >= 0.0 && w == Sq(s) * v
    ensures sqrt(w) == Abs(s) * sqrt(v)
  {
    var k := Abs(s);
    SquareOfAbs(s);
    assert w == Sq(k) * v;
    SqrtOfProduct(sqrt, k, v);
  }

  /** A normalised vector has length one, except the zero vector, which stays zero. */
  lemma NormalizeLength(sqrt: real -> real, a: Vec3)
    requires IsSqrt(sqrt)
    ensures Length(sqrt, Normalize(sqrt, a)) == if a == Zero then 0.0 else 1.0
    ensures a == Zero ==> Normalize(sqrt, a) == Zero
  {
    var l := Length(sqrt, a);
    LengthZeroIff(sqrt, a);
    LengthNonNegative(sqrt, a);
    LengthOfScale(sqrt, a, 1.0 / NonZero(l));
    if a != Zero {
      assert l > 0.0;
      assert Abs(1.0 / l) == 1.0 / l;
      assert (1.0 / l) * l == 1.0;
    }
  }

  /** `setLength(s)` gives length `|s|`, or leaves the zero vector at zero. */
  lemma SetLengthLength(sqrt: real -> real, a: Vec3, s: real)
    requires IsSqrt(sqrt)
    ensures a != Zero ==> Length(sqrt, SetLength(sqrt, a, s)) == Abs(s)
    ensures a == Zero ==> SetLength(sqrt, a, s) == Zero
  {
    var u := Normalize(sqrt, a);
    NormalizeLength(sqrt, a);
    if a != Zero {
      LengthOfScale(sqrt, u, s);
    }
  }

  /** `clampLength(0, hi)` gives a vector whose length is the old length clamped to `[0, hi]`. */
  lemma ClampLengthLength(sqrt: real -> real, a: Vec3, hi: real)
    requires IsSqrt(sqrt)
    ensures Length(sqrt, ClampLength(sqrt, a, 0.0, hi)) == Max(0.0, Min(hi, Length(sqrt, a)))
  {
    var l := Length(sqrt, a);
    var c := Max(0.0, Min(hi, l));
    var u := Normalize(sqrt, a);
    assert ClampLength(sqrt, a, 0.0, hi) == Scale(u, c);
    LengthZeroIff(sqrt, a);
    NormalizeLength(sqrt, a);
    LengthOfScale(sqrt, u, c);
    assert Length(sqrt, Scale(u, c)) == Abs(c) * Length(sqrt, u);
  }

  /** `clampLength(0, hi)` leaves a vector that is already short enough as it is. */
  lemma ClampLengthKeepsShort(sqrt: real -> real, a: Vec3, hi: real)
    requires IsSqrt(sqrt)
    requires Length(sqrt, a) <= hi
    ensures ClampLength(sqrt, a, 0.0, hi) == a
  {
    var l := Length(sqrt, a);
    LengthNonNegative(sqrt, a);
    if l == 0.0 {
      LengthZeroIff(sqrt, a);
      ClampOfZero(NonZero(l), Max(0.0, Min(hi, l)));
    } else {
      ClampToOwnLength(a, l, hi);
    }
  }

  lemma ClampOfZero(d: real, c: real)
    requires d != 0.0
    ensures Scale(Div(Zero, d), c) == Zero
  {
  }

  lemma ClampToOwnLength(a: Vec3, l: real, hi: real)
    requires 0.0 < l <= hi
    ensures Scale(Div(a, NonZero(l)), Max(0.0, Min(hi, l))) == a
  {
    ScaleInverse(a, l);
  }

  lemma ScaleInverse(a: Vec3, l: real)
    requires l != 0.0
    ensures Scale(Scale(a, 1.0 / l), l) == a
  {
    assert (1.0 / l) * l == 1.0;
    assert a.x * (1.0 / l) * l == a.x;
    assert a.y * (1.0 / l) * l == a.y;
    assert a.z * (1.0 / l) * l == a.z;
  }
}
