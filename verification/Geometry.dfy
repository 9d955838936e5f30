/**
  Numeric collaborators of the cluster maker: the two C math library routines
  the point builder calls, the fixed three-plane arrays it caches, and the 3D
  vertex position it projects.
 */
module Geometry {

  /** Number of wire planes; the C++ code's anchor arrays have exactly this many slots. */
  const PLANES: nat := 3

  /**
    The math library as a value: `sqrt`, `atan2(y, x)` and the constant π
    that `atan2` is measured against. Real numbers have no closed-form
    square root or arc tangent in Dafny, so callers supply them and
    `Lawful` says which of their laws the proofs may rely on.
   */
  datatype MathLib = MathLib(sqrt: real -> real, atan2: (real, real) -> real, pi: real)

  /** `sqrt` is the nonnegative square root on nonnegative arguments. */
  ghost predicate IsSquareRoot(sqrt: real -> real) {
    forall x :: 0.0 <= x ==> 0.0 <= sqrt(x) && sqrt(x) * sqrt(x) == x
  }

  /** The laws of the real square root, arc tangent and π used by the proofs. */
  ghost predicate Lawful(m: MathLib) {
    // π to five decimals: 3.14159 < π < 3.14160
    && 3.14159 < m.pi < 3.1416
    && IsSquareRoot(m.sqrt)
    // sqrt is 0 at 0 and positive on positive arguments; both follow from
    // IsSquareRoot (SqrtOfZero, SqrtOfPositive) and are listed so that the
    // proofs can use them without redoing nonlinear arithmetic
    && m.sqrt(0.0) == 0.0
    && (forall x :: 0.0 < x ==> 0.0 < m.sqrt(x))
    // atan2 ranges over (-π, π]
    && (forall y, x :: -m.pi < m.atan2(y, x) <= m.pi)
    // on the positive x axis the angle is 0, on the negative x axis it is π
    && (forall x :: 0.0 < x ==> m.atan2(0.0, x) == 0.0)
    && (forall x :: x < 0.0 ==> m.atan2(0.0, x) == m.pi)
    // atan2 depends only on the direction of (x, y): two vectors that are
    // parallel (zero cross product) and point the same way (positive dot
    // product) have the same angle
    && (forall y, x, y2, x2 ::
          y * x2 == y2 * x && 0.0 < y * y2 + x * x2 ==> m.atan2(y2, x2) == m.atan2(y, x))
  }

  /** A product of two positive reals is positive. */
  lemma ProductPositive(a: real, b: real)
    requires 0.0 < a && 0.0 < b
    ensures 0.0 < a * b
  {
  }

  /** The product of two positive reals is positive, stated for any two reals. */
  lemma ProductSign(a: real, b: real)
    ensures 0.0 < a && 0.0 < b ==> 0.0 < a * b
  {
    if 0.0 < a && 0.0 < b {
      ProductPositive(a, b);
    }
  }

  /**
    A nonnegative real whose square is 0 is 0. The square is written as the
    product of two names for the same value, and the product is named, which
    keeps the solver's nonlinear arithmetic on a path it completes.
   */
  lemma RootOfZero(s: real, t: real)
    requires 0.0 <= s && s == t && s * t == 0.0
    ensures s == 0.0
  {
    ProductSign(s, t);
    var p := s * t;
    assert p == 0.0;
    assert 0.0 < s ==> 0.0 < p;
  }

  /** A nonnegative real whose square is positive is positive. */
  lemma RootOfPositive(x: real, s: real)
    requires 0.0 < x && 0.0 <= s && s * s == x
    ensures 0.0 < s
  {
    if s == 0.0 {
      assert false;
    }
  }

  /** Two nonnegative reals with equal squares are equal. */
  lemma SquareInjective(r: real, s: real)
    requires 0.0 <= r && 0.0 <= s
    requires r * r == s * s
    ensures r == s
  {
    if r < s {
      ProductPositive(s - r, s + r);
    } else if s < r {
      ProductPositive(r - s, r + s);
    }
  }

  /** The square root of 0 is 0. */
  lemma SqrtOfZero(sqrt: real -> real)
    requires IsSquareRoot(sqrt)
    ensures sqrt(0.0) == 0.0
  {
    RootOfZero(sqrt(0.0), sqrt(0.0));
  }

  /** The square root of a positive real is positive. */
  lemma SqrtOfPositive(sqrt: real -> real, x: real)
    requires IsSquareRoot(sqrt)
    requires 0.0 < x
    ensures 0.0 < sqrt(x)
  {
    RootOfPositive(x, sqrt(x));
  }

  /** A value per wire plane, indexed 0, 1, 2, as in the three-slot anchor arrays. */
  datatype Triple = Triple(p0: real, p1: real, p2: real) {

    function At(pl: nat): real
      requires pl < PLANES
    {
      if pl == 0 then p0 else if pl == 1 then p1 else p2
    }

    /** Assignment to one slot: that slot takes `v`, the other two keep their values. */
    function With(pl: nat, v: real): (r: Triple)
      requires pl < PLANES
      ensures r.At(pl) == v
      ensures forall q: nat :: q < PLANES && q != pl ==> r.At(q) == At(q)
    {
      if pl == 0 then this.(p0 := v) else if pl == 1 then this.(p1 := v) else this.(p2 := v)
    }
  }

  /** The triple holding 0 on every plane. */
  const ZERO: Triple := Triple(0.0, 0.0, 0.0)

  /** A 3D position in detector coordinates (cm); `x` is the drift axis. */
  datatype Point3 = Point3(x: real, y: real, z: real)
}
