/**
  What the polar transform of the cluster maker guarantees, given the laws
  of the math library: when the radius vanishes, which direction the angle
  measures, the range the angle actually covers, and the worked example of
  a hit straight along the wire axis.
 */
module PolarProperties {

  import opened Geometry
  import opened ClusterTypes
  import opened ClusterMaker

  /** The square of a nonzero real is positive. */
  lemma SquarePositive(x: real)
    requires x != 0.0
    ensures 0.0 < x * x
  {
  }

  /** A square is never negative. */
  lemma SquareNonnegative(x: real)
    ensures 0.0 <= x * x
  {
  }

  /** With `a` nonzero, `a * a + b * b` is positive. */
  lemma SumOfSquaresPositiveLeft(a: real, b: real)
    requires a != 0.0
    ensures 0.0 < a * a + b * b
  {
    SquarePositive(a);
    SquareNonnegative(b);
  }

  /** A sum of two squares is positive unless both terms are 0. */
  lemma SumOfSquaresPositive(a: real, b: real)
    requires a != 0.0 || b != 0.0
    ensures 0.0 < a * a + b * b
  {
    if a != 0.0 {
      SumOfSquaresPositiveLeft(a, b);
    } else {
      SumOfSquaresPositiveLeft(b, a);
    }
  }

  /**
    Dividing an offset (`x`, `y`) by its length `r` keeps it parallel to
    itself and pointing the same way (their dot product is `r`).
   */
  lemma UnitVectorSameDirection(x: real, y: real, r: real)
    requires 0.0 < r && r * r == x * x + y * y
    ensures y * (x / r) == (y / r) * x
    ensures y * (y / r) + x * (x / r) == r
  {
  }

  /**
    The radius is the distance to the anchor and nothing else: any
    nonnegative `s` whose square is the squared offset length equals it.
   */
  lemma RadiusIsDistance(math: MathLib, dw: real, dt: real, s: real)
    requires Lawful(math)
    requires 0.0 <= s && s * s == dw * dw + dt * dt
    ensures Radius(math, dw, dt) == s
  {
    SquareInjective(Radius(math, dw, dt), s);
  }

  /** The radius is 0 exactly when the offset from the anchor is 0 in both coordinates. */
  lemma RadiusZeroIffAtAnchor(math: MathLib, dw: real, dt: real)
    requires Lawful(math)
    ensures Radius(math, dw, dt) == 0.0 <==> dw == 0.0 && dt == 0.0
  {
    if dw == 0.0 && dt == 0.0 {
      assert Radius(math, dw, dt) == Radius(math, 0.0, 0.0) == math.sqrt(0.0);
    } else {
      SumOfSquaresPositive(dt, dw);
    }
  }

  /** Away from the anchor the radius is strictly positive. */
  lemma RadiusPositiveOffAnchor(math: MathLib, dw: real, dt: real)
    requires Lawful(math)
    requires dw != 0.0 || dt != 0.0
    ensures 0.0 < Radius(math, dw, dt)
  {
    RadiusZeroIffAtAnchor(math, dw, dt);
  }

  /**
    Away from the anchor, dividing by the radius does not change the
    direction: the angle is `atan2` of the offset itself, in degrees with
    3.1415 for π, shifted by 180.
   */
  lemma BearingIsOffsetDirection(math: MathLib, dw: real, dt: real)
    requires Lawful(math)
    requires dw != 0.0 || dt != 0.0
    ensures Bearing(math, dw, dt) == Degrees(math.atan2(dt, dw) * 180.0 / PI_APPROX + 180.0)
  {
    var r := Radius(math, dw, dt);
    RadiusPositiveOffAnchor(math, dw, dt);
    UnitVectorSameDirection(dw, dt, r);
    assert math.atan2(dt / r, dw / r) == math.atan2(dt, dw);
  }

  /**
    The range of the angle as `ClusterMaker.cxx` computes it. With π itself the
    angle lies in (-0.0053, 360.0053], and the upper end is reached behind
    the anchor; the bound here is wider, (-0.006, 360.006), because it only
    assumes π < 3.1416.
   */
  lemma BearingRange(math: MathLib, dw: real, dt: real)
    requires Lawful(math)
    ensures Bearing(math, dw, dt).Degrees? ==> -0.006 < Bearing(math, dw, dt).value < 360.006
  {
  }

  /** A point straight ahead of the anchor along the wire axis sits at angle 180. */
  lemma AheadOfAnchor(math: MathLib, dw: real)
    requires Lawful(math)
    requires 0.0 < dw
    ensures Radius(math, dw, 0.0) == dw
    ensures Bearing(math, dw, 0.0) == Degrees(180.0)
  {
    RadiusIsDistance(math, dw, 0.0, dw);
    BearingIsOffsetDirection(math, dw, 0.0);
  }

  /**
    A point straight behind the anchor along the wire axis gets an angle
    above 360: `atan2` returns π there, and π exceeds the 3.1415 the C++ code
    divides by. The angle is therefore not confined to [0, 360).
   */
  lemma BehindAnchorExceeds360(math: MathLib, dw: real)
    requires Lawful(math)
    requires dw < 0.0
    ensures Radius(math, dw, 0.0) == -dw
    ensures Bearing(math, dw, 0.0).Degrees? && Bearing(math, dw, 0.0).value > 360.0
  {
    RadiusIsDistance(math, dw, 0.0, -dw);
    BearingIsOffsetDirection(math, dw, 0.0);
  }

  /**
    A hit's angle is undefined (not a number) exactly when the hit lies on
    its own plane's anchor in both wire and time.
   */
  lemma AngleUndefinedIffOnAnchor(math: MathLib, mk: Maker, h: Hit)
    requires Lawful(math)
    requires h.plane < PLANES
    ensures MakePt(math, mk, h).angle.NaN? <==>
      && h.wire as real * mk.wire2cm == mk.vtxW.At(h.plane)
      && h.peakTime * mk.time2cm == mk.vtxT.At(h.plane)
  {
    RadiusZeroIffAtAnchor(math, WireOffset(mk, h), TimeOffset(mk, h));
  }

  /**
    Worked example: 0.3 cm per wire and 0.05 cm per tick, plane 0 anchored
    at (10, 5); the hit on wire 40 at tick 100 lies at (12, 5), 2 cm ahead
    of the anchor, so its radius is 2 and its angle 180.
   */
  lemma OnAxisExample(math: MathLib, vtxW: Triple, vtxT: Triple, h: Hit)
    requires Lawful(math)
    requires vtxW.p0 == 10.0 && vtxT.p0 == 5.0
    requires h.plane == 0 && h.wire == 40 && h.peakTime == 100.0
    ensures MakePt(math, Maker(0.3, 0.05, vtxW, vtxT), h).r == 2.0
    ensures MakePt(math, Maker(0.3, 0.05, vtxW, vtxT), h).angle == Degrees(180.0)
  {
    var mk := Maker(0.3, 0.05, vtxW, vtxT);
    assert WireOffset(mk, h) == 2.0;
    assert TimeOffset(mk, h) == 0.0;
    AheadOfAnchor(math, 2.0);
  }
}
