/** The small numeric helpers shared by the client and the single-player game:
    the clamped linear `remap`, the 2-D `rotate`, and the projections between
    the ground plane (`Vec2`) and space (`Vec3`). */
module Utils {
  import opened Numerics

  /** `remap(src, (src_min, src_max), (dest_min, dest_max))`: inputs at or
      below `src_min` give `dest_min`, inputs at or above `src_max` give
      `dest_max`, and inputs strictly between are mapped linearly. The two
      tests come first, so the division is reached only when
      `src_min < src < src_max`, whatever the order of the two bounds. */
  function Remap(src: real, srcMin: real, srcMax: real, destMin: real, destMax: real): (r: real)
    ensures src <= srcMin ==> r == destMin
    ensures srcMin < src && srcMax <= src ==> r == destMax
    ensures Min(destMin, destMax) <= r <= Max(destMin, destMax)
  {
    if src <= srcMin then destMin
    else if src >= srcMax then destMax
    else
      var off := src - srcMin;
      var offPct := Fraction(off, srcMax - srcMin);
      var destRange := destMax - destMin;
      Interpolate(destMin, destRange, offPct)
  }

  /** The quotient `off / span` of the middle branch, which is a proper
      fraction because the guards leave `0 < off < span`. */
  function Fraction(off: real, span: real): (p: real)
    requires 0.0 < off < span
    ensures 0.0 < p < 1.0
  {
    QuotientBelowOne(off, span);
    off / span
  }

  lemma QuotientBelowOne(off: real, span: real)
    requires 0.0 < off < span
    ensures 0.0 < off / span < 1.0
  {
    var p := off / span;
    assert Mul(p, span) == off;
    if p <= 0.0 {
      MulLeft(span, p, 0.0);
    } else if 1.0 <= p {
      MulLeft(span, 1.0, p);
    }
  }

  /** `lo + range * pct` lies between `lo` and `lo + range` when `pct` is a
      fraction. */
  function Interpolate(lo: real, range: real, pct: real): (r: real)
    requires 0.0 < pct < 1.0
    ensures Min(lo, lo + range) <= r <= Max(lo, lo + range)
  {
    FractionOfRange(range, pct);
    lo + Mul(range, pct)
  }

  lemma FractionOfRange(range: real, pct: real)
    requires 0.0 < pct < 1.0
    ensures 0.0 <= range ==> 0.0 <= Mul(range, pct) <= range
    ensures range <= 0.0 ==> range <= Mul(range, pct) <= 0.0
  {
    if 0.0 < range {
      MulPositive(range, pct);
      MulPositive(range, 1.0 - pct);
      assert Mul(range, 1.0 - pct) == range - Mul(range, pct);
    } else if range < 0.0 {
      MulPositive(-range, pct);
      MulPositive(-range, 1.0 - pct);
      assert Mul(-range, pct) == -Mul(range, pct);
      assert Mul(-range, 1.0 - pct) == Mul(range, pct) - range;
    }
  }

  /** Between the bounds, `remap` hits its destination bounds at the source
      bounds and moves monotonically in between: a larger input never gives a
      smaller output when both ranges are increasing. */
  lemma RemapMonotone(a: real, b: real, srcMin: real, srcMax: real, destMin: real, destMax: real)
    requires srcMin < srcMax && destMin <= destMax
    requires a <= b
    ensures Remap(a, srcMin, srcMax, destMin, destMax) <= Remap(b, srcMin, srcMax, destMin, destMax)
  {
    var ra, rb := Remap(a, srcMin, srcMax, destMin, destMax), Remap(b, srcMin, srcMax, destMin, destMax);
    if a <= srcMin || srcMax <= b {
    } else {
      var span, range := srcMax - srcMin, destMax - destMin;
      var pa, pb := Fraction(a - srcMin, span), Fraction(b - srcMin, span);
      QuotientMonotone(a - srcMin, b - srcMin, span);
      MulMonotone(range, pa, pb);
      assert ra == destMin + Mul(range, pa);
      assert rb == destMin + Mul(range, pb);
    }
  }

  lemma QuotientMonotone(a: real, b: real, d: real)
    requires 0.0 < d && a <= b
    ensures a / d <= b / d
  {
    assert b / d - a / d == (b - a) / d;
  }

  lemma MulMonotone(c: real, a: real, b: real)
    requires 0.0 <= c && a <= b
    ensures Mul(c, a) <= Mul(c, b)
  {
    MulLeft(c, a, b);
  }

  /** `rotate`: the vector of the same length whose direction is turned by
      `theta` from the angle `atan2(x, y)`. The code passes the components in
      that order, so the angle is measured from the y axis. */
  function Rotate(m: Math, v: Vec2, theta: real): (r: Vec2)
    ensures Lawful(m) ==> Length2(m, r) == Length2(m, v)
  {
    var ang := m.atan2(v.x, v.y) + theta;
    UnitTimesLength(m, v, ang);
    Scale2(Vec2(m.cos(ang), m.sin(ang)), Length2(m, v))
  }

  /** The unit vector at angle `ang`, stretched to the length of `v`, has the
      length of `v`. */
  lemma UnitTimesLength(m: Math, v: Vec2, ang: real)
    ensures Lawful(m) ==> Length2(m, Scale2(Vec2(m.cos(ang), m.sin(ang)), Length2(m, v))) == Length2(m, v)
  {
    if Lawful(m) {
      var u := Vec2(m.cos(ang), m.sin(ang));
      var l := Length2(m, v);
      assert Circle(m, ang) == 1.0;
      assert LengthSq2(u) == 1.0;
      SqrtOfSquare(m, 1.0);
      assert Length2(m, u) == 1.0;
      LengthSq2NonNegative(v);
      SqrtNonNegative(m, LengthSq2(v));
      Length2Scale(m, u, l);
    }
  }

  /** Rotating the zero vector gives the zero vector, whatever the angle. */
  lemma RotateZero(m: Math, theta: real)
    requires Lawful(m)
    ensures Rotate(m, ZERO2, theta) == ZERO2
  {
    SqrtZero(m);
  }

  /** The same, for any vector known to be zero. */
  lemma RotateZeroAt(m: Math, v: Vec2, theta: real)
    requires Lawful(m) && v == ZERO2
    ensures Rotate(m, v, theta) == ZERO2
  {
    RotateZero(m, theta);
  }

  /** Rotation preserves length: turning a vector and measuring it gives the
      length it had, whatever the angle. */
  lemma RotatePreservesLength(m: Math, v: Vec2, theta: real)
    requires Lawful(m)
    ensures Length2(m, Rotate(m, v, theta)) == Length2(m, v)
    ensures LengthSq2(Rotate(m, v, theta)) == LengthSq2(v)
  {
    var r := Rotate(m, v, theta);
    LengthSq2NonNegative(r);
    LengthSq2NonNegative(v);
    SqrtInjective(m, LengthSq2(r), LengthSq2(v));
  }

  /** `xz2`: the ground-plane part of a point in space. */
  function Xz2(v: Vec3): (r: Vec2)
    ensures r.x == v.x && r.y == v.z
  {
    Vec2(v.x, v.z)
  }

  /** `xz3_withy`: the point in space above a ground-plane point at height
      `y`. */
  function Xz3WithY(v: Vec2, y: real): (r: Vec3)
    ensures Xz2(r) == v && r.y == y
  {
    Vec3(v.x, y, v.y)
  }

  /** `xz3`: a ground-plane point lifted at height zero. */
  function Xz3(v: Vec2): (r: Vec3)
    ensures r == Xz3WithY(v, 0.0)
    ensures r == Vec3(v.x, 0.0, v.y)
  {
    Xz3WithY(v, 0.0)
  }

  /** Projecting and lifting again at the original height gives the original
      point back. */
  lemma XzRoundTrip(v: Vec3)
    ensures Xz3WithY(Xz2(v), v.y) == v
  {
  }
}
