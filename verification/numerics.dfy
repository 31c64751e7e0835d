/** Real arithmetic standing in for `f32`: the constants the code uses, the
    library functions sqrt, sin, cos and atan2 left uninterpreted, and the 2- and
    3-component vectors of the maths libraries. */
module Numerics {

  /** `f32::EPSILON`, which is 2^-23. */
  const EPSILON: real := 0.00000011920928955078125

  /** `std::f32::consts::PI`, the `f32` nearest to pi. */
  const PI: real := 3.1415927410125732421875

  /** `f32::to_radians`. */
  function ToRadians(degrees: real): real
  {
    degrees * PI / 180.0
  }

  /** `f32::min`: the smaller argument. */
  function Min(a: real, b: real): (r: real)
    ensures r <= a && r <= b
    ensures r == a || r == b
  {
    if a <= b then a else b
  }

  /** `f32::max`: the larger argument. */
  function Max(a: real, b: real): (r: real)
    ensures a <= r && b <= r
    ensures r == a || r == b
  {
    if a >= b then a else b
  }

  /** `x.max(lo).min(hi)`, the clamp the code writes out by hand. */
  function Clamp(x: real, lo: real, hi: real): (r: real)
    requires lo <= hi
    ensures lo <= r <= hi
    ensures lo <= x <= hi ==> r == x
    ensures x < lo ==> r == lo
    ensures hi < x ==> r == hi
  {
    Min(Max(x, lo), hi)
  }

  function Abs(x: real): (r: real)
    ensures 0.0 <= r && (r == x || r == -x)
  {
    if x < 0.0 then -x else x
  }

  /** The library functions the code calls, which the model does not compute. */
  datatype Math = Math(
    sqrt: real -> real,
    sin: real -> real,
    cos: real -> real,
    atan2: (real, real) -> real)

  /** The only facts about the library functions that the properties rely on:
      `sqrt` gives the non-negative square root of a non-negative argument, and
      `sin` and `cos` lie on the unit circle. They are stated over `Root` and
      `Circle` so that they are used only where a lemma asks for them. */
  ghost predicate Lawful(m: Math)
  {
    && (forall x {:trigger Root(m, x)} :: 0.0 <= x ==> 0.0 <= Root(m, x) && Root(m, x) * Root(m, x) == x)
    && (forall t {:trigger Circle(m, t)} :: Circle(m, t) == 1.0)
  }

  function Root(m: Math, x: real): real { m.sqrt(x) }

  function Circle(m: Math, t: real): real { m.sin(t) * m.sin(t) + m.cos(t) * m.cos(t) }

  /** The product of two reals, named so that facts about a product of a term
      with itself can be stated and used without the solver rewriting them. */
  function Mul(a: real, b: real): real { a * b }

  lemma MulPositive(a: real, b: real)
    requires 0.0 < a && 0.0 < b
    ensures 0.0 < Mul(a, b)
  {
  }

  /** A square is never negative, and is positive unless its root is zero. */
  lemma SquareSign(a: real)
    ensures 0.0 <= Mul(a, a)
    ensures a != 0.0 ==> 0.0 < Mul(a, a)
  {
    if 0.0 < a {
      MulPositive(a, a);
    } else if a < 0.0 {
      MulPositive(-a, -a);
    }
  }

  lemma MulLeft(c: real, a: real, b: real)
    requires 0.0 <= c && a <= b
    ensures c * a <= c * b
  {
    assert c * b - c * a == c * (b - a);
  }

  lemma MulLeftStrict(c: real, a: real, b: real)
    requires 0.0 < c && a < b
    ensures c * a < c * b
  {
    assert c * b - c * a == c * (b - a);
  }

  /** Squaring is monotone on the non-negative reals. */
  lemma SquareMonotone(a: real, b: real)
    requires 0.0 <= a
    ensures a <= b ==> a * a <= b * b
    ensures a < b ==> a * a < b * b
  {
    if a < b {
      calc {
        a * a;
      <= { MulLeft(a, a, b); }
        a * b;
      == b * a;
      < { MulLeftStrict(b, a, b); }
        b * b;
      }
    }
  }

  /** A non-negative square root is the only one. */
  lemma SqrtUnique(m: Math, x: real, r: real)
    requires Lawful(m)
    requires 0.0 <= r && r * r == x
    ensures m.sqrt(x) == r
  {
    var s := Root(m, x);
    assert 0.0 <= s && s * s == x;
    SquareMonotone(s, r);
    SquareMonotone(r, s);
  }

  /** Two non-negative numbers with the same root are equal. */
  lemma SqrtInjective(m: Math, x: real, y: real)
    requires Lawful(m) && 0.0 <= x && 0.0 <= y && m.sqrt(x) == m.sqrt(y)
    ensures x == y
  {
    assert Root(m, x) * Root(m, x) == x;
    assert Root(m, y) * Root(m, y) == y;
  }

  lemma SqrtOfSquare(m: Math, a: real)
    requires Lawful(m) && 0.0 <= a
    ensures m.sqrt(a * a) == a
  {
    SqrtUnique(m, a * a, a);
  }

  lemma SqrtZero(m: Math)
    requires Lawful(m)
    ensures m.sqrt(0.0) == 0.0
  {
    SqrtUnique(m, 0.0, 0.0);
  }

  lemma SqrtNonNegative(m: Math, x: real)
    requires Lawful(m) && 0.0 <= x
    ensures 0.0 <= m.sqrt(x)
  {
    assert 0.0 <= Root(m, x);
  }

  lemma SqrtPositive(m: Math, x: real)
    requires Lawful(m) && 0.0 < x
    ensures 0.0 < m.sqrt(x)
  {
    assert 0.0 <= Root(m, x);
  }

  lemma SqrtProduct(m: Math, a: real, b: real)
    requires Lawful(m) && 0.0 <= a && 0.0 <= b
    ensures m.sqrt(Mul(a, b)) == Mul(m.sqrt(a), m.sqrt(b))
  {
    var sa, sb := Root(m, a), Root(m, b);
    assert 0.0 <= sa * sb;
    assert (sa * sb) * (sa * sb) == (sa * sa) * (sb * sb);
    SqrtUnique(m, a * b, sa * sb);
  }

  /** A square root stays below a non-negative bound exactly when its argument
      stays below the bound's square. */
  lemma SqrtBelow(m: Math, x: real, c: real)
    requires Lawful(m) && 0.0 <= x && 0.0 <= c
    ensures m.sqrt(x) < c <==> x < c * c
    ensures m.sqrt(x) <= c <==> x <= c * c
  {
    var s := Root(m, x);
    SquareMonotone(s, c);
    SquareMonotone(c, s);
  }

  lemma LengthSq2NonNegative(v: Vec2)
    ensures 0.0 <= LengthSq2(v)
    ensures v != ZERO2 ==> 0.0 < LengthSq2(v)
  {
    SquareSign(v.x);
    SquareSign(v.y);
    assert LengthSq2(v) == Mul(v.x, v.x) + Mul(v.y, v.y);
  }

  lemma LengthSq3NonNegative(v: Vec3)
    ensures 0.0 <= LengthSq3(v)
    ensures v != ZERO3 ==> 0.0 < LengthSq3(v)
  {
    SquareSign(v.x);
    SquareSign(v.y);
    SquareSign(v.z);
    assert LengthSq3(v) == Mul(v.x, v.x) + Mul(v.y, v.y) + Mul(v.z, v.z);
  }

  datatype Vec2 = Vec2(x: real, y: real)

  datatype Vec3 = Vec3(x: real, y: real, z: real)

  const ZERO2: Vec2 := Vec2(0.0, 0.0)

  const ZERO3: Vec3 := Vec3(0.0, 0.0, 0.0)

  function Add2(a: Vec2, b: Vec2): Vec2 { Vec2(a.x + b.x, a.y + b.y) }

  function Scale2(v: Vec2, k: real): Vec2 { Vec2(v.x * k, v.y * k) }

  function LengthSq2(v: Vec2): real { v.x * v.x + v.y * v.y }

  function Length2(m: Math, v: Vec2): real { m.sqrt(LengthSq2(v)) }

  /** `normalize`; the zero vector, which the libraries turn into NaNs, is
      returned unchanged. */
  function Normalize2(m: Math, v: Vec2): Vec2
  {
    var l := Length2(m, v);
    if l == 0.0 then ZERO2 else Scale2(v, 1.0 / l)
  }

  function Add3(a: Vec3, b: Vec3): Vec3 { Vec3(a.x + b.x, a.y + b.y, a.z + b.z) }

  function Sub3(a: Vec3, b: Vec3): Vec3 { Vec3(a.x - b.x, a.y - b.y, a.z - b.z) }

  function Neg3(v: Vec3): Vec3 { Vec3(-v.x, -v.y, -v.z) }

  function Scale3(v: Vec3, k: real): Vec3 { Vec3(v.x * k, v.y * k, v.z * k) }

  function Dot3(a: Vec3, b: Vec3): real { a.x * b.x + a.y * b.y + a.z * b.z }

  function Cross3(a: Vec3, b: Vec3): Vec3
  {
    Vec3(a.y * b.z - a.z * b.y, a.z * b.x - a.x * b.z, a.x * b.y - a.y * b.x)
  }

  function LengthSq3(v: Vec3): real { v.x * v.x + v.y * v.y + v.z * v.z }

  function Length3(m: Math, v: Vec3): real { m.sqrt(LengthSq3(v)) }

  /** `normalize` on 3-vectors, with the same convention for the zero vector. */
  function Normalize3(m: Math, v: Vec3): Vec3
  {
    var l := Length3(m, v);
    if l == 0.0 then ZERO3 else Scale3(v, 1.0 / l)
  }

  lemma Scale3Zero(k: real)
    ensures Scale3(ZERO3, k) == ZERO3
  {
  }

  /** A vector has length zero exactly when it is the zero vector. */
  lemma Length2Zero(m: Math, v: Vec2)
    requires Lawful(m)
    ensures Length2(m, v) == 0.0 <==> v == ZERO2
  {
    if v == ZERO2 {
      SqrtZero(m);
    } else {
      LengthSq2NonNegative(v);
      SqrtPositive(m, LengthSq2(v));
    }
  }

  lemma AbsSquare(k: real)
    ensures Abs(k) * Abs(k) == k * k
  {
    if k < 0.0 {
      assert (-k) * (-k) == k * k;
    }
  }

  lemma SqrtOfSquareAbs(m: Math, k: real)
    requires Lawful(m)
    ensures m.sqrt(Mul(k, k)) == Abs(k)
  {
    AbsSquare(k);
    SqrtUnique(m, k * k, Abs(k));
  }

  lemma LengthSq2Scale(v: Vec2, k: real)
    ensures LengthSq2(Scale2(v, k)) == Mul(Mul(k, k), LengthSq2(v))
  {
    assert (v.x * k) * (v.x * k) == (k * k) * (v.x * v.x);
    assert (v.y * k) * (v.y * k) == (k * k) * (v.y * v.y);
  }

  lemma LengthSq3Scale(v: Vec3, k: real)
    ensures LengthSq3(Scale3(v, k)) == Mul(Mul(k, k), LengthSq3(v))
  {
    assert (v.x * k) * (v.x * k) == (k * k) * (v.x * v.x);
    assert (v.y * k) * (v.y * k) == (k * k) * (v.y * v.y);
    assert (v.z * k) * (v.z * k) == (k * k) * (v.z * v.z);
  }

  /** Scaling by a sum is the sum of the two scalings. */
  lemma Scale3Add(v: Vec3, a: real, b: real)
    ensures Scale3(v, a + b) == Add3(Scale3(v, a), Scale3(v, b))
  {
    assert v.x * (a + b) == v.x * a + v.x * b;
    assert v.y * (a + b) == v.y * a + v.y * b;
    assert v.z * (a + b) == v.z * a + v.z * b;
  }

  /** Scaling a vector scales its length by the absolute value of the factor. */
  lemma Length2Scale(m: Math, v: Vec2, k: real)
    requires Lawful(m)
    ensures Length2(m, Scale2(v, k)) == Mul(Abs(k), Length2(m, v))
  {
    LengthSq2NonNegative(v);
    LengthSq2Scale(v, k);
    SqrtScale(m, k, LengthSq2(v));
  }

  lemma SqrtScale(m: Math, k: real, l: real)
    requires Lawful(m) && 0.0 <= l
    ensures m.sqrt(Mul(Mul(k, k), l)) == Mul(Abs(k), m.sqrt(l))
  {
    SquareSign(k);
    SqrtProduct(m, Mul(k, k), l);
    SqrtOfSquareAbs(m, k);
  }

  /** Normalising a non-zero vector gives a unit vector. */
  lemma Normalize2Unit(m: Math, v: Vec2)
    requires Lawful(m) && v != ZERO2
    ensures Length2(m, Normalize2(m, v)) == 1.0
  {
    var l := Length2(m, v);
    Length2Zero(m, v);
    SqrtNonNegative(m, LengthSq2(v));
    Reciprocal(l);
    Length2Scale(m, v, 1.0 / l);
  }

  /** A positive number times its reciprocal is one. */
  lemma Reciprocal(l: real)
    requires 0.0 < l
    ensures 0.0 < 1.0 / l && Abs(1.0 / l) == 1.0 / l
    ensures Mul(1.0 / l, l) == 1.0
  {
  }
}
