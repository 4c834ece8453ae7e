/**
 * Vector helpers of the particle library (transform.hpp): rotate, length,
 * normalize, dot and clamp over 2D vectors with exact real components.
 *
 * The C math library (std::sqrt, std::sin, std::cos) is not part of this
 * model. Every operation that calls it takes a `LibM` value, and `Lawful`
 * states the few laws the proofs rely on.
 */
module Transform {

  /** glm::vec2 */
  datatype Vec2 = Vec2(x: real, y: real)

  const Zero: Vec2 := Vec2(0.0, 0.0)

  /** glm::pi<float>(): the single-precision value nearest to pi. */
  const Pi: real := 3.1415927410125732421875

  /** 1e-8f, the single-precision value nearest to 10^-8; shorter vectors normalize to zero. */
  const Epsilon: real := 0.00000000999999993922529029077850282192230224609375

  function Add(a: Vec2, b: Vec2): Vec2 { Vec2(a.x + b.x, a.y + b.y) }

  function Sub(a: Vec2, b: Vec2): Vec2 { Vec2(a.x - b.x, a.y - b.y) }

  function Scale(v: Vec2, k: real): Vec2 { Vec2(v.x * k, v.y * k) }

  /** The three functions of the C math library that transform.hpp, the effects and the emitters call. */
  datatype LibM = LibM(sqrt: real -> real, sin: real -> real, cos: real -> real)

  /** sqrt(x) is the non-negative square root of a non-negative x. */
  ghost predicate IsRoot(m: LibM, x: real) {
    0.0 <= x ==> 0.0 <= m.sqrt(x) && m.sqrt(x) * m.sqrt(x) == x
  }

  /** (cos a, sin a) lies on the unit circle. */
  ghost predicate OnCircle(m: LibM, a: real) {
    m.sin(a) * m.sin(a) + m.cos(a) * m.cos(a) == 1.0
  }

  /** What the proofs assume of the library: a square root and a sine/cosine pair. */
  ghost predicate Lawful(m: LibM) {
    && (forall x :: IsRoot(m, x))
    && m.sin(0.0) == 0.0
    && m.cos(0.0) == 1.0
    && (forall a :: OnCircle(m, a))
  }

  /** Counter-clockwise rotation of v by angle radians. */
  function Rotate(v: Vec2, angle: real, m: LibM): Vec2 {
    var s := m.sin(angle);
    var c := m.cos(angle);
    Vec2(v.x * c - v.y * s, v.x * s + v.y * c)
  }

  /** The sum of squares both length and normalize take the root of. */
  function SquaredLength(v: Vec2): (r: real)
    ensures 0.0 <= r
  {
    SquareNonNegative(v.x);
    SquareNonNegative(v.y);
    v.x * v.x + v.y * v.y
  }

  lemma SquareNonNegative(x: real)
    ensures 0.0 <= x * x
  {
  }

  function Length(v: Vec2, m: LibM): real {
    m.sqrt(SquaredLength(v))
  }

  /** Unit vector along v, or the zero vector when v is shorter than Epsilon. */
  function Normalize(v: Vec2, m: LibM): Vec2 {
    var len := m.sqrt(SquaredLength(v));
    if len < Epsilon then Zero else Vec2(v.x / len, v.y / len)
  }

  function Dot(a: Vec2, b: Vec2): real {
    a.x * b.x + a.y * b.y
  }

  /** std::max(lo, std::min(value, hi)) */
  function Clamp(value: real, lo: real, hi: real): (r: real)
    ensures lo <= hi ==> lo <= r <= hi
    ensures lo <= value <= hi ==> r == value
    ensures hi < lo ==> r == lo
    ensures lo <= hi && value < lo ==> r == lo
    ensures lo <= hi && hi < value ==> r == hi
  {
    var low := if hi < value then hi else value;
    if lo < low then low else lo
  }

  lemma DotSymmetric(a: Vec2, b: Vec2)
    ensures Dot(a, b) == Dot(b, a)
  {
  }

  /** The square root the library returns is the only non-negative one. */
  lemma SqrtUnique(m: LibM, x: real, r: real)
    requires Lawful(m)
    requires 0.0 <= x && 0.0 <= r && r * r == x
    ensures m.sqrt(x) == r
  {
    assert IsRoot(m, x);
    var s := m.sqrt(x);
    if s < r {
      SquareStrict(s, r);
      assert false;
    } else if r < s {
      SquareStrict(r, s);
      assert false;
    }
  }

  lemma SquareStrict(lo: real, hi: real)
    requires 0.0 <= lo < hi
    ensures lo * lo < hi * hi
  {
    var a, b, c := hi * hi, lo * hi, lo * lo;
    assert a > b;
    assert b >= c;
  }

  lemma LengthSquared(v: Vec2, m: LibM)
    requires Lawful(m)
    ensures 0.0 <= Length(v, m)
    ensures Length(v, m) * Length(v, m) == SquaredLength(v) == Dot(v, v)
  {
    assert IsRoot(m, SquaredLength(v));
  }

  /** Rotation is additive in the rotated vector. */
  lemma RotateAdditive(a: Vec2, b: Vec2, angle: real, m: LibM)
    ensures Rotate(Add(a, b), angle, m) == Add(Rotate(a, angle, m), Rotate(b, angle, m))
  {
    var s, c := m.sin(angle), m.cos(angle);
    Distribute(a.x, b.x, c);
    Distribute(a.y, b.y, s);
    Distribute(a.x, b.x, s);
    Distribute(a.y, b.y, c);
  }

  /** Rotation commutes with scaling. */
  lemma RotateHomogeneous(v: Vec2, k: real, angle: real, m: LibM)
    ensures Rotate(Scale(v, k), angle, m) == Scale(Rotate(v, angle, m), k)
  {
    var s, c := m.sin(angle), m.cos(angle);
    Commute(v.x, k, c);
    Commute(v.y, k, s);
    Commute(v.x, k, s);
    Commute(v.y, k, c);
  }

  lemma Distribute(a: real, b: real, c: real)
    ensures (a + b) * c == a * c + b * c
  {
  }

  lemma Commute(a: real, k: real, c: real)
    ensures (a * k) * c == (a * c) * k
  {
  }

  lemma RotateByZero(v: Vec2, m: LibM)
    requires Lawful(m)
    ensures Rotate(v, 0.0, m) == v
  {
  }

  /** Rotation keeps the squared length, hence the length. */
  lemma RotateKeepsLength(v: Vec2, angle: real, m: LibM)
    requires Lawful(m)
    ensures SquaredLength(Rotate(v, angle, m)) == SquaredLength(v)
    ensures Length(Rotate(v, angle, m), m) == Length(v, m)
  {
    assert OnCircle(m, angle);
    var r := Rotate(v, angle, m);
    Isometry(v.x, v.y, m.cos(angle), m.sin(angle), r.x, r.y);
  }

  /** A rotation matrix with c^2 + s^2 = 1 preserves x^2 + y^2. */
  lemma Isometry(x: real, y: real, c: real, s: real, rx: real, ry: real)
    requires s * s + c * c == 1.0
    requires rx == x * c - y * s && ry == x * s + y * c
    ensures rx * rx + ry * ry == x * x + y * y
  {
    var xx, yy, cc, ss, xycs := x * x, y * y, c * c, s * s, x * y * c * s;
    assert rx * rx == xx * cc - 2.0 * xycs + yy * ss;
    assert ry * ry == xx * ss + 2.0 * xycs + yy * cc;
    assert xx * cc + xx * ss == xx * (cc + ss);
    assert yy * ss + yy * cc == yy * (cc + ss);
  }

  /**
   * normalize: the zero vector below Epsilon, otherwise v scaled by the
   * inverse of its length, which has length one.
   */
  lemma NormalizeCases(v: Vec2, m: LibM)
    requires Lawful(m)
    ensures Length(v, m) < Epsilon ==> Normalize(v, m) == Zero
    ensures Epsilon <= Length(v, m) ==>
              && Normalize(v, m) == Scale(v, 1.0 / Length(v, m))
              && SquaredLength(Normalize(v, m)) == 1.0
              && Length(Normalize(v, m), m) == 1.0
  {
    var len := Length(v, m);
    if Epsilon <= len {
      var k := 1.0 / len;
      DivideAsScale(v.x, len);
      DivideAsScale(v.y, len);
      InverseCancels(len);
      assert IsRoot(m, SquaredLength(v));
      UnitAfterScale(v.x, v.y, len, k);
      SqrtUnique(m, 1.0, 1.0);
    }
  }

  lemma DivideAsScale(x: real, d: real)
    requires d != 0.0
    ensures x / d == x * (1.0 / d)
  {
  }

  lemma InverseCancels(d: real)
    requires d != 0.0
    ensures d * (1.0 / d) == 1.0
  {
  }

  /** Scaling (x, y) by the inverse k of a root len of x^2 + y^2 gives squared length one. */
  lemma UnitAfterScale(x: real, y: real, len: real, k: real)
    requires len * len == x * x + y * y && len * k == 1.0
    ensures (x * k) * (x * k) + (y * k) * (y * k) == 1.0
  {
    SquareOfProduct(x, k);
    SquareOfProduct(y, k);
    SquareOfProduct(len, k);
    Distribute(x * x, y * y, k * k);
    SquareOfOne(len * k);
  }

  lemma SquareOfProduct(a: real, b: real)
    ensures (a * b) * (a * b) == (a * a) * (b * b)
  {
  }

  lemma SquareOfOne(a: real)
    requires a == 1.0
    ensures a * a == 1.0
  {
  }
}
