/** Plane vectors and the floating-point library calls the game makes.

    Coordinates and speeds are `real`. `Math.sqrt`, `Math.cos`, `Math.sin`
    and `Math.atan2` are function values supplied by the caller and are
    otherwise uninterpreted; where a proof needs the square root to be the
    exact non-negative root, the member requires `ExactSqrt`. */
module Geometry {

  datatype Vec = Vec(x: real, y: real)

  /** `Math.PI` as a decimal. */
  const PI: real := 3.141592653589793
  const TWO_PI: real := 2.0 * PI

  /** The host's library, as function values. */
  datatype MathLib = MathLib(
    sqrt: real -> real,
    cos: real -> real,
    sin: real -> real,
    atan2: (real, real) -> real)

  /** `sqrt` returns the non-negative square root of every non-negative argument. */
  ghost predicate ExactSqrt(m: MathLib) {
    forall v {:trigger m.sqrt(v)} :: 0.0 <= v ==> 0.0 <= m.sqrt(v) && Sq(m.sqrt(v)) == v
  }

  function Sq(a: real): real { a * a }

  function Norm2(v: Vec): real { Sq(v.x) + Sq(v.y) }

  function Abs(v: real): real { if v < 0.0 then -v else v }

  function Max(a: real, b: real): real { if a < b then b else a }

  function Min(a: real, b: real): real { if a < b then a else b }

  /** `Math.max(lo, Math.min(hi, v))` as the game writes its clamps. */
  function ClampTo(v: real, lo: real, hi: real): (r: real)
    ensures lo <= r
    ensures lo <= hi ==> r <= hi
    ensures lo <= v <= hi ==> r == v
  {
    Max(lo, Min(hi, v))
  }

  /** `Math.sqrt(x*x + y*y)` and the other lengths the game compares. */
  function Length(m: MathLib, v: Vec): real { m.sqrt(Norm2(v)) }

  function Add(a: Vec, b: Vec): Vec { Vec(a.x + b.x, a.y + b.y) }

  function Sub(a: Vec, b: Vec): Vec { Vec(a.x - b.x, a.y - b.y) }

  /** Both components multiplied by `c`. */
  function Scale(v: Vec, c: real): Vec { Vec(v.x * c, v.y * c) }

  /** Both components divided by `d`, as the game's `x /= d; y /= d`. */
  function DivBy(v: Vec, d: real): Vec
    requires d != 0.0
  {
    Vec(v.x / d, v.y / d)
  }

  lemma SqNonNegative(a: real)
    ensures 0.0 <= Sq(a)
  {}

  lemma SqMul(a: real, c: real)
    ensures Sq(a * c) == Sq(a) * Sq(c)
  {}

  /** Scaling a vector scales its squared length by the square of the factor. */
  lemma ScaleNorm(v: Vec, c: real)
    ensures Norm2(Scale(v, c)) == Sq(c) * Norm2(v)
  {
    SqMul(v.x, c);
    SqMul(v.y, c);
  }

  /** Multiplying by a non-negative factor keeps an order. */
  lemma MulMonotone(k: real, a: real, b: real)
    requires 0.0 <= k && a <= b
    ensures k * a <= k * b
  {
    assert k * b - k * a == k * (b - a);
  }

  /** Multiplying by a positive factor keeps a strict order. */
  lemma MulStrict(k: real, a: real, b: real)
    requires 0.0 < k && a < b
    ensures k * a < k * b
  {
    var d := b - a;
    assert k * b - k * a == k * d;
    assert k * d > 0.0;
  }

  /** Squares of non-negative reals are ordered as the reals are. */
  lemma SquareMonotone(a: real, b: real)
    requires 0.0 <= a <= b
    ensures Sq(a) <= Sq(b)
    ensures a < b ==> Sq(a) < Sq(b)
  {
    var d := b - a;
    assert b * b - a * a == (b + a) * d;
    MulMonotone(d, 0.0, b + a);
    if a < b {
      MulStrict(d, 0.0, b + a);
    }
  }

  /** With an exact root, `sqrt(v) < c` is the comparison `v < c*c` on squares. */
  lemma SqrtBelow(m: MathLib, v: real, c: real)
    requires ExactSqrt(m) && 0.0 <= v && 0.0 <= c
    ensures m.sqrt(v) < c <==> v < Sq(c)
  {
    var r := m.sqrt(v);
    assert 0.0 <= r && Sq(r) == v;
    if r < c {
      SquareMonotone(r, c);
    } else {
      SquareMonotone(c, r);
    }
  }

  /** With an exact root, the root of a perfect square `c*c` (c >= 0) is `c`. */
  lemma SqrtOfSquare(m: MathLib, c: real)
    requires ExactSqrt(m) && 0.0 <= c
    ensures m.sqrt(Sq(c)) == c
  {
    SqNonNegative(c);
    var r := m.sqrt(Sq(c));
    assert 0.0 <= r && Sq(r) == Sq(c);
    if r < c {
      SquareMonotone(r, c);
    } else if r > c {
      SquareMonotone(c, r);
    }
  }

  /** Rescaling a vector of length `s` by `c / s` gives it length `c`. */
  lemma RescaleNorm(v: Vec, s: real, c: real)
    requires 0.0 < s && Sq(s) == Norm2(v)
    ensures Norm2(Scale(v, c / s)) == Sq(c)
  {
    ScaleNorm(v, c / s);
    SqMul(c / s, s);
    assert (c / s) * s == c;
  }

  /** Dividing a vector by its own (exact) length gives a unit vector. */
  lemma DivideByLength(v: Vec, s: real)
    requires 0.0 < s && Sq(s) == Norm2(v)
    ensures Norm2(DivBy(v, s)) == 1.0
  {
    assert DivBy(v, s) == Scale(v, 1.0 / s);
    RescaleNorm(v, s, 1.0);
  }
}
