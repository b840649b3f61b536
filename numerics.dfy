/** Real-number toolkit shared by the model: the value of pi the program uses, absolute value and
    sign, C's `fmod`, and the transcendental functions of <cmath>, which are passed in as a
    `MathLib` value so that every proof states exactly which of their laws it relies on. */
module Numerics {

  /** M_PI, written as the shortest decimal that rounds to the double the program computes with;
      the real here is that decimal, not the double's exact binary value. */
  const PI: real := 3.141592653589793

  function Abs(x: real): (r: real)
    ensures r >= 0.0 && (r == x || r == -x)
  {
    if x < 0.0 then -x else x
  }

  /** `x / std::abs(x)` for a non-zero `x`. */
  function Sign(x: real): (r: real)
    requires x != 0.0
    ensures (r == 1.0 || r == -1.0) && r * Abs(x) == x
  {
    if x < 0.0 then -1.0 else 1.0
  }

  /** C's truncation toward zero. */
  function Trunc(x: real): real {
    if x >= 0.0 then x.Floor as real else -((-x).Floor as real)
  }

  /** C's `fmod`: `a - n * b` with `n` the quotient `a / b` truncated toward zero. */
  function Fmod(a: real, b: real): real
    requires b != 0.0
  {
    a - b * Trunc(a / b)
  }

  /** The functions of <cmath> the program calls. They are total functions on the reals here; the
      predicates below give the laws the proofs need. */
  datatype MathLib = MathLib(
    sin: real -> real,
    cos: real -> real,
    sqrt: real -> real,
    acos: real -> real,
    atan2: (real, real) -> real)

  ghost predicate Pythagorean(m: MathLib) {
    forall a :: m.sin(a) * m.sin(a) + m.cos(a) * m.cos(a) == 1.0
  }

  ghost predicate SqrtSound(m: MathLib) {
    forall x :: x >= 0.0 ==> m.sqrt(x) >= 0.0 && m.sqrt(x) * m.sqrt(x) == x
  }

  /** atan2 returns the principal angle, in (-pi, pi]. */
  ghost predicate Atan2Range(m: MathLib) {
    forall y, x :: -PI < m.atan2(y, x) <= PI
  }

  /** sin is odd, cos is even, and both have period 2 pi. */
  ghost predicate TrigSymmetry(m: MathLib) {
    (forall a :: m.sin(-a) == -m.sin(a)) &&
    (forall a :: m.cos(-a) == m.cos(a)) &&
    (forall a :: m.sin(a + 2.0 * PI) == m.sin(a)) &&
    (forall a :: m.cos(a + 2.0 * PI) == m.cos(a))
  }

  /** All the laws together: what a conforming <cmath> provides. */
  ghost predicate Sound(m: MathLib) {
    Pythagorean(m) && SqrtSound(m) && Atan2Range(m) && TrigSymmetry(m)
  }

  /** A square root under `SqrtSound` is the unique non-negative root. */
  lemma SqrtUnique(m: MathLib, x: real, s: real)
    requires SqrtSound(m)
    requires s >= 0.0 && s * s == x
    ensures m.sqrt(x) == s
  {
    var t := m.sqrt(x);
    assert t >= 0.0 && t * t == x;
    if t > s {
      SquareLess(s, t);
      assert false;
    } else if t < s {
      SquareLess(t, s);
      assert false;
    }
  }

  /** Square roots are monotone. */
  lemma SqrtMonotone(m: MathLib, x: real, y: real)
    requires SqrtSound(m)
    requires 0.0 <= x <= y
    ensures m.sqrt(x) <= m.sqrt(y)
  {
    var a, b := m.sqrt(x), m.sqrt(y);
    assert a >= 0.0 && a * a == x;
    assert b >= 0.0 && b * b == y;
    if a > b {
      SquareLess(b, a);
      assert false;
    }
  }

  /** Squaring is strictly monotone on the non-negative reals. */
  lemma SquareLess(b: real, a: real)
    requires 0.0 <= b < a
    ensures b * b < a * a
  {
    var p := b * a;
    assert b * b <= p;
    assert p < a * a;
  }

  /** A square `s` of `x` is non-negative, and positive unless `x` is zero. */
  lemma SquareSign(x: real, s: real)
    requires s == x * x
    ensures s >= 0.0 && (x != 0.0 ==> s > 0.0)
  {
    if x < 0.0 {
      var y := -x;
      assert s == y * y;
      ProductPositive(y, y, s);
    } else if x > 0.0 {
      ProductPositive(x, x, s);
    }
  }

  lemma ProductPositive(a: real, b: real, p: real)
    requires a > 0.0 && b > 0.0 && p == a * b
    ensures p > 0.0
  {
  }

  /** The square root of a positive number is positive. */
  lemma SqrtPositive(m: MathLib, x: real)
    requires SqrtSound(m)
    requires x > 0.0
    ensures m.sqrt(x) > 0.0
  {
  }

  /** fmod(a + 2 pi, 2 pi) of an angle in (-pi, pi] lands in [0, 2 pi), equal to `a` or `a + 2 pi`. */
  lemma NormalizedAngle(a: real)
    requires -PI < a <= PI
    ensures 0.0 <= Fmod(a + 2.0 * PI, 2.0 * PI) < 2.0 * PI
    ensures Fmod(a + 2.0 * PI, 2.0 * PI) == (if a < 0.0 then a + 2.0 * PI else a)
  {
    var b := 2.0 * PI;
    var q := (a + b) / b;
    if a < 0.0 {
      assert 0.0 <= q < 1.0;
      assert Trunc(q) == 0.0;
    } else {
      assert 1.0 <= q < 2.0;
      assert Trunc(q) == 1.0;
    }
  }
}
