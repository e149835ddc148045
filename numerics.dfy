/**
 * Numeric vocabulary shared by every route: the JavaScript `Math` functions the
 * calculations call, modelled over the reals.
 *
 * The transcendental functions of `Math` are not computed here; they are the
 * fields of a `MathLib` value that every calculation receives as a parameter,
 * and are applied through the functions `Log10`, `Pow`, `Sin`, ... below.
 * A property that depends on how one of them behaves names the law it needs
 * (for instance `Log10Monotone`) as a precondition, and holds for every
 * library that satisfies that law.
 */
module Numerics {

  datatype Option<+T> = None | Some(value: T)

  /** The transcendental part of JavaScript's `Math` object. */
  datatype MathLib = MathLib(
    log10: real -> real,
    pow: (real, real) -> real,
    sin: real -> real,
    cos: real -> real,
    tan: real -> real,
    atan: real -> real,
    sqrt: real -> real)

  function Log10(m: MathLib, x: real): real { m.log10(x) }
  function Pow(m: MathLib, x: real, k: real): real { m.pow(x, k) }
  function Sin(m: MathLib, x: real): real { m.sin(x) }
  function Cos(m: MathLib, x: real): real { m.cos(x) }
  function Tan(m: MathLib, x: real): real { m.tan(x) }
  function Atan(m: MathLib, x: real): real { m.atan(x) }
  function Sqrt(m: MathLib, x: real): real { m.sqrt(x) }

  /** `Math.PI` (the decimal expansion of the IEEE double). */
  const PI: real := 3.141592653589793

  /** Kilometres per astronomical unit, as every route rounds it. */
  const KmPerAu: real := 149.6e6

  /** A draw of `Math.random()`: a number in [0, 1). */
  type Unit = r: real | 0.0 <= r < 1.0

  function Min(a: real, b: real): real { if a <= b then a else b }

  function Max(a: real, b: real): real { if a >= b then a else b }

  function Abs(x: real): real { if x < 0.0 then -x else x }

  /** `Math.round`: round half up. */
  function Round(x: real): int { (x + 0.5).Floor }

  // ---------------------------------------------------------------------------
  // Laws of the transcendental functions, each required only where used.

  /** sin²x + cos²x = 1 for every angle. */
  ghost predicate Pythagorean(m: MathLib) {
    forall x :: Sin(m, x) * Sin(m, x) + Cos(m, x) * Cos(m, x) == 1.0
  }

  /** log10 is non-decreasing on the positive reals. */
  ghost predicate Log10Monotone(m: MathLib) {
    forall x, y :: 0.0 < x <= y ==> Log10(m, x) <= Log10(m, y)
  }

  /** log10 x >= 0 for x >= 1. */
  ghost predicate Log10NonNegativeFromOne(m: MathLib) {
    forall x :: x >= 1.0 ==> Log10(m, x) >= 0.0
  }

  /** x ↦ x^k is non-decreasing on the non-negative reals. */
  ghost predicate PowMonotoneInBase(m: MathLib, k: real) {
    forall x, y :: 0.0 <= x <= y ==> Pow(m, x, k) <= Pow(m, y, k)
  }

  /** y ↦ b^y is non-decreasing, for the base b. */
  ghost predicate PowMonotoneInExponent(m: MathLib, b: real) {
    forall x, y :: x <= y ==> Pow(m, b, x) <= Pow(m, b, y)
  }

  /** Square roots of non-negative numbers are non-negative. */
  ghost predicate SqrtNonNegative(m: MathLib) {
    forall x :: 0.0 <= x ==> 0.0 <= Sqrt(m, x)
  }

  /** The square root of a non-negative number squares back to it. */
  ghost predicate SqrtSquares(m: MathLib) {
    forall x :: 0.0 <= x ==> Sqrt(m, x) * Sqrt(m, x) == x
  }

  /** A non-negative base raised to any power is non-negative. */
  ghost predicate PowNonNegative(m: MathLib) {
    forall x, k :: 0.0 <= x ==> 0.0 <= Pow(m, x, k)
  }

  /** Under the Pythagorean identity the cosine lies in [-1, 1]. */
  lemma CosineBounded(m: MathLib, x: real)
    requires Pythagorean(m)
    ensures -1.0 <= Cos(m, x) <= 1.0
  {
    var s, c := Sin(m, x), Cos(m, x);
    assert s * s + c * c == 1.0;
    assert 0.0 <= s * s;
    assert c * c <= 1.0;
  }

  /** Concatenation is associative. */
  lemma AppendAssociative<T>(a: seq<T>, b: seq<T>, c: seq<T>)
    ensures a + (b + c) == (a + b) + c
  {}

  /** `Math.round` rounds to the nearest integer, halves upwards. */
  lemma RoundIsNearest(x: real)
    ensures x - 0.5 < Round(x) as real <= x + 0.5
  {}
}
