/**
  Python's built-in round(x, ndigits), which the analysis applies to every numeric field.
  Floats are modelled as exact reals: round(x, n) is the multiple of 10^-n nearest to x,
  with an exact tie going to the even multiple (Python's round-half-even).
 */
module Rounding {

  function Pow10(n: nat): (p: int)
    ensures p >= 1
    ensures n > 0 ==> p >= 10
  {
    if n == 0 then 1 else 10 * Pow10(n - 1)
  }

  /** The integer nearest to y, ties to the even neighbour. */
  function RoundHalfEven(y: real): (k: int)
    ensures y - 0.5 <= k as real <= y + 0.5
    ensures (k as real == y + 0.5 || k as real == y - 0.5) ==> k % 2 == 0
  {
    var f := y.Floor;
    var frac := y - f as real;
    if frac < 0.5 then f
    else if frac > 0.5 then f + 1
    else if f % 2 == 0 then f
    else f + 1
  }

  /** The multiple of 1/s nearest to x, ties to the even multiple. */
  function RoundAtScale(x: real, s: real): (r: real)
    requires s > 0.0
    ensures r * s == RoundHalfEven(x * s) as real
  {
    RoundHalfEven(x * s) as real / s
  }

  /** round(x, digits) over exact reals. */
  function RoundTo(x: real, digits: nat): (r: real)
    ensures r * (Pow10(digits) as real) == RoundHalfEven(x * Pow10(digits) as real) as real
  {
    RoundAtScaleAtPow10(x, digits);
    RoundAtScale(x, Pow10(digits) as real)
  }

  /** RoundAtScale's contract at the scale 10^digits, for use inside RoundTo. */
  lemma RoundAtScaleAtPow10(x: real, digits: nat)
    ensures RoundAtScale(x, Pow10(digits) as real) * (Pow10(digits) as real)
            == RoundHalfEven(x * Pow10(digits) as real) as real
  {
  }

  /** Rounding to the nearest integer, ties to even, is monotone. */
  lemma {:induction false} RoundHalfEvenMonotone(y: real, y': real)
    requires y <= y'
    ensures RoundHalfEven(y) <= RoundHalfEven(y')
  {
  }

  lemma MulMonotone(x: real, x': real, s: real)
    requires x <= x' && s > 0.0
    ensures x * s <= x' * s
  {
  }

  lemma DivMonotone(a: real, b: real, s: real)
    requires a <= b && s > 0.0
    ensures a / s <= b / s
  {
    assert a / s * s == a;
    assert b / s * s == b;
  }

  lemma DivShift(a: real, c: real, s: real)
    requires s > 0.0
    ensures (a * s - c) / s == a - c / s
    ensures (a * s + c) / s == a + c / s
  {
  }

  lemma {:induction false} RoundAtScaleMonotone(x: real, x': real, s: real)
    requires x <= x' && s > 0.0
    ensures RoundAtScale(x, s) <= RoundAtScale(x', s)
  {
    MulMonotone(x, x', s);
    RoundHalfEvenMonotone(x * s, x' * s);
    DivMonotone(RoundHalfEven(x * s) as real, RoundHalfEven(x' * s) as real, s);
  }

  /** Rounding never reverses the order of two values. */
  lemma {:induction false} RoundToMonotone(x: real, x': real, digits: nat)
    requires x <= x'
    ensures RoundTo(x, digits) <= RoundTo(x', digits)
  {
    RoundAtScaleMonotone(x, x', Pow10(digits) as real);
  }

  lemma {:induction false} RoundAtScaleError(x: real, s: real)
    requires s > 0.0
    ensures x - 0.5 / s <= RoundAtScale(x, s) <= x + 0.5 / s
  {
    var k := RoundHalfEven(x * s) as real;
    DivMonotone(x * s - 0.5, k, s);
    DivMonotone(k, x * s + 0.5, s);
    DivShift(x, 0.5, s);
  }

  /** The rounded value is within half a unit of the last kept digit. */
  lemma {:induction false} RoundToError(x: real, digits: nat)
    ensures x - 0.5 / Pow10(digits) as real <= RoundTo(x, digits) <= x + 0.5 / Pow10(digits) as real
  {
    RoundAtScaleError(x, Pow10(digits) as real);
  }

  lemma MulDiv(y: real, s: real)
    requires s > 0.0
    ensures y * s / s == y
  {
  }

  lemma {:induction false} RoundAtScaleExact(y: real, s: real, m: int)
    requires s > 0.0 && y * s == m as real
    ensures RoundAtScale(y, s) == y
  {
    assert RoundHalfEven(y * s) == m;
    MulDiv(y, s);
  }

  /** A value that already has at most `digits` decimals is left unchanged. */
  lemma {:induction false} RoundToExact(y: real, digits: nat, m: int)
    requires y * Pow10(digits) as real == m as real
    ensures RoundTo(y, digits) == y
  {
    RoundAtScaleExact(y, Pow10(digits) as real, m);
  }

  /** Rounding twice to the same number of digits is the same as rounding once. */
  lemma {:induction false} RoundToIdempotent(x: real, digits: nat)
    ensures RoundTo(RoundTo(x, digits), digits) == RoundTo(x, digits)
  {
    var s := Pow10(digits) as real;
    var r := RoundAtScale(x, s);
    RoundAtScaleExact(r, s, RoundHalfEven(x * s));
  }

  /** Every value in [0, 0.005) rounds to 0.0 at two decimals. */
  lemma {:induction false} RoundToZero(x: real)
    requires 0.0 <= x < 0.005
    ensures RoundTo(x, 2) == 0.0
  {
    assert Pow10(2) == 100 by { assert Pow10(1) == 10; }
    assert 0.0 <= x * 100.0 < 0.5;
    assert RoundHalfEven(x * 100.0) == 0;
  }

  /** Every value above 0.005 rounds to a positive value at two decimals. */
  lemma {:induction false} RoundToPositive(x: real)
    requires x > 0.005
    ensures RoundTo(x, 2) > 0.0
  {
    assert Pow10(2) == 100 by { assert Pow10(1) == 10; }
    assert x * 100.0 > 0.5;
    assert RoundHalfEven(x * 100.0) >= 1;
  }
}
