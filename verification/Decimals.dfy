/** Fixed-point decimals.

    An amount of money is an integer number of hundredths, an allocation ratio an integer number
    of 1e-8, a quantity an integer number of thousandths and a percentage rate an integer number
    of 1e-4.  The only operation that loses information is rounding a quotient to an integer:
    half away from zero, the default mode of decimal.js. */
module Decimals {

  type Cents = int

  /** One, in units of 1e-8. */
  const RATIO_ONE: int := 100_000_000

  lemma DivBounds(x: int, y: int)
    requires y > 0
    ensures (x / y) * y <= x < (x / y) * y + y
  {
    assert x == (x / y) * y + x % y;
  }

  /** Multiples of d by distinct integers are at least d apart. */
  lemma MulStep(a: int, b: int, d: int)
    requires d >= 0 && a < b
    ensures a * d + d <= b * d
  {
    assert (b - a - 1) * d >= 0;
    assert b * d == a * d + d + (b - a - 1) * d;
  }

  /** n / d rounded to the nearest integer, a tie going up. */
  function RoundMagnitude(n: nat, d: int): (r: nat)
    requires d > 0
    ensures -d < 2 * (r * d - n) <= d
  {
    DivBounds(2 * n + d, 2 * d);
    var r := (2 * n + d) / (2 * d);
    assert r * (2 * d) == 2 * (r * d);
    r
  }

  /** n / d rounded to the nearest integer, ties away from zero. */
  function RoundDiv(n: int, d: int): (r: int)
    requires d > 0
    ensures n >= 0 ==> r >= 0 && -d < 2 * (r * d - n) <= d
    ensures n < 0 ==> r <= 0 && -d <= 2 * (r * d - n) < d
  {
    if n >= 0 then
      RoundMagnitude(n, d)
    else
      var r: int := RoundMagnitude(-n, d);
      assert (-r) * d == -(r * d);
      -r
  }

  /** Two integers whose multiples of d are less than d apart are equal. */
  lemma CloseMultiples(a: int, b: int, d: int)
    requires d > 0 && -d < a * d - b * d < d
    ensures a == b
  {
    if a > b {
      MulStep(b, a, d);
    } else if a < b {
      MulStep(a, b, d);
    }
  }

  /** Rounding is the only integer that satisfies its error bounds. */
  lemma RoundDivUnique(n: int, d: int, r: int)
    requires d > 0
    requires n >= 0 ==> -d < 2 * (r * d - n) <= d
    requires n < 0 ==> -d <= 2 * (r * d - n) < d
    ensures r == RoundDiv(n, d)
  {
    CloseMultiples(r, RoundDiv(n, d), d);
  }

  lemma RoundDivMonotone(n: int, m: int, d: int)
    requires d > 0 && n <= m
    ensures RoundDiv(n, d) <= RoundDiv(m, d)
  {
    var a, b := RoundDiv(n, d), RoundDiv(m, d);
    if a > b {
      MulStep(b, a, d);
    }
  }

  lemma RoundDivExact(k: int, d: int)
    requires d > 0
    ensures RoundDiv(k * d, d) == k
  {
    RoundDivUnique(k * d, d, k) by {
      assert k * d - k * d == 0;
    }
  }

  /** A share of a non-negative whole, rounded, never exceeds the whole. */
  lemma RoundDivAtMost(n: int, d: int, whole: int)
    requires d > 0 && n <= whole * d
    ensures RoundDiv(n, d) <= whole
  {
    RoundDivMonotone(n, whole * d, d);
    RoundDivExact(whole, d);
  }

  /** Exactly when a rounded quotient is at most an integer. */
  lemma RoundDivAtMostIff(n: int, d: int, m: int)
    requires n >= 0 && d > 0
    ensures RoundDiv(n, d) <= m <==> 2 * n < (2 * m + 1) * d
  {
    var r := RoundDiv(n, d);
    assert (2 * m + 1) * d == 2 * (m * d) + d;
    if r < m {
      MulStep(r, m, d);
    } else if r > m {
      MulStep(m, r, d);
    }
  }

  function Min(a: int, b: int): int { if a <= b then a else b }

  function Sum(xs: seq<int>): int {
    if xs == [] then 0 else xs[0] + Sum(xs[1..])
  }

  lemma SumAppend(xs: seq<int>, x: int)
    ensures Sum(xs + [x]) == Sum(xs) + x
  {
    if xs == [] {
      assert xs + [x] == [x];
    } else {
      assert (xs + [x])[1..] == xs[1..] + [x];
      SumAppend(xs[1..], x);
    }
  }
}
