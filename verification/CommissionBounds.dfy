/** How far rounded shares can be from exact ones. */
module CommissionBounds {
  import opened Decimals
  import opened CommissionRules

  /** An amount as a fraction of a whole, to eight places. */
  function Ratio(amount: Cents, whole: Cents): int
    requires whole > 0
  {
    RoundDiv(amount * RATIO_ONE, whole)
  }

  lemma Scaled(x: int, bound: int, k: int)
    requires k >= 0 && -bound <= x <= bound
    ensures -(k * bound) <= k * x <= k * bound
  {
    assert k * (bound - x) >= 0;
    assert k * (bound + x) >= 0;
  }

  /** Twice a difference, scaled. */
  lemma ScaledDifference(k: int, x: int, y: int)
    ensures k * (2 * (x - y)) == 2 * (k * x) - 2 * (k * y)
  {
  }

  lemma Exchange(w: int, c: int, q: int)
    ensures w * (c * q) == c * (q * w)
  {
  }

  lemma Distribute(k: int, x: int, y: int)
    ensures k * (x + y) == k * x + k * y
  {
  }

  /** Rounding s = c * q / one after q = a * one / w. */
  lemma TwoRoundings(one: int, w: int, c: int, a: int, q: int, s: int)
    requires c >= 0 && w >= 0
    requires -one <= 2 * (s * one - c * q) <= one
    requires -w <= 2 * (q * w - a * one) <= w
    ensures -(w * one + c * w) <= 2 * (w * (s * one)) - 2 * (c * (a * one)) <= w * one + c * w
  {
    var so, cq, qw, ao := s * one, c * q, q * w, a * one;
    Scaled(2 * (so - cq), one, w);
    Scaled(2 * (qw - ao), w, c);
    ScaledDifference(w, so, cq);
    ScaledDifference(c, qw, ao);
    Exchange(w, c, q);
  }

  /** Twice the error of a share of c, scaled by the whole and by 1e8, is at most
      whole * 1e8 + c * whole: half a cent for the last rounding and half a unit of 1e-8 of c for
      the ratio. */
  lemma ShareError(c: Cents, amount: Cents, whole: Cents)
    requires c >= 0 && whole > 0
    ensures var bound := whole * RATIO_ONE + c * whole;
            -bound <= 2 * (whole * (ShareOf(c, Ratio(amount, whole)) * RATIO_ONE)) - 2 * (c * (amount * RATIO_ONE)) <= bound
  {
    var ratio := Ratio(amount, whole);
    var share := ShareOf(c, ratio);
    assert -whole <= 2 * (ratio * whole - amount * RATIO_ONE) <= whole;
    assert -RATIO_ONE <= 2 * (share * RATIO_ONE - c * ratio) <= RATIO_ONE;
    hide Ratio, ShareOf, RoundDiv;
    TwoRoundings(RATIO_ONE, whole, c, amount, ratio, share);
  }

  /** The shares of c that go with a list of amounts. */
  function Shares(c: Cents, amounts: seq<Cents>, whole: Cents): (r: seq<Cents>)
    requires whole > 0
    ensures |r| == |amounts|
  {
    seq(|amounts|, i requires 0 <= i < |amounts| => ShareOf(c, Ratio(amounts[i], whole)))
  }

  /** Main theorem.  For k amounts of one whole, the rounded shares of c sum to c times the summed
      fraction within k * (0.5 cents + c * 0.5e-8). */
  lemma {:induction false} SharesError(c: Cents, amounts: seq<Cents>, whole: Cents)
    requires c >= 0 && whole > 0
    ensures var bound := |amounts| * (whole * RATIO_ONE + c * whole);
            -bound <= 2 * (whole * (Sum(Shares(c, amounts, whole)) * RATIO_ONE)) - 2 * (c * (Sum(amounts) * RATIO_ONE)) <= bound
  {
    if amounts != [] {
      var rest := amounts[1..];
      SharesError(c, rest, whole);
      ShareError(c, amounts[0], whole);
      assert Shares(c, amounts, whole)[1..] == Shares(c, rest, whole);
      AddErrors(RATIO_ONE, whole, c, amounts[0], Sum(rest), ShareOf(c, Ratio(amounts[0], whole)), Sum(Shares(c, rest, whole)),
                |rest|, whole * RATIO_ONE + c * whole);
    }
  }

  lemma AddErrors(one: int, w: int, c: int, a: int, b: int, s: int, t: int, n: int, bound: int)
    requires -bound <= 2 * (w * (s * one)) - 2 * (c * (a * one)) <= bound
    requires -(n * bound) <= 2 * (w * (t * one)) - 2 * (c * (b * one)) <= n * bound
    ensures -((n + 1) * bound) <= 2 * (w * ((s + t) * one)) - 2 * (c * ((a + b) * one)) <= (n + 1) * bound
  {
    Distribute(w, s * one, t * one);
    Distribute(c, a * one, b * one);
    assert (s + t) * one == s * one + t * one;
    assert (a + b) * one == a * one + b * one;
    assert (n + 1) * bound == n * bound + bound;
  }

  lemma CancelFactor(w: int, x: int, bound: int)
    requires w > 0 && -(w * bound) <= w * x <= w * bound
    ensures -bound <= x <= bound
  {
    if x > bound {
      MulStep(bound, x, w);
    } else if x < -bound {
      MulStep(x, -bound, w);
    }
  }

  /** When the amounts make up the whole, the shares sum to c within k * (0.5 cents + c * 0.5e-8). */
  lemma WholeError(c: Cents, amounts: seq<Cents>, whole: Cents)
    requires c >= 0 && whole > 0 && Sum(amounts) == whole
    ensures var bound := |amounts| * (RATIO_ONE + c);
            -bound <= 2 * RATIO_ONE * (Sum(Shares(c, amounts, whole)) - c) <= bound
  {
    SharesError(c, amounts, whole);
    var k, x := |amounts|, Sum(Shares(c, amounts, whole));
    hide Shares, Sum;
    WholeFactor(whole, c, x, k);
    CancelFactor(whole, 2 * RATIO_ONE * (x - c), k * (RATIO_ONE + c));
  }

  lemma WholeFactor(w: int, c: int, x: int, k: int)
    ensures 2 * (w * (x * RATIO_ONE)) - 2 * (c * (w * RATIO_ONE)) == w * (2 * RATIO_ONE * (x - c))
    ensures k * (w * RATIO_ONE + c * w) == w * (k * (RATIO_ONE + c))
  {
    assert w * RATIO_ONE + c * w == w * (RATIO_ONE + c);
    assert k * (w * (RATIO_ONE + c)) == w * (k * (RATIO_ONE + c));
  }

  // ----- Bases of the lines of one invoice -----

  /** The bases of all lines for one ratio. */
  function Bases(totals: seq<Cents>, ratio: int): (r: seq<Cents>)
    ensures |r| == |totals|
  {
    seq(|totals|, i requires 0 <= i < |totals| => ShareOf(totals[i], ratio))
  }

  /** Adding one rounding of a * k / one to n of them. */
  lemma AddRoundings(one: int, k: int, n: int, s: int, t: int, a: int, b: int)
    requires -one <= 2 * (s * one - a * k) <= one
    requires -(n * one) <= 2 * (t * one - b * k) <= n * one
    ensures -((n + 1) * one) <= 2 * ((s + t) * one - (a + b) * k) <= (n + 1) * one
  {
    assert (s + t) * one == s * one + t * one;
    assert (a + b) * k == a * k + b * k;
    assert (n + 1) * one == n * one + one;
  }

  lemma {:induction false} BasesAtRatio(totals: seq<Cents>, ratio: int)
    ensures -(|totals| * RATIO_ONE) <= 2 * (Sum(Bases(totals, ratio)) * RATIO_ONE - Sum(totals) * ratio) <= |totals| * RATIO_ONE
  {
    if totals != [] {
      var rest := totals[1..];
      BasesAtRatio(rest, ratio);
      assert Bases(totals, ratio)[1..] == Bases(rest, ratio);
      var share := ShareOf(totals[0], ratio);
      assert -RATIO_ONE <= 2 * (share * RATIO_ONE - totals[0] * ratio) <= RATIO_ONE;
      hide ShareOf, Bases;
      AddRoundings(RATIO_ONE, ratio, |rest|, share, Sum(Bases(rest, ratio)), totals[0], Sum(rest));
    }
  }

  /** Main theorem.  The bases that one allocation gives to the n lines of an invoice sum to the
      allocation within n * 0.5 cents + total * 0.5e-8. */
  lemma BasesError(totals: seq<Cents>, allocation: Cents)
    requires Sum(totals) > 0
    ensures var bound := |totals| * RATIO_ONE + Sum(totals);
            -bound <= 2 * RATIO_ONE * (Sum(Bases(totals, Ratio(allocation, Sum(totals)))) - allocation) <= bound
  {
    var ratio := Ratio(allocation, Sum(totals));
    BasesAtRatio(totals, ratio);
    assert -Sum(totals) <= 2 * (ratio * Sum(totals) - allocation * RATIO_ONE) <= Sum(totals);
  }

  // ----- Refunds -----

  /** A full refund has ratio one and reverses a commission exactly. */
  lemma FullRefund(c: Cents, payment: Cents)
    requires payment > 0
    ensures Ratio(payment, payment) == RATIO_ONE && ShareOf(c, RATIO_ONE) == c
  {
    RoundDivExact(RATIO_ONE, payment);
    RoundDivExact(c, RATIO_ONE);
    assert payment * RATIO_ONE == RATIO_ONE * payment;
  }

  /** Main theorem.  The rounded ratio of a refund reaches one exactly when twice 1e8 times what is
      not refunded is at most the payment. */
  lemma RatioReachesOne(refund: Cents, payment: Cents)
    requires payment > 0
    ensures Ratio(refund, payment) >= RATIO_ONE <==> 2 * RATIO_ONE * (payment - refund) <= payment
  {
    var ratio := Ratio(refund, payment);
    if ratio >= RATIO_ONE + 1 {
      MulStep(RATIO_ONE, ratio, payment);
    } else if ratio <= RATIO_ONE - 1 {
      MulStep(ratio, RATIO_ONE, payment);
    }
  }

  /** Below 2,000,000.00 only a full refund reaches one, and at 2,000,000.00 a refund of one cent
      less reaches it too. */
  lemma RatioThreshold(refund: Cents, payment: Cents)
    requires 0 < payment && 0 <= refund <= payment
    ensures payment < 2 * RATIO_ONE ==> (Ratio(refund, payment) >= RATIO_ONE <==> refund == payment)
    ensures Ratio(2 * RATIO_ONE - 1, 2 * RATIO_ONE) >= RATIO_ONE
  {
    RatioReachesOne(refund, payment);
    RatioReachesOne(2 * RATIO_ONE - 1, 2 * RATIO_ONE);
  }

  // ----- Instalments -----

  /** What a percentage rule pays on one line for each instalment of an invoice. */
  function Percentages(line: Cents, rate: int, amounts: seq<Cents>, whole: Cents): (r: seq<Cents>)
    requires whole > 0
    ensures |r| == |amounts|
  {
    seq(|amounts|, i requires 0 <= i < |amounts| => PercentageOf(ShareOf(line, Ratio(amounts[i], whole)), rate))
  }

  lemma {:induction false} PercentagesOfShares(line: Cents, rate: int, amounts: seq<Cents>, whole: Cents)
    requires whole > 0
    ensures -(|amounts| * FULL_RATE)
            <= 2 * (Sum(Percentages(line, rate, amounts, whole)) * FULL_RATE - Sum(Shares(line, amounts, whole)) * rate)
            <= |amounts| * FULL_RATE
  {
    if amounts != [] {
      var rest := amounts[1..];
      PercentagesOfShares(line, rate, rest, whole);
      assert Percentages(line, rate, amounts, whole)[1..] == Percentages(line, rate, rest, whole);
      assert Shares(line, amounts, whole)[1..] == Shares(line, rest, whole);
      var base := ShareOf(line, Ratio(amounts[0], whole));
      var paid := PercentageOf(base, rate);
      assert -FULL_RATE <= 2 * (paid * FULL_RATE - base * rate) <= FULL_RATE;
      hide ShareOf, PercentageOf, Ratio, Percentages, Shares;
      AddRoundings(FULL_RATE, rate, |rest|, paid, Sum(Percentages(line, rate, rest, whole)), base, Sum(Shares(line, rest, whole)));
    }
  }

  /** Main theorem.  Paying an invoice in k instalments changes what a percentage rule pays on a line
      by at most k * (0.5 cents + rate * (0.5 cents + line * 0.5e-8)) + 0.5 cents. */
  lemma PercentageInstalments(line: Cents, rate: int, amounts: seq<Cents>, whole: Cents)
    requires line >= 0 && rate >= 0 && whole > 0 && Sum(amounts) == whole
    ensures var single := PercentageOf(line, rate);
            var bound := |amounts| * (RATIO_ONE * FULL_RATE + rate * (RATIO_ONE + line)) + RATIO_ONE * FULL_RATE;
            -bound <= 2 * RATIO_ONE * FULL_RATE * (Sum(Percentages(line, rate, amounts, whole)) - single) <= bound
  {
    PercentagesOfShares(line, rate, amounts, whole);
    WholeError(line, amounts, whole);
    var k, paid, bases := |amounts|, Sum(Percentages(line, rate, amounts, whole)), Sum(Shares(line, amounts, whole));
    var single := PercentageOf(line, rate);
    assert -FULL_RATE <= 2 * (single * FULL_RATE - line * rate) <= FULL_RATE;
    hide Percentages, Shares, PercentageOf, Sum;
    InstalmentError(k, rate, line, bases, paid, single);
  }

  lemma InstalmentError(k: int, rate: int, line: int, bases: int, paid: int, single: int)
    requires rate >= 0
    requires -(k * FULL_RATE) <= 2 * (paid * FULL_RATE - bases * rate) <= k * FULL_RATE
    requires -(k * (RATIO_ONE + line)) <= 2 * RATIO_ONE * (bases - line) <= k * (RATIO_ONE + line)
    requires -FULL_RATE <= 2 * (single * FULL_RATE - line * rate) <= FULL_RATE
    ensures var bound := k * (RATIO_ONE * FULL_RATE + rate * (RATIO_ONE + line)) + RATIO_ONE * FULL_RATE;
            -bound <= 2 * RATIO_ONE * FULL_RATE * (paid - single) <= bound
  {
    var b, d := RATIO_ONE + line, 2 * RATIO_ONE * (bases - line);
    Scaled(d, k * b, rate);
    Exchange(rate, k, b);
    Factor(rate, bases, line);
    assert k * (b * rate) == k * (rate * b);
    var br, lr, rb, shift := bases * rate, line * rate, rate * b, rate * d;
    InstalmentSum(k, paid, single, br, lr, rb, shift);
  }

  lemma Factor(rate: int, bases: int, line: int)
    ensures rate * (2 * RATIO_ONE * (bases - line)) == 2 * RATIO_ONE * (bases * rate - line * rate)
  {
    var d := bases - line;
    assert d * rate == bases * rate - line * rate;
  }

  lemma InstalmentSum(k: int, paid: int, single: int, bases: int, line: int, b: int, shift: int)
    requires -(k * FULL_RATE) <= 2 * (paid * FULL_RATE - bases) <= k * FULL_RATE
    requires shift == 2 * RATIO_ONE * (bases - line) && -(k * b) <= shift <= k * b
    requires -FULL_RATE <= 2 * (single * FULL_RATE - line) <= FULL_RATE
    ensures var bound := k * (RATIO_ONE * FULL_RATE + b) + RATIO_ONE * FULL_RATE;
            -bound <= 2 * RATIO_ONE * FULL_RATE * (paid - single) <= bound
  {
    assert k * (RATIO_ONE * FULL_RATE + b) == k * (RATIO_ONE * FULL_RATE) + k * b;
  }
}
