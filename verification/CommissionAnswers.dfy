/** Which rule applies, what it pays and which rules are stored, said of the rules themselves and not
    through the selection and calculation functions. */
module CommissionAnswers {
  import opened Options
  import opened Decimals
  import opened CommissionRules

  // ----- findRule -----

  /** The rule is active for the dealer, the type and the plan (none for every plan) and in force at the time. */
  ghost predicate Offers(r: Rule, dealer: DealerId, plan: Option<nat>, transaction: TransactionType, at: Time) {
    && r.dealer == dealer && r.transaction == transaction && r.plan == plan && r.status == ActiveRule
    && r.effectiveFrom <= at && (r.effectiveUntil == None || at <= r.effectiveUntil.value)
  }

  /** Rule i is first: a lower number in priority goes first, then a later start, then an earlier row. */
  ghost predicate FirstOffer(rules: seq<Rule>, dealer: DealerId, plan: Option<nat>, transaction: TransactionType, at: Time, i: nat) {
    && i < |rules| && Offers(rules[i], dealer, plan, transaction, at)
    && forall j :: 0 <= j < |rules| && j != i && Offers(rules[j], dealer, plan, transaction, at) ==>
         || rules[i].priority < rules[j].priority
         || (rules[i].priority == rules[j].priority && rules[i].effectiveFrom > rules[j].effectiveFrom)
         || (rules[i].priority == rules[j].priority && rules[i].effectiveFrom == rules[j].effectiveFrom && i < j)
  }

  /** The rule that applies: the first for the plan, or, if there is none for it, the first for every plan. */
  ghost predicate Chosen(rules: seq<Rule>, dealer: DealerId, plan: Option<nat>, transaction: TransactionType, at: Time, i: nat) {
    if plan.Some? && (exists j :: 0 <= j < |rules| && Offers(rules[j], dealer, plan, transaction, at)) then
      FirstOffer(rules, dealer, plan, transaction, at, i)
    else FirstOffer(rules, dealer, None, transaction, at, i)
  }

  lemma {:induction false} BestIsFirst(rules: seq<Rule>, dealer: DealerId, plan: Option<nat>, transaction: TransactionType, at: Time)
    ensures var r := BestRule(rules, dealer, plan, transaction, at);
            && (r.None? <==> forall j :: 0 <= j < |rules| ==> !Offers(rules[j], dealer, plan, transaction, at))
            && (r.Some? ==> FirstOffer(rules, dealer, plan, transaction, at, r.value))
  {
    hide FirstOffer;
    if rules != [] {
      var n := |rules| - 1;
      BestIsFirst(rules[..n], dealer, plan, transaction, at);
      var best, r := BestRule(rules[..n], dealer, plan, transaction, at), BestRule(rules, dealer, plan, transaction, at);
      assert Offers(rules[n], dealer, plan, transaction, at) <==> Eligible(rules[n], dealer, plan, transaction, at);
      hide Offers, Eligible, BestRule;
      OneMoreOffer(rules, dealer, plan, transaction, at, best, r);
    }
  }

  /** The first offer when one more rule is looked at. */
  lemma OneMoreOffer(rules: seq<Rule>, dealer: DealerId, plan: Option<nat>, transaction: TransactionType, at: Time,
                     best: Option<nat>, r: Option<nat>)
    requires rules != []
    requires var init := rules[..|rules| - 1];
             && (best.None? <==> forall j :: 0 <= j < |init| ==> !Offers(init[j], dealer, plan, transaction, at))
             && (best.Some? ==> FirstOffer(init, dealer, plan, transaction, at, best.value))
    requires best.Some? ==> best.value < |rules| - 1
    requires var n := |rules| - 1;
             r == if Offers(rules[n], dealer, plan, transaction, at) && (best.None? || Before(rules[n], rules[best.value]))
                  then Some(n) else best
    ensures r.None? <==> forall j :: 0 <= j < |rules| ==> !Offers(rules[j], dealer, plan, transaction, at)
    ensures r.Some? ==> FirstOffer(rules, dealer, plan, transaction, at, r.value)
  {
    hide Offers;
    var init := rules[..|rules| - 1];
    assert forall j :: 0 <= j < |init| ==> rules[j] == init[j];
    if best.Some? {
      assert Offers(rules[best.value], dealer, plan, transaction, at);
    }
  }

  /** Main theorem.  findRule finds the rule that applies, and finds none exactly when none does. */
  lemma FindRuleMeans(rules: seq<Rule>, dealer: DealerId, plan: Option<nat>, transaction: TransactionType, at: Time)
    ensures var r := FindRule(rules, dealer, plan, transaction, at);
            && (r.Some? ==> r.value < |rules| && Chosen(rules, dealer, plan, transaction, at, r.value))
            && (r.None? ==> forall i: nat :: !Chosen(rules, dealer, plan, transaction, at, i))
  {
    hide BestRule, Offers;
    BestIsFirst(rules, dealer, plan, transaction, at);
    BestIsFirst(rules, dealer, None, transaction, at);
  }

  lemma OneChoice(rules: seq<Rule>, dealer: DealerId, plan: Option<nat>, transaction: TransactionType, at: Time, i: nat, j: nat)
    requires Chosen(rules, dealer, plan, transaction, at, i) && Chosen(rules, dealer, plan, transaction, at, j)
    ensures i == j
  {
    hide Offers;
  }

  // ----- calculate -----

  /** x is n / d rounded to the nearest integer, ties away from zero. */
  ghost predicate Half(x: int, n: int, d: int) {
    if n >= 0 then -d < 2 * (x * d - n) <= d else -d <= 2 * (x * d - n) < d
  }

  lemma HalfIsRoundDiv(x: int, n: int, d: int)
    requires d > 0
    ensures Half(x, n, d) <==> x == RoundDiv(n, d)
  {
    if Half(x, n, d) {
      RoundDivUnique(n, d, x);
    }
  }

  /** Tier j is the first whose limits contain the base. */
  ghost predicate TierOf(tiers: seq<Tier>, base: Cents, j: nat) {
    && j < |tiers| && Contains(tiers[j], base) && forall i :: 0 <= i < j ==> !Contains(tiers[i], base)
  }

  ghost predicate Contains(t: Tier, base: Cents) {
    (t.minAmount == None ==> 0 <= base) && (t.minAmount != None ==> t.minAmount.value <= base)
    && (t.maxAmount == None || base <= t.maxAmount.value)
  }

  /** What a percentage rate or else a fixed amount pays, before limits. */
  ghost predicate PaysBy(rate: Option<int>, fixed: Option<Cents>, base: Cents, ratio: int, raw: Cents) {
    if rate != None then Half(raw, base * rate.value, 1_000_000)
    else if fixed != None then Half(raw, fixed.value * ratio, 100_000_000)
    else raw == 0
  }

  /** What the rule pays, before limits. */
  ghost predicate PaysRaw(r: Rule, base: Cents, ratio: int, raw: Cents) {
    match r.calculation
    case Percentage => PaysBy(r.percentageRate, None, base, ratio, raw)
    case FixedAmount => PaysBy(None, r.fixedAmount, base, ratio, raw)
    case Tiered =>
      if r.tiers == None || forall j: nat :: !TierOf(r.tiers.value, base, j) then raw == 0
      else exists j: nat :: TierOf(r.tiers.value, base, j)
                       && PaysBy(r.tiers.value[j].percentageRate, r.tiers.value[j].fixedAmount, base, ratio, raw)
    case NoCalculation => raw == 0
  }

  /** The amount after the minimum and then the maximum. */
  ghost predicate PaysLimited(r: Rule, raw: Cents, amount: Cents) {
    var raised := if r.minimum != None && raw < r.minimum.value then r.minimum.value else raw;
    amount == if r.maximum != None && r.maximum.value < raised then r.maximum.value else raised
  }

  /** What the rule pays for a base and a ratio. */
  ghost predicate Pays(r: Rule, base: Cents, ratio: int, amount: Cents) {
    exists raw :: PaysRaw(r, base, ratio, raw) && PaysLimited(r, raw, amount)
  }

  lemma PaysByMeans(rate: Option<int>, fixed: Option<Cents>, base: Cents, ratio: int, raw: Cents)
    ensures PaysBy(rate, fixed, base, ratio, raw) <==>
            raw == if rate.Some? then PercentageOf(base, rate.value) else if fixed.Some? then ShareOf(fixed.value, ratio) else 0
  {
    hide Half, RoundDiv;
    if rate.Some? {
      HalfIsRoundDiv(raw, base * rate.value, 1_000_000);
    } else if fixed.Some? {
      HalfIsRoundDiv(raw, fixed.value * ratio, 100_000_000);
    }
  }

  lemma TierMeans(tiers: seq<Tier>, base: Cents)
    ensures SelectTier(tiers, base).None? <==> forall j: nat :: !TierOf(tiers, base, j)
    ensures forall j: nat :: TierOf(tiers, base, j) ==> SelectTier(tiers, base) == Some(tiers[j])
  {
    hide SelectTier;
    assert forall j :: 0 <= j < |tiers| ==> (Contains(tiers[j], base) <==> InTier(tiers[j], base));
    hide Contains, InTier;
    if SelectTier(tiers, base).Some? {
      var j :| 0 <= j < |tiers| && FirstTier(tiers, j, base) && SelectTier(tiers, base).value == tiers[j];
      assert TierOf(tiers, base, j);
      forall k: nat | TierOf(tiers, base, k)
        ensures k == j
      {
      }
    }
  }

  /** Main theorem.  calculate pays, to the nearest cent with ties away from zero: a percentage of the base,
      the ratio's share of a fixed amount, or either of the first tier that contains the base - raised to the
      minimum and then lowered to the maximum. */
  lemma CalculateMeans(r: Rule, base: Cents, ratio: int, amount: Cents)
    ensures Pays(r, base, ratio, amount) <==> amount == Calculate(r, base, ratio)
  {
    hide PaysBy, PercentageOf, ShareOf, TierOf, SelectTier;
    var raw := Unlimited(r, base, ratio);
    forall x: Cents
      ensures PaysRaw(r, base, ratio, x) <==> x == raw
    {
      PaysByMeans(r.percentageRate, None, base, ratio, x);
      PaysByMeans(None, r.fixedAmount, base, ratio, x);
      if r.calculation == Tiered && r.tiers.Some? {
        TieredMeans(r.tiers.value, base, ratio, x);
      } else if r.calculation == Tiered {
        TierMeans([], base);
      }
    }
    assert PaysRaw(r, base, ratio, raw);
    hide PaysRaw, Unlimited;
    assert PaysLimited(r, raw, Limited(r, raw));
  }

  lemma TieredMeans(tiers: seq<Tier>, base: Cents, ratio: int, x: Cents)
    ensures var t := SelectTier(tiers, base);
            (if forall j: nat :: !TierOf(tiers, base, j) then x == 0
             else exists j: nat :: TierOf(tiers, base, j) && PaysBy(tiers[j].percentageRate, tiers[j].fixedAmount, base, ratio, x))
            <==> x == if t.Some? && t.value.percentageRate.Some? then PercentageOf(base, t.value.percentageRate.value)
                      else if t.Some? && t.value.fixedAmount.Some? then ShareOf(t.value.fixedAmount.value, ratio) else 0
  {
    hide PaysBy, PercentageOf, ShareOf, TierOf, SelectTier;
    TierMeans(tiers, base);
    var t := SelectTier(tiers, base);
    if t.Some? {
      PaysByMeans(t.value.percentageRate, t.value.fixedAmount, base, ratio, x);
    }
  }

  // ----- createRule and updateRule -----

  /** The data that a calculation needs is there and within its limits. */
  ghost predicate Sufficient(calculation: Calculation, rate: Option<int>, fixed: Option<Cents>, tiers: Option<seq<Tier>>) {
    && (calculation == Percentage ==> rate != None && 0 <= rate.value <= 1_000_000)
    && (calculation == FixedAmount ==> fixed != None && 0 <= fixed.value)
    && (calculation == Tiered ==> tiers != None)
  }

  lemma CreateRuleMeans(r: Rule)
    ensures CreateRule(r).Some? <==> Sufficient(r.calculation, r.percentageRate, r.fixedAmount, r.tiers)
    ensures CreateRule(r).Some? ==> CreateRule(r).value == r.(status := DraftRule)
  {
  }

  /** Main theorem.  updateRule takes what is given before what is stored, accepts it exactly when it is
      sufficient, keeps the data of the calculation and drops that of the others. */
  lemma UpdateRuleMeans(r: Rule, change: RuleChange, calculation: Calculation, rate: Option<int>, fixed: Option<Cents>,
                        tiers: Option<seq<Tier>>)
    requires calculation == if change.calculation != None then change.calculation.value else r.calculation
    requires rate == if change.percentageRate != None then change.percentageRate else r.percentageRate
    requires fixed == if change.fixedAmount != None then change.fixedAmount else r.fixedAmount
    requires tiers == if change.tiers != None then change.tiers else r.tiers
    ensures UpdateRule(r, change).Some? <==> Sufficient(calculation, rate, fixed, tiers)
    ensures UpdateRule(r, change).Some? ==>
              UpdateRule(r, change).value == r.(calculation := calculation,
                percentageRate := if calculation == Percentage then rate else None,
                fixedAmount := if calculation == FixedAmount then fixed else None,
                tiers := if calculation == Tiered then tiers else None)
  {
  }
}
