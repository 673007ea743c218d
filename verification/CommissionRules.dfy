/** Commission rules: which rule applies to a line and how much it pays. */
module CommissionRules {
  import opened Options
  import opened Decimals

  type Time = int
  type DealerId = nat

  datatype TransactionType = DeviceSale | Installing | InitialSubscription | SubscriptionRenewal | Upgrade | AddOnService

  datatype Calculation = NoCalculation | Percentage | FixedAmount | Tiered

  /** A tier of a tier definition: an absent lower limit is zero and an absent upper limit is none. */
  datatype Tier = Tier(minAmount: Option<Cents>, maxAmount: Option<Cents>, percentageRate: Option<int>, fixedAmount: Option<Cents>)

  datatype RuleStatus = DraftRule | ActiveRule | InactiveRule | ArchivedRule

  /** A percentage rate is in units of 1e-4 percent. */
  datatype Rule = Rule(dealer: DealerId, plan: Option<nat>, transaction: TransactionType, calculation: Calculation,
                       percentageRate: Option<int>, fixedAmount: Option<Cents>, tiers: Option<seq<Tier>>,
                       minimum: Option<Cents>, maximum: Option<Cents>, priority: int,
                       effectiveFrom: Time, effectiveUntil: Option<Time>, status: RuleStatus)

  /** One hundred percent. */
  const FULL_RATE: int := 1_000_000

  // ----- Selection -----

  predicate Eligible(r: Rule, dealer: DealerId, plan: Option<nat>, transaction: TransactionType, at: Time) {
    && r.dealer == dealer && r.transaction == transaction && r.status == ActiveRule && r.plan == plan
    && r.effectiveFrom <= at && (r.effectiveUntil.None? || at <= r.effectiveUntil.value)
  }

  /** Rules are tried by ascending priority and, within a priority, latest start first. */
  predicate Before(r: Rule, q: Rule) {
    r.priority < q.priority || (r.priority == q.priority && r.effectiveFrom > q.effectiveFrom)
  }

  /** The position of the first rule in that order among the eligible ones. */
  function BestRule(rules: seq<Rule>, dealer: DealerId, plan: Option<nat>, transaction: TransactionType, at: Time): (r: Option<nat>)
    ensures r.Some? ==> r.value < |rules| && Eligible(rules[r.value], dealer, plan, transaction, at)
    ensures r.Some? ==> forall i :: 0 <= i < |rules| && Eligible(rules[i], dealer, plan, transaction, at) ==>
                                      !Before(rules[i], rules[r.value])
    ensures r.None? ==> forall i :: 0 <= i < |rules| ==> !Eligible(rules[i], dealer, plan, transaction, at)
  {
    if rules == [] then None
    else
      var n := |rules| - 1;
      var best := BestRule(rules[..n], dealer, plan, transaction, at);
      if Eligible(rules[n], dealer, plan, transaction, at) && (best.None? || Before(rules[n], rules[best.value])) then Some(n)
      else best
  }

  /** findRule: rules for the plan go before rules for every plan. */
  function FindRule(rules: seq<Rule>, dealer: DealerId, plan: Option<nat>, transaction: TransactionType, at: Time): Option<nat> {
    var specific := if plan.Some? then BestRule(rules, dealer, plan, transaction, at) else None;
    if specific.Some? then specific else BestRule(rules, dealer, None, transaction, at)
  }

  /** A rule is found exactly when one is eligible; a rule for the plan wins over a general one,
      whatever their priorities; and no eligible rule of the same kind comes before the found one. */
  lemma FindRuleBest(rules: seq<Rule>, dealer: DealerId, plan: Option<nat>, transaction: TransactionType, at: Time)
    ensures var r := FindRule(rules, dealer, plan, transaction, at);
            && (r.Some? <==> exists i :: 0 <= i < |rules| && (Eligible(rules[i], dealer, plan, transaction, at)
                                                             || Eligible(rules[i], dealer, None, transaction, at)))
            && (r.Some? ==>
                  && r.value < |rules|
                  && (rules[r.value].plan == plan <==>
                        exists i :: 0 <= i < |rules| && Eligible(rules[i], dealer, plan, transaction, at))
                  && Eligible(rules[r.value], dealer, rules[r.value].plan, transaction, at)
                  && forall i :: 0 <= i < |rules| && Eligible(rules[i], dealer, rules[r.value].plan, transaction, at) ==>
                       !Before(rules[i], rules[r.value]))
  {
    hide BestRule;
  }

  // ----- Calculation -----

  predicate InTier(t: Tier, base: Cents) {
    (if t.minAmount.Some? then t.minAmount.value else 0) <= base && (t.maxAmount.None? || base <= t.maxAmount.value)
  }

  /** Tier j contains the base and no earlier tier does. */
  predicate FirstTier(tiers: seq<Tier>, j: nat, base: Cents) {
    j < |tiers| && InTier(tiers[j], base) && forall i :: 0 <= i < j ==> !InTier(tiers[i], base)
  }

  /** selectTier: the first tier that contains the base. */
  function SelectTier(tiers: seq<Tier>, base: Cents): (t: Option<Tier>)
    ensures t.Some? ==> exists j :: 0 <= j < |tiers| && FirstTier(tiers, j, base) && t.value == tiers[j]
    ensures t.None? <==> forall i :: 0 <= i < |tiers| ==> !InTier(tiers[i], base)
  {
    if tiers == [] then None
    else if InTier(tiers[0], base) then
      assert FirstTier(tiers, 0, base);
      Some(tiers[0])
    else
      assert forall i :: 0 < i < |tiers| ==> tiers[i] == tiers[1..][i - 1];
      assert forall j :: 0 <= j < |tiers[1..]| && FirstTier(tiers[1..], j, base) ==> FirstTier(tiers, j + 1, base);
      SelectTier(tiers[1..], base)
  }

  function TiersOf(r: Rule): seq<Tier> { if r.tiers.Some? then r.tiers.value else [] }

  /** A percentage of the base, to two places. */
  function PercentageOf(base: Cents, rate: int): Cents { RoundDiv(base * rate, FULL_RATE) }

  /** A share of a fixed amount, to two places. */
  function ShareOf(amount: Cents, ratio: int): Cents { RoundDiv(amount * ratio, RATIO_ONE) }

  /** The amount before the minimum and the maximum of the rule. */
  function Unlimited(rule: Rule, base: Cents, ratio: int): Cents {
    match rule.calculation
    case Percentage => if rule.percentageRate.Some? then PercentageOf(base, rule.percentageRate.value) else 0
    case FixedAmount => if rule.fixedAmount.Some? then ShareOf(rule.fixedAmount.value, ratio) else 0
    case Tiered =>
      var tier := SelectTier(TiersOf(rule), base);
      if tier.Some? && tier.value.percentageRate.Some? then PercentageOf(base, tier.value.percentageRate.value)
      else if tier.Some? && tier.value.fixedAmount.Some? then ShareOf(tier.value.fixedAmount.value, ratio)
      else 0
    case NoCalculation => 0
  }

  /** The minimum is applied first, so the maximum wins when they cross. */
  function Limited(rule: Rule, amount: Cents): Cents {
    var raised := if rule.minimum.Some? && amount < rule.minimum.value then rule.minimum.value else amount;
    if rule.maximum.Some? && raised > rule.maximum.value then rule.maximum.value else raised
  }

  function Calculate(rule: Rule, base: Cents, ratio: int): Cents {
    Limited(rule, Unlimited(rule, base, ratio))
  }

  /** calculate, which reassigns one local amount. */
  method CalculateAmount(rule: Rule, base: Cents, ratio: int) returns (amount: Cents)
    ensures amount == Calculate(rule, base, ratio)
  {
    amount := 0;
    if rule.calculation == Percentage && rule.percentageRate.Some? {
      amount := RoundDiv(base * rule.percentageRate.value, FULL_RATE);
    } else if rule.calculation == FixedAmount && rule.fixedAmount.Some? {
      amount := RoundDiv(rule.fixedAmount.value * ratio, RATIO_ONE);
    } else if rule.calculation == Tiered {
      var tier := SelectTier(TiersOf(rule), base);
      if tier.Some? && tier.value.percentageRate.Some? {
        amount := RoundDiv(base * tier.value.percentageRate.value, FULL_RATE);
      } else if tier.Some? && tier.value.fixedAmount.Some? {
        amount := RoundDiv(tier.value.fixedAmount.value * ratio, RATIO_ONE);
      }
    }
    if rule.minimum.Some? && amount < rule.minimum.value {
      amount := rule.minimum.value;
    }
    if rule.maximum.Some? && amount > rule.maximum.value {
      amount := rule.maximum.value;
    }
  }

  /** What the database requires of the limits of a rule. */
  predicate LimitsValid(r: Rule) {
    && (r.minimum.Some? ==> r.minimum.value >= 0) && (r.maximum.Some? ==> r.maximum.value >= 0)
    && (r.minimum.Some? && r.maximum.Some? ==> r.minimum.value <= r.maximum.value)
  }

  /** assertCalculation. */
  predicate CalculationValid(r: Rule) {
    match r.calculation
    case Percentage => r.percentageRate.Some? && 0 <= r.percentageRate.value <= FULL_RATE
    case FixedAmount => r.fixedAmount.Some? && 0 <= r.fixedAmount.value
    case Tiered => r.tiers.Some?
    case NoCalculation => true
  }

  // ----- Editing -----

  /** The constraint commission_rules_calculation_valid: the data of the other calculations is absent. */
  predicate CalculationStored(r: Rule) {
    && CalculationValid(r)
    && (r.percentageRate.Some? ==> r.calculation == Percentage)
    && (r.fixedAmount.Some? ==> r.calculation == FixedAmount)
    && (r.tiers.Some? ==> r.calculation == Tiered)
  }

  /** createRule stores what it is given, as a draft. */
  function CreateRule(r: Rule): Option<Rule> {
    if CalculationValid(r) then Some(r.(status := DraftRule)) else None
  }

  datatype RuleChange = RuleChange(calculation: Option<Calculation>, percentageRate: Option<int>, fixedAmount: Option<Cents>,
                                   tiers: Option<seq<Tier>>)

  function OrElse<T>(a: Option<T>, b: Option<T>): Option<T> { if a.Some? then a else b }

  /** updateRule: new data goes before stored data, and data of other calculations is cleared. */
  function UpdateRule(r: Rule, change: RuleChange): Option<Rule> {
    var calculation := if change.calculation.Some? then change.calculation.value else r.calculation;
    var rate, fixed, tiers := OrElse(change.percentageRate, r.percentageRate), OrElse(change.fixedAmount, r.fixedAmount),
                              OrElse(change.tiers, r.tiers);
    if !CalculationValid(r.(calculation := calculation, percentageRate := rate, fixedAmount := fixed, tiers := tiers)) then None
    else Some(r.(calculation := calculation,
                 percentageRate := if calculation == Percentage then rate else None,
                 fixedAmount := if calculation == FixedAmount then fixed else None,
                 tiers := if calculation == Tiered then tiers else None))
  }

  /** An updated rule always satisfies the constraint, so percentage rates stay at most 100; a created
      one exactly when it carries no data of another calculation.  Once stored, rules stay valid. */
  lemma EditedRulesStored(r: Rule, change: RuleChange)
    ensures UpdateRule(r, change).Some? ==> CalculationStored(UpdateRule(r, change).value)
    ensures CreateRule(r).Some? ==>
              (CalculationStored(CreateRule(r).value) <==>
                 && (r.percentageRate.Some? ==> r.calculation == Percentage)
                 && (r.fixedAmount.Some? ==> r.calculation == FixedAmount)
                 && (r.tiers.Some? ==> r.calculation == Tiered))
    ensures CalculationStored(r) ==> UpdateRule(r, RuleChange(None, None, None, None)) == Some(r)
  {
  }

  /** With valid limits the result is the unlimited amount when that lies between them, and the
      nearer limit otherwise. */
  lemma CalculateIsClamped(rule: Rule, base: Cents, ratio: int)
    requires LimitsValid(rule)
    ensures var amount := Calculate(rule, base, ratio); var raw := Unlimited(rule, base, ratio);
            && (rule.minimum.Some? ==> rule.minimum.value <= amount)
            && (rule.maximum.Some? ==> amount <= rule.maximum.value)
            && (amount > raw ==> rule.minimum == Some(amount))
            && (amount < raw ==> rule.maximum == Some(amount))
  {
  }

  /** A percentage rule without a minimum pays at most its base, and nothing for nothing. */
  lemma PercentagePaysAtMostBase(rule: Rule, base: Cents, ratio: int)
    requires rule.calculation == Percentage && CalculationValid(rule) && rule.minimum.None? && base >= 0
    ensures Calculate(rule, base, ratio) <= base
  {
    var rate := rule.percentageRate.value;
    assert base * rate <= base * FULL_RATE by {
      assert base * (FULL_RATE - rate) >= 0;
    }
    RoundDivAtMost(base * rate, FULL_RATE, base);
  }
}
