/** What a line earns when its invoice is paid in instalments, over any run of the billing services. */
module BillingInstalments {
  import opened Decimals
  import opened CommissionRules
  import opened CommissionBounds
  import opened BillingBooks
  import opened BillingEngine
  import opened Billing
  import opened BillingRuns
  import opened BillingInvoices

  /** What a line earns, zero when nothing is due. */
  function DueAmount(b: Books, p: nat, i: nat, k: nat, ratio: int, at: Time): int
    requires i < |b.invoices| && k < |b.invoices[i].lines| && b.invoices[i].dealer.Some?
  {
    var due := Due(b, p, i, k, ratio, at);
    if due.Some? then due.value.amount else 0
  }

  /** The rule that applies to a line. */
  ghost predicate Applies(b: Books, i: nat, k: nat, at: Time, rule: Rule)
    requires i < |b.invoices| && k < |b.invoices[i].lines| && b.invoices[i].dealer.Some?
  {
    var transaction := ResolveType(b.invoices, i, b.invoices[i].lines[k].item);
    && transaction.Some?
    && var r := FindRule(b.rules, b.invoices[i].dealer.value, PlanOf(b, b.invoices[i]), transaction.value, at);
       r.Some? && rule == b.rules[r.value]
  }

  /** A fixed rule within its checks, without a minimum or a maximum. */
  predicate PlainFixed(r: Rule) {
    r.calculation == FixedAmount && r.fixedAmount.Some? && CalculationValid(r) && r.minimum.None? && r.maximum.None?
  }

  /** A percentage rule within its checks, without a minimum or a maximum. */
  predicate PlainPercentage(r: Rule) {
    r.calculation == Percentage && r.percentageRate.Some? && CalculationValid(r) && r.minimum.None? && r.maximum.None?
  }

  lemma FixedDue(b: Books, p: nat, i: nat, k: nat, ratio: int, at: Time, rule: Rule)
    requires i < |b.invoices| && k < |b.invoices[i].lines| && b.invoices[i].dealer.Some? && ratio >= 0
    requires Applies(b, i, k, at, rule) && PlainFixed(rule) && ShareOf(b.invoices[i].lines[k].total, ratio) > 0
    ensures DueAmount(b, p, i, k, ratio, at) == ShareOf(rule.fixedAmount.value, ratio)
  {
    ShareSign(rule.fixedAmount.value, ratio);
    hide ShareOf, FindRule, ResolveType;
  }

  lemma PercentageSign(base: Cents, rate: int)
    requires base >= 0 && rate >= 0
    ensures PercentageOf(base, rate) >= 0 && (base == 0 ==> PercentageOf(base, rate) == 0)
  {
    assert base * rate >= 0;
    assert base == 0 ==> base * rate == 0;
  }

  lemma PercentageDue(b: Books, p: nat, i: nat, k: nat, ratio: int, at: Time, rule: Rule)
    requires i < |b.invoices| && k < |b.invoices[i].lines| && b.invoices[i].dealer.Some? && ratio >= 0
    requires b.invoices[i].lines[k].total >= 0 && Applies(b, i, k, at, rule) && PlainPercentage(rule)
    ensures DueAmount(b, p, i, k, ratio, at)
            == PercentageOf(ShareOf(b.invoices[i].lines[k].total, ratio), rule.percentageRate.value)
  {
    ShareSign(b.invoices[i].lines[k].total, ratio);
    PercentageSign(ShareOf(b.invoices[i].lines[k].total, ratio), rule.percentageRate.value);
    hide ShareOf, PercentageOf, FindRule, ResolveType;
  }

  // ----- Entries of one line -----

  /** What the original entries of a line earned together. */
  function LineEarned(entries: seq<Entry>, i: nat, k: nat): int {
    if entries == [] then 0
    else
      var e := entries[|entries| - 1];
      LineEarned(entries[..|entries| - 1], i, k) + (if Original(e) && e.invoice == i && e.line == k then e.amount else 0)
  }

  lemma EarnedMore(entries: seq<Entry>, e: Entry, i: nat, k: nat)
    ensures LineEarned(entries + [e], i, k)
            == LineEarned(entries, i, k) + (if Original(e) && e.invoice == i && e.line == k then e.amount else 0)
  {
    assert (entries + [e])[..|entries|] == entries;
  }

  /** Status changes and reversals do not change what a line earned. */
  lemma {:induction false} FollowsEarned(was: seq<Entry>, now: seq<Entry>, i: nat, k: nat)
    requires Follows(was, now)
    ensures LineEarned(now, i, k) == LineEarned(was, i, k)
    decreases |now|
  {
    if |now| > |was| {
      assert ReversesOne(now[|now| - 1], was);
      FollowsEarned(was, now[..|now| - 1], i, k);
    } else if was != [] {
      assert SameButStatus(was[|was| - 1], now[|now| - 1]);
      SameEarned(was, now, i, k);
    }
  }

  lemma {:induction false} SameEarned(was: seq<Entry>, now: seq<Entry>, i: nat, k: nat)
    requires |was| == |now| && forall n :: 0 <= n < |was| ==> SameButStatus(was[n], now[n])
    ensures LineEarned(now, i, k) == LineEarned(was, i, k)
  {
    if was != [] {
      assert SameButStatus(was[|was| - 1], now[|now| - 1]);
      SameEarned(was[..|was| - 1], now[..|now| - 1], i, k);
    }
  }

  /** One call of the engine posts on a line exactly what is due, if the payment had not earned there. */
  lemma {:induction false} CallEarns(b: Books, p: nat, j: nat, ratio: int, at: Time, n: nat, i: nat, k: nat)
    requires j < |b.invoices| && n <= |b.invoices[j].lines| && b.invoices[j].dealer.Some?
    requires j == i ==> k < |b.invoices[i].lines| && !Duplicate(b.entries, p, i, k)
    ensures LineEarned(EarnLines(b, p, j, ratio, at, n).entries, i, k)
            == LineEarned(b.entries, i, k) + (if j == i && k < n then DueAmount(b, p, i, k, ratio, at) else 0)
  {
    hide LineEarned, Duplicate, Due, DueAmount, Post, SameInputs;
    if n > 0 {
      EarnRound(b, p, j, ratio, at, n);
      hide EarnLines;
      CallEarns(b, p, j, ratio, at, n - 1, i, k);
      if j == i && k == n - 1 {
        EarnedLines(b, p, i, ratio, at, n - 1, k);
      }
      var c := EarnLines(b, p, j, ratio, at, n - 1);
      RoundEarns(b, c, p, j, ratio, at, n - 1, i, k);
    }
  }

  lemma EarnRound(b: Books, p: nat, j: nat, ratio: int, at: Time, n: nat)
    requires j < |b.invoices| && 0 < n <= |b.invoices[j].lines| && b.invoices[j].dealer.Some?
    ensures var c := EarnLines(b, p, j, ratio, at, n - 1); var due := Due(c, p, j, n - 1, ratio, at);
            && SameInputs(b, c)
            && EarnLines(b, p, j, ratio, at, n) == if due.None? || Duplicate(c.entries, p, j, n - 1) then c else Post(c, due.value)
  {
    hide Due, Duplicate, Post;
  }

  /** One round of the loop. */
  lemma RoundEarns(b: Books, c: Books, p: nat, j: nat, ratio: int, at: Time, m: nat, i: nat, k: nat)
    requires j < |b.invoices| && m < |b.invoices[j].lines| && b.invoices[j].dealer.Some? && SameInputs(b, c)
    requires c.invoices == b.invoices && (j == i && k == m ==> !Duplicate(c.entries, p, i, k))
    ensures var due := Due(c, p, j, m, ratio, at);
            var d := if due.None? || Duplicate(c.entries, p, j, m) then c else Post(c, due.value);
            LineEarned(d.entries, i, k) == LineEarned(c.entries, i, k)
              + (if j == i && k == m then DueAmount(b, p, i, k, ratio, at) else 0)
  {
    hide LineEarned, Duplicate, Due;
    DueIgnoresEntries(b, c, p, j, m, ratio, at);
    DueNames(c, p, j, m, ratio, at);
    var due := Due(c, p, j, m, ratio, at);
    if due.Some? {
      EarnedMore(c.entries, due.value, i, k);
    }
  }

  /** Main theorem.  createForAllocation posts on a line of its invoice exactly what is due there, if the
      payment had not earned on it, and nothing on lines of other invoices. */
  lemma AllocationEarns(b: Books, p: nat, j: nat, amount: Cents, at: Time, i: nat, k: nat)
    requires j == i && i < |b.invoices| ==> k < |b.invoices[i].lines| && !Duplicate(b.entries, p, i, k)
    requires j == i ==> i < |b.invoices| && b.invoices[i].dealer.Some? && b.invoices[i].total > 0
    ensures LineEarned(CreateForAllocation(b, p, j, amount, at).entries, i, k) == LineEarned(b.entries, i, k)
            + (if j == i then DueAmount(b, p, i, k, Ratio(amount, b.invoices[i].total), at) else 0)
  {
    if j < |b.invoices| && b.invoices[j].dealer.Some? && b.invoices[j].total > 0 {
      CallEarns(b, p, j, Ratio(amount, b.invoices[j].total), at, |b.invoices[j].lines|, i, k);
    }
  }

  // ----- Allocations to one invoice -----

  /** The amounts allocated to an invoice, in their order. */
  function AmountsTo(allocations: seq<Allocation>, i: nat): seq<Cents> {
    if allocations == [] then []
    else
      var a := allocations[|allocations| - 1];
      AmountsTo(allocations[..|allocations| - 1], i) + (if a.invoice == i then [a.amount] else [])
  }

  lemma AmountsMore(allocations: seq<Allocation>, a: Allocation, i: nat)
    ensures AmountsTo(allocations + [a], i) == AmountsTo(allocations, i) + (if a.invoice == i then [a.amount] else [])
  {
    assert (allocations + [a])[..|allocations|] == allocations;
  }

  lemma {:induction false} AmountsSum(allocations: seq<Allocation>, i: nat)
    ensures Sum(AmountsTo(allocations, i)) == AllocatedTo(allocations, i)
    ensures (forall a :: 0 <= a < |allocations| ==> allocations[a].amount > 0) ==>
              forall j :: 0 <= j < |AmountsTo(allocations, i)| ==> AmountsTo(allocations, i)[j] > 0
    ensures HasAllocation(allocations, i) ==> AmountsTo(allocations, i) != []
  {
    if allocations != [] {
      var a := allocations[|allocations| - 1];
      AmountsSum(allocations[..|allocations| - 1], i);
      if a.invoice == i {
        SumAppend(AmountsTo(allocations[..|allocations| - 1], i), a.amount);
      } else {
        assert AmountsTo(allocations, i) == AmountsTo(allocations[..|allocations| - 1], i);
        if n :| 0 <= n < |allocations| && allocations[n].invoice == i {
          assert allocations[..|allocations| - 1][n].invoice == i;
        }
      }
    }
  }

  // ----- What a rule should pay -----

  /** A plain rule: fixed or percentage, within its checks and without limits. */
  predicate Plain(r: Rule) { PlainFixed(r) || PlainPercentage(r) }

  /** What the rule pays on a line for each allocation of a whole. */
  function Expected(rule: Rule, line: Cents, amounts: seq<Cents>, whole: Cents): seq<int>
    requires Plain(rule) && whole > 0
  {
    if rule.calculation == FixedAmount then Shares(rule.fixedAmount.value, amounts, whole)
    else Percentages(line, rule.percentageRate.value, amounts, whole)
  }

  function Expect(rule: Rule, line: Cents, amount: Cents, whole: Cents): int
    requires Plain(rule) && whole > 0
  {
    if rule.calculation == FixedAmount then ShareOf(rule.fixedAmount.value, Ratio(amount, whole))
    else PercentageOf(ShareOf(line, Ratio(amount, whole)), rule.percentageRate.value)
  }

  lemma ExpectedMore(rule: Rule, line: Cents, amounts: seq<Cents>, last: Cents, whole: Cents)
    requires Plain(rule) && whole > 0
    ensures Sum(Expected(rule, line, amounts + [last], whole))
            == Sum(Expected(rule, line, amounts, whole)) + Expect(rule, line, last, whole)
  {
    assert Expected(rule, line, amounts + [last], whole) == Expected(rule, line, amounts, whole) + [Expect(rule, line, last, whole)];
    hide Expected, Expect;
    SumAppend(Expected(rule, line, amounts, whole), Expect(rule, line, last, whole));
  }

  /** The rule applies to the line in these books, and under a fixed rule the base is positive. */
  ghost predicate UnderRule(b: Books, i: nat, k: nat, at: Time, rule: Rule, amount: Cents) {
    && i < |b.invoices| && k < |b.invoices[i].lines| && b.invoices[i].dealer.Some? && b.invoices[i].total > 0
    && b.invoices[i].lines[k].total >= 0 && Applies(b, i, k, at, rule)
    && (rule.calculation == FixedAmount ==> ShareOf(b.invoices[i].lines[k].total, Ratio(amount, b.invoices[i].total)) > 0)
  }

  lemma RuleDue(b: Books, p: nat, i: nat, k: nat, at: Time, rule: Rule, amount: Cents)
    requires Plain(rule) && UnderRule(b, i, k, at, rule, amount) && amount >= 0
    ensures DueAmount(b, p, i, k, Ratio(amount, b.invoices[i].total), at)
            == Expect(rule, b.invoices[i].lines[k].total, amount, b.invoices[i].total)
  {
    hide Applies, DueAmount, ShareOf, PercentageOf, Ratio;
    RatioPositive(amount, b.invoices[i].total);
    if rule.calculation == FixedAmount {
      FixedDue(b, p, i, k, Ratio(amount, b.invoices[i].total), at, rule);
    } else {
      PercentageDue(b, p, i, k, Ratio(amount, b.invoices[i].total), at, rule);
    }
  }

  lemma RatioPositive(amount: Cents, whole: Cents)
    requires 0 <= amount && 0 < whole
    ensures Ratio(amount, whole) >= 0
  {
    assert amount * RATIO_ONE >= 0;
  }

  lemma UnderRuleSame(b: Books, c: Books, i: nat, k: nat, at: Time, rule: Rule, amount: Cents)
    requires SameInputs(b, c) && UnderRule(b, i, k, at, rule, amount)
    ensures UnderRule(c, i, k, at, rule, amount)
  {
    assert SameForEngine(b.invoices[i], c.invoices[i]);
    TypeIgnoresEntries(b, c, i, b.invoices[i].lines[k].item);
    hide ResolveType, FindRule, ShareOf, Ratio;
  }

  // ----- Where entries come from -----

  /** Every original entry goes back to an allocation of its payment to its invoice, and only confirmed
      payments are allocated. */
  ghost predicate Traced(b: Books) {
    && (forall n :: 0 <= n < |b.entries| && Original(b.entries[n]) ==>
          AllocatedBy(b.allocations, b.entries[n].payment, b.entries[n].invoice))
    && (forall a :: 0 <= a < |b.allocations| ==>
          b.allocations[a].payment < |b.payments| && b.payments[b.allocations[a].payment].confirmed)
  }

  lemma NotYetEarned(b: Books, p: nat, i: nat, k: nat)
    requires Traced(b) && !AllocatedBy(b.allocations, p, i)
    ensures !Duplicate(b.entries, p, i, k)
  {
  }

  lemma {:induction false} NothingEarned(entries: seq<Entry>, i: nat, k: nat)
    requires forall n :: 0 <= n < |entries| && Original(entries[n]) ==> entries[n].invoice != i
    ensures LineEarned(entries, i, k) == 0
  {
    if entries != [] {
      NothingEarned(entries[..|entries| - 1], i, k);
    }
  }

  /** A line of an invoice without allocations has earned nothing. */
  lemma UnpaidEarnsNothing(b: Books, i: nat, k: nat)
    requires Traced(b) && AmountsTo(b.allocations, i) == []
    ensures LineEarned(b.entries, i, k) == 0
  {
    AmountsSum(b.allocations, i);
    forall n | 0 <= n < |b.entries| && Original(b.entries[n])
      ensures b.entries[n].invoice != i
    {
    }
    NothingEarned(b.entries, i, k);
  }

  lemma AllocatedMore(allocations: seq<Allocation>, a: Allocation, p: nat, i: nat)
    ensures AllocatedBy(allocations + [a], p, i) <==> AllocatedBy(allocations, p, i) || (a.payment == p && a.invoice == i)
  {
    var more := allocations + [a];
    if n :| 0 <= n < |allocations| && allocations[n].payment == p && allocations[n].invoice == i {
      assert more[n] == allocations[n];
    }
    assert more[|allocations|] == a;
  }

  /** The new entries of one call are for its payment and its invoice. */
  lemma {:induction false} EarnTraced(b: Books, p: nat, j: nat, ratio: int, at: Time, n: nat)
    requires j < |b.invoices| && n <= |b.invoices[j].lines| && b.invoices[j].dealer.Some?
    requires Traced(b) && AllocatedBy(b.allocations, p, j)
    ensures Traced(EarnLines(b, p, j, ratio, at, n))
  {
    hide AllocatedBy, Due, Duplicate;
    if n > 0 {
      EarnTraced(b, p, j, ratio, at, n - 1);
      var c := EarnLines(b, p, j, ratio, at, n - 1);
      DueNames(c, p, j, n - 1, ratio, at);
    }
  }

  lemma CreateTraced(b: Books, p: nat, j: nat, amount: Cents, at: Time)
    requires Traced(b) && AllocatedBy(b.allocations, p, j)
    ensures Traced(CreateForAllocation(b, p, j, amount, at))
  {
    hide Traced, AllocatedBy, EarnLines, Ratio;
    if j < |b.invoices| && b.invoices[j].dealer.Some? && b.invoices[j].total > 0 {
      EarnTraced(b, p, j, Ratio(amount, b.invoices[j].total), at, |b.invoices[j].lines|);
    }
  }

  lemma PayTraced(b: Books, p: nat, s: Share)
    requires Traced(b) && Allocatable(b, p, s) && b.payments[p].confirmed
    ensures Traced(PayInvoice(b, p, s)) && AllocatedBy(PayInvoice(b, p, s).allocations, p, s.invoice)
  {
    hide AllocatedBy, AllocatedTo, AllocatedFrom;
    var a := Allocation(p, s.invoice, s.amount);
    AllocatedMore(b.allocations, a, p, s.invoice);
    forall n | 0 <= n < |b.entries| && Original(b.entries[n])
      ensures AllocatedBy(b.allocations + [a], b.entries[n].payment, b.entries[n].invoice)
    {
      AllocatedMore(b.allocations, a, b.entries[n].payment, b.entries[n].invoice);
    }
  }

  // ----- One confirmation -----

  predicate DistinctInvoices(shares: seq<Share>) {
    forall j, k :: 0 <= j < k < |shares| ==> shares[j].invoice != shares[k].invoice
  }

  /** What a line earned is what the rule pays for the amounts allocated to its invoice. */
  ghost predicate Earns(b: Books, i: nat, k: nat, rule: Rule)
    requires Plain(rule)
  {
    if AmountsTo(b.allocations, i) == [] then LineEarned(b.entries, i, k) == 0
    else
      && i < |b.invoices| && k < |b.invoices[i].lines| && b.invoices[i].total > 0
      && LineEarned(b.entries, i, k)
         == Sum(Expected(rule, b.invoices[i].lines[k].total, AmountsTo(b.allocations, i), b.invoices[i].total))
  }

  /** The shares for the invoice are made under the rule. */
  ghost predicate SharesUnderRule(b: Books, shares: seq<Share>, at: Time, i: nat, k: nat, rule: Rule) {
    forall j :: 0 <= j < |shares| && shares[j].invoice == i ==> UnderRule(b, i, k, at, rule, shares[j].amount)
  }

  /** One allocation of a confirmation, to the invoice of the line or to another. */
  lemma ShareEarns(c: Books, p: nat, s: Share, at: Time, i: nat, k: nat, rule: Rule)
    requires Plain(rule) && Allocatable(c, p, s) && !AllocatedBy(c.allocations, p, s.invoice) && Traced(c)
    requires s.invoice == i ==> UnderRule(PayInvoice(c, p, s), i, k, at, rule, s.amount)
    requires Earns(c, i, k, rule)
    ensures Earns(CreateForAllocation(PayInvoice(c, p, s), p, s.invoice, s.amount, at), i, k, rule)
  {
    hide LineEarned, AmountsTo, UnderRule, Expected, Expect, DueAmount, Traced, AllocatedBy, EarnLines, Ratio, Duplicate, Sum;
    hide AllocatedTo, AllocatedFrom;
    var d := PayInvoice(c, p, s);
    AmountsMore(c.allocations, Allocation(p, s.invoice, s.amount), i);
    if s.invoice == i {
      UnderRuleBounds(d, i, k, at, rule, s.amount);
      NotYetEarned(c, p, i, k);
      AllocationEarns(d, p, i, s.amount, at, i, k);
      RuleDue(d, p, i, k, at, rule, s.amount);
      ExpectedMore(rule, d.invoices[i].lines[k].total, AmountsTo(c.allocations, i), s.amount, d.invoices[i].total);
      if AmountsTo(c.allocations, i) == [] {
        ExpectedNothing(rule, d.invoices[i].lines[k].total, d.invoices[i].total);
      }
    } else {
      AllocationEarns(d, p, s.invoice, s.amount, at, i, k);
      assert AmountsTo(d.allocations, i) == AmountsTo(c.allocations, i);
    }
  }

  lemma UnderRuleBounds(b: Books, i: nat, k: nat, at: Time, rule: Rule, amount: Cents)
    requires UnderRule(b, i, k, at, rule, amount)
    ensures i < |b.invoices| && k < |b.invoices[i].lines| && b.invoices[i].dealer.Some? && b.invoices[i].total > 0
  {
  }

  lemma ExpectedNothing(rule: Rule, line: Cents, whole: Cents)
    requires Plain(rule) && whole > 0
    ensures Sum(Expected(rule, line, [], whole)) == 0
  {
    assert Expected(rule, line, [], whole) == [];
  }

  lemma SameInputsTwice(a: Books, b: Books, c: Books)
    requires SameInputs(a, b) && SameInputs(b, c)
    ensures SameInputs(a, c)
  {
    forall i | 0 <= i < |a.invoices|
      ensures SameForEngine(a.invoices[i], c.invoices[i])
    {
      assert SameForEngine(a.invoices[i], b.invoices[i]) && SameForEngine(b.invoices[i], c.invoices[i]);
    }
  }

  lemma PaySame(b: Books, p: nat, s: Share)
    requires s.invoice < |b.invoices| && b.invoices[s.invoice].status != Void
    ensures SameInputs(b, PayInvoice(b, p, s))
  {
  }

  lemma CreateSame(b: Books, p: nat, j: nat, amount: Cents, at: Time)
    ensures SameInputs(b, CreateForAllocation(b, p, j, amount, at))
    ensures var c := CreateForAllocation(b, p, j, amount, at); c.payments == b.payments && c.allocations == b.allocations
  {
    hide EarnLines, Ratio;
  }

  /** A confirmation leaves what the engine reads. */
  lemma {:induction false} AllocateAllSame(b: Books, p: nat, shares: seq<Share>, at: Time)
    requires AllocateAll(b, p, shares, at).Accepted?
    requires forall j :: 0 <= j < |shares| ==> shares[j].invoice < |b.invoices| && b.invoices[shares[j].invoice].status != Void
    ensures var c := AllocateAll(b, p, shares, at).books; SameInputs(b, c) && c.payments == b.payments
    decreases |shares|
  {
    hide SameInputs, Allocatable, PayInvoice, CreateForAllocation;
    if shares == [] {
      SameInputsSelf(b);
    } else {
      var init, s := shares[..|shares| - 1], shares[|shares| - 1];
      AllocateAllSame(b, p, init, at);
      var c := AllocateAll(b, p, init, at).books;
      ShareSame(b, c, p, s, at);
      SameInputsTwice(b, c, AllocateAll(b, p, shares, at).books);
    }
  }

  lemma ShareSame(b: Books, c: Books, p: nat, s: Share, at: Time)
    requires SameInputs(b, c) && s.invoice < |b.invoices| && b.invoices[s.invoice].status != Void
    ensures s.invoice < |c.invoices|
    ensures var d := CreateForAllocation(PayInvoice(c, p, s), p, s.invoice, s.amount, at);
            SameInputs(c, d) && d.payments == c.payments
    ensures SameInputs(b, PayInvoice(c, p, s))
  {
    hide CreateForAllocation, AllocatedTo;
    assert SameForEngine(b.invoices[s.invoice], c.invoices[s.invoice]);
    PaySame(c, p, s);
    CreateSame(PayInvoice(c, p, s), p, s.invoice, s.amount, at);
    SameInputsTwice(c, PayInvoice(c, p, s), CreateForAllocation(PayInvoice(c, p, s), p, s.invoice, s.amount, at));
    SameInputsTwice(b, c, PayInvoice(c, p, s));
  }

  lemma SameInputsSelf(b: Books)
    ensures SameInputs(b, b)
  {
  }

  /** The payment has not been allocated to these invoices. */
  ghost predicate Unallocated(allocations: seq<Allocation>, p: nat, shares: seq<Share>) {
    forall j :: 0 <= j < |shares| ==> !AllocatedBy(allocations, p, shares[j].invoice)
  }

  /** The allocations of a confirmation are its own shares. */
  lemma {:induction false} AllocateAllAllocates(b: Books, p: nat, shares: seq<Share>, at: Time, i: nat)
    requires AllocateAll(b, p, shares, at).Accepted?
    requires !AllocatedBy(b.allocations, p, i) && forall j :: 0 <= j < |shares| ==> shares[j].invoice != i
    ensures !AllocatedBy(AllocateAll(b, p, shares, at).books.allocations, p, i)
    decreases |shares|
  {
    hide AllocatedBy, Allocatable, CreateForAllocation;
    if shares != [] {
      var init, s := shares[..|shares| - 1], shares[|shares| - 1];
      AllocateAllAllocates(b, p, init, at, i);
      var c := AllocateAll(b, p, init, at).books;
      assert Allocatable(c, p, s);
      assert s.invoice < |c.invoices| by { AllocatableBounds(c, p, s); }
      AllocatedMore(c.allocations, Allocation(p, s.invoice, s.amount), p, i);
      CreateSame(PayInvoice(c, p, s), p, s.invoice, s.amount, at);
    }
  }

  lemma AllocatableBounds(b: Books, p: nat, s: Share)
    requires Allocatable(b, p, s)
    ensures p < |b.payments| && s.invoice < |b.invoices| && s.amount > 0
  {
  }

  /** Over the loop of a confirmation the line earns what the rule pays for each share. */
  lemma {:induction false} AllocateAllEarns(b: Books, p: nat, shares: seq<Share>, at: Time, i: nat, k: nat, rule: Rule)
    requires Plain(rule) && AllocateAll(b, p, shares, at).Accepted?
    requires Traced(b) && Earns(b, i, k, rule) && p < |b.payments| && b.payments[p].confirmed
    requires DistinctInvoices(shares) && Unallocated(b.allocations, p, shares) && SharesUnderRule(b, shares, at, i, k, rule)
    requires forall j :: 0 <= j < |shares| ==> shares[j].invoice < |b.invoices| && b.invoices[shares[j].invoice].status != Void
    ensures var c := AllocateAll(b, p, shares, at).books; Traced(c) && Earns(c, i, k, rule)
    decreases |shares|
  {
    hide Traced, Earns, UnderRule, AllocatedBy, Allocatable, PayInvoice, CreateForAllocation, SameInputs, Plain;
    if shares != [] {
      var init, s := shares[..|shares| - 1], shares[|shares| - 1];
      AllocateAllEarns(b, p, init, at, i, k, rule);
      AllocateAllSame(b, p, init, at);
      AllocateAllAllocates(b, p, init, at, s.invoice);
      var c := AllocateAll(b, p, init, at).books;
      ShareSame(b, c, p, s, at);
      AllocatableBounds(c, p, s);
      if s.invoice == i {
        UnderRuleSame(b, PayInvoice(c, p, s), i, k, at, rule, s.amount);
      }
      ShareEarns(c, p, s, at, i, k, rule);
      PayTraced(c, p, s);
      CreateTraced(PayInvoice(c, p, s), p, s.invoice, s.amount, at);
    }
  }

  lemma Unconfirmed(b: Books, p: nat, shares: seq<Share>)
    requires Traced(b) && p < |b.payments| && !b.payments[p].confirmed
    ensures Unallocated(b.allocations, p, shares)
  {
  }

  lemma ConfirmEarns(b: Books, p: nat, shares: seq<Share>, at: Time, i: nat, k: nat, rule: Rule)
    requires Plain(rule) && Confirm(b, p, shares, at).Accepted?
    requires Traced(b) && Earns(b, i, k, rule) && SharesUnderRule(b, shares, at, i, k, rule)
    ensures var c := Confirm(b, p, shares, at).books; Traced(c) && Earns(c, i, k, rule)
  {
    hide Earns, AllocatedBy, UnderRule, AllocateAll, FirstError, SharesTotal, Plain, Applies, Unallocated;
    var c := b.(payments := b.payments[p := b.payments[p].(confirmed := true)]);
    Unconfirmed(b, p, shares);
    assert Traced(c);
    hide Traced;
    forall j | 0 <= j < |shares|
      ensures shares[j].invoice < |b.invoices| && b.invoices[shares[j].invoice].status != Void
    {
      assert PayableError(b, p, shares[j]).None?;
    }
    PaymentsSame(b, c, i, k, rule);
    forall j | 0 <= j < |shares| && shares[j].invoice == i
      ensures UnderRule(c, i, k, at, rule, shares[j].amount)
    {
      UnderRuleSame(b, c, i, k, at, rule, shares[j].amount);
    }
    AllocateAllEarns(c, p, shares, at, i, k, rule);
  }

  lemma PaymentsSame(b: Books, c: Books, i: nat, k: nat, rule: Rule)
    requires Plain(rule) && c == b.(payments := c.payments) && Earns(b, i, k, rule)
    ensures Earns(c, i, k, rule) && SameInputs(b, c)
  {
    hide LineEarned, AmountsTo, Expected, Sum;
  }

  // ----- Runs -----

  /** Books in order whose entries can be traced. */
  ghost predicate Sound(b: Books) { Good(b) && Traced(b) }

  lemma FollowsTraced(was: seq<Entry>, now: seq<Entry>, n: nat)
    requires Follows(was, now) && n < |now| && Original(now[n])
    ensures n < |was| && Original(was[n]) && now[n].payment == was[n].payment && now[n].invoice == was[n].invoice
  {
    if n < |was| {
      assert SameButStatus(was[n], now[n]);
    }
  }

  lemma PaymentsStay(b: Books, op: Op)
    requires Apply(b, op).Accepted? && !op.ConfirmOp?
    ensures |b.payments| <= |Apply(b, op).books.payments|
    ensures forall p :: 0 <= p < |b.payments| ==>
              && Apply(b, op).books.payments[p].confirmed == b.payments[p].confirmed
              && Apply(b, op).books.payments[p].amount == b.payments[p].amount
  {
    hide NewInvoice, Storable, HasAllocation, AllocatedBy, Billed, ReverseShares, Originals, Ratio;
  }

  /** An operation other than a confirmation changes nothing that a line has earned or been paid. */
  lemma OtherEarns(b: Books, op: Op, i: nat, k: nat, rule: Rule)
    requires Plain(rule) && Sound(b) && Earns(b, i, k, rule) && Apply(b, op).Accepted? && !op.ConfirmOp?
    ensures Traced(Apply(b, op).books) && Earns(Apply(b, op).books, i, k, rule)
  {
    hide Apply, Good, Follows, LineEarned, AmountsTo, Expected, Sum, Traced, Onward;
    var c := Apply(b, op).books;
    OtherTraced(b, op);
    StepFollows(b, op);
    FollowsEarned(b.entries, c.entries, i, k);
    GoodNotVoid(b);
    StepOnward(b, op);
    if i < |b.invoices| {
      OnwardDocument(b.invoices, c.invoices, i);
    }
  }

  lemma OnwardDocument(was: seq<Invoice>, now: seq<Invoice>, i: nat)
    requires Onward(was, now) && i < |was|
    ensures i < |now| && now[i].lines == was[i].lines && now[i].total == was[i].total
  {
    assert SameDocument(was[i], now[i]);
  }

  /** Every accepted allocation of the run to the invoice is made under the rule, in the books in which
      its payment is confirmed and at the time of that confirmation. */
  ghost predicate RunUnderRule(b: Books, ops: seq<Op>, i: nat, k: nat, rule: Rule)
    decreases |ops|
  {
    ops == [] ||
    match Apply(b, ops[0])
    case Rejected(_) => RunUnderRule(b, ops[1..], i, k, rule)
    case Accepted(c) =>
      && (ops[0].ConfirmOp? ==> SharesUnderRule(b, ops[0].shares, ops[0].at, i, k, rule))
      && RunUnderRule(c, ops[1..], i, k, rule)
  }

  lemma StepEarns(b: Books, op: Op, i: nat, k: nat, rule: Rule)
    requires Plain(rule) && Sound(b) && Earns(b, i, k, rule) && Apply(b, op).Accepted?
    requires op.ConfirmOp? ==> SharesUnderRule(b, op.shares, op.at, i, k, rule)
    ensures Sound(Apply(b, op).books) && Earns(Apply(b, op).books, i, k, rule)
  {
    hide Good, Traced, Earns, SharesUnderRule, Plain, Confirm;
    StepKeeps(b, op);
    if op.ConfirmOp? {
      ConfirmEarns(b, op.payment, op.shares, op.at, i, k, rule);
    } else {
      hide Apply;
      OtherEarns(b, op, i, k, rule);
    }
  }

  /** Main theorem.  Over any run of the billing services in which a line's invoice is allocated under one
      plain rule - by different payments, at their own times, with any other operations before, between
      and after - the original entries of the line sum to exactly what the rule pays for each amount. */
  lemma {:induction false} RunEarns(b: Books, ops: seq<Op>, i: nat, k: nat, rule: Rule)
    requires Plain(rule) && Sound(b) && Earns(b, i, k, rule) && RunUnderRule(b, ops, i, k, rule)
    ensures Sound(Run(b, ops)) && Earns(Run(b, ops), i, k, rule)
    decreases |ops|
  {
    hide Sound, Earns, SharesUnderRule, Apply, Plain;
    if ops != [] {
      if Apply(b, ops[0]).Accepted? {
        StepEarns(b, ops[0], i, k, rule);
        RunEarns(Apply(b, ops[0]).books, ops[1..], i, k, rule);
      } else {
        RunEarns(b, ops[1..], i, k, rule);
      }
    }
  }

  // ----- Instalments against a single payment -----

  /** From books in which the invoice is not allocated yet, a run that allocates it only under the rule
      and pays it in full. */
  ghost predicate PaysUnderRule(b: Books, ops: seq<Op>, i: nat, k: nat, rule: Rule) {
    && Plain(rule) && Sound(b) && i < |b.invoices| && k < |b.invoices[i].lines| && b.invoices[i].total > 0
    && AmountsTo(b.allocations, i) == [] && RunUnderRule(b, ops, i, k, rule)
    && i < |Run(b, ops).invoices| && Run(b, ops).invoices[i].outstanding == 0
  }

  /** In such a run the line earns what the rule pays for the amounts, which make up the total. */
  lemma PaidInFull(b: Books, ops: seq<Op>, i: nat, k: nat, rule: Rule)
    requires PaysUnderRule(b, ops, i, k, rule)
    ensures var t := Run(b, ops); var amounts := AmountsTo(t.allocations, i);
            && LineEarned(t.entries, i, k) == Sum(Expected(rule, b.invoices[i].lines[k].total, amounts, b.invoices[i].total))
            && Sum(amounts) == b.invoices[i].total
            && b.invoices[i].lines[k].total >= 0
  {
    hide Good, Traced, LineEarned, AmountsTo, Expected, Run, RunUnderRule, Plain, AllocatedTo;
    UnpaidEarnsNothing(b, i, k);
    RunEarns(b, ops, i, k, rule);
    var t := Run(b, ops);
    RunOnward(b, ops);
    OnwardDocument(b.invoices, t.invoices, i);
    AmountsSum(t.allocations, i);
    FundedInvoice(t, i);
    FundedInvoice(b, i);
    assert Sum([]) == 0;
  }

  lemma FundedInvoice(b: Books, i: nat)
    requires Good(b) && i < |b.invoices|
    ensures b.invoices[i].paid == AllocatedTo(b.allocations, i)
    ensures b.invoices[i].paid + b.invoices[i].outstanding == b.invoices[i].total
    ensures forall k :: 0 <= k < |b.invoices[i].lines| ==> b.invoices[i].lines[k].total >= 0
  {
    hide Inv, PaymentFunds;
    assert InvoiceFunded(b.invoices[i], i, b.allocations);
  }

  /** A single payment of the whole invoice earns the fixed amount, or the percentage of the line. */
  lemma SinglePayment(b: Books, once: seq<Op>, i: nat, k: nat, rule: Rule)
    requires PaysUnderRule(b, once, i, k, rule) && |AmountsTo(Run(b, once).allocations, i)| == 1
    ensures LineEarned(Run(b, once).entries, i, k)
            == if rule.calculation == FixedAmount then rule.fixedAmount.value
               else PercentageOf(b.invoices[i].lines[k].total, rule.percentageRate.value)
  {
    hide Sound, LineEarned, AmountsTo, Run, RunUnderRule, Ratio, ShareOf, PercentageOf;
    PaidInFull(b, once, i, k, rule);
    var amounts, whole := AmountsTo(Run(b, once).allocations, i), b.invoices[i].total;
    SumOne(amounts);
    assert amounts == [whole];
    FullRefund(if rule.calculation == FixedAmount then rule.fixedAmount.value else b.invoices[i].lines[k].total, whole);
    var paid := Expected(rule, b.invoices[i].lines[k].total, amounts, whole);
    assert |paid| == 1;
    SumOne(paid);
  }

  lemma SumOne(xs: seq<int>)
    requires |xs| == 1
    ensures Sum(xs) == xs[0]
  {
    assert xs[1..] == [];
  }

  /** Main theorem.  Paying an invoice in n instalments under one fixed rule without limits, each with a
      positive base, posts on a line what a single payment posts, within n * (0.5 cents + fixed *
      0.5e-8).  The two runs may differ in everything else. */
  lemma FixedInstalments(b: Books, ops: seq<Op>, once: seq<Op>, i: nat, k: nat, rule: Rule)
    requires PlainFixed(rule) && PaysUnderRule(b, ops, i, k, rule) && PaysUnderRule(b, once, i, k, rule)
    requires |AmountsTo(Run(b, once).allocations, i)| == 1
    ensures var many, single := LineEarned(Run(b, ops).entries, i, k), LineEarned(Run(b, once).entries, i, k);
            var bound := |AmountsTo(Run(b, ops).allocations, i)| * (RATIO_ONE + rule.fixedAmount.value);
            -bound <= 2 * RATIO_ONE * (many - single) <= bound
  {
    hide Sound, LineEarned, AmountsTo, Run, RunUnderRule, Ratio, ShareOf, Shares, Sum, PaysUnderRule;
    PaidInFull(b, ops, i, k, rule);
    SinglePayment(b, once, i, k, rule);
    PaysBounds(b, ops, i, k, rule);
    WholeError(rule.fixedAmount.value, AmountsTo(Run(b, ops).allocations, i), b.invoices[i].total);
  }

  lemma PaysBounds(b: Books, ops: seq<Op>, i: nat, k: nat, rule: Rule)
    requires PaysUnderRule(b, ops, i, k, rule)
    ensures i < |b.invoices| && k < |b.invoices[i].lines| && b.invoices[i].total > 0
  {
    hide Sound, AmountsTo, Run, RunUnderRule;
  }

  /** Main theorem.  The same for a percentage rule, within n * (0.5 cents + rate * (0.5 cents + line *
      0.5e-8)) + 0.5 cents. */
  lemma PercentagesByInstalment(b: Books, ops: seq<Op>, once: seq<Op>, i: nat, k: nat, rule: Rule)
    requires PlainPercentage(rule) && PaysUnderRule(b, ops, i, k, rule) && PaysUnderRule(b, once, i, k, rule)
    requires |AmountsTo(Run(b, once).allocations, i)| == 1
    ensures i < |b.invoices| && k < |b.invoices[i].lines|
    ensures var many, single := LineEarned(Run(b, ops).entries, i, k), LineEarned(Run(b, once).entries, i, k);
            var line, rate := b.invoices[i].lines[k].total, rule.percentageRate.value;
            var bound := |AmountsTo(Run(b, ops).allocations, i)| * (RATIO_ONE * FULL_RATE + rate * (RATIO_ONE + line))
                         + RATIO_ONE * FULL_RATE;
            -bound <= 2 * RATIO_ONE * FULL_RATE * (many - single) <= bound
  {
    hide Sound, LineEarned, AmountsTo, Run, RunUnderRule, Ratio, ShareOf, PercentageOf, Percentages, Sum, PaysUnderRule;
    PaidInFull(b, ops, i, k, rule);
    SinglePayment(b, once, i, k, rule);
    PaysBounds(b, ops, i, k, rule);
    PercentageInstalments(b.invoices[i].lines[k].total, rule.percentageRate.value, AmountsTo(Run(b, ops).allocations, i),
                          b.invoices[i].total);
  }

  // ----- Where sound books come from -----

  lemma EmptySound()
    ensures Sound(EMPTY_BOOKS)
  {
  }

  lemma ConfirmTraced(b: Books, p: nat, shares: seq<Share>, at: Time)
    requires Confirm(b, p, shares, at).Accepted? && Traced(b)
    ensures Traced(Confirm(b, p, shares, at).books)
  {
    hide AllocateAll, FirstError, SharesTotal, AllocatedBy;
    var c := b.(payments := b.payments[p := b.payments[p].(confirmed := true)]);
    assert Traced(c);
    hide Traced;
    AllocateAllTraced(c, p, shares, at);
  }

  lemma {:induction false} AllocateAllTraced(b: Books, p: nat, shares: seq<Share>, at: Time)
    requires AllocateAll(b, p, shares, at).Accepted? && Traced(b) && p < |b.payments| && b.payments[p].confirmed
    ensures Traced(AllocateAll(b, p, shares, at).books) && AllocateAll(b, p, shares, at).books.payments == b.payments
    decreases |shares|
  {
    hide Traced, AllocatedBy, Allocatable, CreateForAllocation;
    if shares != [] {
      var init, s := shares[..|shares| - 1], shares[|shares| - 1];
      AllocateAllTraced(b, p, init, at);
      var c := AllocateAll(b, p, init, at).books;
      AllocatableBounds(c, p, s);
      PayTraced(c, p, s);
      CreateTraced(PayInvoice(c, p, s), p, s.invoice, s.amount, at);
      CreateSame(PayInvoice(c, p, s), p, s.invoice, s.amount, at);
    }
  }

  /** Every run from empty books reaches sound books. */
  lemma {:induction false} RunSound(b: Books, ops: seq<Op>)
    requires Sound(b)
    ensures Sound(Run(b, ops))
    decreases |ops|
  {
    hide Sound, Apply;
    if ops != [] {
      if Apply(b, ops[0]).Accepted? {
        StepSound(b, ops[0]);
        RunSound(Apply(b, ops[0]).books, ops[1..]);
      } else {
        RunSound(b, ops[1..]);
      }
    }
  }

  lemma ReachedIsSound(ops: seq<Op>)
    ensures Sound(Run(EMPTY_BOOKS, ops))
  {
    EmptySound();
    RunSound(EMPTY_BOOKS, ops);
  }

  lemma StepSound(b: Books, op: Op)
    requires Sound(b) && Apply(b, op).Accepted?
    ensures Sound(Apply(b, op).books)
  {
    hide Good, Confirm, Follows, AllocatedBy;
    StepKeeps(b, op);
    if op.ConfirmOp? {
      ConfirmTraced(b, op.payment, op.shares, op.at);
    } else {
      hide Apply;
      OtherTraced(b, op);
    }
  }

  lemma OtherTraced(b: Books, op: Op)
    requires Sound(b) && Apply(b, op).Accepted? && !op.ConfirmOp?
    ensures Traced(Apply(b, op).books)
  {
    hide Apply, Good, Follows, AllocatedBy;
    var c := Apply(b, op).books;
    StepFollows(b, op);
    PaymentsStay(b, op);
    forall n | 0 <= n < |c.entries| && Original(c.entries[n])
      ensures AllocatedBy(c.allocations, c.entries[n].payment, c.entries[n].invoice)
    {
      FollowsTraced(b.entries, c.entries, n);
    }
  }
}
