/** Properties of single calls of the commission engine. */
module BillingEngine {
  import opened Options
  import opened Decimals
  import opened CommissionRules
  import opened CommissionBounds
  import opened BillingBooks

  // ----- Sums over rows -----

  lemma BalanceAppend(ledger: seq<LedgerRow>, r: LedgerRow, d: DealerId)
    ensures CommissionBalance(ledger + [r], d)
            == CommissionBalance(ledger, d) + (if r.dealer == d && r.kind != Payout then Signed(r) else 0)
  {
    assert (ledger + [r])[..|ledger|] == ledger;
  }

  lemma EntryAppend(entries: seq<Entry>, e: Entry, d: DealerId)
    ensures EntryTotal(entries + [e], d) == EntryTotal(entries, d) + (if e.dealer == d then e.amount else 0)
  {
    assert (entries + [e])[..|entries|] == entries;
  }

  /** Changing statuses does not change totals. */
  lemma {:induction false} SameTotals(was: seq<Entry>, now: seq<Entry>, d: DealerId)
    requires |was| == |now|
    requires forall i :: 0 <= i < |was| ==> now[i].dealer == was[i].dealer && now[i].amount == was[i].amount
    ensures EntryTotal(now, d) == EntryTotal(was, d)
  {
    if was != [] {
      SameTotals(was[..|was| - 1], now[..|now| - 1], d);
    }
  }

  /** The reported balance is the commission balance less what was paid out. */
  lemma {:induction false} BalanceSplits(ledger: seq<LedgerRow>, d: DealerId)
    ensures Balance(ledger, d) == CommissionBalance(ledger, d) - Payouts(ledger, d)
  {
    if ledger != [] {
      BalanceSplits(ledger[..|ledger| - 1], d);
    }
  }

  /** Every dealer's commission rows balance to its entries. */
  ghost predicate Balanced(b: Books) {
    forall d :: CommissionBalance(b.ledger, d) == EntryTotal(b.entries, d)
  }

  lemma PostBalanced(b: Books, e: Entry)
    requires Balanced(b)
    ensures Balanced(Post(b, e))
  {
    forall d
      ensures CommissionBalance(Post(b, e).ledger, d) == EntryTotal(Post(b, e).entries, d)
    {
      BalanceAppend(b.ledger, LedgerRow(e.dealer, CommissionEarned, true, e.amount), d);
      EntryAppend(b.entries, e, d);
    }
  }

  /** Appending a reversal of an entry, with a debit of the same amount. */
  lemma ReversalBalanced(b: Books, id: nat, o: Entry, amount: Cents, status: EntryStatus)
    requires Balanced(b) && id < |b.entries|
    requires o.dealer == b.entries[id].dealer && o.amount == b.entries[id].amount
    ensures Balanced(b.(entries := b.entries[id := o] + [ReversalEntry(b.entries[id], id, amount, status)],
                        ledger := b.ledger + [DebitRow(b.entries[id], amount)]))
  {
    var row, e := DebitRow(b.entries[id], amount), ReversalEntry(b.entries[id], id, amount, status);
    forall d
      ensures CommissionBalance(b.ledger + [row], d) == EntryTotal(b.entries[id := o] + [e], d)
    {
      BalanceAppend(b.ledger, row, d);
      EntryAppend(b.entries[id := o], e, d);
      SameTotals(b.entries, b.entries[id := o], d);
    }
  }

  lemma {:induction false} EarnBalanced(b: Books, p: nat, i: nat, ratio: int, at: Time, n: nat)
    requires Balanced(b)
    requires i < |b.invoices| && n <= |b.invoices[i].lines| && b.invoices[i].dealer.Some?
    ensures Balanced(EarnLines(b, p, i, ratio, at, n))
  {
    hide Balanced, Due, Post, Duplicate;
    if n > 0 {
      EarnBalanced(b, p, i, ratio, at, n - 1);
      var c := EarnLines(b, p, i, ratio, at, n - 1);
      var due := Due(c, p, i, n - 1, ratio, at);
      if due.Some? {
        PostBalanced(c, due.value);
      }
    }
  }

  lemma ReverseShareBalanced(b: Books, id: nat, ratio: int)
    requires Balanced(b) && id < |b.entries|
    ensures Balanced(ReverseShare(b, id, ratio))
  {
    hide Balanced;
    var o := b.entries[id];
    var marked := ratio >= RATIO_ONE && o.status == Available;
    ReversalBalanced(b, id, if marked then o.(status := Reversed) else o, ShareOf(o.amount, ratio),
                     if marked then Reversed else Available);
  }

  lemma {:induction false} ReverseSharesBalanced(b: Books, ids: seq<nat>, ratio: int)
    requires Balanced(b) && forall k :: 0 <= k < |ids| ==> ids[k] < |b.entries|
    ensures Balanced(ReverseShares(b, ids, ratio))
    decreases |ids|
  {
    hide Balanced, ReverseShare;
    if ids != [] {
      ReverseSharesBalanced(b, ids[..|ids| - 1], ratio);
      ReverseShareBalanced(ReverseShares(b, ids[..|ids| - 1], ratio), ids[|ids| - 1], ratio);
    }
  }

  lemma ReverseWholeBalanced(b: Books, id: nat)
    requires Balanced(b) && id < |b.entries|
    ensures Balanced(ReverseWhole(b, id))
  {
    hide Balanced;
    var o := b.entries[id];
    ReversalBalanced(b, id, if o.status == Available then o.(status := Reversed) else o, o.amount, Reversed);
  }

  // ----- No commission twice -----

  lemma DuplicateMore(entries: seq<Entry>, e: Entry, p: nat, i: nat, k: nat)
    ensures Duplicate(entries + [e], p, i, k) <==> Duplicate(entries, p, i, k) || OriginalFor(e, p, i, k)
  {
    var more := entries + [e];
    if n :| 0 <= n < |entries| && OriginalFor(entries[n], p, i, k) {
      assert OriginalFor(more[n], p, i, k);
    }
    assert more[|entries|] == e;
  }

  /** After the loop exactly the lines that had earned before or are due have earned. */
  lemma {:induction false} EarnedLines(b: Books, p: nat, i: nat, ratio: int, at: Time, n: nat, k: nat)
    requires i < |b.invoices| && n <= |b.invoices[i].lines| && b.invoices[i].dealer.Some? && k < |b.invoices[i].lines|
    ensures Duplicate(EarnLines(b, p, i, ratio, at, n).entries, p, i, k)
            <==> Duplicate(b.entries, p, i, k) || (k < n && Due(b, p, i, k, ratio, at).Some?)
  {
    hide FindRule, Calculate, ResolveType, ShareOf;
    if n > 0 {
      EarnedLines(b, p, i, ratio, at, n - 1, k);
      var c := EarnLines(b, p, i, ratio, at, n - 1);
      DueIgnoresEntries(b, c, p, i, n - 1, ratio, at);
      var due := Due(c, p, i, n - 1, ratio, at);
      if due.Some? {
        DueNames(c, p, i, n - 1, ratio, at);
        DuplicateMore(c.entries, due.value, p, i, k);
      }
      hide Duplicate, Due;
    }
  }

  lemma DueNames(b: Books, p: nat, i: nat, k: nat, ratio: int, at: Time)
    requires i < |b.invoices| && k < |b.invoices[i].lines| && b.invoices[i].dealer.Some?
    ensures var due := Due(b, p, i, k, ratio, at);
            due.Some? ==> OriginalFor(due.value, p, i, k) && due.value.dealer == b.invoices[i].dealer.value && due.value.amount > 0
                          && due.value.customer == b.invoices[i].customer && due.value.status == Available
                          && ResolveType(b.invoices, i, b.invoices[i].lines[k].item) == Some(due.value.transaction)
  {
    hide FindRule, Calculate, ResolveType;
  }

  /** Invoices that the engine cannot tell apart. */
  ghost predicate SameForEngine(x: Invoice, y: Invoice) {
    && x.customer == y.customer && x.subscription == y.subscription && x.dealer == y.dealer
    && x.lines == y.lines && x.total == y.total && (x.status == Void <==> y.status == Void)
  }

  ghost predicate SameInputs(b: Books, c: Books) {
    && c.rules == b.rules && c.plans == b.plans && |c.invoices| == |b.invoices|
    && forall i :: 0 <= i < |b.invoices| ==> SameForEngine(b.invoices[i], c.invoices[i])
  }

  lemma DueIgnoresEntries(b: Books, c: Books, p: nat, i: nat, k: nat, ratio: int, at: Time)
    requires SameInputs(b, c)
    requires i < |b.invoices| && k < |b.invoices[i].lines| && b.invoices[i].dealer.Some?
    ensures Due(c, p, i, k, ratio, at) == Due(b, p, i, k, ratio, at)
  {
    TypeIgnoresEntries(b, c, i, b.invoices[i].lines[k].item);
    hide ResolveType, FindRule, Calculate, ShareOf;
    assert SameForEngine(b.invoices[i], c.invoices[i]);
  }

  lemma TypeIgnoresEntries(b: Books, c: Books, i: nat, item: ItemType)
    requires SameInputs(b, c) && i < |b.invoices|
    ensures ResolveType(c.invoices, i, item) == ResolveType(b.invoices, i, item)
  {
    assert SameForEngine(b.invoices[i], c.invoices[i]);
    assert forall j :: 0 <= j < |b.invoices| ==> SameForEngine(b.invoices[j], c.invoices[j]);
  }

  lemma {:induction false} NothingDue(b: Books, p: nat, i: nat, ratio: int, at: Time, n: nat)
    requires i < |b.invoices| && n <= |b.invoices[i].lines| && b.invoices[i].dealer.Some?
    requires forall k :: 0 <= k < n && Due(b, p, i, k, ratio, at).Some? ==> Duplicate(b.entries, p, i, k)
    ensures EarnLines(b, p, i, ratio, at, n) == b
  {
    hide Due, Duplicate;
    if n > 0 {
      NothingDue(b, p, i, ratio, at, n - 1);
    }
  }

  /** Main theorem.  Repeating createForAllocation with the same payment, amount and time changes
      nothing, as long as the rules, the plans and what the engine reads of the invoices are the same
      and the entries made the first time have not been cancelled - even if they have been reversed
      or settled since. */
  lemma RepeatChangesNothing(b: Books, c: Books, p: nat, i: nat, amount: Cents, at: Time)
    requires SameInputs(b, c)
    requires var t := CreateForAllocation(b, p, i, amount, at);
             forall k :: Duplicate(t.entries, p, i, k) ==> Duplicate(c.entries, p, i, k)
    ensures CreateForAllocation(c, p, i, amount, at) == c
  {
    if i < |b.invoices| && b.invoices[i].dealer.Some? && b.invoices[i].total > 0 {
      assert SameForEngine(b.invoices[i], c.invoices[i]);
      var ratio := Ratio(amount, b.invoices[i].total);
      var n := |b.invoices[i].lines|;
      hide Ratio, Due, Duplicate, EarnLines;
      forall k | 0 <= k < n && Due(c, p, i, k, ratio, at).Some?
        ensures Duplicate(c.entries, p, i, k)
      {
        DueIgnoresEntries(b, c, p, i, k, ratio, at);
        EarnedLines(b, p, i, ratio, at, n, k);
      }
      NothingDue(c, p, i, ratio, at, n);
    } else if i < |b.invoices| {
      assert SameForEngine(b.invoices[i], c.invoices[i]);
    }
  }

  // ----- What one allocation pays -----

  function Totals(lines: seq<BilledLine>): (r: seq<Cents>)
    ensures |r| == |lines|
  {
    seq(|lines|, k requires 0 <= k < |lines| => lines[k].total)
  }

  lemma SumPrefix(xs: seq<int>, n: nat)
    requires n < |xs|
    ensures Sum(xs[..n + 1]) == Sum(xs[..n]) + xs[n]
  {
    assert xs[..n + 1] == xs[..n] + [xs[n]];
    SumAppend(xs[..n], xs[n]);
  }

  /** The rule that the engine finds for a line. */
  function LineRule(b: Books, i: nat, k: nat, at: Time): (r: Option<nat>)
    requires i < |b.invoices| && k < |b.invoices[i].lines| && b.invoices[i].dealer.Some?
    ensures r.Some? ==> r.value < |b.rules| && b.rules[r.value].dealer == b.invoices[i].dealer.value
                        && b.rules[r.value].status == ActiveRule
  {
    var transaction := ResolveType(b.invoices, i, b.invoices[i].lines[k].item);
    if transaction.None? then None
    else FindRule(b.rules, b.invoices[i].dealer.value, PlanOf(b, b.invoices[i]), transaction.value, at)
  }

  /** The rule pays nothing or a checked percentage without a minimum. */
  predicate PurePercentage(r: Rule) {
    r.calculation == NoCalculation || (r.calculation == Percentage && CalculationValid(r) && r.minimum.None?)
  }

  /** The rules that the engine finds for the lines of the invoice are pure percentages; no other rule
      matters. */
  ghost predicate PurePercentages(b: Books, i: nat, at: Time)
    requires i < |b.invoices| && b.invoices[i].dealer.Some?
  {
    forall k :: 0 <= k < |b.invoices[i].lines| ==>
      var r := LineRule(b, i, k, at); r.Some? ==> PurePercentage(b.rules[r.value])
  }

  /** What is due is calculated by the line's rule from the base. */
  lemma DueByRule(b: Books, p: nat, i: nat, k: nat, ratio: int, at: Time)
    requires i < |b.invoices| && k < |b.invoices[i].lines| && b.invoices[i].dealer.Some?
    ensures var due := Due(b, p, i, k, ratio, at);
            due.Some? ==>
              && LineRule(b, i, k, at) == Some(due.value.rule)
              && b.rules[due.value.rule].calculation != NoCalculation
              && due.value.base == ShareOf(b.invoices[i].lines[k].total, ratio) && due.value.base > 0
              && due.value.amount == Calculate(b.rules[due.value.rule], due.value.base, ratio)
  {
    hide FindRule, Calculate, ShareOf, ResolveType;
  }

  lemma DueAtMostBase(b: Books, c: Books, p: nat, i: nat, k: nat, ratio: int, at: Time)
    requires i < |b.invoices| && k < |b.invoices[i].lines| && b.invoices[i].dealer.Some?
    requires PurePercentages(b, i, at) && c == b.(entries := c.entries, ledger := c.ledger)
    ensures var due := Due(c, p, i, k, ratio, at);
            due.Some? ==> due.value.amount <= ShareOf(b.invoices[i].lines[k].total, ratio)
  {
    hide Due, Calculate, ShareOf, FindRule, ResolveType;
    DueByRule(c, p, i, k, ratio, at);
    var due := Due(c, p, i, k, ratio, at);
    if due.Some? {
      assert LineRule(b, i, k, at) == LineRule(c, i, k, at);
      PercentagePaysAtMostBase(b.rules[due.value.rule], due.value.base, ratio);
    }
  }

  lemma ShareSign(total: Cents, ratio: int)
    requires total >= 0 && ratio >= 0
    ensures ShareOf(total, ratio) >= 0
  {
    assert total * ratio >= 0;
  }

  lemma {:induction false} EarnedAtMostBases(b: Books, p: nat, i: nat, ratio: int, at: Time, n: nat)
    requires i < |b.invoices| && n <= |b.invoices[i].lines| && b.invoices[i].dealer.Some?
    requires PurePercentages(b, i, at)
    requires ratio >= 0 && forall k :: 0 <= k < |b.invoices[i].lines| ==> b.invoices[i].lines[k].total >= 0
    ensures var d := b.invoices[i].dealer.value;
            EntryTotal(EarnLines(b, p, i, ratio, at, n).entries, d)
            <= EntryTotal(b.entries, d) + Sum(Bases(Totals(b.invoices[i].lines), ratio)[..n])
  {
    hide Due, Duplicate, ShareOf, Sum, PurePercentages, Post, EntryTotal;
    var bases := Bases(Totals(b.invoices[i].lines), ratio);
    if n == 0 {
      assert bases[..0] == [];
      NoBases();
    } else {
      EarnedAtMostBases(b, p, i, ratio, at, n - 1);
      var c := EarnLines(b, p, i, ratio, at, n - 1);
      SumPrefix(bases, n - 1);
      LineAtMostBase(b, c, p, i, n - 1, ratio, at);
    }
  }

  lemma NoBases()
    ensures Sum([]) == 0
  {
  }

  /** One round of the loop earns at most the base of its line. */
  lemma LineAtMostBase(b: Books, c: Books, p: nat, i: nat, k: nat, ratio: int, at: Time)
    requires i < |b.invoices| && k < |b.invoices[i].lines| && b.invoices[i].dealer.Some?
    requires PurePercentages(b, i, at) && c == b.(entries := c.entries, ledger := c.ledger)
    requires ratio >= 0 && b.invoices[i].lines[k].total >= 0
    ensures var d := b.invoices[i].dealer.value; var due := Due(c, p, i, k, ratio, at);
            var t := if due.None? || Duplicate(c.entries, p, i, k) then c else Post(c, due.value);
            EntryTotal(t.entries, d) <= EntryTotal(c.entries, d) + ShareOf(b.invoices[i].lines[k].total, ratio)
  {
    hide Due, Duplicate, ShareOf, PurePercentages, EntryTotal;
    ShareSign(b.invoices[i].lines[k].total, ratio);
    DueAtMostBase(b, c, p, i, k, ratio, at);
    DueNames(c, p, i, k, ratio, at);
    var due := Due(c, p, i, k, ratio, at);
    if due.Some? {
      EntryAppend(c.entries, due.value, b.invoices[i].dealer.value);
    }
  }

  /** Main theorem.  When the engine finds percentage rules for the lines of an invoice, the commission
      that one allocation earns over all of them exceeds the allocation by at most half a cent per line
      and 0.5e-8 of the total. */
  lemma CommissionAtMostAllocation(b: Books, p: nat, i: nat, amount: Cents, at: Time)
    requires i < |b.invoices| && b.invoices[i].dealer.Some? && b.invoices[i].total > 0
    requires PurePercentages(b, i, at)
    requires b.invoices[i].total == Sum(Totals(b.invoices[i].lines)) && amount >= 0
    requires forall k :: 0 <= k < |b.invoices[i].lines| ==> b.invoices[i].lines[k].total >= 0
    ensures var d := b.invoices[i].dealer.value;
            var earned := EntryTotal(CreateForAllocation(b, p, i, amount, at).entries, d) - EntryTotal(b.entries, d);
            2 * RATIO_ONE * (earned - amount) <= |b.invoices[i].lines| * RATIO_ONE + b.invoices[i].total
  {
    var totals := Totals(b.invoices[i].lines);
    var ratio := Ratio(amount, b.invoices[i].total);
    EarnedAtMostBases(b, p, i, ratio, at, |totals|);
    var bases := Bases(totals, ratio);
    assert bases[..|totals|] == bases;
    hide Bases, Totals, Ratio, EarnLines, PurePercentages;
    BasesError(totals, amount);
  }
}
