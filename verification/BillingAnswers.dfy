/** What the commission engine writes, said of the rows and not through the functions that compute them. */
module BillingAnswers {
  import opened Options
  import opened Decimals
  import opened CommissionRules
  import opened CommissionBounds
  import opened CommissionAnswers
  import opened BillingBooks
  import opened BillingEngine

  // ----- createForAllocation -----

  /** The subscription of the invoice has another invoice that is not void. */
  ghost predicate Continues(invoices: seq<Invoice>, i: nat)
    requires i < |invoices|
  {
    exists j :: 0 <= j < |invoices| && j != i && invoices[j].subscription == invoices[i].subscription
                && invoices[j].status != Void
  }

  /** The transaction that a line of an invoice is. */
  ghost predicate Transacts(invoices: seq<Invoice>, i: nat, item: ItemType, t: TransactionType)
    requires i < |invoices|
  {
    match t
    case DeviceSale => item == DeviceSaleItem
    case Installing => item == InstallationItem
    case Upgrade => item == ReplacementItem
    case AddOnService => item == AddOnItem
    case InitialSubscription => item == SubscriptionItem && invoices[i].subscription != None && !Continues(invoices, i)
    case SubscriptionRenewal => item == SubscriptionItem && invoices[i].subscription != None && Continues(invoices, i)
  }

  /** The entry that line k of invoice i owes for a share of its total. */
  ghost predicate Owes(b: Books, p: nat, i: nat, k: nat, ratio: int, at: Time, e: Entry)
    requires i < |b.invoices|
  {
    var inv := b.invoices[i];
    && k < |inv.lines| && inv.dealer == Some(e.dealer)
    && Transacts(b.invoices, i, inv.lines[k].item, e.transaction)
    && Chosen(b.rules, e.dealer, if inv.subscription != None && inv.subscription.value in b.plans then
                                   Some(b.plans[inv.subscription.value]) else None, e.transaction, at, e.rule)
    && b.rules[e.rule].calculation != NoCalculation
    && Half(e.base, inv.lines[k].total * ratio, 100_000_000) && e.base > 0
    && Pays(b.rules[e.rule], e.base, ratio, e.amount) && e.amount > 0
    && e.customer == inv.customer && e.invoice == i && e.line == k && e.payment == p && e.status == Available && e.reversalOf == None
  }

  lemma TransactsMeans(invoices: seq<Invoice>, i: nat, item: ItemType, t: TransactionType)
    requires i < |invoices|
    ensures Transacts(invoices, i, item, t) <==> ResolveType(invoices, i, item) == Some(t)
  {
  }

  lemma OwesMeans(b: Books, p: nat, i: nat, k: nat, ratio: int, at: Time, e: Entry)
    requires i < |b.invoices| && k < |b.invoices[i].lines|
    ensures Owes(b, p, i, k, ratio, at, e) <==> b.invoices[i].dealer.Some? && Due(b, p, i, k, ratio, at) == Some(e)
  {
    hide ResolveType, Transacts, Chosen, FindRule, Half, RoundDiv, Pays, Calculate;
    var inv := b.invoices[i];
    if inv.dealer.Some? {
      var d, plan, t := inv.dealer.value, PlanOf(b, inv), ResolveType(b.invoices, i, inv.lines[k].item);
      TransactsMeans(b.invoices, i, inv.lines[k].item, e.transaction);
      if t.Some? {
        var rule := FindRule(b.rules, d, plan, t.value, at);
        FindRuleMeans(b.rules, d, plan, t.value, at);
        if Chosen(b.rules, d, plan, t.value, at, e.rule) {
          OneChoice(b.rules, d, plan, t.value, at, e.rule, rule.value);
        }
        if rule.Some? {
          HalfIsRoundDiv(e.base, inv.lines[k].total * ratio, 100_000_000);
          CalculateMeans(b.rules[rule.value], e.base, ratio, e.amount);
        }
      }
    }
  }

  /** An entry with a payment, an invoice and a line that reverses nothing and is not cancelled. */
  ghost predicate HasEarned(entries: seq<Entry>, p: nat, i: nat, k: nat) {
    exists n :: 0 <= n < |entries| && entries[n].payment == p && entries[n].invoice == i && entries[n].line == k
                && entries[n].reversalOf == None && entries[n].status != Cancelled
  }

  lemma HasEarnedMeans(entries: seq<Entry>, p: nat, i: nat, k: nat)
    ensures HasEarned(entries, p, i, k) <==> Duplicate(entries, p, i, k)
  {
    if n :| 0 <= n < |entries| && entries[n].payment == p && entries[n].invoice == i && entries[n].line == k
            && entries[n].reversalOf == None && entries[n].status != Cancelled {
      assert OriginalFor(entries[n], p, i, k);
    }
  }

  /** What one line adds: the entry it owes, unless the payment has earned on it. */
  ghost predicate Adds(b: Books, p: nat, i: nat, k: nat, ratio: int, at: Time, e: Entry)
    requires i < |b.invoices|
  {
    Owes(b, p, i, k, ratio, at, e) && !HasEarned(b.entries, p, i, k)
  }

  /** The entries that the first n lines of an invoice add, in the order of the lines. */
  ghost predicate Earned(b: Books, p: nat, i: nat, ratio: int, at: Time, n: nat, added: seq<Entry>)
    requires i < |b.invoices|
  {
    && (forall m :: 0 <= m < |added| ==> added[m].line < n && Adds(b, p, i, added[m].line, ratio, at, added[m]))
    && (forall l, m :: 0 <= l < m < |added| ==> added[l].line < added[m].line)
    && (forall k: nat, e :: k < n && Adds(b, p, i, k, ratio, at, e) ==> e in added)
  }

  /** One credit row for each entry. */
  ghost function Credits(added: seq<Entry>): (r: seq<LedgerRow>)
    ensures |r| == |added|
  {
    seq(|added|, m requires 0 <= m < |added| => LedgerRow(added[m].dealer, CommissionEarned, true, added[m].amount))
  }

  lemma {:induction false} LinesEarn(b: Books, p: nat, i: nat, ratio: int, at: Time, n: nat) returns (added: seq<Entry>)
    requires i < |b.invoices| && n <= |b.invoices[i].lines| && b.invoices[i].dealer.Some?
    ensures Earned(b, p, i, ratio, at, n, added)
    ensures EarnLines(b, p, i, ratio, at, n) == b.(entries := b.entries + added, ledger := b.ledger + Credits(added))
  {
    hide Owes, HasEarned, Due, Duplicate, Earned, SameInputs;
    if n == 0 {
      added := [];
      NothingEarnedYet(b, p, i, ratio, at);
    } else {
      var init := LinesEarn(b, p, i, ratio, at, n - 1);
      var c := EarnLines(b, p, i, ratio, at, n - 1);
      EarnedLines(b, p, i, ratio, at, n - 1, n - 1);
      DueIgnores(b, c, p, i, n - 1, ratio, at);
      HasEarnedMeans(b.entries, p, i, n - 1);
      var due := Due(b, p, i, n - 1, ratio, at);
      if due.Some? && !Duplicate(b.entries, p, i, n - 1) {
        added := init + [due.value];
        assert Credits(added) == Credits(init) + [LedgerRow(due.value.dealer, CommissionEarned, true, due.value.amount)];
      } else {
        added := init;
      }
      OneMoreLine(b, p, i, ratio, at, n - 1, init, added);
    }
  }

  lemma NothingEarnedYet(b: Books, p: nat, i: nat, ratio: int, at: Time)
    requires i < |b.invoices|
    ensures Earned(b, p, i, ratio, at, 0, [])
  {
  }

  lemma DueIgnores(b: Books, c: Books, p: nat, i: nat, k: nat, ratio: int, at: Time)
    requires i < |b.invoices| && k < |b.invoices[i].lines| && b.invoices[i].dealer.Some?
    requires c == b.(entries := c.entries, ledger := c.ledger)
    ensures Due(c, p, i, k, ratio, at) == Due(b, p, i, k, ratio, at)
  {
    hide Due;
    DueIgnoresEntries(b, c, p, i, k, ratio, at);
  }

  lemma OneMoreLine(b: Books, p: nat, i: nat, ratio: int, at: Time, k: nat, init: seq<Entry>, added: seq<Entry>)
    requires i < |b.invoices| && k < |b.invoices[i].lines| && b.invoices[i].dealer.Some?
    requires Earned(b, p, i, ratio, at, k, init)
    requires var due := Due(b, p, i, k, ratio, at);
             added == if due.Some? && !HasEarned(b.entries, p, i, k) then init + [due.value] else init
    ensures Earned(b, p, i, ratio, at, k + 1, added)
  {
    hide Owes, HasEarned, Due;
    forall e
      ensures Owes(b, p, i, k, ratio, at, e) <==> Due(b, p, i, k, ratio, at) == Some(e)
    {
      OwesMeans(b, p, i, k, ratio, at, e);
    }
    if Due(b, p, i, k, ratio, at).Some? {
      OwedLine(b, p, i, k, ratio, at, Due(b, p, i, k, ratio, at).value);
    }
    forall j: nat, e | j < k + 1 && Adds(b, p, i, j, ratio, at, e)
      ensures e in added
    {
      if j == k {
        assert added[|added| - 1] == e;
      } else {
        assert e in init;
      }
    }
  }

  lemma OwedLine(b: Books, p: nat, i: nat, k: nat, ratio: int, at: Time, e: Entry)
    requires i < |b.invoices| && Owes(b, p, i, k, ratio, at, e)
    ensures e.line == k
  {
  }

  /** t is b with these entries added, each with a credit to its dealer. */
  ghost predicate Credited(b: Books, t: Books, added: seq<Entry>) {
    t == b.(entries := b.entries + added, ledger := b.ledger + Credits(added))
  }

  /** What an allocation of an amount to an invoice adds: nothing without a dealer or a positive total, and
      otherwise what its lines owe for the amount's share of the total, to eight places. */
  ghost predicate EarnedBy(b: Books, p: nat, i: nat, amount: Cents, at: Time, added: seq<Entry>) {
    if i < |b.invoices| && b.invoices[i].dealer != None && b.invoices[i].total > 0 then
      exists ratio :: Half(ratio, amount * 100_000_000, b.invoices[i].total)
                      && Earned(b, p, i, ratio, at, |b.invoices[i].lines|, added)
    else added == []
  }

  lemma AllocationMeans(b: Books, p: nat, i: nat, amount: Cents, at: Time) returns (added: seq<Entry>)
    ensures EarnedBy(b, p, i, amount, at, added) && Credited(b, CreateForAllocation(b, p, i, amount, at), added)
  {
    hide Earned, EarnLines, RoundDiv, Half;
    if i < |b.invoices| && b.invoices[i].dealer.Some? && b.invoices[i].total > 0 {
      var ratio := Ratio(amount, b.invoices[i].total);
      HalfIsRoundDiv(ratio, amount * 100_000_000, b.invoices[i].total);
      added := LinesEarn(b, p, i, ratio, at, |b.invoices[i].lines|);
    } else {
      added := [];
      assert b.entries + added == b.entries && b.ledger + Credits(added) == b.ledger;
    }
  }

  /** Main theorem.  createForAllocation adds, in the order of the lines, exactly the entries that they owe
      and have not earned from the payment, and credits each to the dealer; all else stays. */
  lemma AllocationAdds(b: Books, p: nat, i: nat, amount: Cents, at: Time)
    ensures exists added :: EarnedBy(b, p, i, amount, at, added) && Credited(b, CreateForAllocation(b, p, i, amount, at), added)
  {
    hide EarnedBy, Credited, CreateForAllocation;
    var added := AllocationMeans(b, p, i, amount, at);
  }

  /** Main theorem.  The transaction of every entry that createForAllocation adds follows from the item type
      of its line; a subscription line is initial exactly when its subscription has no other invoice that is
      not void.  Other items earn nothing, nor do subscription lines of invoices without a subscription. */
  lemma TransactionMeans(b: Books, p: nat, i: nat, amount: Cents, at: Time, n: nat)
    requires |b.entries| <= n < |CreateForAllocation(b, p, i, amount, at).entries|
    ensures var e := CreateForAllocation(b, p, i, amount, at).entries[n];
            i < |b.invoices| && e.line < |b.invoices[i].lines| &&
            var item, subscription := b.invoices[i].lines[e.line].item, b.invoices[i].subscription;
            && (item == DeviceSaleItem ==> e.transaction == DeviceSale)
            && (item == InstallationItem ==> e.transaction == Installing)
            && (item == ReplacementItem ==> e.transaction == Upgrade)
            && (item == AddOnItem ==> e.transaction == AddOnService)
            && (item == SubscriptionItem ==>
                  && subscription != None
                  && e.transaction == if exists j :: 0 <= j < |b.invoices| && j != i && b.invoices[j].subscription == subscription
                                                     && b.invoices[j].status != Void
                                      then SubscriptionRenewal else InitialSubscription)
            && item != OtherItem
  {
    hide CreateForAllocation, HasEarned, Chosen, Half, Pays;
    var added := AllocationMeans(b, p, i, amount, at);
    var e := CreateForAllocation(b, p, i, amount, at).entries[n];
    assert e == added[n - |b.entries|];
    assert e.reversalOf == None;
  }

  // ----- reverseForRefund -----

  /** A refund of the payment reverses a share of this entry. */
  ghost predicate Refundable(e: Entry, p: nat) {
    e.payment == p && e.reversalOf == None && e.amount > 0 && e.status != Cancelled && e.status != Reversed
  }

  /** The entries that are reversed, by their positions, and what is taken back of each. */
  datatype Back = Back(id: nat, amount: Cents)

  /** The positions are those of the refundable entries with a positive share, in their order. */
  ghost predicate TakenFrom(entries: seq<Entry>, p: nat, ratio: int, backs: seq<Back>) {
    && (forall m :: 0 <= m < |backs| ==>
          && backs[m].id < |entries| && Refundable(entries[backs[m].id], p)
          && Half(backs[m].amount, entries[backs[m].id].amount * ratio, 100_000_000) && backs[m].amount > 0)
    && (forall l, m :: 0 <= l < m < |backs| ==> backs[l].id < backs[m].id)
    && (forall n, x ::
          0 <= n < |entries| && Refundable(entries[n], p) && Half(x, entries[n].amount * ratio, 100_000_000) && x > 0 ==>
            Back(n, x) in backs)
  }

  /** An entry and its reversal are both marked, or neither is. */
  ghost predicate Reverses(was: seq<Entry>, now: seq<Entry>, backs: seq<Back>, whole: bool) {
    && |now| == |was| + |backs|
    && (forall m :: 0 <= m < |backs| ==>
          backs[m].id < |was| &&
          var o := was[backs[m].id]; var marked := whole && o.status == Available;
          && now[backs[m].id] == (if marked then o.(status := Reversed) else o)
          && now[|was| + m] == o.(amount := -backs[m].amount, reversalOf := Some(backs[m].id),
                                  status := if marked then Reversed else Available))
    && (forall n :: 0 <= n < |was| && (forall m :: 0 <= m < |backs| ==> backs[m].id != n) ==> now[n] == was[n])
  }

  /** One debit row for each reversal. */
  ghost function Debits(entries: seq<Entry>, backs: seq<Back>): (r: seq<LedgerRow>)
    requires forall m :: 0 <= m < |backs| ==> backs[m].id < |entries|
    ensures |r| == |backs|
  {
    seq(|backs|, m requires 0 <= m < |backs| => LedgerRow(entries[backs[m].id].dealer, CommissionReversal, false, backs[m].amount))
  }

  /** Only the entries and the ledger change, by these reversals. */
  ghost predicate Debited(b: Books, t: Books, backs: seq<Back>, whole: bool) {
    && t == b.(entries := t.entries, ledger := t.ledger) && Reverses(b.entries, t.entries, backs, whole)
    && t.ledger == b.ledger + Debits(b.entries, backs)
  }

  /** What some entries that come in their order give back. */
  ghost predicate BacksOf(entries: seq<Entry>, ids: seq<nat>, ratio: int, backs: seq<Back>) {
    BacksGiven(entries, ids, ratio, backs) && BacksAll(entries, ids, ratio, backs)
    && forall l, m :: 0 <= l < m < |backs| ==> backs[l].id < backs[m].id
  }

  ghost predicate BacksGiven(entries: seq<Entry>, ids: seq<nat>, ratio: int, backs: seq<Back>) {
    forall m :: 0 <= m < |backs| ==>
      backs[m].id in ids && backs[m].id < |entries|
      && backs[m].amount == ShareOf(entries[backs[m].id].amount, ratio) && backs[m].amount > 0
  }

  ghost predicate BacksAll(entries: seq<Entry>, ids: seq<nat>, ratio: int, backs: seq<Back>) {
    forall n :: n in ids && n < |entries| && ShareOf(entries[n].amount, ratio) > 0 ==>
      Back(n, ShareOf(entries[n].amount, ratio)) in backs
  }

  lemma {:induction false} SharesReverse(b: Books, ids: seq<nat>, ratio: int) returns (backs: seq<Back>)
    requires forall k :: 0 <= k < |ids| ==> ids[k] < |b.entries|
    requires forall j, k :: 0 <= j < k < |ids| ==> ids[j] < ids[k]
    ensures BacksOf(b.entries, ids, ratio, backs) && Debited(b, ReverseShares(b, ids, ratio), backs, ratio >= RATIO_ONE)
    decreases |ids|
  {
    hide BacksOf, Debited, ShareOf;
    if ids == [] {
      backs := [];
      NothingReversed(b, ratio);
    } else {
      var init, id := ids[..|ids| - 1], ids[|ids| - 1];
      var before := SharesReverse(b, init, ratio);
      var m := ReverseShares(b, init, ratio);
      BacksBelow(b, m, init, id, ratio, before);
      var share := ShareOf(b.entries[id].amount, ratio);
      backs := if share > 0 then before + [Back(id, share)] else before;
      OneMoreBack(b.entries, init, id, ratio, before, backs);
      assert init + [id] == ids;
      if share > 0 {
        OneMoreDebit(b, m, ReverseShare(m, id, ratio), before, Back(id, share), ratio >= RATIO_ONE);
      }
    }
  }

  lemma BacksBelow(b: Books, m: Books, ids: seq<nat>, id: nat, ratio: int, backs: seq<Back>)
    requires BacksOf(b.entries, ids, ratio, backs) && Debited(b, m, backs, ratio >= RATIO_ONE)
    requires id < |b.entries| && forall k :: 0 <= k < |ids| ==> ids[k] < id
    ensures (forall l :: 0 <= l < |backs| ==> backs[l].id < id) && id < |m.entries| && m.entries[id] == b.entries[id]
  {
    hide ShareOf;
  }

  lemma NothingReversed(b: Books, ratio: int)
    ensures BacksOf(b.entries, [], ratio, []) && Debited(b, b, [], ratio >= RATIO_ONE)
  {
    assert b.ledger + Debits(b.entries, []) == b.ledger;
  }

  lemma OneMoreBack(entries: seq<Entry>, ids: seq<nat>, id: nat, ratio: int, before: seq<Back>, backs: seq<Back>)
    requires id < |entries| && (forall k :: 0 <= k < |ids| ==> ids[k] < id) && BacksOf(entries, ids, ratio, before)
    requires var share := ShareOf(entries[id].amount, ratio); backs == if share > 0 then before + [Back(id, share)] else before
    ensures BacksOf(entries, ids + [id], ratio, backs)
  {
    hide ShareOf, BacksAll;
    assert forall n :: n in ids + [id] <==> n in ids || n == id;
    OneMoreInAll(entries, ids, id, ratio, before, backs);
  }

  lemma OneMoreInAll(entries: seq<Entry>, ids: seq<nat>, id: nat, ratio: int, before: seq<Back>, backs: seq<Back>)
    requires id < |entries| && BacksAll(entries, ids, ratio, before)
    requires var share := ShareOf(entries[id].amount, ratio); backs == if share > 0 then before + [Back(id, share)] else before
    ensures BacksAll(entries, ids + [id], ratio, backs)
  {
    hide ShareOf;
    forall n | n in ids + [id] && n < |entries| && ShareOf(entries[n].amount, ratio) > 0
      ensures Back(n, ShareOf(entries[n].amount, ratio)) in backs
    {
      if n == id {
        assert backs[|before|] == Back(n, ShareOf(entries[n].amount, ratio));
      } else {
        assert n in ids;
      }
    }
  }

  /** One more reversal of an entry that has not been reversed. */
  lemma OneMoreDebit(b: Books, m: Books, t: Books, before: seq<Back>, last: Back, whole: bool)
    requires last.id < |b.entries| && (forall l :: 0 <= l < |before| ==> before[l].id < last.id)
    requires Debited(b, m, before, whole)
    requires var o := m.entries[last.id]; var marked := whole && o.status == Available;
             t == m.(entries := m.entries[last.id := if marked then o.(status := Reversed) else o]
                                + [ReversalEntry(o, last.id, last.amount, if marked then Reversed else Available)],
                     ledger := m.ledger + [DebitRow(o, last.amount)])
    ensures Debited(b, t, before + [last], whole)
  {
    var backs := before + [last];
    assert m.entries[last.id] == b.entries[last.id];
    OneMoreReversal(b.entries, m.entries, t.entries, before, last, whole);
    hide Reverses;
    assert Debits(b.entries, backs) == Debits(b.entries, before) + [DebitRow(b.entries[last.id], last.amount)];
  }

  lemma OneMoreReversal(was: seq<Entry>, mid: seq<Entry>, now: seq<Entry>, before: seq<Back>, last: Back, whole: bool)
    requires last.id < |was| && (forall l :: 0 <= l < |before| ==> before[l].id < last.id)
    requires Reverses(was, mid, before, whole)
    requires var o := mid[last.id]; var marked := whole && o.status == Available;
             now == mid[last.id := if marked then o.(status := Reversed) else o]
                    + [ReversalEntry(o, last.id, last.amount, if marked then Reversed else Available)]
    ensures Reverses(was, now, before + [last], whole)
  {
    var backs := before + [last];
    assert mid[last.id] == was[last.id];
    forall n | 0 <= n < |was| && (forall m :: 0 <= m < |backs| ==> backs[m].id != n)
      ensures now[n] == was[n]
    {
      assert backs[|before|].id == last.id;
      assert forall m :: 0 <= m < |before| ==> before[m] == backs[m];
    }
  }

  /** What a refund takes back: nothing of a payment of nothing, and otherwise the refund's share of the
      payment, to eight places, of every refundable entry. */
  ghost predicate RefundedBy(b: Books, t: Books, p: nat, refund: Cents, payment: Cents, backs: seq<Back>) {
    if payment <= 0 then backs == [] && t == b
    else
      && (exists ratio :: Half(ratio, refund * 100_000_000, payment) && TakenFrom(b.entries, p, ratio, backs))
      && Debited(b, t, backs, 200_000_000 * (payment - refund) <= payment)
  }

  lemma RefundMeans(b: Books, p: nat, refund: Cents, payment: Cents) returns (backs: seq<Back>)
    ensures RefundedBy(b, ReverseForRefund(b, p, refund, payment), p, refund, payment, backs)
  {
    hide Debited, BacksOf, TakenFrom, ReverseShares, Half, RoundDiv;
    if payment <= 0 {
      backs := [];
    } else {
      var ids, ratio := Originals(b.entries, p), Ratio(refund, payment);
      HalfIsRoundDiv(ratio, refund * 100_000_000, payment);
      RatioReachesOne(refund, payment);
      backs := SharesReverse(b, ids, ratio);
      BacksTaken(b.entries, p, ratio, ids, backs);
    }
  }

  lemma BacksTaken(entries: seq<Entry>, p: nat, ratio: int, ids: seq<nat>, backs: seq<Back>)
    requires ids == Originals(entries, p) && BacksOf(entries, ids, ratio, backs)
    ensures TakenFrom(entries, p, ratio, backs)
  {
    hide Half, RoundDiv;
    forall n | 0 <= n < |entries|
      ensures Refundable(entries[n], p) <==> Reversible(entries[n], p)
    {
    }
    hide Refundable, Reversible;
    forall n, x | 0 <= n < |entries|
      ensures Half(x, entries[n].amount * ratio, 100_000_000) <==> x == ShareOf(entries[n].amount, ratio)
    {
      HalfIsRoundDiv(x, entries[n].amount * ratio, 100_000_000);
    }
    hide ShareOf;
  }

  /** Main theorem.  A refund reverses, in their order, exactly the refundable entries with a positive share;
      it marks an entry and its reversal exactly when the entry was AVAILABLE and the refund is whole to eight
      places; and it debits each reversal to the dealer. */
  lemma RefundReverses(b: Books, p: nat, refund: Cents, payment: Cents)
    ensures exists backs :: RefundedBy(b, ReverseForRefund(b, p, refund, payment), p, refund, payment, backs)
  {
    hide RefundedBy, ReverseForRefund;
    var backs := RefundMeans(b, p, refund, payment);
  }

  /** Main theorem.  What a refund does to one entry.  A refundable entry with a positive rounded share gets
      exactly one reversal, and both are REVERSED if and only if the entry was AVAILABLE and
      2e8 * (payment - refund) <= payment; otherwise the entry keeps its status and the reversal is AVAILABLE.
      Any other entry stays and gets no reversal. */
  lemma RefundMarks(b: Books, p: nat, refund: Cents, payment: Cents, n: nat, ratio: int, share: Cents)
    requires payment > 0 && n < |b.entries|
    requires Half(ratio, refund * 100_000_000, payment) && Half(share, b.entries[n].amount * ratio, 100_000_000)
    ensures var t, o := ReverseForRefund(b, p, refund, payment), b.entries[n];
            |b.entries| <= |t.entries| &&
            if o.payment == p && o.reversalOf == None && o.amount > 0 && o.status != Cancelled && o.status != Reversed && share > 0 then
              && var marked := o.status == Available && 200_000_000 * (payment - refund) <= payment;
              && t.entries[n].status == (if marked then Reversed else o.status)
              && exists m :: |b.entries| <= m < |t.entries| && t.entries[m].amount == -share
                             && t.entries[m].status == (if marked then Reversed else Available)
                             && forall l :: |b.entries| <= l < |t.entries| ==> (t.entries[l].reversalOf == Some(n) <==> l == m)
            else t.entries[n] == o && forall l :: |b.entries| <= l < |t.entries| ==> t.entries[l].reversalOf != Some(n)
  {
    hide ReverseForRefund, Half, RoundDiv, TakenFrom, Reverses, Debits;
    var t := ReverseForRefund(b, p, refund, payment);
    var backs := RefundMeans(b, p, refund, payment);
    var r :| Half(r, refund * 100_000_000, payment) && TakenFrom(b.entries, p, r, backs);
    HalfIsRoundDiv(r, refund * 100_000_000, payment);
    HalfIsRoundDiv(ratio, refund * 100_000_000, payment);
    var whole := 200_000_000 * (payment - refund) <= payment;
    if Refundable(b.entries[n], p) && share > 0 {
      Marked(b.entries, t.entries, p, backs, whole, n, ratio, share);
    } else {
      Unmarked(b.entries, t.entries, p, backs, whole, n, ratio, share);
    }
  }

  lemma Marked(was: seq<Entry>, now: seq<Entry>, p: nat, backs: seq<Back>, whole: bool, n: nat, ratio: int, share: Cents)
    requires n < |was| && Reverses(was, now, backs, whole) && TakenFrom(was, p, ratio, backs)
    requires Refundable(was[n], p) && share > 0 && Half(share, was[n].amount * ratio, 100_000_000)
    ensures var marked := was[n].status == Available && whole;
            && |was| <= |now| && now[n].status == (if marked then Reversed else was[n].status)
            && exists m :: |was| <= m < |now| && now[m].amount == -share && now[m].status == (if marked then Reversed else Available)
                           && forall l :: |was| <= l < |now| ==> (now[l].reversalOf == Some(n) <==> l == m)
  {
    hide Half, Refundable;
    var k :| 0 <= k < |backs| && backs[k] == Back(n, share);
    MarkedOne(was, now, backs, whole, k);
  }

  lemma Unmarked(was: seq<Entry>, now: seq<Entry>, p: nat, backs: seq<Back>, whole: bool, n: nat, ratio: int, share: Cents)
    requires n < |was| && Reverses(was, now, backs, whole) && TakenFrom(was, p, ratio, backs)
    requires !(Refundable(was[n], p) && share > 0) && Half(share, was[n].amount * ratio, 100_000_000)
    ensures |was| <= |now| && now[n] == was[n] && forall l :: |was| <= l < |now| ==> now[l].reversalOf != Some(n)
  {
    hide Half, RoundDiv, Refundable;
    forall k | 0 <= k < |backs|
      ensures backs[k].id != n
    {
      if backs[k].id == n {
        HalfIsRoundDiv(backs[k].amount, was[n].amount * ratio, 100_000_000);
        HalfIsRoundDiv(share, was[n].amount * ratio, 100_000_000);
      }
    }
    UnmarkedOne(was, now, backs, whole, n);
  }

  lemma MarkedOne(was: seq<Entry>, now: seq<Entry>, backs: seq<Back>, whole: bool, k: nat)
    requires k < |backs| && Reverses(was, now, backs, whole) && forall l, m :: 0 <= l < m < |backs| ==> backs[l].id < backs[m].id
    ensures |was| + k < |now| && now[|was| + k].reversalOf == Some(backs[k].id)
    ensures forall l :: |was| <= l < |now| ==> (now[l].reversalOf == Some(backs[k].id) <==> l == |was| + k)
  {
    forall l | |was| <= l < |now|
      ensures now[l].reversalOf == Some(backs[l - |was|].id)
    {
    }
  }

  lemma UnmarkedOne(was: seq<Entry>, now: seq<Entry>, backs: seq<Back>, whole: bool, n: nat)
    requires n < |was| && Reverses(was, now, backs, whole) && forall k :: 0 <= k < |backs| ==> backs[k].id != n
    ensures now[n] == was[n] && forall l :: |was| <= l < |now| ==> now[l].reversalOf != Some(n)
  {
    forall l | |was| <= l < |now|
      ensures now[l].reversalOf == Some(backs[l - |was|].id)
    {
    }
  }
}
