/** The billing services themselves: books that their methods change row by row. */
module BillingService {
  import opened Options
  import opened Decimals
  import opened CommissionRules
  import opened CommissionBounds
  import opened BillingBooks
  import opened Billing
  import opened BillingRuns
  import InvoiceAmounts

  /** The answer of a request and the books after it are the ones of an outcome. */
  ghost predicate Meets(error: Option<Error>, before: Books, after: Books, o: Outcome) {
    match o
    case Rejected(e) => error == Some(e) && after == before
    case Accepted(t) => error == None && after == t
  }

  /** What every accepted request keeps. */
  lemma OutcomeKeeps(b: Books, op: Op)
    requires Good(b)
    ensures Apply(b, op).Accepted? ==> Good(Apply(b, op).books)
  {
    hide Good, Apply;
    if Apply(b, op).Accepted? {
      StepKeeps(b, op);
    }
  }

  lemma RefundOutcome(b: Books, p: nat, invoice: Option<nat>, amount: Cents)
    requires Good(b)
    ensures Refund(b, p, invoice, amount).Accepted? ==> Good(Refund(b, p, invoice, amount).books)
  {
    hide Good, Refund;
    if Refund(b, p, invoice, amount).Accepted? {
      RefundKeeps(b, p, invoice, amount);
    }
  }

  lemma ConfirmOutcome(b: Books, p: nat, shares: seq<Share>, at: Time)
    requires Good(b)
    ensures Confirm(b, p, shares, at).Accepted? ==> Good(Confirm(b, p, shares, at).books)
  {
    hide Good, Confirm;
    if Confirm(b, p, shares, at).Accepted? {
      ConfirmKeeps(b, p, shares, at);
    }
  }

  class Bookkeeper {
    var plans: map<nat, nat>
    var rules: seq<Rule>
    var invoices: seq<Invoice>
    var payments: seq<Payment>
    var allocations: seq<Allocation>
    var entries: seq<Entry>
    var ledger: seq<LedgerRow>

    constructor ()
      ensures Valid() && Contents() == EMPTY_BOOKS
    {
      EmptyGood();
      plans, rules, invoices, payments, allocations, entries, ledger := map[], [], [], [], [], [], [];
    }

    /** The books are in order. */
    ghost predicate Valid()
      reads this
    {
      Good(Contents())
    }

    function Contents(): Books
      reads this
    {
      Books(plans, rules, invoices, payments, allocations, entries, ledger)
    }

    /** Undoes a transaction. */
    method Rollback(saved: Books)
      modifies this
      ensures Contents() == saved
    {
      plans, rules, invoices, payments := saved.plans, saved.rules, saved.invoices, saved.payments;
      allocations, entries, ledger := saved.allocations, saved.entries, saved.ledger;
    }

    /** One round of the loop over the lines of an invoice. */
    method EarnLine(p: nat, i: nat, k: nat, ratio: int, at: Time)
      requires i < |invoices| && k < |invoices[i].lines| && invoices[i].dealer.Some?
      modifies this`entries, this`ledger
      ensures var before := old(Contents()); var due := Due(before, p, i, k, ratio, at);
              Contents() == if due.None? || Duplicate(before.entries, p, i, k) then before else Post(before, due.value)
    {
      var inv := invoices[i];
      var transaction := ResolveType(invoices, i, inv.lines[k].item);
      if transaction.None? { return; }
      if Duplicate(entries, p, i, k) { return; }
      var rule := FindRule(rules, inv.dealer.value, PlanOf(Contents(), inv), transaction.value, at);
      if rule.None? || rules[rule.value].calculation == NoCalculation { return; }
      var base := ShareOf(inv.lines[k].total, ratio);
      if base <= 0 { return; }
      var amount := CalculateAmount(rules[rule.value], base, ratio);
      if amount <= 0 { return; }
      entries := entries + [Entry(inv.dealer.value, inv.customer, i, k, p, rule.value, transaction.value, base, amount,
                                  Available, None)];
      ledger := ledger + [LedgerRow(inv.dealer.value, CommissionEarned, true, amount)];
    }

    method EarnForAllocation(p: nat, i: nat, amount: Cents, at: Time)
      modifies this`entries, this`ledger
      ensures Contents() == CreateForAllocation(old(Contents()), p, i, amount, at)
      ensures old(Valid()) && HasAllocation(allocations, i) ==> Valid()
    {
      hide Due, Duplicate, Post, Ratio, Good, HasAllocation;
      if Valid() && HasAllocation(allocations, i) {
        EarnGood(Contents(), p, i, amount, at);
      }
      if i >= |invoices| || invoices[i].dealer.None? || invoices[i].total <= 0 { return; }
      var ratio := Ratio(amount, invoices[i].total);
      var k := 0;
      while k < |invoices[i].lines|
        invariant 0 <= k <= |invoices[i].lines|
        invariant Contents() == EarnLines(old(Contents()), p, i, ratio, at, k)
      {
        EarnLine(p, i, k, ratio, at);
        k := k + 1;
      }
    }

    /** One round of the loop over the entries that a refund reverses. */
    method ReverseOne(id: nat, ratio: int)
      requires id < |entries|
      modifies this`entries, this`ledger
      ensures Contents() == ReverseShare(old(Contents()), id, ratio)
    {
      var o := entries[id];
      var amount := ShareOf(o.amount, ratio);
      if amount <= 0 { return; }
      var reversal := |entries|;
      entries := entries + [ReversalEntry(o, id, amount, Available)];
      ledger := ledger + [DebitRow(o, amount)];
      if ratio >= RATIO_ONE && o.status == Available {
        entries := entries[id := o.(status := Reversed)];
        entries := entries[reversal := entries[reversal].(status := Reversed)];
      }
    }

    method ReverseEach(ids: seq<nat>, ratio: int)
      requires forall k :: 0 <= k < |ids| ==> ids[k] < |entries|
      modifies this`entries, this`ledger
      ensures Contents() == ReverseShares(old(Contents()), ids, ratio)
    {
      hide ReverseShare;
      var k := 0;
      assert ids[..0] == [];
      while k < |ids|
        invariant 0 <= k <= |ids|
        invariant Contents() == ReverseShares(old(Contents()), ids[..k], ratio)
        invariant |Contents().entries| >= |old(entries)|
      {
        assert ids[..k + 1][..k] == ids[..k];
        ReverseOne(ids[k], ratio);
        k := k + 1;
      }
      assert ids[..k] == ids;
    }

    /** The entries to reverse are read once, before the loop. */
    method ReverseEntriesForRefund(p: nat, refund: Cents, payment: Cents)
      modifies this`entries, this`ledger
      ensures Contents() == ReverseForRefund(old(Contents()), p, refund, payment)
      ensures old(Valid()) && refund <= payment ==> Valid()
    {
      hide ReverseShares, Ratio, Reversible, Good;
      if Valid() && refund <= payment {
        ReverseForRefundGood(Contents(), p, refund, payment);
      }
      if payment <= 0 { return; }
      ReverseEach(Originals(entries, p), Ratio(refund, payment));
    }

    method ReverseEntry(id: nat) returns (error: Option<Error>)
      requires Valid()
      modifies this`entries, this`ledger
      ensures Meets(error, old(Contents()), Contents(), Reverse(old(Contents()), id))
      ensures Valid()
    {
      hide Good;
      OutcomeKeeps(Contents(), ReverseOp(id));
      if id >= |entries| { return Some(NotFound); }
      var o := entries[id];
      if o.reversalOf.Some? || o.amount <= 0 || o.status in {Reversed, Cancelled} { return Some(Conflict); }
      entries := entries + [ReversalEntry(o, id, o.amount, Reversed)];
      if o.status == Available {
        entries := entries[id := o.(status := Reversed)];
      }
      ledger := ledger + [DebitRow(o, o.amount)];
      return None;
    }

    /** A refund that is requested and completed. */
    method RefundPayment(p: nat, invoice: Option<nat>, amount: Cents) returns (error: Option<Error>)
      requires Valid()
      modifies this`payments, this`invoices, this`entries, this`ledger
      ensures Meets(error, old(Contents()), Contents(), Refund(old(Contents()), p, invoice, amount))
      ensures Valid()
    {
      hide Good, ReverseForRefund, AllocatedBy;
      RefundOutcome(Contents(), p, invoice, amount);
      if p >= |payments| { return Some(NotFound); }
      if !payments[p].confirmed { return Some(Conflict); }
      if invoice.Some? && !AllocatedBy(allocations, p, invoice.value) { return Some(BadRequest); }
      if amount < 0 { return Some(BadRequest); }
      if payments[p].refunded + amount > payments[p].amount { return Some(BadRequest); }
      if amount == 0 { return Some(RefusedByDatabase); }
      payments := payments[p := payments[p].(refunded := payments[p].refunded + amount)];
      if invoice.Some? && invoice.value < |invoices| && payments[p].refunded >= payments[p].amount {
        invoices := invoices[invoice.value := invoices[invoice.value].(status := Refunded)];
      }
      ReverseEntriesForRefund(p, amount, payments[p].amount);
      return None;
    }

    method AddInvoice(customer: nat, subscription: Option<nat>, dealer: Option<DealerId>, period: Option<Period>,
                      items: seq<Item>) returns (error: Option<Error>)
      requires Valid()
      modifies this`invoices
      ensures Meets(error, old(Contents()), Contents(), CreateInvoice(old(Contents()), customer, subscription, dealer, period, items))
      ensures Valid()
    {
      hide Good;
      OutcomeKeeps(Contents(), CreateOp(customer, subscription, dealer, period, items));
      var created := NewInvoice(customer, subscription, dealer, period, items);
      if created.Rejected? { return Some(BadRequest); }
      if !Storable(items) { return Some(RefusedByDatabase); }
      invoices := invoices + [created.value];
      return None;
    }

    method BillForPeriod(customer: nat, subscription: nat, dealer: Option<DealerId>, period: Period,
                         basePrice: InvoiceAmounts.Input) returns (error: Option<Error>)
      requires Valid()
      modifies this`invoices
      ensures Meets(error, old(Contents()), Contents(),
                    BillSubscription(old(Contents()), customer, subscription, dealer, period, basePrice))
      ensures Valid()
    {
      hide Good;
      OutcomeKeeps(Contents(), BillOp(customer, subscription, dealer, period, basePrice));
      hide NewInvoice, Storable;
      if Billed(invoices, subscription, period) { return Some(Conflict); }
      var one, zero := InvoiceAmounts.Decimal(false, 1, 1), InvoiceAmounts.Decimal(false, 0, 1);
      error := AddInvoice(customer, Some(subscription), dealer, Some(period),
                          [Item(SubscriptionItem, InvoiceAmounts.LineInput(one, basePrice, zero, zero))]);
    }

    method IssueInvoice(i: nat) returns (error: Option<Error>)
      requires Valid()
      modifies this`invoices
      ensures Meets(error, old(Contents()), Contents(), Issue(old(Contents()), i))
      ensures Valid()
    {
      hide Good;
      OutcomeKeeps(Contents(), IssueOp(i));
      if i >= |invoices| { return Some(NotFound); }
      if invoices[i].status != Draft { return Some(Conflict); }
      invoices := invoices[i := invoices[i].(status := Issued)];
      return None;
    }

    method Void(i: nat) returns (error: Option<Error>)
      requires Valid()
      modifies this`invoices
      ensures Meets(error, old(Contents()), Contents(), VoidInvoice(old(Contents()), i))
      ensures Valid()
    {
      hide Good;
      OutcomeKeeps(Contents(), VoidOp(i));
      if i >= |invoices| { return Some(NotFound); }
      if invoices[i].status in {Paid, Refunded} || HasAllocation(allocations, i) { return Some(Conflict); }
      if invoices[i].status == BillingBooks.Void { return Some(Conflict); }
      invoices := invoices[i := invoices[i].(status := BillingBooks.Void)];
      return None;
    }

    /** The insert of one allocation, with its trigger. */
    method InsertAllocation(p: nat, s: Share) returns (error: Option<Error>)
      modifies this`invoices, this`allocations
      ensures if Allocatable(old(Contents()), p, s) then error == None && Contents() == PayInvoice(old(Contents()), p, s)
              else error == Some(RefusedByDatabase)
    {
      if !Allocatable(Contents(), p, s) { return Some(RefusedByDatabase); }
      var paid := AllocatedTo(allocations, s.invoice) + s.amount;
      var inv := invoices[s.invoice];
      invoices := invoices[s.invoice := inv.(paid := paid, outstanding := inv.total - paid,
                                             status := if paid == inv.total then Paid else PartiallyPaid)];
      allocations := allocations + [Allocation(p, s.invoice, s.amount)];
      return None;
    }

    method AllocateShares(p: nat, shares: seq<Share>, at: Time) returns (error: Option<Error>)
      modifies this`invoices, this`allocations, this`entries, this`ledger
      ensures var o := AllocateAll(old(Contents()), p, shares, at);
              if o.Accepted? then error == None && Contents() == o.books else error == Some(o.error)
    {
      hide Allocatable, PayInvoice, CreateForAllocation;
      var k := 0;
      assert shares[..0] == [];
      while k < |shares|
        invariant 0 <= k <= |shares|
        invariant AllocateAll(old(Contents()), p, shares[..k], at) == Accepted(Contents())
      {
        assert shares[..k + 1][..k] == shares[..k];
        error := InsertAllocation(p, shares[k]);
        if error.Some? {
          StaysRejected(old(Contents()), p, shares, at, k + 1);
          return;
        }
        EarnForAllocation(p, shares[k].invoice, shares[k].amount, at);
        k := k + 1;
      }
      assert shares[..k] == shares;
      error := None;
    }

    /** Looks for the first share whose invoice cannot be paid. */
    method CheckPayable(p: nat, shares: seq<Share>) returns (error: Option<Error>)
      requires p < |payments| && forall k :: 0 <= k < |shares| ==> shares[k].invoice < |invoices|
      ensures error == FirstError(Contents(), p, shares)
    {
      var k := 0;
      while k < |shares|
        invariant 0 <= k <= |shares|
        invariant FirstError(Contents(), p, shares) == FirstError(Contents(), p, shares[k..])
      {
        error := PayableError(Contents(), p, shares[k]);
        if error.Some? { return; }
        assert shares[k..][1..] == shares[k + 1..];
        k := k + 1;
      }
      error := None;
    }

    method ConfirmPayment(p: nat, shares: seq<Share>, at: Time) returns (error: Option<Error>)
      requires Valid()
      modifies this
      ensures Meets(error, old(Contents()), Contents(), Confirm(old(Contents()), p, shares, at))
      ensures Valid()
    {
      hide Good, AllocateAll, FirstError, SharesTotal;
      ConfirmOutcome(Contents(), p, shares, at);
      var saved := Contents();
      if p >= |payments| { return Some(NotFound); }
      if payments[p].confirmed { return Some(Conflict); }
      if exists j, k :: 0 <= j < k < |shares| && shares[j].invoice == shares[k].invoice { return Some(BadRequest); }
      if exists k :: 0 <= k < |shares| && shares[k].amount < 0 { return Some(BadRequest); }
      if SharesTotal(shares) > payments[p].amount { return Some(BadRequest); }
      if exists k :: 0 <= k < |shares| && shares[k].invoice >= |invoices| { return Some(BadRequest); }
      error := CheckPayable(p, shares);
      if error.Some? { return; }
      payments := payments[p := payments[p].(confirmed := true)];
      error := AllocateShares(p, shares, at);
      if error.Some? { Rollback(saved); }
    }
  }

  /** Once an allocation is refused the rest is not tried. */
  lemma {:induction false} StaysRejected(b: Books, p: nat, shares: seq<Share>, at: Time, k: nat)
    requires k <= |shares| && AllocateAll(b, p, shares[..k], at).Rejected?
    ensures AllocateAll(b, p, shares, at) == AllocateAll(b, p, shares[..k], at)
    decreases |shares|
  {
    hide Allocatable, PayInvoice, CreateForAllocation;
    if k == |shares| {
      assert shares[..k] == shares;
    } else {
      var init := shares[..|shares| - 1];
      assert init[..k] == shares[..k];
      StaysRejected(b, p, init, at, k);
    }
  }
}
