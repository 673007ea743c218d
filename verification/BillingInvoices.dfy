/** Invoices over runs: what is void stays void, and a subscription is billed once per period. */
module BillingInvoices {
  import opened Options
  import opened Decimals
  import opened CommissionRules
  import opened BillingBooks
  import opened Billing
  import opened BillingRuns
  import InvoiceAmounts

  /** Invoices are never removed, and all that changes is their payment state; void is final. */
  ghost predicate Onward(was: seq<Invoice>, now: seq<Invoice>) {
    && |was| <= |now|
    && forall i :: 0 <= i < |was| ==> SameDocument(was[i], now[i]) && (was[i].status == Void ==> now[i].status == Void)
  }

  lemma OnwardTwice(a: seq<Invoice>, b: seq<Invoice>, c: seq<Invoice>)
    requires Onward(a, b) && Onward(b, c)
    ensures Onward(a, c)
  {
    forall i | 0 <= i < |a|
      ensures SameDocument(a[i], c[i]) && (a[i].status == Void ==> c[i].status == Void)
    {
      assert SameDocument(a[i], b[i]) && SameDocument(b[i], c[i]);
    }
  }

  lemma {:induction false} AllocateAllOnward(b: Books, p: nat, shares: seq<Share>, at: Time)
    requires AllocateAll(b, p, shares, at).Accepted?
    requires forall k :: 0 <= k < |shares| ==> shares[k].invoice < |b.invoices| && b.invoices[shares[k].invoice].status != Void
    ensures var c := AllocateAll(b, p, shares, at).books;
            && Onward(b.invoices, c.invoices) && |c.invoices| == |b.invoices|
            && forall i :: 0 <= i < |b.invoices| && b.invoices[i].status != Void ==> c.invoices[i].status != Void
    decreases |shares|
  {
    if shares != [] {
      var init, s := shares[..|shares| - 1], shares[|shares| - 1];
      AllocateAllOnward(b, p, init, at);
      hide AllocatedTo, AllocatedFrom, EarnLines;
      var c := AllocateAll(b, p, init, at).books;
      assert c.invoices[s.invoice].status != Void;
      assert Onward(c.invoices, PayInvoice(c, p, s).invoices);
      OnwardTwice(b.invoices, c.invoices, PayInvoice(c, p, s).invoices);
    }
  }

  lemma ConfirmOnward(b: Books, p: nat, shares: seq<Share>, at: Time)
    requires Confirm(b, p, shares, at).Accepted?
    ensures Onward(b.invoices, Confirm(b, p, shares, at).books.invoices)
    ensures |Confirm(b, p, shares, at).books.invoices| == |b.invoices|
  {
    var c := b.(payments := b.payments[p := b.payments[p].(confirmed := true)]);
    hide AllocateAll, Onward;
    forall k | 0 <= k < |shares|
      ensures shares[k].invoice < |c.invoices| && c.invoices[shares[k].invoice].status != Void
    {
      assert PayableError(b, p, shares[k]).None?;
    }
    AllocateAllOnward(c, p, shares, at);
  }

  lemma RefundOnward(b: Books, p: nat, invoice: Option<nat>, amount: Cents)
    requires AllocatedNotVoid(b) && Refund(b, p, invoice, amount).Accepted?
    ensures Onward(b.invoices, Refund(b, p, invoice, amount).books.invoices)
    ensures |Refund(b, p, invoice, amount).books.invoices| == |b.invoices|
  {
    hide ReverseShares;
    if invoice.Some? {
      var a :| 0 <= a < |b.allocations| && b.allocations[a].payment == p && b.allocations[a].invoice == invoice.value;
      assert HasAllocation(b.allocations, invoice.value);
    }
  }

  lemma StepOnward(b: Books, op: Op)
    requires AllocatedNotVoid(b) && Apply(b, op).Accepted?
    ensures Onward(b.invoices, Apply(b, op).books.invoices)
  {
    hide Confirm, Refund, NewInvoice, Storable, HasAllocation, AllocatedNotVoid, Billed;
    match op
    case ConfirmOp(p, shares, at) => ConfirmOnward(b, p, shares, at);
    case RefundOp(p, i, amount) => RefundOnward(b, p, i, amount);
    case _ =>
  }

  lemma GoodNotVoid(b: Books)
    requires Good(b)
    ensures AllocatedNotVoid(b)
  {
  }

  /** Main theorem.  Over any run invoices keep their lines, totals, subscriptions and dealers, and a
      void invoice stays void. */
  lemma {:induction false} RunOnward(b: Books, ops: seq<Op>)
    requires Good(b)
    ensures Onward(b.invoices, Run(b, ops).invoices)
    decreases |ops|
  {
    hide Good, Apply, AllocatedNotVoid;
    if ops != [] {
      if Apply(b, ops[0]).Accepted? {
        GoodNotVoid(b);
        StepOnward(b, ops[0]);
        StepKeeps(b, ops[0]);
        RunOnward(Apply(b, ops[0]).books, ops[1..]);
        OnwardTwice(b.invoices, Apply(b, ops[0]).books.invoices, Run(b, ops).invoices);
      } else {
        RunOnward(b, ops[1..]);
      }
    }
  }

  predicate SameBill(x: Invoice, y: Invoice) {
    x.subscription.Some? && x.subscription == y.subscription && x.period.Some? && x.period == y.period
  }

  /** No subscription has two invoices for one period, void ones aside. */
  ghost predicate BilledOnce(invoices: seq<Invoice>) {
    forall i, j :: 0 <= i < j < |invoices| && invoices[i].status != Void && invoices[j].status != Void ==>
                     !SameBill(invoices[i], invoices[j])
  }

  /** The invoice of a subscription for a period that is billed already. */
  predicate BilledBefore(invoices: seq<Invoice>, subscription: Option<nat>, period: Option<Period>) {
    subscription.Some? && period.Some? && Billed(invoices, subscription.value, period.value)
  }

  /** Main theorem.  create takes a subscription and a period without looking for an earlier invoice, so
      an accepted creation keeps the subscription billed once per period exactly when the period was
      not billed. */
  lemma CreateBillsOnce(b: Books, customer: nat, subscription: Option<nat>, dealer: Option<DealerId>, period: Option<Period>,
                        items: seq<Item>)
    requires BilledOnce(b.invoices) && CreateInvoice(b, customer, subscription, dealer, period, items).Accepted?
    ensures BilledOnce(CreateInvoice(b, customer, subscription, dealer, period, items).books.invoices)
            <==> !BilledBefore(b.invoices, subscription, period)
  {
    var was, now := b.invoices, CreateInvoice(b, customer, subscription, dealer, period, items).books.invoices;
    NewInvoiceNames(customer, subscription, dealer, period, items);
    hide NewInvoice, Storable;
    assert forall i :: 0 <= i < |was| ==> now[i] == was[i];
    if BilledBefore(was, subscription, period) {
      var j :| 0 <= j < |was| && was[j].subscription == subscription && was[j].period == period && was[j].status != Void;
      assert SameBill(now[j], now[|was|]);
    } else {
      OnwardSelf(was, now);
      OnwardBilledOnce(was, now);
    }
  }

  lemma NewInvoiceNames(customer: nat, subscription: Option<nat>, dealer: Option<DealerId>, period: Option<Period>, items: seq<Item>)
    ensures var r := NewInvoice(customer, subscription, dealer, period, items);
            r.Ok? ==> r.value.subscription == subscription && r.value.period == period && r.value.status == Draft
  {
  }

  lemma OnwardSelf(was: seq<Invoice>, now: seq<Invoice>)
    requires |was| <= |now| && forall i :: 0 <= i < |was| ==> now[i] == was[i]
    ensures Onward(was, now)
  {
  }

  /** The operation does not create an invoice by hand for a period that is billed. */
  predicate BillsUnbilled(b: Books, op: Op) {
    op.CreateOp? ==> !BilledBefore(b.invoices, op.subscription, op.period)
  }

  lemma OnwardBilledOnce(was: seq<Invoice>, now: seq<Invoice>)
    requires BilledOnce(was) && Onward(was, now)
    requires |now| == |was| || (|now| == |was| + 1 && (now[|was|].subscription.None? || now[|was|].period.None?
               || !Billed(was, now[|was|].subscription.value, now[|was|].period.value)))
    requires |now| > |was| ==> forall i :: 0 <= i < |was| ==> now[i] == was[i]
    ensures BilledOnce(now)
  {
    forall i, j | 0 <= i < j < |now| && now[i].status != Void && now[j].status != Void
      ensures !SameBill(now[i], now[j])
    {
      assert SameDocument(was[i], now[i]) && was[i].status != Void;
      if j < |was| {
        assert SameDocument(was[j], now[j]) && was[j].status != Void;
      }
    }
  }

  lemma StepBilledOnce(b: Books, op: Op)
    requires AllocatedNotVoid(b) && BilledOnce(b.invoices) && BillsUnbilled(b, op) && Apply(b, op).Accepted?
    ensures BilledOnce(Apply(b, op).books.invoices)
  {
    hide BilledOnce, AllocatedNotVoid, Onward, Confirm, Refund, CreateInvoice, HasAllocation, Billed;
    StepOnward(b, op);
    match op
    case CreateOp(customer, subscription, dealer, period, items) =>
      CreateBillsOnce(b, customer, subscription, dealer, period, items);
    case BillOp(customer, s, dealer, period, price) =>
      var one, zero := InvoiceAmounts.Decimal(false, 1, 1), InvoiceAmounts.Decimal(false, 0, 1);
      CreateBillsOnce(b, customer, Some(s), dealer, Some(period),
                      [Item(SubscriptionItem, InvoiceAmounts.LineInput(one, price, zero, zero))]);
    case _ =>
      InvoiceCount(b, op);
      OnwardBilledOnce(b.invoices, Apply(b, op).books.invoices);
  }

  /** Only creations add an invoice. */
  lemma InvoiceCount(b: Books, op: Op)
    requires AllocatedNotVoid(b) && !op.CreateOp? && !op.BillOp? && Apply(b, op).Accepted?
    ensures |Apply(b, op).books.invoices| == |b.invoices|
  {
    hide Confirm, Refund, HasAllocation, AllocatedNotVoid, Billed;
    match op
    case ConfirmOp(p, shares, at) => ConfirmOnward(b, p, shares, at);
    case RefundOp(p, i, amount) => RefundOnward(b, p, i, amount);
    case _ =>
  }

  /** No accepted operation of the run creates an invoice by hand for a period that is then billed. */
  predicate RunBillsUnbilled(b: Books, ops: seq<Op>)
    decreases |ops|
  {
    ops == [] ||
    match Apply(b, ops[0])
    case Rejected(_) => RunBillsUnbilled(b, ops[1..])
    case Accepted(c) => BillsUnbilled(b, ops[0]) && RunBillsUnbilled(c, ops[1..])
  }

  /** Main theorem.  Over any run without such a creation, manual invoices for unbilled periods included,
      no subscription has two invoices for one period that are not void. */
  lemma {:induction false} RunBillsOnce(b: Books, ops: seq<Op>)
    requires Good(b) && BilledOnce(b.invoices) && RunBillsUnbilled(b, ops)
    ensures BilledOnce(Run(b, ops).invoices)
    decreases |ops|
  {
    hide Good, Apply, BilledOnce, AllocatedNotVoid, BillsUnbilled;
    if ops != [] {
      if Apply(b, ops[0]).Accepted? {
        GoodNotVoid(b);
        StepBilledOnce(b, ops[0]);
        StepKeeps(b, ops[0]);
        RunBillsOnce(Apply(b, ops[0]).books, ops[1..]);
      } else {
        RunBillsOnce(b, ops[1..]);
      }
    }
  }
}
