/** Concrete runs of the billing services after which a rule that one might expect does not hold. */
module BillingExamples {
  import opened Options
  import opened Decimals
  import opened CommissionRules
  import opened CommissionBounds
  import opened BillingBooks
  import opened Billing
  import opened BillingRuns
  import opened BillingInvoices
  import opened BillingRefunds
  import InvoiceAmounts

  // ----- A commission of one cent -----

  /** Half of every device sale of dealer 1. */
  const HALF: Rule := Rule(1, None, DeviceSale, Percentage, Some(500_000), None, None, None, None, 0, 0, None, ActiveRule)

  const ONE: InvoiceAmounts.Input := InvoiceAmounts.Decimal(false, 1, 1)

  const ZERO: InvoiceAmounts.Input := InvoiceAmounts.Decimal(false, 0, 1)

  const TWO_CENTS: InvoiceAmounts.Input := InvoiceAmounts.Decimal(false, 1, 50)

  /** One item at 0.02. */
  const ITEM: InvoiceAmounts.LineInput := InvoiceAmounts.LineInput(ONE, TWO_CENTS, ZERO, ZERO)

  const SALE: seq<Item> := [Item(DeviceSaleItem, ITEM)]

  /** A sale of 0.02 is invoiced, issued, paid, confirmed, and half of it refunded. */
  const HALF_REFUNDED: seq<Op> := [
    AddRuleOp(HALF), CreateOp(0, None, Some(1), None, SALE), IssueOp(0), PaymentOp(0, 2),
    ConfirmOp(0, [Share(0, 2)], 5), RefundOp(0, None, 1)]

  const SOLD: Invoice := Invoice(0, None, Some(1), None, [BilledLine(DeviceSaleItem, 2)], 2, 0, 2, Draft)

  const EARNED: Entry := Entry(1, 0, 0, 0, 0, 0, DeviceSale, 2, 1, Available, None)

  const INVOICED: Books := EMPTY_BOOKS.(rules := [HALF], invoices := [SOLD.(status := Issued)], payments := [Payment(0, 2, false, 0)])

  const PAID_BOOKS: Books := INVOICED.(
    invoices := [SOLD.(status := Paid, paid := 2, outstanding := 0)], payments := [Payment(0, 2, true, 0)],
    allocations := [Allocation(0, 0, 2)], entries := [EARNED],
    ledger := [LedgerRow(1, CommissionEarned, true, 1)])

  const REFUNDED_BOOKS: Books := PAID_BOOKS.(
    payments := [Payment(0, 2, true, 1)],
    entries := [EARNED, ReversalEntry(EARNED, 0, 1, Available)],
    ledger := PAID_BOOKS.ledger + [DebitRow(EARNED, 1)])

  /** A run with one more operation at its end. */
  lemma {:induction false} RunThen(b: Books, ops: seq<Op>, last: Op)
    ensures Run(b, ops + [last]) == (match Apply(Run(b, ops), last)
                                     case Rejected(_) => Run(b, ops)
                                     case Accepted(c) => c)
    decreases |ops|
  {
    hide Apply;
    if ops == [] {
      assert [] + [last] == [last];
    } else {
      assert (ops + [last])[1..] == ops[1..] + [last];
      RunThen(if Apply(b, ops[0]).Accepted? then Apply(b, ops[0]).books else b, ops[1..], last);
    }
  }

  lemma ItemAmounts()
    ensures InvoiceAmounts.InvoiceLine(ITEM) == InvoiceAmounts.Ok(InvoiceAmounts.Line(1000, 2, 2, 0, 0, 2))
  {
    assert InvoiceAmounts.ToPlaces(ONE, 1000) == 1000;
    assert InvoiceAmounts.ToPlaces(TWO_CENTS, 100) == 2;
    assert InvoiceAmounts.ToPlaces(ZERO, 100) == 0;
    assert InvoiceAmounts.Gross(1000, 2) == 2;
  }

  lemma SumTwo()
    ensures Sum([2]) == 2 && Sum([0]) == 0
  {
    assert [2][1..] == [] && [0][1..] == [];
  }

  /** What createRecord makes of one item. */
  lemma OneLine(inputs: seq<InvoiceAmounts.LineInput>)
    requires inputs == [ITEM]
    ensures InvoiceAmounts.CreateRecord(inputs) == InvoiceAmounts.Ok(InvoiceAmounts.Record(
              [InvoiceAmounts.Line(1000, 2, 2, 0, 0, 2)], InvoiceAmounts.Amounts(2, 0, 0, 2, 0, 2)))
  {
    var line := InvoiceAmounts.Line(1000, 2, 2, 0, 0, 2);
    ItemAmounts();
    hide InvoiceAmounts.InvoiceLine;
    assert InvoiceAmounts.CalculateLines(inputs[1..]) == InvoiceAmounts.Ok([]);
    assert [line] + [] == [line];
    assert InvoiceAmounts.CalculateLines(inputs) == InvoiceAmounts.Ok([line]);
    assert InvoiceAmounts.Column([line], (l: InvoiceAmounts.Line) => l.gross) == [2];
    assert InvoiceAmounts.Column([line], (l: InvoiceAmounts.Line) => l.discount) == [0];
    assert InvoiceAmounts.Column([line], (l: InvoiceAmounts.Line) => l.tax) == [0];
    SumTwo();
  }

  lemma SaleInvoice(customer: nat, subscription: Option<nat>, dealer: Option<DealerId>, period: Option<Period>, item: ItemType)
    ensures NewInvoice(customer, subscription, dealer, period, [Item(item, ITEM)])
            == InvoiceAmounts.Ok(Invoice(customer, subscription, dealer, period, [BilledLine(item, 2)], 2, 0, 2, Draft))
    ensures Storable([Item(item, ITEM)])
  {
    hide InvoiceAmounts.CreateRecord, InvoiceAmounts.InvoiceLine, InvoiceAmounts.CalculateLines, Sum;
    OneLine(Inputs([Item(item, ITEM)]));
    var r := NewInvoice(customer, subscription, dealer, period, [Item(item, ITEM)]);
    assert r.Ok? && r.value.lines == [BilledLine(item, 2)];
  }

  // ----- One operation at a time -----

  /** One operation of the run. */
  lemma RunTo(ops: seq<Op>, k: nat, b: Books, c: Books)
    requires k < |ops| && Run(EMPTY_BOOKS, ops[..k]) == b && Apply(b, ops[k]) == Accepted(c)
    ensures Run(EMPTY_BOOKS, ops[..k + 1]) == c
  {
    hide Apply, Run;
    assert ops[..k + 1] == ops[..k] + [ops[k]];
    RunThen(EMPTY_BOOKS, ops[..k], ops[k]);
  }

  const RULED: Books := EMPTY_BOOKS.(rules := [HALF])

  const DRAFTED: Books := RULED.(invoices := [SOLD])

  const ISSUED: Books := RULED.(invoices := [SOLD.(status := Issued)])

  lemma FirstOperations()
    ensures Apply(EMPTY_BOOKS, HALF_REFUNDED[0]) == Accepted(RULED)
    ensures Apply(RULED, HALF_REFUNDED[1]) == Accepted(DRAFTED)
  {
    hide NewInvoice, Storable;
    SaleInvoice(0, None, Some(1), None, DeviceSaleItem);
  }

  lemma NextOperations()
    ensures Apply(DRAFTED, HALF_REFUNDED[2]) == Accepted(ISSUED)
    ensures Apply(ISSUED, HALF_REFUNDED[3]) == Accepted(INVOICED)
  {
  }

  lemma Invoiced()
    ensures Run(EMPTY_BOOKS, HALF_REFUNDED[..4]) == INVOICED
  {
    hide Apply;
    assert HALF_REFUNDED[..0] == [];
    assert Run(EMPTY_BOOKS, []) == EMPTY_BOOKS;
    hide Run;
    FirstOperations();
    NextOperations();
    RunTo(HALF_REFUNDED, 0, EMPTY_BOOKS, RULED);
    RunTo(HALF_REFUNDED, 1, RULED, DRAFTED);
    RunTo(HALF_REFUNDED, 2, DRAFTED, ISSUED);
    RunTo(HALF_REFUNDED, 3, ISSUED, INVOICED);
  }

  lemma Amounts()
    ensures Ratio(2, 2) == RATIO_ONE && ShareOf(2, RATIO_ONE) == 2 && PercentageOf(2, 500_000) == 1
    ensures Ratio(1, 2) == 50_000_000 && ShareOf(1, 50_000_000) == 1
  {
    FullRefund(2, 2);
    RoundDivExact(50_000_000, 2);
  }

  lemma HalfDue(b: Books)
    requires b.rules == [HALF] && b.plans == map[] && |b.invoices| == 1 && b.invoices[0].lines == SOLD.lines
    requires b.invoices[0].dealer == Some(1) && b.invoices[0].subscription.None? && b.invoices[0].customer == 0
    ensures Due(b, 0, 0, 0, RATIO_ONE, 5) == Some(EARNED)
  {
    Amounts();
    hide ShareOf, PercentageOf, Ratio;
    assert BestRule([HALF], 1, None, DeviceSale, 5) == Some(0) by {
      assert Eligible([HALF][0], 1, None, DeviceSale, 5);
    }
    hide BestRule;
  }

  const CONFIRMED: Books := INVOICED.(payments := [Payment(0, 2, true, 0)])

  const ALLOCATED: Books := CONFIRMED.(invoices := PAID_BOOKS.invoices, allocations := PAID_BOOKS.allocations)

  lemma SaleEarned()
    ensures CreateForAllocation(ALLOCATED, 0, 0, 2, 5) == PAID_BOOKS
  {
    hide Due, Ratio, ShareOf, PercentageOf;
    HalfDue(ALLOCATED);
    Amounts();
    assert !Duplicate(ALLOCATED.entries, 0, 0, 0);
    assert EarnLines(ALLOCATED, 0, 0, RATIO_ONE, 5, 0) == ALLOCATED;
    assert EarnLines(ALLOCATED, 0, 0, RATIO_ONE, 5, 1) == PAID_BOOKS;
  }

  lemma SaleAllocated()
    ensures Allocatable(CONFIRMED, 0, Share(0, 2)) && PayInvoice(CONFIRMED, 0, Share(0, 2)) == ALLOCATED
  {
  }

  lemma SaleShares()
    ensures AllocateAll(CONFIRMED, 0, [Share(0, 2)], 5) == Accepted(PAID_BOOKS)
  {
    hide CreateForAllocation, PayInvoice, Allocatable;
    SaleEarned();
    SaleAllocated();
    assert [Share(0, 2)][..0] == [];
    assert AllocateAll(CONFIRMED, 0, [], 5) == Accepted(CONFIRMED);
  }

  lemma SaleConfirmed()
    ensures Confirm(INVOICED, 0, [Share(0, 2)], 5) == Accepted(PAID_BOOKS)
  {
    hide AllocateAll;
    SaleShares();
    var shares := [Share(0, 2)];
    assert shares[..0] == [];
    assert SharesTotal(shares) == 2;
    assert FirstError(INVOICED, 0, shares).None?;
    hide FirstError, SharesTotal;
    assert INVOICED.payments[0 := INVOICED.payments[0].(confirmed := true)] == CONFIRMED.payments;
    assert INVOICED.(payments := CONFIRMED.payments) == CONFIRMED;
  }

  lemma HalfReversed(b: Books)
    requires b.entries == [EARNED] && b.ledger == PAID_BOOKS.ledger
    ensures ReverseShare(b, 0, 50_000_000) == b.(entries := REFUNDED_BOOKS.entries, ledger := REFUNDED_BOOKS.ledger)
  {
    Amounts();
    hide ShareOf, Ratio;
  }

  lemma OneOriginal()
    ensures Originals([EARNED], 0) == [0]
  {
    assert [EARNED][..0] == [];
  }

  lemma HalfRefunded()
    ensures Refund(PAID_BOOKS, 0, None, 1) == Accepted(REFUNDED_BOOKS)
  {
    hide Ratio, ShareOf, Originals, ReverseShare;
    Amounts();
    OneOriginal();
    var b := PAID_BOOKS.(payments := [Payment(0, 2, true, 1)]);
    HalfReversed(b);
    assert [0][..0] == [];
    assert ReverseShares(b, [], 50_000_000) == b;
    assert ReverseShares(b, [0], 50_000_000) == REFUNDED_BOOKS;
    hide ReverseShares;
    assert PAID_BOOKS.payments[0 := PAID_BOOKS.payments[0].(refunded := 1)] == b.payments;
    assert PAID_BOOKS.(payments := b.payments) == b;
  }

  /** The books after half of the sale was refunded: the commission of 0.01 is taken back in full and
      can still be reversed. */
  lemma HalfRefundRun()
    ensures Run(EMPTY_BOOKS, HALF_REFUNDED) == REFUNDED_BOOKS
    ensures REFUNDED_BOOKS.entries[0].amount == 1 && ReversedTotal(REFUNDED_BOOKS.entries, 0) == 1
  {
    Invoiced();
    SaleConfirmed();
    HalfRefunded();
    hide Run, Confirm, Refund;
    RunTo(HALF_REFUNDED, 4, INVOICED, PAID_BOOKS);
    RunTo(HALF_REFUNDED, 5, PAID_BOOKS, REFUNDED_BOOKS);
    assert HALF_REFUNDED[..6] == HALF_REFUNDED;
    ReversedMore([EARNED], ReversalEntry(EARNED, 0, 1, Available), 0);
    ReversedMore([], EARNED, 0);
    assert [] + [EARNED] == [EARNED];
  }

  /** Two refunds of half a payment take back twice a commission of one cent. */
  lemma HalvesReverseTwice()
    ensures var b := Run(EMPTY_BOOKS, HALF_REFUNDED + [RefundOp(0, None, 1)]);
            && |b.entries| > 0 && b.entries[0].amount == 1
            && |b.payments| > 0 && b.payments[0].refunded == b.payments[0].amount
            && ReversedTotal(b.entries, 0) == 2
  {
    hide Run, Refund, ReversedTotal, Ratio, ShareOf;
    HalfRefundRun();
    RunThen(EMPTY_BOOKS, HALF_REFUNDED, RefundOp(0, None, 1));
    SecondHalf();
    RefundBooks(REFUNDED_BOOKS, 0, None, 1);
    RefundTakesBack(REFUNDED_BOOKS, 0, 1, 2, 0);
    Amounts();
  }

  lemma SecondHalf()
    ensures Refund(REFUNDED_BOOKS, 0, None, 1).Accepted?
  {
    hide ReverseForRefund;
  }

  /** Reversing by hand a commission that refunds have taken back takes it back twice. */
  lemma ReversedTooMuch()
    ensures var b := Run(EMPTY_BOOKS, HALF_REFUNDED + [ReverseOp(0)]);
            |b.entries| > 0 && b.entries[0].amount == 1 && ReversedTotal(b.entries, 0) == 2
  {
    hide Run, ReversedTotal, Reverse;
    HalfRefundRun();
    RunThen(EMPTY_BOOKS, HALF_REFUNDED, ReverseOp(0));
    ByHand();
  }

  lemma ByHand()
    ensures var o := Reverse(REFUNDED_BOOKS, 0);
            o.Accepted? && |o.books.entries| > 0 && o.books.entries[0].amount == REFUNDED_BOOKS.entries[0].amount
            && ReversedTotal(o.books.entries, 0) == ReversedTotal(REFUNDED_BOOKS.entries, 0) + 1
  {
    hide ReversedTotal;
    ReverseEntryTakesBackAll(REFUNDED_BOOKS, 0);
  }

  // ----- A period billed twice -----

  const FIRST_PERIOD: Period := Period(0, 30)

  const BILLED_TWICE: seq<Op> := [
    BillOp(0, 3, None, FIRST_PERIOD, TWO_CENTS),
    CreateOp(0, Some(3), None, Some(FIRST_PERIOD), [Item(SubscriptionItem, ITEM)])]

  const BILL: Invoice := Invoice(0, Some(3), None, Some(FIRST_PERIOD), [BilledLine(SubscriptionItem, 2)], 2, 0, 2, Draft)

  const BILLED_ONCE: Books := EMPTY_BOOKS.(invoices := [BILL])

  const BOTH_BILLED: Books := EMPTY_BOOKS.(invoices := [BILL, BILL])

  lemma Bills()
    ensures Apply(EMPTY_BOOKS, BILLED_TWICE[0]) == Accepted(BILLED_ONCE)
    ensures Apply(BILLED_ONCE, BILLED_TWICE[1]) == Accepted(BOTH_BILLED)
  {
    hide NewInvoice, Storable;
    SaleInvoice(0, Some(3), None, Some(FIRST_PERIOD), SubscriptionItem);
  }

  /** An invoice created by hand bills a period that the subscription was billed for. */
  lemma PeriodBilledTwice()
    ensures BilledOnce(Run(EMPTY_BOOKS, BILLED_TWICE[..1]).invoices)
    ensures !BilledOnce(Run(EMPTY_BOOKS, BILLED_TWICE).invoices)
  {
    hide Apply;
    assert BILLED_TWICE[..0] == [];
    assert Run(EMPTY_BOOKS, []) == EMPTY_BOOKS;
    hide Run;
    Bills();
    RunTo(BILLED_TWICE, 0, EMPTY_BOOKS, BILLED_ONCE);
    RunTo(BILLED_TWICE, 1, BILLED_ONCE, BOTH_BILLED);
    assert BILLED_TWICE[..2] == BILLED_TWICE;
    assert SameBill(BOTH_BILLED.invoices[0], BOTH_BILLED.invoices[1]);
  }
}
