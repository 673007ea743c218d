/** The operations of the billing services, as functions of the books. */
module Billing {
  import opened Options
  import opened Decimals
  import opened CommissionRules
  import opened BillingBooks
  import InvoiceAmounts

  datatype Error = NotFound | BadRequest | Conflict | RefusedByDatabase

  datatype Outcome = Accepted(books: Books) | Rejected(error: Error)

  // ----- Invoices (invoices.service.ts) -----

  datatype Item = Item(item: ItemType, input: InvoiceAmounts.LineInput)

  function Inputs(items: seq<Item>): (r: seq<InvoiceAmounts.LineInput>)
    ensures |r| == |items|
  {
    seq(|items|, k requires 0 <= k < |items| => items[k].input)
  }

  /** createRecord. */
  function NewInvoice(customer: nat, subscription: Option<nat>, dealer: Option<DealerId>, period: Option<Period>,
                      items: seq<Item>): InvoiceAmounts.Result<Invoice> {
    match InvoiceAmounts.CreateRecord(Inputs(items))
    case Rejected(e) => InvoiceAmounts.Rejected(e)
    case Ok(record) =>
      InvoiceAmounts.Ok(Invoice(
        customer, subscription, dealer, period,
        seq(|items|, k requires 0 <= k < |items| => BilledLine(items[k].item, record.lines[k].total)),
        record.amounts.total, record.amounts.paid, record.amounts.outstanding, Draft))
  }

  function CreateInvoice(b: Books, customer: nat, subscription: Option<nat>, dealer: Option<DealerId>,
                         period: Option<Period>, items: seq<Item>): Outcome {
    match NewInvoice(customer, subscription, dealer, period, items)
    case Rejected(_) => Rejected(BadRequest)
    case Ok(invoice) =>
      if !Storable(items) then Rejected(RefusedByDatabase)
      else Accepted(b.(invoices := b.invoices + [invoice]))
  }

  /** Every accepted line satisfies the constraint on stored lines. */
  predicate Storable(items: seq<Item>) {
    var record := InvoiceAmounts.CreateRecord(Inputs(items));
    record.Ok? ==> forall k :: 0 <= k < |record.value.lines| ==> InvoiceAmounts.LineConstraint(record.value.lines[k])
  }

  predicate Billed(invoices: seq<Invoice>, subscription: nat, period: Period) {
    exists j :: 0 <= j < |invoices| && invoices[j].subscription == Some(subscription)
                && invoices[j].period == Some(period) && invoices[j].status != Void
  }

  /** createFromSubscription: one unit of the plan at its base price, once per period. */
  function BillSubscription(b: Books, customer: nat, subscription: nat, dealer: Option<DealerId>, period: Period,
                            basePrice: InvoiceAmounts.Input): Outcome {
    if Billed(b.invoices, subscription, period) then Rejected(Conflict)
    else
      var one, zero := InvoiceAmounts.Decimal(false, 1, 1), InvoiceAmounts.Decimal(false, 0, 1);
      CreateInvoice(b, customer, Some(subscription), dealer, Some(period),
                    [Item(SubscriptionItem, InvoiceAmounts.LineInput(one, basePrice, zero, zero))])
  }

  function SetStatus(b: Books, i: nat, status: InvoiceStatus): Books
    requires i < |b.invoices|
  {
    b.(invoices := b.invoices[i := b.invoices[i].(status := status)])
  }

  function Issue(b: Books, i: nat): Outcome {
    if i >= |b.invoices| then Rejected(NotFound)
    else if b.invoices[i].status != Draft then Rejected(Conflict)
    else Accepted(SetStatus(b, i, Issued))
  }

  /** Whether any payment is allocated to the invoice. */
  predicate HasAllocation(allocations: seq<Allocation>, i: nat) {
    exists a :: 0 <= a < |allocations| && allocations[a].invoice == i
  }

  function VoidInvoice(b: Books, i: nat): Outcome {
    if i >= |b.invoices| then Rejected(NotFound)
    else if b.invoices[i].status in {Paid, Refunded} || HasAllocation(b.allocations, i) then Rejected(Conflict)
    else if b.invoices[i].status == Void then Rejected(Conflict)
    else Accepted(SetStatus(b, i, Void))
  }

  // ----- Payments (payments.service.ts and its database triggers) -----

  function AllocatedTo(allocations: seq<Allocation>, i: nat): int {
    if allocations == [] then 0
    else
      var a := allocations[|allocations| - 1];
      AllocatedTo(allocations[..|allocations| - 1], i) + (if a.invoice == i then a.amount else 0)
  }

  function AllocatedFrom(allocations: seq<Allocation>, p: nat): int {
    if allocations == [] then 0
    else
      var a := allocations[|allocations| - 1];
      AllocatedFrom(allocations[..|allocations| - 1], p) + (if a.payment == p then a.amount else 0)
  }

  datatype Share = Share(invoice: nat, amount: Cents)

  /** What the trigger on payment allocations writes to the invoice. */
  function PayInvoice(b: Books, p: nat, s: Share): Books
    requires s.invoice < |b.invoices|
  {
    var inv, paid := b.invoices[s.invoice], AllocatedTo(b.allocations, s.invoice) + s.amount;
    b.(invoices := b.invoices[s.invoice := inv.(paid := paid, outstanding := inv.total - paid,
                                                status := if paid == inv.total then Paid else PartiallyPaid)],
       allocations := b.allocations + [Allocation(p, s.invoice, s.amount)])
  }

  predicate Allocatable(b: Books, p: nat, s: Share) {
    && p < |b.payments| && s.invoice < |b.invoices| && s.amount > 0
    && AllocatedFrom(b.allocations, p) + s.amount <= b.payments[p].amount
    && AllocatedTo(b.allocations, s.invoice) + s.amount <= b.invoices[s.invoice].total
  }

  /** The loop of confirm over its allocations. */
  function AllocateAll(b: Books, p: nat, shares: seq<Share>, at: Time): Outcome
    decreases |shares|
  {
    if shares == [] then Accepted(b)
    else
      match AllocateAll(b, p, shares[..|shares| - 1], at)
      case Rejected(e) => Rejected(e)
      case Accepted(c) =>
        var s := shares[|shares| - 1];
        if !Allocatable(c, p, s) then Rejected(RefusedByDatabase)
        else Accepted(CreateForAllocation(PayInvoice(c, p, s), p, s.invoice, s.amount, at))
  }

  /** Why the invoice of a share cannot be paid by the payment, if it cannot. */
  function PayableError(b: Books, p: nat, s: Share): Option<Error>
    requires p < |b.payments| && s.invoice < |b.invoices|
  {
    if b.invoices[s.invoice].customer != b.payments[p].customer then Some(BadRequest)
    else if b.invoices[s.invoice].status !in {Issued, PartiallyPaid, Overdue} then Some(Conflict)
    else None
  }

  /** The first such reason. */
  function FirstError(b: Books, p: nat, shares: seq<Share>): (e: Option<Error>)
    requires p < |b.payments| && forall k :: 0 <= k < |shares| ==> shares[k].invoice < |b.invoices|
    ensures e.None? <==> forall k :: 0 <= k < |shares| ==> PayableError(b, p, shares[k]).None?
  {
    if shares == [] then None
    else
      assert forall k :: 0 < k < |shares| ==> shares[k] == shares[1..][k - 1];
      var e := PayableError(b, p, shares[0]);
      if e.Some? then e else FirstError(b, p, shares[1..])
  }

  function SharesTotal(shares: seq<Share>): int {
    if shares == [] then 0 else SharesTotal(shares[..|shares| - 1]) + shares[|shares| - 1].amount
  }

  function Confirm(b: Books, p: nat, shares: seq<Share>, at: Time): Outcome {
    if p >= |b.payments| then Rejected(NotFound)
    else if b.payments[p].confirmed then Rejected(Conflict)
    else if exists j, k :: 0 <= j < k < |shares| && shares[j].invoice == shares[k].invoice then Rejected(BadRequest)
    else if exists k :: 0 <= k < |shares| && shares[k].amount < 0 then Rejected(BadRequest)
    else if SharesTotal(shares) > b.payments[p].amount then Rejected(BadRequest)
    else if exists k :: 0 <= k < |shares| && shares[k].invoice >= |b.invoices| then Rejected(BadRequest)
    else if FirstError(b, p, shares).Some? then Rejected(FirstError(b, p, shares).value)
    else AllocateAll(b.(payments := b.payments[p := b.payments[p].(confirmed := true)]), p, shares, at)
  }

  predicate AllocatedBy(allocations: seq<Allocation>, p: nat, i: nat) {
    exists a :: 0 <= a < |allocations| && allocations[a].payment == p && allocations[a].invoice == i
  }

  /** A refund that is requested and completed. */
  function Refund(b: Books, p: nat, invoice: Option<nat>, amount: Cents): Outcome {
    if p >= |b.payments| then Rejected(NotFound)
    else if !b.payments[p].confirmed then Rejected(Conflict)
    else if invoice.Some? && !AllocatedBy(b.allocations, p, invoice.value) then Rejected(BadRequest)
    else if amount < 0 then Rejected(BadRequest)
    else if b.payments[p].refunded + amount > b.payments[p].amount then Rejected(BadRequest)
    else if amount == 0 then Rejected(RefusedByDatabase)
    else
      var payment := b.payments[p].(refunded := b.payments[p].refunded + amount);
      var c := b.(payments := b.payments[p := payment]);
      var full := invoice.Some? && invoice.value < |b.invoices| && payment.refunded >= payment.amount;
      Accepted(ReverseForRefund(if full then SetStatus(c, invoice.value, Refunded) else c, p, amount, payment.amount))
  }

  // ----- Commissions (commissions.service.ts) -----

  function Reverse(b: Books, id: nat): Outcome {
    if id >= |b.entries| then Rejected(NotFound)
    else if !CanReverse(b.entries[id]) then Rejected(Conflict)
    else Accepted(ReverseWhole(b, id))
  }

  /** Settlements move entries among statuses; nothing in the services cancels an entry. */
  function MarkEntries(b: Books, ids: set<nat>, status: EntryStatus): Books {
    b.(entries := seq(|b.entries|, n requires 0 <= n < |b.entries| =>
         if n in ids then b.entries[n].(status := status) else b.entries[n]))
  }

  // ----- Steps -----

  datatype Op =
    | CreateOp(customer: nat, subscription: Option<nat>, dealer: Option<DealerId>, period: Option<Period>, items: seq<Item>)
    | BillOp(customer: nat, subscribed: nat, dealer: Option<DealerId>, billed: Period, basePrice: InvoiceAmounts.Input)
    | IssueOp(invoice: nat)
    | VoidOp(invoice: nat)
    | OverdueOp(invoice: nat)
    | PaymentOp(customer: nat, amount: Cents)
    | ConfirmOp(payment: nat, shares: seq<Share>, at: Time)
    | RefundOp(payment: nat, refunded: Option<nat>, amount: Cents)
    | ReverseOp(id: nat)
    | MarkOp(ids: set<nat>, status: EntryStatus)
    | PayoutOp(payee: DealerId, credit: bool, amount: Cents)
    | AddRuleOp(rule: Rule)
    | ChangeRuleOp(changed: nat, rule: Rule)
    | PlanOp(subscribed: nat, plan: nat)

  function Apply(b: Books, op: Op): Outcome {
    match op
    case CreateOp(customer, subscription, dealer, period, items) => CreateInvoice(b, customer, subscription, dealer, period, items)
    case BillOp(customer, s, dealer, period, price) => BillSubscription(b, customer, s, dealer, period, price)
    case IssueOp(i) => Issue(b, i)
    case VoidOp(i) => VoidInvoice(b, i)
    case OverdueOp(i) =>
      if i < |b.invoices| && b.invoices[i].status in {Issued, PartiallyPaid} then Accepted(SetStatus(b, i, Overdue))
      else Rejected(Conflict)
    case PaymentOp(customer, amount) =>
      if amount < 0 then Rejected(BadRequest)
      else if amount == 0 then Rejected(RefusedByDatabase)
      else Accepted(b.(payments := b.payments + [Payment(customer, amount, false, 0)]))
    case ConfirmOp(p, shares, at) => Confirm(b, p, shares, at)
    case RefundOp(p, i, amount) => Refund(b, p, i, amount)
    case ReverseOp(id) => Reverse(b, id)
    case MarkOp(ids, status) => if status == Cancelled then Rejected(Conflict) else Accepted(MarkEntries(b, ids, status))
    case PayoutOp(d, credit, amount) => Accepted(b.(ledger := b.ledger + [LedgerRow(d, Payout, credit, amount)]))
    case AddRuleOp(rule) => Accepted(b.(rules := b.rules + [rule]))
    case ChangeRuleOp(r, rule) => if r < |b.rules| then Accepted(b.(rules := b.rules[r := rule])) else Rejected(NotFound)
    case PlanOp(s, plan) => Accepted(b.(plans := b.plans[s := plan]))
  }
}
