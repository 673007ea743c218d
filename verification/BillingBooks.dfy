/** The books of the billing services - invoices, payments, commission entries and the dealer ledger -
    and what the commission engine does to them.  The id of a row is its position. */
module BillingBooks {
  import opened Options
  import opened Decimals
  import opened CommissionRules
  import opened CommissionBounds

  datatype ItemType = DeviceSaleItem | InstallationItem | SubscriptionItem | ReplacementItem | AddOnItem | OtherItem

  datatype InvoiceStatus = Draft | Issued | PartiallyPaid | Paid | Overdue | Void | Refunded

  datatype BilledLine = BilledLine(item: ItemType, total: Cents)

  datatype Period = Period(start: Time, end: Time)

  datatype Invoice = Invoice(customer: nat, subscription: Option<nat>, dealer: Option<DealerId>, period: Option<Period>,
                             lines: seq<BilledLine>, total: Cents, paid: Cents, outstanding: Cents, status: InvoiceStatus)

  datatype Payment = Payment(customer: nat, amount: Cents, confirmed: bool, refunded: Cents)

  datatype Allocation = Allocation(payment: nat, invoice: nat, amount: Cents)

  datatype EntryStatus =
    | PendingEntry | EarnedEntry | OnHold | Available | SettlementPending | Settled | Reversed | Cancelled

  datatype Entry = Entry(dealer: DealerId, customer: nat, invoice: nat, line: nat, payment: nat, rule: nat,
                         transaction: TransactionType, base: Cents, amount: Cents, status: EntryStatus,
                         reversalOf: Option<nat>)

  datatype RowKind = CommissionEarned | CommissionReversal | Payout

  datatype LedgerRow = LedgerRow(dealer: DealerId, kind: RowKind, credit: bool, amount: Cents)

  /** plans maps a subscription to its service plan. */
  datatype Books = Books(plans: map<nat, nat>, rules: seq<Rule>, invoices: seq<Invoice>, payments: seq<Payment>,
                         allocations: seq<Allocation>, entries: seq<Entry>, ledger: seq<LedgerRow>)

  // ----- createForAllocation -----

  /** Whether the subscription has another invoice that is not void. */
  predicate OtherInvoice(invoices: seq<Invoice>, subscription: nat, i: nat) {
    exists j :: 0 <= j < |invoices| && j != i && invoices[j].subscription == Some(subscription) && invoices[j].status != Void
  }

  /** resolveTransactionType. */
  function ResolveType(invoices: seq<Invoice>, i: nat, item: ItemType): Option<TransactionType>
    requires i < |invoices|
  {
    match item
    case DeviceSaleItem => Some(DeviceSale)
    case InstallationItem => Some(Installing)
    case ReplacementItem => Some(Upgrade)
    case AddOnItem => Some(AddOnService)
    case SubscriptionItem =>
      if invoices[i].subscription.None? then None
      else if OtherInvoice(invoices, invoices[i].subscription.value, i) then Some(SubscriptionRenewal)
      else Some(InitialSubscription)
    case OtherItem => None
  }

  predicate OriginalFor(e: Entry, p: nat, i: nat, k: nat) {
    e.payment == p && e.invoice == i && e.line == k && e.reversalOf.None? && e.status != Cancelled
  }

  /** Whether the payment has already earned on the line. */
  predicate Duplicate(entries: seq<Entry>, p: nat, i: nat, k: nat) {
    exists n :: 0 <= n < |entries| && OriginalFor(entries[n], p, i, k)
  }

  function PlanOf(b: Books, inv: Invoice): Option<nat> {
    if inv.subscription.Some? && inv.subscription.value in b.plans then Some(b.plans[inv.subscription.value]) else None
  }

  /** The entry that a line earns if it has not earned yet. */
  function Due(b: Books, p: nat, i: nat, k: nat, ratio: int, at: Time): Option<Entry>
    requires i < |b.invoices| && k < |b.invoices[i].lines| && b.invoices[i].dealer.Some?
  {
    var inv := b.invoices[i];
    var transaction := ResolveType(b.invoices, i, inv.lines[k].item);
    if transaction.None? then None
    else
      var rule := FindRule(b.rules, inv.dealer.value, PlanOf(b, inv), transaction.value, at);
      if rule.None? || b.rules[rule.value].calculation == NoCalculation then None
      else
        var base := ShareOf(inv.lines[k].total, ratio);
        if base <= 0 then None
        else
          var amount := Calculate(b.rules[rule.value], base, ratio);
          if amount <= 0 then None
          else Some(Entry(inv.dealer.value, inv.customer, i, k, p, rule.value, transaction.value, base, amount, Available, None))
  }

  function Post(b: Books, e: Entry): Books {
    b.(entries := b.entries + [e], ledger := b.ledger + [LedgerRow(e.dealer, CommissionEarned, true, e.amount)])
  }

  /** The first n rounds of the loop over the lines. */
  function EarnLines(b: Books, p: nat, i: nat, ratio: int, at: Time, n: nat): (r: Books)
    requires i < |b.invoices| && n <= |b.invoices[i].lines| && b.invoices[i].dealer.Some?
    ensures r == b.(entries := r.entries, ledger := r.ledger)
  {
    if n == 0 then b
    else
      var c := EarnLines(b, p, i, ratio, at, n - 1);
      var due := Due(c, p, i, n - 1, ratio, at);
      if due.None? || Duplicate(c.entries, p, i, n - 1) then c else Post(c, due.value)
  }

  function CreateForAllocation(b: Books, p: nat, i: nat, amount: Cents, at: Time): Books {
    if i >= |b.invoices| || b.invoices[i].dealer.None? || b.invoices[i].total <= 0 then b
    else EarnLines(b, p, i, Ratio(amount, b.invoices[i].total), at, |b.invoices[i].lines|)
  }

  // ----- reverseForRefund and reverseEntry -----

  predicate Reversible(e: Entry, p: nat) {
    e.payment == p && e.reversalOf.None? && e.amount > 0 && e.status !in {Cancelled, Reversed}
  }

  /** The entries that a refund of a payment reverses. */
  function Originals(entries: seq<Entry>, p: nat): (r: seq<nat>)
    ensures forall k :: 0 <= k < |r| ==> r[k] < |entries| && Reversible(entries[r[k]], p)
    ensures forall n :: 0 <= n < |entries| && Reversible(entries[n], p) ==> n in r
    ensures forall j, k :: 0 <= j < k < |r| ==> r[j] < r[k]
  {
    if entries == [] then []
    else
      var n := |entries| - 1;
      var init := Originals(entries[..n], p);
      if Reversible(entries[n], p) then init + [n] else init
  }

  function ReversalEntry(o: Entry, id: nat, amount: Cents, status: EntryStatus): Entry {
    o.(amount := -amount, status := status, reversalOf := Some(id))
  }

  function DebitRow(o: Entry, amount: Cents): LedgerRow {
    LedgerRow(o.dealer, CommissionReversal, false, amount)
  }

  /** Reverses a share of one entry.  Only a full refund of an AVAILABLE entry marks both REVERSED. */
  function ReverseShare(b: Books, id: nat, ratio: int): Books
    requires id < |b.entries|
  {
    var o := b.entries[id];
    var amount := ShareOf(o.amount, ratio);
    if amount <= 0 then b
    else
      var marked := ratio >= RATIO_ONE && o.status == Available;
      b.(entries := b.entries[id := if marked then o.(status := Reversed) else o]
                    + [ReversalEntry(o, id, amount, if marked then Reversed else Available)],
         ledger := b.ledger + [DebitRow(o, amount)])
  }

  function ReverseShares(b: Books, ids: seq<nat>, ratio: int): (r: Books)
    requires forall k :: 0 <= k < |ids| ==> ids[k] < |b.entries|
    ensures |r.entries| >= |b.entries|
    ensures r == b.(entries := r.entries, ledger := r.ledger)
    decreases |ids|
  {
    if ids == [] then b else ReverseShare(ReverseShares(b, ids[..|ids| - 1], ratio), ids[|ids| - 1], ratio)
  }

  function ReverseForRefund(b: Books, p: nat, refund: Cents, payment: Cents): Books {
    if payment <= 0 then b else ReverseShares(b, Originals(b.entries, p), Ratio(refund, payment))
  }

  predicate CanReverse(e: Entry) { e.reversalOf.None? && e.amount > 0 && e.status !in {Reversed, Cancelled} }

  /** reverseEntry, for an entry that may be reversed: the full amount, whatever was reversed before. */
  function ReverseWhole(b: Books, id: nat): Books
    requires id < |b.entries|
  {
    var o := b.entries[id];
    b.(entries := b.entries[id := if o.status == Available then o.(status := Reversed) else o]
                  + [ReversalEntry(o, id, o.amount, Reversed)],
       ledger := b.ledger + [DebitRow(o, o.amount)])
  }

  // ----- Balances -----

  function Signed(r: LedgerRow): int { if r.credit then r.amount else -r.amount }

  /** ledger: the dealer's credits less its debits. */
  function Balance(ledger: seq<LedgerRow>, d: DealerId): int {
    if ledger == [] then 0
    else Balance(ledger[..|ledger| - 1], d) + (if ledger[|ledger| - 1].dealer == d then Signed(ledger[|ledger| - 1]) else 0)
  }

  /** The same over the rows that are not payouts. */
  function CommissionBalance(ledger: seq<LedgerRow>, d: DealerId): int {
    if ledger == [] then 0
    else
      var r := ledger[|ledger| - 1];
      CommissionBalance(ledger[..|ledger| - 1], d) + (if r.dealer == d && r.kind != Payout then Signed(r) else 0)
  }

  function Payouts(ledger: seq<LedgerRow>, d: DealerId): int {
    if ledger == [] then 0
    else
      var r := ledger[|ledger| - 1];
      Payouts(ledger[..|ledger| - 1], d) + (if r.dealer == d && r.kind == Payout then -Signed(r) else 0)
  }

  function EntryTotal(entries: seq<Entry>, d: DealerId): int {
    if entries == [] then 0
    else EntryTotal(entries[..|entries| - 1], d) + (if entries[|entries| - 1].dealer == d then entries[|entries| - 1].amount else 0)
  }
}
