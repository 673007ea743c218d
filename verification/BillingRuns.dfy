/** What every billing operation keeps, over any run. */
module BillingRuns {
  import opened Options
  import opened Decimals
  import opened CommissionRules
  import opened CommissionBounds
  import opened BillingBooks
  import opened BillingEngine
  import opened Billing
  import InvoiceAmounts

  // ----- Invariants -----

  predicate Original(e: Entry) { e.reversalOf.None? }

  /** Entries refer to lines of invoices of their dealer and customer; originals are positive and never
      cancelled; reversals are negative and repeat what they reverse. */
  ghost predicate EntryInPlace(e: Entry, entries: seq<Entry>, invoices: seq<Invoice>) {
    && e.invoice < |invoices| && e.line < |invoices[e.invoice].lines|
    && Some(e.dealer) == invoices[e.invoice].dealer && e.customer == invoices[e.invoice].customer
    && e.status != Cancelled
    && (Original(e) ==> e.amount > 0)
    && (!Original(e) ==>
          && e.amount < 0 && e.reversalOf.value < |entries|
          && var o := entries[e.reversalOf.value];
             Original(o) && o.dealer == e.dealer && o.payment == e.payment && o.invoice == e.invoice && o.line == e.line
             && o.transaction == e.transaction && -e.amount <= o.amount)
  }

  ghost predicate EntriesInPlace(b: Books) {
    forall n :: 0 <= n < |b.entries| ==> EntryInPlace(b.entries[n], b.entries, b.invoices)
  }

  predicate SameEarning(e: Entry, f: Entry) {
    Original(e) && Original(f) && e.payment == f.payment && e.invoice == f.invoice && e.line == f.line
  }

  /** No payment earns twice on a line. */
  ghost predicate EarnedOnce(entries: seq<Entry>) {
    forall m, n :: 0 <= m < n < |entries| ==> !SameEarning(entries[m], entries[n])
  }

  /** Commission is earned only on invoices with allocations. */
  ghost predicate EarnedOnAllocated(b: Books) {
    forall n :: 0 <= n < |b.entries| && Original(b.entries[n]) ==> HasAllocation(b.allocations, b.entries[n].invoice)
  }

  /** Allocated invoices are not void. */
  ghost predicate AllocatedNotVoid(b: Books) {
    forall i :: 0 <= i < |b.invoices| && HasAllocation(b.allocations, i) ==> b.invoices[i].status != Void
  }

  predicate Initial(e: Entry) { Original(e) && e.transaction == InitialSubscription }

  /** One invoice of a subscription at most has earned INITIAL_SUBSCRIPTION. */
  ghost predicate InitialOnce(b: Books) {
    forall m, n :: 0 <= m < n < |b.entries| && Initial(b.entries[m]) && Initial(b.entries[n]) ==>
      SameInitial(b.entries[m], b.entries[n], b.invoices)
  }

  ghost predicate SameInitial(e: Entry, f: Entry, invoices: seq<Invoice>) {
    e.invoice < |invoices| && f.invoice < |invoices| &&
    (invoices[e.invoice].subscription == invoices[f.invoice].subscription ==> e.invoice == f.invoice)
  }

  ghost predicate Inv(b: Books) {
    && EntriesInPlace(b) && EarnedOnce(b.entries) && EarnedOnAllocated(b) && AllocatedNotVoid(b) && InitialOnce(b)
    && Balanced(b)
  }

  // ----- Entries that only change status, and new reversals -----

  ghost predicate SameButStatus(e: Entry, f: Entry) { f == e.(status := f.status) && f.status != Cancelled }

  /** Old entries keep everything but their status, and new ones are reversals of old originals. */
  ghost predicate Follows(was: seq<Entry>, now: seq<Entry>) {
    && |was| <= |now|
    && (forall n :: 0 <= n < |was| ==> SameButStatus(was[n], now[n]))
    && (forall n :: |was| <= n < |now| ==> ReversesOne(now[n], was))
  }

  ghost predicate ReversesOne(e: Entry, was: seq<Entry>) {
    && !Original(e) && e.reversalOf.value < |was| && Original(was[e.reversalOf.value]) && e.status != Cancelled
    && e.amount < 0 && -e.amount <= was[e.reversalOf.value].amount
    && var o := was[e.reversalOf.value];
       e == o.(amount := e.amount, status := e.status, reversalOf := e.reversalOf)
  }

  lemma FollowsKeeps(b: Books, c: Books)
    requires Follows(b.entries, c.entries) && c.invoices == b.invoices && c.allocations == b.allocations
    requires EntriesInPlace(b) && EarnedOnce(b.entries) && EarnedOnAllocated(b) && AllocatedNotVoid(b) && InitialOnce(b)
    ensures EntriesInPlace(c) && EarnedOnce(c.entries) && EarnedOnAllocated(c) && AllocatedNotVoid(c) && InitialOnce(c)
  {
    hide HasAllocation;
    assert forall n :: 0 <= n < |c.entries| && Original(c.entries[n]) ==> n < |b.entries|;
    PlaceFollows(b, c);
    assert EarnedOnce(c.entries) by {
      forall m, n | 0 <= m < n < |c.entries|
        ensures !SameEarning(c.entries[m], c.entries[n])
      {
        if n < |b.entries| {
          assert !SameEarning(b.entries[m], b.entries[n]);
        }
      }
    }
    assert InitialOnce(c) by {
      forall m, n | 0 <= m < n < |c.entries| && Initial(c.entries[m]) && Initial(c.entries[n])
        ensures SameInitial(c.entries[m], c.entries[n], c.invoices)
      {
        assert SameInitial(b.entries[m], b.entries[n], b.invoices);
      }
    }
  }

  lemma PlaceFollows(b: Books, c: Books)
    requires Follows(b.entries, c.entries) && c.invoices == b.invoices && EntriesInPlace(b)
    ensures EntriesInPlace(c)
  {
    forall n | 0 <= n < |c.entries|
      ensures EntryInPlace(c.entries[n], c.entries, c.invoices)
    {
      if n < |b.entries| {
        assert SameButStatus(b.entries[n], c.entries[n]);
        assert EntryInPlace(b.entries[n], b.entries, b.invoices);
      } else {
        assert ReversesOne(c.entries[n], b.entries);
        assert EntryInPlace(b.entries[c.entries[n].reversalOf.value], b.entries, b.invoices);
      }
    }
  }

  lemma FollowsTwice(a: seq<Entry>, b: seq<Entry>, c: seq<Entry>)
    requires Follows(a, b) && |b| <= |c|
    requires forall n :: 0 <= n < |b| ==> SameButStatus(b[n], c[n])
    requires forall n :: |b| <= n < |c| ==> ReversesOne(c[n], b) && c[n].reversalOf.value < |a|
    ensures Follows(a, c)
  {
    forall n | |a| <= n < |c|
      ensures ReversesOne(c[n], a)
    {
      if n < |b| {
        assert ReversesOne(b[n], a);
      } else {
        assert SameButStatus(a[c[n].reversalOf.value], b[c[n].reversalOf.value]);
      }
    }
  }

  lemma FollowsSelf(entries: seq<Entry>)
    requires forall n :: 0 <= n < |entries| ==> entries[n].status != Cancelled
    ensures Follows(entries, entries)
  {
  }

  /** A share of at most one is at most the whole. */
  lemma ShareAtMost(c: Cents, ratio: int)
    requires c >= 0 && ratio <= RATIO_ONE
    ensures ShareOf(c, ratio) <= c
  {
    assert c * (RATIO_ONE - ratio) >= 0;
    RoundDivAtMost(c * ratio, RATIO_ONE, c);
  }

  lemma {:induction false} SharesFollow(b: Books, ids: seq<nat>, ratio: int)
    requires forall n :: 0 <= n < |b.entries| ==> b.entries[n].status != Cancelled
    requires forall k :: 0 <= k < |ids| ==> ids[k] < |b.entries| && Original(b.entries[ids[k]]) && b.entries[ids[k]].amount > 0
    requires ratio <= RATIO_ONE
    ensures Follows(b.entries, ReverseShares(b, ids, ratio).entries)
    decreases |ids|
  {
    if ids == [] {
      FollowsSelf(b.entries);
    } else {
      var init, id := ids[..|ids| - 1], ids[|ids| - 1];
      SharesFollow(b, init, ratio);
      var m := ReverseShares(b, init, ratio);
      assert SameButStatus(b.entries[id], m.entries[id]);
      ShareAtMost(m.entries[id].amount, ratio);
      hide ShareOf;
      FollowsTwice(b.entries, m.entries, ReverseShare(m, id, ratio).entries);
    }
  }

  lemma WholeFollows(b: Books, id: nat)
    requires forall n :: 0 <= n < |b.entries| ==> b.entries[n].status != Cancelled
    requires id < |b.entries| && CanReverse(b.entries[id])
    ensures Follows(b.entries, ReverseWhole(b, id).entries)
  {
  }

  lemma MarkFollows(b: Books, ids: set<nat>, status: EntryStatus)
    requires forall n :: 0 <= n < |b.entries| ==> b.entries[n].status != Cancelled
    requires status != Cancelled
    ensures Follows(b.entries, MarkEntries(b, ids, status).entries)
    ensures Balanced(b) ==> Balanced(MarkEntries(b, ids, status))
  {
    if Balanced(b) {
      forall d
        ensures EntryTotal(MarkEntries(b, ids, status).entries, d) == EntryTotal(b.entries, d)
      {
        SameTotals(b.entries, MarkEntries(b, ids, status).entries, d);
      }
    }
  }

  // ----- Earning -----

  /** New entries of one call are due, for lines that had not earned. */
  lemma {:induction false} EarnKeeps(b: Books, p: nat, i: nat, ratio: int, at: Time, n: nat)
    requires i < |b.invoices| && n <= |b.invoices[i].lines| && b.invoices[i].dealer.Some?
    requires EntriesInPlace(b) && EarnedOnce(b.entries) && EarnedOnAllocated(b) && AllocatedNotVoid(b) && InitialOnce(b)
    requires HasAllocation(b.allocations, i)
    ensures var c := EarnLines(b, p, i, ratio, at, n);
            EntriesInPlace(c) && EarnedOnce(c.entries) && EarnedOnAllocated(c) && AllocatedNotVoid(c) && InitialOnce(c)
  {
    hide EntriesInPlace, EarnedOnce, EarnedOnAllocated, AllocatedNotVoid, InitialOnce, HasAllocation, Due, Duplicate, Post;
    if n > 0 {
      EarnKeeps(b, p, i, ratio, at, n - 1);
      var c := EarnLines(b, p, i, ratio, at, n - 1);
      var due := Due(c, p, i, n - 1, ratio, at);
      if due.Some? && !Duplicate(c.entries, p, i, n - 1) {
        DueNames(c, p, i, n - 1, ratio, at);
        PostKeeps(c, due.value, p, i, n - 1);
      }
    }
  }

  lemma PostKeeps(b: Books, e: Entry, p: nat, i: nat, k: nat)
    requires EntriesInPlace(b) && EarnedOnce(b.entries) && EarnedOnAllocated(b) && AllocatedNotVoid(b) && InitialOnce(b)
    requires i < |b.invoices| && k < |b.invoices[i].lines| && HasAllocation(b.allocations, i)
    requires OriginalFor(e, p, i, k) && !Duplicate(b.entries, p, i, k)
    requires Some(e.dealer) == b.invoices[i].dealer && e.customer == b.invoices[i].customer && e.amount > 0
    requires ResolveType(b.invoices, i, b.invoices[i].lines[k].item) == Some(e.transaction)
    ensures var c := Post(b, e);
            EntriesInPlace(c) && EarnedOnce(c.entries) && EarnedOnAllocated(c) && AllocatedNotVoid(c) && InitialOnce(c)
  {
    var c := Post(b, e);
    PostInPlace(b, e);
    PostOnce(b, e, p, i, k);
    PostInitial(b, e, i, k);
    hide HasAllocation, EarnedOnce, InitialOnce, EntriesInPlace;
    assert forall n :: 0 <= n < |b.entries| ==> c.entries[n] == b.entries[n];
  }

  lemma PostInPlace(b: Books, e: Entry)
    requires EntriesInPlace(b) && EntryInPlace(e, b.entries, b.invoices)
    ensures EntriesInPlace(Post(b, e))
  {
    var c := Post(b, e);
    forall n | 0 <= n < |c.entries|
      ensures EntryInPlace(c.entries[n], c.entries, c.invoices)
    {
      assert EntryInPlace(c.entries[n], b.entries, b.invoices);
    }
  }

  lemma PostOnce(b: Books, e: Entry, p: nat, i: nat, k: nat)
    requires EntriesInPlace(b) && EarnedOnce(b.entries) && OriginalFor(e, p, i, k) && !Duplicate(b.entries, p, i, k)
    ensures EarnedOnce(Post(b, e).entries)
  {
    var c := Post(b, e);
    forall m, n | 0 <= m < n < |c.entries|
      ensures !SameEarning(c.entries[m], c.entries[n])
    {
      assert EntryInPlace(b.entries[m], b.entries, b.invoices);
      if n < |b.entries| {
        assert !SameEarning(b.entries[m], b.entries[n]);
      } else {
        assert !OriginalFor(b.entries[m], p, i, k);
      }
    }
  }

  /** An invoice that earned INITIAL_SUBSCRIPTION is allocated, so it is not void, so no other
      invoice of its subscription resolves to INITIAL_SUBSCRIPTION again. */
  lemma PostInitial(b: Books, e: Entry, i: nat, k: nat)
    requires EntriesInPlace(b) && EarnedOnAllocated(b) && AllocatedNotVoid(b) && InitialOnce(b)
    requires i < |b.invoices| && k < |b.invoices[i].lines| && e.invoice == i
    requires ResolveType(b.invoices, i, b.invoices[i].lines[k].item) == Some(e.transaction)
    ensures InitialOnce(Post(b, e))
  {
    hide HasAllocation;
    var c := Post(b, e);
    forall m, n | 0 <= m < n < |c.entries| && Initial(c.entries[m]) && Initial(c.entries[n])
      ensures SameInitial(c.entries[m], c.entries[n], c.invoices)
    {
      var f := b.entries[m];
      assert EntryInPlace(f, b.entries, b.invoices);
      if n < |b.entries| {
        assert SameInitial(b.entries[m], b.entries[n], b.invoices);
      } else {
        assert b.invoices[f.invoice].status != Void;
        assert !OtherInvoice(b.invoices, b.invoices[i].subscription.value, i);
      }
    }
  }

  // ----- Invoices and payments -----

  /** Everything but the payment state of an invoice stays. */
  ghost predicate SameDocument(x: Invoice, y: Invoice) {
    y == x.(paid := y.paid, outstanding := y.outstanding, status := y.status)
  }

  ghost predicate MoreAllocations(was: seq<Allocation>, now: seq<Allocation>) {
    |was| <= |now| && forall a :: 0 <= a < |was| ==> now[a] == was[a]
  }

  lemma StillAllocated(was: seq<Allocation>, now: seq<Allocation>, i: nat)
    requires MoreAllocations(was, now) && HasAllocation(was, i)
    ensures HasAllocation(now, i)
  {
    var a :| 0 <= a < |was| && was[a].invoice == i;
    assert now[a].invoice == i;
  }

  lemma DocumentsKeep(b: Books, c: Books)
    requires c.entries == b.entries && |b.invoices| <= |c.invoices| && MoreAllocations(b.allocations, c.allocations)
    requires forall i :: 0 <= i < |b.invoices| ==> SameDocument(b.invoices[i], c.invoices[i])
    requires EntriesInPlace(b) && EarnedOnAllocated(b) && InitialOnce(b)
    ensures EntriesInPlace(c) && EarnedOnAllocated(c) && InitialOnce(c)
  {
    forall n | 0 <= n < |b.entries|
      ensures EntryInPlace(c.entries[n], c.entries, c.invoices)
      ensures Original(b.entries[n]) ==> HasAllocation(c.allocations, b.entries[n].invoice)
    {
      assert EntryInPlace(b.entries[n], b.entries, b.invoices);
      assert SameDocument(b.invoices[b.entries[n].invoice], c.invoices[b.entries[n].invoice]);
      if Original(b.entries[n]) {
        StillAllocated(b.allocations, c.allocations, b.entries[n].invoice);
      }
    }
    forall m, n | 0 <= m < n < |b.entries| && Initial(b.entries[m]) && Initial(b.entries[n])
      ensures SameInitial(b.entries[m], b.entries[n], c.invoices)
    {
      assert SameInitial(b.entries[m], b.entries[n], b.invoices);
      assert SameDocument(b.invoices[b.entries[m].invoice], c.invoices[b.entries[m].invoice]);
      assert SameDocument(b.invoices[b.entries[n].invoice], c.invoices[b.entries[n].invoice]);
    }
  }

  /** An invoice is paid exactly what is allocated to it, never more than its total, and its total is
      the sum of its lines. */
  ghost predicate InvoiceFunded(inv: Invoice, i: nat, allocations: seq<Allocation>) {
    && inv.total == Sum(Totals(inv.lines)) && (forall k :: 0 <= k < |inv.lines| ==> inv.lines[k].total >= 0)
    && inv.paid == AllocatedTo(allocations, i) && 0 <= inv.paid <= inv.total && inv.paid + inv.outstanding == inv.total
  }

  /** A payment never funds more than its amount, and refunds less or as much. */
  ghost predicate PaymentFunds(pay: Payment, p: nat, allocations: seq<Allocation>) {
    && 0 <= pay.refunded <= pay.amount && AllocatedFrom(allocations, p) <= pay.amount
    && (!pay.confirmed ==> pay.refunded == 0)
  }

  ghost predicate Funded(b: Books) {
    && (forall i :: 0 <= i < |b.invoices| ==> InvoiceFunded(b.invoices[i], i, b.allocations))
    && (forall p :: 0 <= p < |b.payments| ==> PaymentFunds(b.payments[p], p, b.allocations))
    && (forall a :: 0 <= a < |b.allocations| ==>
          b.allocations[a].payment < |b.payments| && b.allocations[a].invoice < |b.invoices| && b.allocations[a].amount > 0)
  }

  lemma AllocateMore(allocations: seq<Allocation>, a: Allocation, i: nat)
    ensures AllocatedTo(allocations + [a], i) == AllocatedTo(allocations, i) + (if a.invoice == i then a.amount else 0)
    ensures AllocatedFrom(allocations + [a], i) == AllocatedFrom(allocations, i) + (if a.payment == i then a.amount else 0)
  {
    assert (allocations + [a])[..|allocations|] == allocations;
  }

  lemma {:induction false} NoAllocation(allocations: seq<Allocation>, i: nat)
    requires forall a :: 0 <= a < |allocations| ==> allocations[a].invoice != i
    ensures AllocatedTo(allocations, i) == 0
  {
    if allocations != [] {
      NoAllocation(allocations[..|allocations| - 1], i);
    }
  }

  lemma {:induction false} NoPayment(allocations: seq<Allocation>, p: nat)
    requires forall a :: 0 <= a < |allocations| ==> allocations[a].payment != p
    ensures AllocatedFrom(allocations, p) == 0
  {
    if allocations != [] {
      NoPayment(allocations[..|allocations| - 1], p);
    }
  }

  lemma {:induction false} PositiveAllocated(allocations: seq<Allocation>, i: nat)
    requires forall a :: 0 <= a < |allocations| ==> allocations[a].amount > 0
    ensures AllocatedTo(allocations, i) >= 0
  {
    if allocations != [] {
      PositiveAllocated(allocations[..|allocations| - 1], i);
    }
  }

  ghost predicate Good(b: Books) { Inv(b) && Funded(b) }

  lemma NewInvoiceFunded(customer: nat, subscription: Option<nat>, dealer: Option<DealerId>, period: Option<Period>,
                         items: seq<Item>)
    ensures var r := NewInvoice(customer, subscription, dealer, period, items);
            r.Ok? ==> && r.value.total == Sum(Totals(r.value.lines)) && r.value.paid == 0
                      && r.value.outstanding == r.value.total && 0 <= r.value.total
                      && forall k :: 0 <= k < |r.value.lines| ==> r.value.lines[k].total >= 0
  {
    var record := InvoiceAmounts.CreateRecord(Inputs(items));
    InvoiceAmounts.InvoiceTotals(Inputs(items));
    if record.Ok? {
      LinesAccepted(Inputs(items));
      var inv := NewInvoice(customer, subscription, dealer, period, items).value;
      assert Totals(inv.lines) == InvoiceAmounts.Column(record.value.lines, (l: InvoiceAmounts.Line) => l.total);
    }
  }

  lemma LinesAccepted(inputs: seq<InvoiceAmounts.LineInput>)
    requires InvoiceAmounts.CreateRecord(inputs).Ok?
    ensures forall k :: 0 <= k < |inputs| ==> InvoiceAmounts.CreateRecord(inputs).value.lines[k].total >= 0
  {
    var lines := InvoiceAmounts.CalculateLines(inputs).value;
    forall k | 0 <= k < |inputs|
      ensures lines[k].total >= 0
    {
      assert InvoiceAmounts.InvoiceLine(inputs[k]) == InvoiceAmounts.Ok(lines[k]);
    }
  }

  lemma CreateKeeps(b: Books, customer: nat, subscription: Option<nat>, dealer: Option<DealerId>, period: Option<Period>,
                    items: seq<Item>)
    requires Good(b) && CreateInvoice(b, customer, subscription, dealer, period, items).Accepted?
    ensures Good(CreateInvoice(b, customer, subscription, dealer, period, items).books)
  {
    hide NewInvoice, Storable;
    var c := CreateInvoice(b, customer, subscription, dealer, period, items).books;
    NewInvoiceFunded(customer, subscription, dealer, period, items);
    NoAllocation(b.allocations, |b.invoices|);
    DocumentsKeep(b, c);
    hide EntriesInPlace, EarnedOnAllocated, InitialOnce, Totals, Sum;
    assert forall i :: 0 <= i < |b.invoices| ==> c.invoices[i] == b.invoices[i];
    assert AllocatedNotVoid(c);
    assert Funded(c);
  }

  lemma StatusKeeps(b: Books, i: nat, status: InvoiceStatus)
    requires Good(b) && i < |b.invoices| && (status == Void ==> !HasAllocation(b.allocations, i))
    ensures Good(SetStatus(b, i, status))
  {
    var c := SetStatus(b, i, status);
    DocumentsKeep(b, c);
    hide EntriesInPlace, EarnedOnAllocated, InitialOnce, HasAllocation;
    assert AllocatedNotVoid(c);
    assert forall j :: 0 <= j < |b.invoices| ==> InvoiceFunded(b.invoices[j], j, b.allocations);
    assert Funded(c);
  }

  lemma PayKeeps(b: Books, p: nat, s: Share)
    requires Good(b) && Allocatable(b, p, s)
    ensures Good(PayInvoice(b, p, s)) && HasAllocation(PayInvoice(b, p, s).allocations, s.invoice)
  {
    var c := PayInvoice(b, p, s);
    assert c.allocations[|b.allocations|].invoice == s.invoice;
    assert MoreAllocations(b.allocations, c.allocations);
    PayDocuments(b, p, s);
    DocumentsKeep(b, c);
    hide EntriesInPlace, EarnedOnAllocated, InitialOnce;
    PayNotVoid(b, p, s);
    PayFunded(b, p, s);
  }

  lemma PayDocuments(b: Books, p: nat, s: Share)
    requires s.invoice < |b.invoices|
    ensures forall i :: 0 <= i < |b.invoices| ==> SameDocument(b.invoices[i], PayInvoice(b, p, s).invoices[i])
  {
  }

  lemma PayNotVoid(b: Books, p: nat, s: Share)
    requires AllocatedNotVoid(b) && s.invoice < |b.invoices|
    ensures AllocatedNotVoid(PayInvoice(b, p, s))
  {
    var c := PayInvoice(b, p, s);
    forall i | 0 <= i < |c.invoices| && HasAllocation(c.allocations, i)
      ensures c.invoices[i].status != Void
    {
      var a :| 0 <= a < |c.allocations| && c.allocations[a].invoice == i;
      if a < |b.allocations| {
        assert HasAllocation(b.allocations, i);
      }
    }
  }

  lemma PayFunded(b: Books, p: nat, s: Share)
    requires Funded(b) && Allocatable(b, p, s)
    ensures Funded(PayInvoice(b, p, s))
  {
    hide AllocatedTo, AllocatedFrom, InvoiceFunded, PaymentFunds;
    var c, a := PayInvoice(b, p, s), Allocation(p, s.invoice, s.amount);
    PositiveAllocated(b.allocations, s.invoice);
    forall i | 0 <= i < |c.invoices|
      ensures InvoiceFunded(c.invoices[i], i, c.allocations)
    {
      AllocateMore(b.allocations, a, i);
      InvoicePaid(b.invoices[i], c.invoices[i], i, b.allocations, a);
    }
    forall q | 0 <= q < |c.payments|
      ensures PaymentFunds(c.payments[q], q, c.allocations)
    {
      AllocateMore(b.allocations, a, q);
      PaymentSpent(b.payments[q], q, b.allocations, a);
    }
  }

  lemma InvoicePaid(was: Invoice, now: Invoice, i: nat, allocations: seq<Allocation>, a: Allocation)
    requires InvoiceFunded(was, i, allocations) && now == was.(paid := now.paid, outstanding := now.outstanding, status := now.status)
    requires AllocatedTo(allocations + [a], i) == AllocatedTo(allocations, i) + (if a.invoice == i then a.amount else 0)
    requires if a.invoice == i then now.paid == AllocatedTo(allocations, i) + a.amount && now.outstanding == now.total - now.paid
             else now == was
    requires a.invoice == i ==> 0 <= AllocatedTo(allocations, i) + a.amount <= was.total
    ensures InvoiceFunded(now, i, allocations + [a])
  {
    hide AllocatedTo, Totals, Sum;
  }

  lemma PaymentSpent(pay: Payment, q: nat, allocations: seq<Allocation>, a: Allocation)
    requires PaymentFunds(pay, q, allocations)
    requires AllocatedFrom(allocations + [a], q) == AllocatedFrom(allocations, q) + (if a.payment == q then a.amount else 0)
    requires a.payment == q ==> AllocatedFrom(allocations, q) + a.amount <= pay.amount
    ensures PaymentFunds(pay, q, allocations + [a])
  {
    hide AllocatedFrom;
  }

  lemma EarnGood(b: Books, p: nat, i: nat, amount: Cents, at: Time)
    requires Good(b) && HasAllocation(b.allocations, i)
    ensures Good(CreateForAllocation(b, p, i, amount, at))
  {
    if i < |b.invoices| && b.invoices[i].dealer.Some? && b.invoices[i].total > 0 {
      var ratio := Ratio(amount, b.invoices[i].total);
      EarnKeeps(b, p, i, ratio, at, |b.invoices[i].lines|);
      EarnBalanced(b, p, i, ratio, at, |b.invoices[i].lines|);
      hide EntriesInPlace, EarnedOnce, EarnedOnAllocated, AllocatedNotVoid, InitialOnce, Balanced, EarnLines, Ratio;
    }
  }

  lemma {:induction false} AllocateAllKeeps(b: Books, p: nat, shares: seq<Share>, at: Time)
    requires Good(b) && AllocateAll(b, p, shares, at).Accepted?
    ensures Good(AllocateAll(b, p, shares, at).books)
    decreases |shares|
  {
    if shares != [] {
      hide Good, PayInvoice, CreateForAllocation, Allocatable, HasAllocation;
      var init, s := shares[..|shares| - 1], shares[|shares| - 1];
      AllocateAllKeeps(b, p, init, at);
      var c := AllocateAll(b, p, init, at).books;
      PayKeeps(c, p, s);
      EarnGood(PayInvoice(c, p, s), p, s.invoice, s.amount, at);
    }
  }

  lemma PaymentsKeep(b: Books, c: Books)
    requires Good(b) && c == b.(payments := c.payments) && |b.payments| <= |c.payments|
    requires forall p :: 0 <= p < |c.payments| ==> PaymentFunds(c.payments[p], p, b.allocations)
    ensures Good(c)
  {
    hide InvoiceFunded, PaymentFunds, EarnedOnce;
    DocumentsKeep(b, c);
  }

  lemma ConfirmKeeps(b: Books, p: nat, shares: seq<Share>, at: Time)
    requires Good(b) && Confirm(b, p, shares, at).Accepted?
    ensures Good(Confirm(b, p, shares, at).books)
  {
    hide Inv, InvoiceFunded, AllocateAll, PayableError, FirstError;
    var c := b.(payments := b.payments[p := b.payments[p].(confirmed := true)]);
    PaymentsKeep(b, c);
    hide Good;
    AllocateAllKeeps(c, p, shares, at);
  }

  lemma PaymentKeeps(b: Books, customer: nat, amount: Cents)
    requires Good(b) && amount > 0
    ensures Good(b.(payments := b.payments + [Payment(customer, amount, false, 0)]))
  {
    hide Inv, InvoiceFunded;
    NoPayment(b.allocations, |b.payments|);
    var c := b.(payments := b.payments + [Payment(customer, amount, false, 0)]);
    assert forall p :: 0 <= p < |b.payments| ==> c.payments[p] == b.payments[p];
    PaymentsKeep(b, c);
  }

  lemma NotCancelled(b: Books)
    requires EntriesInPlace(b)
    ensures forall n :: 0 <= n < |b.entries| ==> b.entries[n].status != Cancelled
  {
  }

  lemma FollowsGood(b: Books, c: Books)
    requires Good(b) && Follows(b.entries, c.entries) && Balanced(c)
    requires c == b.(entries := c.entries, ledger := c.ledger)
    ensures Good(c)
  {
    hide Follows, Balanced, EntriesInPlace, EarnedOnce, EarnedOnAllocated, AllocatedNotVoid, InitialOnce;
    FollowsKeeps(b, c);
  }

  lemma RefundRatio(refund: Cents, payment: Cents)
    requires 0 < payment && refund <= payment
    ensures Ratio(refund, payment) <= RATIO_ONE
  {
    RoundDivAtMost(refund * RATIO_ONE, payment, RATIO_ONE) by {
      assert (payment - refund) * RATIO_ONE >= 0;
    }
  }

  lemma ReverseForRefundGood(b: Books, p: nat, refund: Cents, payment: Cents)
    requires Good(b) && refund <= payment
    ensures Good(ReverseForRefund(b, p, refund, payment))
  {
    if payment > 0 {
      hide Inv, EntryInPlace, Funded, Balanced, Ratio, ReverseShares, Follows;
      InvParts(b);
      NotCancelled(b);
      RefundRatio(refund, payment);
      var ids, ratio := Originals(b.entries, p), Ratio(refund, payment);
      SharesFollow(b, ids, ratio);
      ReverseSharesBalanced(b, ids, ratio);
      FollowsGood(b, ReverseShares(b, ids, ratio));
    }
  }

  lemma InvParts(b: Books)
    requires Inv(b)
    ensures EntriesInPlace(b) && Balanced(b)
  {
  }

  lemma RefundKeeps(b: Books, p: nat, invoice: Option<nat>, amount: Cents)
    requires Good(b) && Refund(b, p, invoice, amount).Accepted?
    ensures Good(Refund(b, p, invoice, amount).books)
  {
    hide Inv, InvoiceFunded, AllocatedBy, ReverseForRefund;
    var payment := b.payments[p].(refunded := b.payments[p].refunded + amount);
    var c := b.(payments := b.payments[p := payment]);
    assert PaymentFunds(b.payments[p], p, b.allocations);
    PaymentsKeep(b, c);
    hide Good;
    if invoice.Some? && invoice.value < |b.invoices| && payment.refunded >= payment.amount {
      StatusKeeps(c, invoice.value, Refunded);
      ReverseForRefundGood(SetStatus(c, invoice.value, Refunded), p, amount, payment.amount);
    } else {
      ReverseForRefundGood(c, p, amount, payment.amount);
    }
  }

  lemma EntriesKeep(b: Books, op: Op)
    requires Good(b) && Apply(b, op).Accepted? && (op.ReverseOp? || op.MarkOp? || op.PayoutOp?)
    ensures Good(Apply(b, op).books)
  {
    hide EntriesInPlace, EarnedOnce, EarnedOnAllocated, AllocatedNotVoid, InitialOnce, Balanced, Funded, Follows;
    NotCancelled(b);
    var c := Apply(b, op).books;
    match op
    case ReverseOp(id) =>
      WholeFollows(b, id);
      ReverseWholeBalanced(b, id);
      hide ReverseWhole;
      FollowsGood(b, c);
    case MarkOp(ids, status) =>
      MarkFollows(b, ids, status);
      FollowsGood(b, c);
    case PayoutOp(d, credit, amount) =>
      FollowsSelf(b.entries);
      PayoutBalanced(b, LedgerRow(d, Payout, credit, amount));
      FollowsGood(b, c);
  }

  lemma PayoutBalanced(b: Books, r: LedgerRow)
    requires Balanced(b) && r.kind == Payout
    ensures Balanced(b.(ledger := b.ledger + [r]))
  {
    forall d
      ensures CommissionBalance(b.ledger + [r], d) == EntryTotal(b.entries, d)
    {
      BalanceAppend(b.ledger, r, d);
    }
  }

  lemma RulesKeep(b: Books, c: Books)
    requires Good(b) && c == b.(rules := c.rules, plans := c.plans)
    ensures Good(c)
  {
    hide EntryInPlace, EarnedOnce, InvoiceFunded, PaymentFunds, HasAllocation, SameInitial;
  }

  /** Main theorem.  Every accepted operation keeps the books in order. */
  lemma StepKeeps(b: Books, op: Op)
    requires Good(b) && Apply(b, op).Accepted?
    ensures Good(Apply(b, op).books)
  {
    hide Good, CreateInvoice, Confirm, Refund, Reverse, HasAllocation, Billed, SetStatus, MarkEntries;
    match op
    case CreateOp(customer, subscription, dealer, period, items) => CreateKeeps(b, customer, subscription, dealer, period, items);
    case BillOp(customer, s, dealer, period, price) => BillKeeps(b, customer, s, dealer, period, price);
    case IssueOp(i) => StatusKeeps(b, i, Issued);
    case VoidOp(i) => StatusKeeps(b, i, Void);
    case OverdueOp(i) => StatusKeeps(b, i, Overdue);
    case PaymentOp(customer, amount) => PaymentKeeps(b, customer, amount);
    case ConfirmOp(p, shares, at) => ConfirmKeeps(b, p, shares, at);
    case RefundOp(p, i, amount) => RefundKeeps(b, p, i, amount);
    case ReverseOp(_) => EntriesKeep(b, op);
    case MarkOp(_, _) => EntriesKeep(b, op);
    case PayoutOp(_, _, _) => EntriesKeep(b, op);
    case _ => RulesKeep(b, Apply(b, op).books);
  }

  lemma BillKeeps(b: Books, customer: nat, s: nat, dealer: Option<DealerId>, period: Period, price: InvoiceAmounts.Input)
    requires Good(b) && BillSubscription(b, customer, s, dealer, period, price).Accepted?
    ensures Good(BillSubscription(b, customer, s, dealer, period, price).books)
  {
    hide Good, CreateInvoice, Billed;
    var one, zero := InvoiceAmounts.Decimal(false, 1, 1), InvoiceAmounts.Decimal(false, 0, 1);
    CreateKeeps(b, customer, Some(s), dealer, Some(period), [Item(SubscriptionItem, InvoiceAmounts.LineInput(one, price, zero, zero))]);
  }

  // ----- Runs -----

  function Run(b: Books, ops: seq<Op>): Books
    decreases |ops|
  {
    if ops == [] then b
    else
      hide Apply;
      match Apply(b, ops[0])
      case Rejected(_) => Run(b, ops[1..])
      case Accepted(c) => Run(c, ops[1..])
  }

  const EMPTY_BOOKS: Books := Books(map[], [], [], [], [], [], [])

  lemma {:induction false} RunGood(b: Books, ops: seq<Op>)
    requires Good(b)
    ensures Good(Run(b, ops))
    decreases |ops|
  {
    hide Good, Apply;
    if ops != [] {
      if Apply(b, ops[0]).Accepted? {
        StepKeeps(b, ops[0]);
        RunGood(Apply(b, ops[0]).books, ops[1..]);
      } else {
        RunGood(b, ops[1..]);
      }
    }
  }

  lemma EmptyGood()
    ensures Good(EMPTY_BOOKS)
  {
  }

  /** Main theorem.  After any run, each dealer's commission credits less debits equal the sum of its
      commission entries, and its reported balance is that sum less its payouts. */
  lemma RunBalances(ops: seq<Op>, d: DealerId)
    ensures var b := Run(EMPTY_BOOKS, ops);
            && CommissionBalance(b.ledger, d) == EntryTotal(b.entries, d)
            && Balance(b.ledger, d) == EntryTotal(b.entries, d) - Payouts(b.ledger, d)
  {
    EmptyGood();
    RunGood(EMPTY_BOOKS, ops);
    hide Run, Funded;
    var b := Run(EMPTY_BOOKS, ops);
    BalanceSplits(b.ledger, d);
  }

  /** Main theorem.  After any run, no payment has earned twice on a line, and no two invoices of one
      subscription have earned INITIAL_SUBSCRIPTION. */
  lemma RunEarnsOnce(ops: seq<Op>, m: nat, n: nat)
    requires var b := Run(EMPTY_BOOKS, ops); m < n < |b.entries| && Original(b.entries[m]) && Original(b.entries[n])
    ensures var b := Run(EMPTY_BOOKS, ops); var e, f := b.entries[m], b.entries[n];
            && !(e.payment == f.payment && e.invoice == f.invoice && e.line == f.line)
            && e.invoice < |b.invoices| && f.invoice < |b.invoices|
            && (Initial(e) && Initial(f) && b.invoices[e.invoice].subscription == b.invoices[f.invoice].subscription ==>
                  e.invoice == f.invoice)
  {
    EmptyGood();
    RunGood(EMPTY_BOOKS, ops);
    hide Run, Funded, EarnedOnAllocated, AllocatedNotVoid, Balanced;
    var b := Run(EMPTY_BOOKS, ops);
    assert EntryInPlace(b.entries[m], b.entries, b.invoices) && EntryInPlace(b.entries[n], b.entries, b.invoices);
    assert !SameEarning(b.entries[m], b.entries[n]);
  }

  /** Main theorem.  After any run, an invoice is paid what payments allocated to it, its paid and
      outstanding amounts make up its total, and no payment gives or refunds more than it has. */
  lemma RunConserves(ops: seq<Op>, i: nat, p: nat)
    ensures var b := Run(EMPTY_BOOKS, ops);
            i < |b.invoices| ==>
              && b.invoices[i].paid == AllocatedTo(b.allocations, i) <= b.invoices[i].total
              && b.invoices[i].paid + b.invoices[i].outstanding == b.invoices[i].total == Sum(Totals(b.invoices[i].lines))
    ensures var b := Run(EMPTY_BOOKS, ops);
            p < |b.payments| ==> AllocatedFrom(b.allocations, p) <= b.payments[p].amount
                                 && 0 <= b.payments[p].refunded <= b.payments[p].amount
  {
    EmptyGood();
    RunGood(EMPTY_BOOKS, ops);
    hide Run, Inv;
    var b := Run(EMPTY_BOOKS, ops);
    if i < |b.invoices| {
      assert InvoiceFunded(b.invoices[i], i, b.allocations);
    }
    if p < |b.payments| {
      assert PaymentFunds(b.payments[p], p, b.allocations);
    }
  }

  // ----- Repeating an allocation after a run -----

  /** Old entries keep everything but their status. */
  ghost predicate Extends(was: seq<Entry>, now: seq<Entry>) {
    |was| <= |now| && forall n :: 0 <= n < |was| ==> SameButStatus(was[n], now[n])
  }

  lemma ExtendsTwice(a: seq<Entry>, b: seq<Entry>, c: seq<Entry>)
    requires Extends(a, b) && Extends(b, c)
    ensures Extends(a, c)
  {
    forall n | 0 <= n < |a|
      ensures SameButStatus(a[n], c[n])
    {
      assert SameButStatus(a[n], b[n]) && SameButStatus(b[n], c[n]);
    }
  }

  lemma ExtendsSelf(b: Books)
    requires Good(b)
    ensures Extends(b.entries, b.entries)
  {
    hide EarnedOnce, EarnedOnAllocated, AllocatedNotVoid, InitialOnce, Balanced, Funded;
    NotCancelled(b);
  }

  lemma {:induction false} EarnExtends(b: Books, p: nat, i: nat, ratio: int, at: Time, n: nat)
    requires i < |b.invoices| && n <= |b.invoices[i].lines| && b.invoices[i].dealer.Some?
    requires Extends(b.entries, b.entries)
    ensures Extends(b.entries, EarnLines(b, p, i, ratio, at, n).entries)
  {
    hide Due, Duplicate;
    if n > 0 {
      EarnExtends(b, p, i, ratio, at, n - 1);
    }
  }

  lemma CreateExtends(b: Books, p: nat, i: nat, amount: Cents, at: Time)
    requires Good(b)
    ensures Extends(b.entries, CreateForAllocation(b, p, i, amount, at).entries)
  {
    ExtendsSelf(b);
    hide Good, Extends;
    if i < |b.invoices| && b.invoices[i].dealer.Some? && b.invoices[i].total > 0 {
      EarnExtends(b, p, i, Ratio(amount, b.invoices[i].total), at, |b.invoices[i].lines|);
    }
  }

  lemma {:induction false} AllocateAllExtends(b: Books, p: nat, shares: seq<Share>, at: Time)
    requires Good(b) && AllocateAll(b, p, shares, at).Accepted?
    ensures Extends(b.entries, AllocateAll(b, p, shares, at).books.entries)
    decreases |shares|
  {
    hide Good, Extends, CreateForAllocation, HasAllocation;
    if shares == [] {
      ExtendsSelf(b);
    } else {
      var init, s := shares[..|shares| - 1], shares[|shares| - 1];
      AllocateAllExtends(b, p, init, at);
      AllocateAllKeeps(b, p, init, at);
      var c := AllocateAll(b, p, init, at).books;
      PayKeeps(c, p, s);
      CreateExtends(PayInvoice(c, p, s), p, s.invoice, s.amount, at);
      ExtendsTwice(b.entries, c.entries, AllocateAll(b, p, shares, at).books.entries);
    }
  }

  lemma ReverseFollows(b: Books, p: nat, refund: Cents, payment: Cents)
    requires Good(b) && refund <= payment
    ensures Follows(b.entries, ReverseForRefund(b, p, refund, payment).entries)
  {
    hide Funded, ReverseShares, Ratio, Follows, EntryInPlace;
    InvParts(b);
    NotCancelled(b);
    if payment > 0 {
      RefundRatio(refund, payment);
      SharesFollow(b, Originals(b.entries, p), Ratio(refund, payment));
    } else {
      FollowsSelf(b.entries);
    }
  }

  lemma RefundFollows(b: Books, p: nat, invoice: Option<nat>, amount: Cents)
    requires Good(b) && Refund(b, p, invoice, amount).Accepted?
    ensures Follows(b.entries, Refund(b, p, invoice, amount).books.entries)
  {
    hide Inv, InvoiceFunded, AllocatedBy, ReverseForRefund, Follows;
    var payment := b.payments[p].(refunded := b.payments[p].refunded + amount);
    var c := b.(payments := b.payments[p := payment]);
    assert PaymentFunds(b.payments[p], p, b.allocations);
    PaymentsKeep(b, c);
    hide Good;
    if invoice.Some? && invoice.value < |b.invoices| && payment.refunded >= payment.amount {
      StatusKeeps(c, invoice.value, Refunded);
      ReverseFollows(SetStatus(c, invoice.value, Refunded), p, amount, payment.amount);
    } else {
      ReverseFollows(c, p, amount, payment.amount);
    }
  }

  /** Only a confirmation earns: every other operation changes statuses and adds reversals. */
  lemma StepFollows(b: Books, op: Op)
    requires Good(b) && Apply(b, op).Accepted? && !op.ConfirmOp?
    ensures Follows(b.entries, Apply(b, op).books.entries) && Apply(b, op).books.allocations == b.allocations
  {
    hide Follows, Inv, Funded, NewInvoice, Storable, HasAllocation, Billed, ReverseShares, Originals, Ratio;
    InvParts(b);
    NotCancelled(b);
    FollowsSelf(b.entries);
    hide EntriesInPlace, Balanced;
    match op
    case RefundOp(p, i, amount) => RefundFollows(b, p, i, amount);
    case ReverseOp(id) => WholeFollows(b, id);
    case MarkOp(ids, status) => MarkFollows(b, ids, status);
    case _ =>
  }

  lemma FollowsExtends(was: seq<Entry>, now: seq<Entry>)
    requires Follows(was, now)
    ensures Extends(was, now)
  {
  }

  lemma StepExtends(b: Books, op: Op)
    requires Good(b) && Apply(b, op).Accepted?
    ensures Extends(b.entries, Apply(b, op).books.entries)
  {
    hide Extends, Good, Follows, Confirm;
    if op.ConfirmOp? {
      ConfirmExtends(b, op.payment, op.shares, op.at);
    } else {
      hide Apply;
      StepFollows(b, op);
      FollowsExtends(b.entries, Apply(b, op).books.entries);
    }
  }

  lemma ConfirmExtends(b: Books, p: nat, shares: seq<Share>, at: Time)
    requires Good(b) && Confirm(b, p, shares, at).Accepted?
    ensures Extends(b.entries, Confirm(b, p, shares, at).books.entries)
  {
    hide Inv, InvoiceFunded, AllocateAll, PayableError, FirstError;
    var c := b.(payments := b.payments[p := b.payments[p].(confirmed := true)]);
    PaymentsKeep(b, c);
    hide Good;
    AllocateAllExtends(c, p, shares, at);
  }

  lemma {:induction false} RunExtends(b: Books, ops: seq<Op>)
    requires Good(b)
    ensures Extends(b.entries, Run(b, ops).entries)
    decreases |ops|
  {
    hide Good, Apply, Extends;
    if ops == [] {
      ExtendsSelf(b);
    } else if Apply(b, ops[0]).Accepted? {
      var c := Apply(b, ops[0]).books;
      StepExtends(b, ops[0]);
      StepKeeps(b, ops[0]);
      RunExtends(c, ops[1..]);
      ExtendsTwice(b.entries, c.entries, Run(b, ops).entries);
    } else {
      RunExtends(b, ops[1..]);
    }
  }

  /** Main theorem.  Whatever run follows an allocation - refunds, reversals and settlements of what it
      earned included - repeating it changes nothing, if what the engine reads of rules, plans and
      invoices is then as it was. */
  lemma RepeatAfterRun(b: Books, p: nat, i: nat, amount: Cents, at: Time, ops: seq<Op>)
    requires Good(b) && HasAllocation(b.allocations, i)
    requires SameInputs(b, Run(CreateForAllocation(b, p, i, amount, at), ops))
    ensures var c := Run(CreateForAllocation(b, p, i, amount, at), ops); CreateForAllocation(c, p, i, amount, at) == c
  {
    var t := CreateForAllocation(b, p, i, amount, at);
    hide Good, CreateForAllocation, Run, SameInputs, HasAllocation;
    EarnGood(b, p, i, amount, at);
    RunExtends(t, ops);
    var c := Run(t, ops);
    forall k | Duplicate(t.entries, p, i, k)
      ensures Duplicate(c.entries, p, i, k)
    {
      var n :| 0 <= n < |t.entries| && OriginalFor(t.entries[n], p, i, k);
      assert SameButStatus(t.entries[n], c.entries[n]);
      assert OriginalFor(c.entries[n], p, i, k);
    }
    RepeatChangesNothing(b, c, p, i, amount, at);
  }
}
