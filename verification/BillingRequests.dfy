/** How the billing services answer their requests and what they write, said of the rows. */
module BillingRequests {
  import opened Options
  import opened Decimals
  import opened CommissionRules
  import opened CommissionAnswers
  import opened BillingBooks
  import opened BillingEngine
  import opened BillingAnswers
  import opened Billing
  import opened BillingRuns
  import opened BillingInstalments
  import InvoiceAmounts

  // ----- confirm -----

  /** An invoice after a payment of an amount: paid in full or in part. */
  ghost function PaidBy(inv: Invoice, amount: Cents): Invoice {
    Invoice(inv.customer, inv.subscription, inv.dealer, inv.period, inv.lines, inv.total, inv.paid + amount,
            inv.total - inv.paid - amount, if inv.paid + amount == inv.total then Paid else PartiallyPaid)
  }

  ghost function Parts(p: nat, shares: seq<Share>): (r: seq<Allocation>)
    ensures |r| == |shares|
  {
    seq(|shares|, k requires 0 <= k < |shares| => Allocation(p, shares[k].invoice, shares[k].amount))
  }

  ghost function Joined(parts: seq<seq<Entry>>): seq<Entry> {
    if parts == [] then [] else Joined(parts[..|parts| - 1]) + parts[|parts| - 1]
  }

  ghost predicate Names(shares: seq<Share>, i: nat) { exists k :: 0 <= k < |shares| && shares[k].invoice == i }

  /** The invoices after the shares: each named one is paid its share. */
  ghost predicate PaidShares(was: seq<Invoice>, now: seq<Invoice>, shares: seq<Share>) {
    && |now| == |was|
    && (forall k :: 0 <= k < |shares| ==>
          shares[k].invoice < |was| && now[shares[k].invoice] == PaidBy(was[shares[k].invoice], shares[k].amount))
    && (forall i :: 0 <= i < |was| && !Names(shares, i) ==> now[i] == was[i])
  }

  /** Each share adds what its allocation earns in the books before the confirmation. */
  ghost predicate EarnedByShares(b: Books, p: nat, shares: seq<Share>, at: Time, parts: seq<seq<Entry>>) {
    |parts| == |shares| && forall k :: 0 <= k < |shares| ==> EarnedBy(b, p, shares[k].invoice, shares[k].amount, at, parts[k])
  }

  /** What the loop of confirm writes. */
  ghost predicate Allocated(b: Books, t: Books, p: nat, shares: seq<Share>, at: Time, parts: seq<seq<Entry>>) {
    && t.plans == b.plans && t.rules == b.rules && t.payments == b.payments
    && t.allocations == b.allocations + Parts(p, shares) && PaidShares(b.invoices, t.invoices, shares)
    && EarnedByShares(b, p, shares, at, parts)
    && t.entries == b.entries + Joined(parts) && t.ledger == b.ledger + Credits(Joined(parts))
  }

  /** Shares of distinct invoices that can be paid. */
  ghost predicate Payable(b: Books, p: nat, shares: seq<Share>) {
    && (forall k :: 0 <= k < |shares| ==>
          shares[k].invoice < |b.invoices| && shares[k].amount >= 0 && b.invoices[shares[k].invoice].status != Void
          && b.invoices[shares[k].invoice].paid == AllocatedTo(b.allocations, shares[k].invoice))
    && (forall j, k :: 0 <= j < k < |shares| ==> shares[j].invoice != shares[k].invoice)
  }

  ghost predicate Fits(inv: Invoice, amount: Cents) { amount > 0 && inv.paid + amount <= inv.total }

  ghost predicate AllFit(b: Books, shares: seq<Share>) {
    forall k :: 0 <= k < |shares| ==> shares[k].invoice < |b.invoices| && Fits(b.invoices[shares[k].invoice], shares[k].amount)
  }

  /** The amounts allocated after the shares. */
  ghost predicate Counted(b: Books, t: Books, p: nat, shares: seq<Share>) {
    && AllocatedFrom(t.allocations, p) == AllocatedFrom(b.allocations, p) + SharesTotal(shares)
    && forall i: nat :: !Names(shares, i) ==> AllocatedTo(t.allocations, i) == AllocatedTo(b.allocations, i)
  }

  lemma {:induction false} TotalSign(shares: seq<Share>)
    requires forall k :: 0 <= k < |shares| ==> shares[k].amount >= 0
    ensures SharesTotal(shares) >= 0
  {
    if shares != [] {
      TotalSign(shares[..|shares| - 1]);
    }
  }

  lemma {:induction false} AllocateMeans(b: Books, p: nat, shares: seq<Share>, at: Time) returns (parts: seq<seq<Entry>>)
    requires p < |b.payments| && Payable(b, p, shares)
    requires AllocatedFrom(b.allocations, p) + SharesTotal(shares) <= b.payments[p].amount
    ensures var o := AllocateAll(b, p, shares, at);
            if AllFit(b, shares) then o.Accepted? && Allocated(b, o.books, p, shares, at, parts) && Counted(b, o.books, p, shares)
            else o == Rejected(RefusedByDatabase)
    decreases |shares|
  {
    hide Allocated, Counted, Fits, AllFit, Payable, Allocatable, PayInvoice, CreateForAllocation;
    if shares == [] {
      parts := [];
      NothingAllocated(b, p, at);
    } else {
      var n := |shares| - 1;
      var init, s := shares[..n], shares[n];
      assert shares == init + [s];
      Prefix(b, p, init, s);
      var before := AllocateMeans(b, p, init, at);
      parts := before;
      if AllFit(b, init) {
        var c := AllocateAll(b, p, init, at).books;
        FitsMeans(b, c, p, init, s, at, before);
        if Fits(b.invoices[s.invoice], s.amount) {
          var added := ShareMeans(b, c, p, init, s, at, before);
          parts := before + [added];
        }
      }
    }
  }

  lemma Prefix(b: Books, p: nat, shares: seq<Share>, s: Share)
    requires Payable(b, p, shares + [s])
    ensures Payable(b, p, shares) && s.amount >= 0 && s.invoice < |b.invoices|
    ensures SharesTotal(shares + [s]) == SharesTotal(shares) + s.amount
    ensures AllFit(b, shares + [s]) <==> AllFit(b, shares) && Fits(b.invoices[s.invoice], s.amount)
  {
    hide Fits, AllocatedTo;
    var all := shares + [s];
    assert all[..|shares|] == shares && all[|shares|] == s;
    assert forall k :: 0 <= k < |shares| ==> all[k] == shares[k];
  }

  lemma NothingAllocated(b: Books, p: nat, at: Time)
    ensures Allocated(b, b, p, [], at, []) && Counted(b, b, p, []) && AllFit(b, [])
  {
    assert b.allocations + Parts(p, []) == b.allocations && b.ledger + Credits([]) == b.ledger;
  }

  lemma NotNamed(shares: seq<Share>, s: Share)
    requires var all := shares + [s]; forall j, k :: 0 <= j < k < |all| ==> all[j].invoice != all[k].invoice
    ensures !Names(shares, s.invoice)
  {
    var all := shares + [s];
    forall k | 0 <= k < |shares|
      ensures shares[k].invoice != s.invoice
    {
      assert all[k] == shares[k] && all[|shares|] == s;
    }
  }

  lemma FitsMeans(b: Books, c: Books, p: nat, shares: seq<Share>, s: Share, at: Time, parts: seq<seq<Entry>>)
    requires p < |b.payments| && Payable(b, p, shares + [s])
    requires AllocatedFrom(b.allocations, p) + SharesTotal(shares) + s.amount <= b.payments[p].amount
    requires Allocated(b, c, p, shares, at, parts) && Counted(b, c, p, shares)
    ensures s.invoice < |b.invoices| == |c.invoices|
    ensures Allocatable(c, p, s) <==> Fits(b.invoices[s.invoice], s.amount)
  {
    hide Names, EarnedByShares, AllocatedTo, AllocatedFrom, SharesTotal;
    NotNamed(shares, s);
    assert (shares + [s])[|shares|] == s;
  }

  lemma PaidMore(b: Books, c: Books, p: nat, shares: seq<Share>, s: Share)
    requires s.invoice < |b.invoices| && PaidShares(b.invoices, c.invoices, shares) && !Names(shares, s.invoice)
    requires AllocatedTo(c.allocations, s.invoice) == b.invoices[s.invoice].paid
    ensures PaidShares(b.invoices, PayInvoice(c, p, s).invoices, shares + [s])
  {
    hide AllocatedTo;
    var all, now := shares + [s], PayInvoice(c, p, s).invoices;
    assert all[|shares|] == s;
    assert c.invoices[s.invoice] == b.invoices[s.invoice];
    forall k | 0 <= k < |all|
      ensures all[k].invoice < |b.invoices| && now[all[k].invoice] == PaidBy(b.invoices[all[k].invoice], all[k].amount)
    {
      if k < |shares| {
        assert shares[k].invoice != s.invoice;
      }
    }
    forall i | 0 <= i < |b.invoices| && !Names(all, i)
      ensures now[i] == b.invoices[i]
    {
      assert all[|shares|].invoice != i;
      forall k | 0 <= k < |shares|
        ensures shares[k].invoice != i
      {
        assert all[k].invoice != i;
      }
    }
  }

  lemma CountedMore(b: Books, c: Books, d: Books, p: nat, shares: seq<Share>, s: Share)
    requires Counted(b, c, p, shares) && d.allocations == c.allocations + [Allocation(p, s.invoice, s.amount)]
    ensures Counted(b, d, p, shares + [s])
  {
    hide AllocatedTo, AllocatedFrom;
    var all := shares + [s];
    assert all[..|shares|] == shares && all[|shares|] == s;
    AllocateMore(c.allocations, Allocation(p, s.invoice, s.amount), p);
    forall i: nat | !Names(all, i)
      ensures AllocatedTo(d.allocations, i) == AllocatedTo(b.allocations, i)
    {
      AllocateMore(c.allocations, Allocation(p, s.invoice, s.amount), i);
      assert all[|shares|].invoice != i;
      forall k | 0 <= k < |shares|
        ensures shares[k].invoice != i
      {
        assert all[k].invoice != i;
      }
    }
  }

  lemma AddedInvoice(b: Books, p: nat, i: nat, amount: Cents, at: Time, added: seq<Entry>)
    requires EarnedBy(b, p, i, amount, at, added)
    ensures forall m :: 0 <= m < |added| ==> added[m].invoice == i
  {
    hide HasEarned, Chosen, Half, Pays, Transacts;
  }

  /** The entries of the shares are on the invoices of the shares. */
  lemma {:induction false} JoinedInvoices(b: Books, p: nat, shares: seq<Share>, at: Time, parts: seq<seq<Entry>>)
    requires EarnedByShares(b, p, shares, at, parts)
    ensures forall m :: 0 <= m < |Joined(parts)| ==> Names(shares, Joined(parts)[m].invoice)
    decreases |shares|
  {
    hide EarnedBy;
    if parts != [] {
      var n := |shares| - 1;
      JoinedInvoices(b, p, shares[..n], at, parts[..n]);
      AddedInvoice(b, p, shares[n].invoice, shares[n].amount, at, parts[n]);
      forall m | 0 <= m < |Joined(parts)|
        ensures Names(shares, Joined(parts)[m].invoice)
      {
        if m < |Joined(parts[..n])| {
          var k :| 0 <= k < n && shares[..n][k].invoice == Joined(parts)[m].invoice;
          assert shares[k].invoice == Joined(parts)[m].invoice;
        } else {
          assert shares[n].invoice == Joined(parts)[m].invoice;
        }
      }
    }
  }

  lemma OthersEarned(b: Books, d: Books, p: nat, i: nat, k: nat, more: seq<Entry>)
    requires d.entries == b.entries + more && forall m :: 0 <= m < |more| ==> more[m].invoice != i
    ensures HasEarned(d.entries, p, i, k) <==> HasEarned(b.entries, p, i, k)
  {
    if n :| 0 <= n < |b.entries| && b.entries[n].payment == p && b.entries[n].invoice == i && b.entries[n].line == k
            && b.entries[n].reversalOf == None && b.entries[n].status != Cancelled {
      assert d.entries[n] == b.entries[n];
    }
  }

  lemma OwesSame(b: Books, d: Books, p: nat, i: nat, k: nat, ratio: int, at: Time, e: Entry)
    requires SameInputs(b, d) && i < |b.invoices|
    ensures Owes(d, p, i, k, ratio, at, e) <==> Owes(b, p, i, k, ratio, at, e)
  {
    assert SameForEngine(b.invoices[i], d.invoices[i]);
    hide SameInputs, Transacts, Chosen, Half, Pays, Due;
    if k < |b.invoices[i].lines| && b.invoices[i].dealer.Some? {
      OwesMeans(b, p, i, k, ratio, at, e);
      OwesMeans(d, p, i, k, ratio, at, e);
      DueIgnoresEntries(b, d, p, i, k, ratio, at);
    }
  }

  /** Entries of other invoices and paid amounts do not matter to what an allocation earns. */
  lemma EarnedBySame(b: Books, d: Books, p: nat, i: nat, amount: Cents, at: Time, added: seq<Entry>, more: seq<Entry>)
    requires SameInputs(b, d) && i < |b.invoices|
    requires d.entries == b.entries + more && forall m :: 0 <= m < |more| ==> more[m].invoice != i
    requires EarnedBy(d, p, i, amount, at, added)
    ensures EarnedBy(b, p, i, amount, at, added)
  {
    hide Owes, HasEarned, Half;
    assert SameForEngine(b.invoices[i], d.invoices[i]);
    if d.invoices[i].dealer != None && d.invoices[i].total > 0 {
      var ratio :| Half(ratio, amount * 100_000_000, d.invoices[i].total)
                   && Earned(d, p, i, ratio, at, |d.invoices[i].lines|, added);
      forall k: nat, e
        ensures Adds(d, p, i, k, ratio, at, e) <==> Adds(b, p, i, k, ratio, at, e)
      {
        OwesSame(b, d, p, i, k, ratio, at, e);
        OthersEarned(b, d, p, i, k, more);
      }
      assert Earned(b, p, i, ratio, at, |b.invoices[i].lines|, added);
    }
  }

  lemma InputsAfter(b: Books, c: Books, d: Books, p: nat, shares: seq<Share>, s: Share)
    requires Payable(b, p, shares + [s]) && PaidShares(b.invoices, d.invoices, shares + [s])
    requires d.rules == b.rules && d.plans == b.plans
    ensures SameInputs(b, d)
  {
    var all := shares + [s];
    forall i | 0 <= i < |b.invoices|
      ensures SameForEngine(b.invoices[i], d.invoices[i])
    {
      if Names(all, i) {
        var k :| 0 <= k < |all| && all[k].invoice == i;
        assert d.invoices[i] == PaidBy(b.invoices[i], all[k].amount);
      }
    }
  }

  lemma EarnedMoreShares(b: Books, p: nat, shares: seq<Share>, s: Share, at: Time, parts: seq<seq<Entry>>, added: seq<Entry>)
    requires EarnedByShares(b, p, shares, at, parts) && EarnedBy(b, p, s.invoice, s.amount, at, added)
    ensures EarnedByShares(b, p, shares + [s], at, parts + [added])
  {
    hide EarnedBy;
    var all, more := shares + [s], parts + [added];
    forall k | 0 <= k < |all|
      ensures EarnedBy(b, p, all[k].invoice, all[k].amount, at, more[k])
    {
      if k < |shares| {
        assert EarnedBy(b, p, shares[k].invoice, shares[k].amount, at, parts[k]);
      }
    }
  }

  lemma JoinedMore(parts: seq<seq<Entry>>, added: seq<Entry>, entries: seq<Entry>, ledger: seq<LedgerRow>)
    ensures entries + Joined(parts + [added]) == entries + Joined(parts) + added
    ensures ledger + Credits(Joined(parts + [added])) == ledger + Credits(Joined(parts)) + Credits(added)
  {
    var more := parts + [added];
    assert more[..|parts|] == parts && more[|parts|] == added;
    assert Joined(more) == Joined(parts) + added;
    assert Credits(Joined(parts) + added) == Credits(Joined(parts)) + Credits(added);
  }

  /** One more share. */
  lemma ShareMeans(b: Books, c: Books, p: nat, shares: seq<Share>, s: Share, at: Time, parts: seq<seq<Entry>>)
      returns (added: seq<Entry>)
    requires Payable(b, p, shares + [s])
    requires Allocated(b, c, p, shares, at, parts) && Counted(b, c, p, shares) && s.invoice < |b.invoices| == |c.invoices|
    ensures var t := CreateForAllocation(PayInvoice(c, p, s), p, s.invoice, s.amount, at);
            Allocated(b, t, p, shares + [s], at, parts + [added]) && Counted(b, t, p, shares + [s])
  {
    hide Names, EarnedBy, EarnedByShares, CreateForAllocation, AllocatedTo, AllocatedFrom, SharesTotal, PaidShares, Joined, Counted;
    var d := PayInvoice(c, p, s);
    added := AllocationMeans(d, p, s.invoice, s.amount, at);
    NotNamed(shares, s);
    assert (shares + [s])[|shares|] == s;
    ToNamed(b, c, p, shares, s);
    PaidMore(b, c, p, shares, s);
    InputsAfter(b, c, d, p, shares, s);
    JoinedInvoices(b, p, shares, at, parts);
    EarnedBySame(b, d, p, s.invoice, s.amount, at, added, Joined(parts));
    EarnedMoreShares(b, p, shares, s, at, parts, added);
    JoinedMore(parts, added, b.entries, b.ledger);
    CountedMore(b, c, CreateForAllocation(d, p, s.invoice, s.amount, at), p, shares, s);
    assert Parts(p, shares + [s]) == Parts(p, shares) + [Allocation(p, s.invoice, s.amount)];
  }

  lemma ToNamed(b: Books, c: Books, p: nat, shares: seq<Share>, s: Share)
    requires Counted(b, c, p, shares) && !Names(shares, s.invoice)
    ensures AllocatedTo(c.allocations, s.invoice) == AllocatedTo(b.allocations, s.invoice)
  {
    hide AllocatedTo;
  }

  /** The invoice is the payer's and can still be paid. */
  ghost predicate Open(b: Books, p: nat, s: Share)
    requires p < |b.payments| && s.invoice < |b.invoices|
  {
    var inv := b.invoices[s.invoice];
    inv.customer == b.payments[p].customer && (inv.status == Issued || inv.status == PartiallyPaid || inv.status == Overdue)
  }

  /** The first invoice that is not open is another customer's. */
  ghost predicate FirstForeign(b: Books, p: nat, shares: seq<Share>, k: nat)
    requires p < |b.payments| && forall k :: 0 <= k < |shares| ==> shares[k].invoice < |b.invoices|
  {
    && k < |shares| && b.invoices[shares[k].invoice].customer != b.payments[p].customer
    && forall j :: 0 <= j < k ==> Open(b, p, shares[j])
  }

  ghost function Amounts(shares: seq<Share>): (r: seq<int>)
    ensures |r| == |shares|
  {
    seq(|shares|, k requires 0 <= k < |shares| => shares[k].amount)
  }

  /** How a confirmation is answered. */
  ghost function ConfirmError(b: Books, p: nat, shares: seq<Share>): Option<Error> {
    if p >= |b.payments| then Some(NotFound)
    else if b.payments[p].confirmed then Some(Conflict)
    else if (exists j, k :: 0 <= j < k < |shares| && shares[j].invoice == shares[k].invoice)
            || (exists k :: 0 <= k < |shares| && shares[k].amount < 0)
            || Sum(Amounts(shares)) > b.payments[p].amount
            || (exists k :: 0 <= k < |shares| && shares[k].invoice >= |b.invoices|) then Some(BadRequest)
    else if exists k: nat :: FirstForeign(b, p, shares, k) then Some(BadRequest)
    else if exists k :: 0 <= k < |shares| && !Open(b, p, shares[k]) then Some(Conflict)
    else if exists k :: 0 <= k < |shares| && (shares[k].amount == 0
                        || b.invoices[shares[k].invoice].paid + shares[k].amount > b.invoices[shares[k].invoice].total) then
      Some(RefusedByDatabase)
    else None
  }

  lemma {:induction false} TotalMeans(shares: seq<Share>)
    ensures SharesTotal(shares) == Sum(Amounts(shares))
    decreases |shares|
  {
    if shares != [] {
      var n := |shares| - 1;
      TotalMeans(shares[..n]);
      assert Amounts(shares) == Amounts(shares[..n]) + [shares[n].amount];
      SumAppend(Amounts(shares[..n]), shares[n].amount);
    }
  }

  lemma {:induction false} FirstErrorMeans(b: Books, p: nat, shares: seq<Share>)
    requires p < |b.payments| && forall k :: 0 <= k < |shares| ==> shares[k].invoice < |b.invoices|
    ensures FirstError(b, p, shares)
            == if exists k: nat :: FirstForeign(b, p, shares, k) then Some(BadRequest)
               else if exists k :: 0 <= k < |shares| && !Open(b, p, shares[k]) then Some(Conflict)
               else None
  {
    if shares != [] {
      var rest := shares[1..];
      FirstErrorMeans(b, p, rest);
      assert PayableError(b, p, shares[0]).None? <==> Open(b, p, shares[0]);
      assert PayableError(b, p, shares[0]) == Some(BadRequest) <==>
             b.invoices[shares[0].invoice].customer != b.payments[p].customer;
      assert PayableError(b, p, shares[0]).Some? ==> PayableError(b, p, shares[0]) in {Some(BadRequest), Some(Conflict)};
      hide PayableError;
      if PayableError(b, p, shares[0]) == Some(BadRequest) {
        assert FirstForeign(b, p, shares, 0);
      }
      hide Open;
      if Open(b, p, shares[0]) {
        RestForeign(b, p, shares);
        if k :| 0 <= k < |rest| && !Open(b, p, rest[k]) {
          assert shares[k + 1] == rest[k];
        }
        if k :| 0 <= k < |shares| && !Open(b, p, shares[k]) {
          assert rest[k - 1] == shares[k];
        }
      }
    }
  }

  lemma RestForeign(b: Books, p: nat, shares: seq<Share>)
    requires p < |b.payments| && (forall k :: 0 <= k < |shares| ==> shares[k].invoice < |b.invoices|)
    requires shares != [] && Open(b, p, shares[0])
    ensures (exists k: nat :: FirstForeign(b, p, shares, k)) <==> exists k: nat :: FirstForeign(b, p, shares[1..], k)
  {
    var rest := shares[1..];
    if k: nat :| FirstForeign(b, p, shares, k) {
      assert FirstForeign(b, p, rest, k - 1) by {
        assert forall j :: 0 <= j < k - 1 ==> rest[j] == shares[j + 1];
      }
    }
    if k: nat :| FirstForeign(b, p, rest, k) {
      assert FirstForeign(b, p, shares, k + 1) by {
        assert forall j :: 0 < j < k + 1 ==> shares[j] == rest[j - 1];
      }
    }
  }

  /** An unconfirmed payment has no allocations. */
  lemma Unallocated(b: Books, p: nat)
    requires Sound(b) && p < |b.payments| && !b.payments[p].confirmed
    ensures AllocatedFrom(b.allocations, p) == 0
  {
    hide Good;
    NoPayment(b.allocations, p);
  }

  lemma PaidAllocated(b: Books, i: nat)
    requires Good(b) && i < |b.invoices|
    ensures b.invoices[i].paid == AllocatedTo(b.allocations, i)
  {
    hide Inv;
    assert InvoiceFunded(b.invoices[i], i, b.allocations);
  }

  lemma EarnedBeforeConfirming(b: Books, c: Books, p: nat, shares: seq<Share>, at: Time, parts: seq<seq<Entry>>)
    requires c == b.(payments := c.payments) && EarnedByShares(c, p, shares, at, parts)
    requires forall k :: 0 <= k < |shares| ==> shares[k].invoice < |b.invoices|
    ensures EarnedByShares(b, p, shares, at, parts)
  {
    hide EarnedBy;
    assert SameInputs(b, c);
    assert c.entries == b.entries + [];
    forall k | 0 <= k < |shares|
      ensures EarnedBy(b, p, shares[k].invoice, shares[k].amount, at, parts[k])
    {
      EarnedBySame(b, c, p, shares[k].invoice, shares[k].amount, at, parts[k], []);
    }
  }

  /** The checks of a confirmation before its loop. */
  lemma ConfirmGuards(b: Books, p: nat, shares: seq<Share>, at: Time)
    requires Sound(b)
    ensures var o, e := Confirm(b, p, shares, at), ConfirmError(b, p, shares);
            if p < |b.payments| && !b.payments[p].confirmed && (e == None || e == Some(RefusedByDatabase)) then
              var c := b.(payments := b.payments[p := b.payments[p].(confirmed := true)]);
              && Payable(c, p, shares) && AllocatedFrom(c.allocations, p) + SharesTotal(shares) <= c.payments[p].amount
              && (AllFit(c, shares) <==> e == None) && o == AllocateAll(c, p, shares, at)
            else e.Some? && o == Rejected(e.value)
  {
    hide Sound, Good, AllocateAll, FirstError, SharesTotal, FirstForeign, AllocatedTo, AllocatedFrom, Sum;
    if p < |b.payments| && !b.payments[p].confirmed {
      TotalMeans(shares);
      Unallocated(b, p);
      if forall k :: 0 <= k < |shares| ==> shares[k].invoice < |b.invoices| {
        FirstErrorMeans(b, p, shares);
        forall k | 0 <= k < |shares|
          ensures b.invoices[shares[k].invoice].paid == AllocatedTo(b.allocations, shares[k].invoice)
        {
          assert Good(b) by { SoundIsGood(b); }
          PaidAllocated(b, shares[k].invoice);
        }
      }
    }
  }

  lemma SoundIsGood(b: Books)
    requires Sound(b)
    ensures Good(b)
  {
  }

  /** Main theorem.  A confirmation is refused for the literal reasons and otherwise accepted. */
  lemma ConfirmAnswer(b: Books, p: nat, shares: seq<Share>, at: Time)
    requires Sound(b)
    ensures var o, e := Confirm(b, p, shares, at), ConfirmError(b, p, shares);
            if e.Some? then o == Rejected(e.value) else o.Accepted?
  {
    hide Sound, Confirm, ConfirmError, AllocateAll, SharesTotal, Payable, AllFit, AllocatedFrom;
    ConfirmGuards(b, p, shares, at);
    var e := ConfirmError(b, p, shares);
    if p < |b.payments| && !b.payments[p].confirmed && (e == None || e == Some(RefusedByDatabase)) {
      var parts := AllocateMeans(b.(payments := b.payments[p := b.payments[p].(confirmed := true)]), p, shares, at);
    }
  }

  /** Main theorem.  What a confirmation writes.  Its payment is confirmed; one allocation is added for each
      share; each named invoice is paid its share, in full when that reaches its total and in part otherwise;
      the entries that the allocations earn in the books before are added share by share, each with its credit;
      all else stays. */
  lemma ConfirmEffect(b: Books, p: nat, shares: seq<Share>, at: Time)
    requires Sound(b) && Confirm(b, p, shares, at).Accepted?
    ensures var t := Confirm(b, p, shares, at).books;
            && p < |b.payments| && t.payments == b.payments[p := b.payments[p].(confirmed := true)]
            && t.plans == b.plans && t.rules == b.rules
            && t.allocations == b.allocations + Parts(p, shares) && PaidShares(b.invoices, t.invoices, shares)
            && exists parts :: EarnedByShares(b, p, shares, at, parts)
                               && t.entries == b.entries + Joined(parts) && t.ledger == b.ledger + Credits(Joined(parts))
  {
    hide Sound, Confirm, ConfirmError, AllocateAll, SharesTotal, AllFit, AllocatedFrom, AllocatedTo, EarnedByShares, PaidShares, Joined;
    ConfirmGuards(b, p, shares, at);
    var c := b.(payments := b.payments[p := b.payments[p].(confirmed := true)]);
    var parts := AllocateMeans(c, p, shares, at);
    EarnedBeforeConfirming(b, c, p, shares, at, parts);
  }

  // ----- refund -----

  /** How a refund is answered. */
  ghost function RefundError(b: Books, p: nat, invoice: Option<nat>, amount: Cents): Option<Error> {
    if p >= |b.payments| then Some(NotFound)
    else if !b.payments[p].confirmed then Some(Conflict)
    else if invoice != None
            && !(exists a :: 0 <= a < |b.allocations| && b.allocations[a].payment == p && b.allocations[a].invoice == invoice.value) then
      Some(BadRequest)
    else if amount < 0 || b.payments[p].refunded + amount > b.payments[p].amount then Some(BadRequest)
    else if amount == 0 then Some(RefusedByDatabase)
    else None
  }

  lemma RefundAnswer(b: Books, p: nat, invoice: Option<nat>, amount: Cents)
    ensures var o, e := Refund(b, p, invoice, amount), RefundError(b, p, invoice, amount);
            if e.Some? then o == Rejected(e.value) else o.Accepted?
  {
    hide ReverseForRefund;
  }

  lemma RefundOnly(b: Books, c: Books, t: Books, p: nat, refund: Cents, payment: Cents, backs: seq<Back>)
    requires RefundedBy(c, t, p, refund, payment, backs) && c == b.(payments := c.payments, invoices := c.invoices)
    ensures t == c.(entries := t.entries, ledger := t.ledger)
    ensures RefundedBy(b, b.(entries := t.entries, ledger := t.ledger), p, refund, payment, backs)
  {
    hide TakenFrom, Reverses, Half;
  }

  /** Main theorem.  What a refund writes.  The payment's refunded amount grows; a named invoice is REFUNDED
      exactly when nothing of the payment is left; and the refund reverses commission as stated of
      reverseForRefund; all else stays. */
  lemma RefundEffect(b: Books, p: nat, invoice: Option<nat>, amount: Cents)
    requires Refund(b, p, invoice, amount).Accepted?
    ensures var t := Refund(b, p, invoice, amount).books;
            p < |b.payments| &&
            var pay := b.payments[p]; var refunded := pay.refunded + amount;
            && t.payments == b.payments[p := Payment(pay.customer, pay.amount, pay.confirmed, refunded)]
            && t.invoices == (if invoice != None && invoice.value < |b.invoices| && refunded == pay.amount then
                                b.invoices[invoice.value := b.invoices[invoice.value].(status := Refunded)]
                              else b.invoices)
            && t.plans == b.plans && t.rules == b.rules && t.allocations == b.allocations
            && exists backs :: RefundedBy(b, b.(entries := t.entries, ledger := t.ledger), p, amount, pay.amount, backs)
  {
    hide RefundedBy, ReverseForRefund;
    var pay := b.payments[p].(refunded := b.payments[p].refunded + amount);
    var c := b.(payments := b.payments[p := pay]);
    var full := invoice.Some? && invoice.value < |b.invoices| && pay.refunded >= pay.amount;
    var d := if full then SetStatus(c, invoice.value, Refunded) else c;
    var backs := RefundMeans(d, p, amount, pay.amount);
    RefundOnly(b, d, ReverseForRefund(d, p, amount, pay.amount), p, amount, pay.amount, backs);
  }

  // ----- reverseEntry -----

  /** Main theorem.  An original with a positive amount that is neither REVERSED nor CANCELLED is reversed in
      full: the reversal is REVERSED, the original becomes so exactly when it was AVAILABLE, and the whole
      amount is debited, whatever refunds took back before. */
  lemma ReverseMeans(b: Books, id: nat)
    ensures var o := Reverse(b, id);
            if id >= |b.entries| then o == Rejected(NotFound)
            else
              var e := b.entries[id];
              if e.reversalOf != None || e.amount <= 0 || e.status == Reversed || e.status == Cancelled then o == Rejected(Conflict)
              else
                && o.Accepted? && o.books == b.(entries := o.books.entries, ledger := o.books.ledger)
                && |o.books.entries| == |b.entries| + 1
                && o.books.entries[id] == (if e.status == Available then e.(status := Reversed) else e)
                && o.books.entries[|b.entries|] == e.(amount := -e.amount, status := Reversed, reversalOf := Some(id))
                && (forall n :: 0 <= n < |b.entries| && n != id ==> o.books.entries[n] == b.entries[n])
                && o.books.ledger == b.ledger + [LedgerRow(e.dealer, CommissionReversal, false, e.amount)]
  {
  }

  // ----- Invoices -----

  /** An invoice other than a draft is not issued again; a void, paid, refunded or allocated one is not voided;
      nothing but the status of the one invoice changes. */
  lemma StatusMeans(b: Books, i: nat)
    ensures var o := Issue(b, i);
            if i >= |b.invoices| then o == Rejected(NotFound)
            else if b.invoices[i].status != Draft then o == Rejected(Conflict)
            else o == Accepted(b.(invoices := b.invoices[i := b.invoices[i].(status := Issued)]))
    ensures var o := VoidInvoice(b, i);
            if i >= |b.invoices| then o == Rejected(NotFound)
            else if b.invoices[i].status == Paid || b.invoices[i].status == Refunded || b.invoices[i].status == Void
                    || exists a :: 0 <= a < |b.allocations| && b.allocations[a].invoice == i then o == Rejected(Conflict)
            else o == Accepted(b.(invoices := b.invoices[i := b.invoices[i].(status := Void)]))
  {
  }

  /** The rounding of line k leaves a tie that the database rounds the other way. */
  ghost predicate Tied(r: InvoiceAmounts.Rounded) {
    (r.quantity * r.unitPrice) % 1000 == 500 && r.discount == r.gross && r.tax == 0
  }

  /** The draft invoice of accepted lines. */
  ghost predicate Drafted(inv: Invoice, customer: nat, subscription: Option<nat>, dealer: Option<DealerId>, period: Option<Period>,
                          items: seq<Item>, rounded: seq<InvoiceAmounts.Rounded>)
    requires |rounded| == |items|
  {
    && inv.customer == customer && inv.subscription == subscription && inv.dealer == dealer && inv.period == period
    && |inv.lines| == |items|
    && (forall k :: 0 <= k < |items| ==>
          inv.lines[k] == BilledLine(items[k].item, rounded[k].gross - rounded[k].discount + rounded[k].tax))
    && inv.total == Sum(Totals(inv.lines)) && inv.paid == 0 && inv.outstanding == inv.total && inv.status == Draft
  }

  /** Main theorem.  An invoice is created from its rounded lines: refused for the first line that is refused,
      refused by the database exactly when a line ties, and otherwise a draft of the lines in their order. */
  lemma CreateMeans(b: Books, customer: nat, subscription: Option<nat>, dealer: Option<DealerId>, period: Option<Period>,
                    items: seq<Item>, rounded: seq<InvoiceAmounts.Rounded>)
    requires |rounded| == |items| && forall k :: 0 <= k < |items| ==> InvoiceAmounts.Rounds(items[k].input, rounded[k])
    ensures var o := CreateInvoice(b, customer, subscription, dealer, period, items);
            if exists k :: 0 <= k < |items| && InvoiceAmounts.LineAnswer(items[k].input, rounded[k]).Rejected? then
              o == Rejected(BadRequest)
            else if exists k :: 0 <= k < |items| && Tied(rounded[k]) then o == Rejected(RefusedByDatabase)
            else
              && o.Accepted? && |o.books.invoices| == |b.invoices| + 1
              && o.books == b.(invoices := b.invoices + [o.books.invoices[|b.invoices|]])
              && Drafted(o.books.invoices[|b.invoices|], customer, subscription, dealer, period, items, rounded)
  {
    hide InvoiceAmounts.CreateRecord, InvoiceAmounts.LineAnswer, InvoiceAmounts.Rounds, InvoiceAmounts.SumsOf,
         InvoiceAmounts.LineConstraint, Tied, Totals, Sum;
    InvoiceAmounts.RecordMeans(Inputs(items), rounded);
    NewInvoiceFunded(customer, subscription, dealer, period, items);
    forall k | 0 <= k < |items| && InvoiceAmounts.LineAnswer(items[k].input, rounded[k]).Ok?
      ensures InvoiceAmounts.LineConstraint(InvoiceAmounts.LineAnswer(items[k].input, rounded[k]).value) <==> !Tied(rounded[k])
      ensures InvoiceAmounts.LineAnswer(items[k].input, rounded[k]).value.total
              == rounded[k].gross - rounded[k].discount + rounded[k].tax
    {
      StorableMeans(items[k].input, rounded[k]);
    }
    assert forall k :: 0 <= k < |items| ==> Inputs(items)[k] == items[k].input;
  }

  lemma StorableMeans(input: InvoiceAmounts.LineInput, r: InvoiceAmounts.Rounded)
    requires InvoiceAmounts.Rounds(input, r) && InvoiceAmounts.LineAnswer(input, r).Ok?
    ensures var line := InvoiceAmounts.LineAnswer(input, r).value;
            (InvoiceAmounts.LineConstraint(line) <==> !Tied(r)) && line.total == r.gross - r.discount + r.tax
  {
    hide InvoiceAmounts.InvoiceLine, InvoiceAmounts.LineConstraint;
    InvoiceAmounts.LineMeans(input, r);
    InvoiceAmounts.AcceptedLinePassesConstraint(InvoiceAmounts.LineAnswer(input, r).value);
  }

  /** Main theorem.  A subscription is billed once per period: one line at the base price, to the cent. */
  lemma BillMeans(b: Books, customer: nat, subscription: nat, dealer: Option<DealerId>, period: Period,
                  price: InvoiceAmounts.Input, cents: nat)
    requires InvoiceAmounts.Nearest(price, 100, cents)
    ensures var o := BillSubscription(b, customer, subscription, dealer, period, price);
            if exists j :: 0 <= j < |b.invoices| && b.invoices[j].subscription == Some(subscription)
                           && b.invoices[j].period == Some(period) && b.invoices[j].status != Void then o == Rejected(Conflict)
            else if price.negative then o == Rejected(BadRequest)
            else o == Accepted(b.(invoices := b.invoices + [
                   Invoice(customer, Some(subscription), dealer, Some(period), [BilledLine(SubscriptionItem, cents)],
                           cents, 0, cents, Draft)]))
  {
    hide CreateInvoice, InvoiceAmounts.Rounds, InvoiceAmounts.LineAnswer, InvoiceAmounts.Nearest, Tied, Totals, Sum;
    var one, zero := InvoiceAmounts.Decimal(false, 1, 1), InvoiceAmounts.Decimal(false, 0, 1);
    var items := [Item(SubscriptionItem, InvoiceAmounts.LineInput(one, price, zero, zero))];
    var r := InvoiceAmounts.Rounded(1000, cents, 0, 0, cents);
    UnitRounds(price, cents);
    CreateMeans(b, customer, Some(subscription), dealer, Some(period), items, [r]);
    var o := CreateInvoice(b, customer, Some(subscription), dealer, Some(period), items);
    assert InvoiceAmounts.LineAnswer(items[0].input, [r][0]).Rejected? <==> price.negative;
    if !price.negative {
      var lines := o.books.invoices[|b.invoices|].lines;
      assert lines == [BilledLine(SubscriptionItem, cents)];
      OneLine(lines);
    }
  }

  /** One unit at a price, without discount and tax. */
  lemma UnitRounds(price: InvoiceAmounts.Input, cents: nat)
    requires InvoiceAmounts.Nearest(price, 100, cents)
    ensures var one, zero := InvoiceAmounts.Decimal(false, 1, 1), InvoiceAmounts.Decimal(false, 0, 1);
            var input, r := InvoiceAmounts.LineInput(one, price, zero, zero), InvoiceAmounts.Rounded(1000, cents, 0, 0, cents);
            && InvoiceAmounts.Rounds(input, r) && !Tied(r)
            && (InvoiceAmounts.LineAnswer(input, r).Rejected? <==> price.negative)
  {
  }

  lemma OneLine(lines: seq<BilledLine>)
    requires |lines| == 1
    ensures Sum(Totals(lines)) == lines[0].total
  {
    assert Totals(lines)[1..] == [];
  }
}
