/** How much of a commission refunds and manual reversals take back. */
module BillingRefunds {
  import opened Options
  import opened Decimals
  import opened CommissionRules
  import opened CommissionBounds
  import opened BillingBooks
  import opened BillingEngine
  import opened Billing
  import opened BillingRuns
  import opened BillingInstalments

  /** What the reversals of an entry take back together. */
  function ReversedTotal(entries: seq<Entry>, id: nat): int {
    if entries == [] then 0
    else
      var e := entries[|entries| - 1];
      ReversedTotal(entries[..|entries| - 1], id) + (if e.reversalOf == Some(id) then -e.amount else 0)
  }

  lemma ReversedMore(entries: seq<Entry>, e: Entry, id: nat)
    ensures ReversedTotal(entries + [e], id) == ReversedTotal(entries, id) + (if e.reversalOf == Some(id) then -e.amount else 0)
  {
    assert (entries + [e])[..|entries|] == entries;
  }

  lemma {:induction false} SameReversed(was: seq<Entry>, now: seq<Entry>, id: nat)
    requires |was| == |now|
    requires forall n :: 0 <= n < |was| ==> now[n].amount == was[n].amount && now[n].reversalOf == was[n].reversalOf
    ensures ReversedTotal(now, id) == ReversedTotal(was, id)
  {
    if was != [] {
      SameReversed(was[..|was| - 1], now[..|now| - 1], id);
    }
  }

  /** Reversing a share takes back that share of the entry, and nothing of any other. */
  lemma ShareTakesBack(b: Books, id: nat, ratio: int, other: nat)
    requires id < |b.entries| && b.entries[id].amount >= 0 && ratio >= 0
    ensures ReversedTotal(ReverseShare(b, id, ratio).entries, other)
            == ReversedTotal(b.entries, other) + (if other == id then ShareOf(b.entries[id].amount, ratio) else 0)
  {
    var o := b.entries[id];
    ShareSign(o.amount, ratio);
    hide ShareOf;
    var marked := ratio >= RATIO_ONE && o.status == Available;
    var now := b.entries[id := if marked then o.(status := Reversed) else o];
    SameReversed(b.entries, now, other);
    if ShareOf(o.amount, ratio) > 0 {
      ReversedMore(now, ReversalEntry(o, id, ShareOf(o.amount, ratio), if marked then Reversed else Available), other);
    }
  }

  /** What a round of the refund loop leaves of the old entries. */
  lemma ShareKeeps(b: Books, id: nat, ratio: int, n: nat)
    requires id < |b.entries| && n < |b.entries|
    ensures var t := ReverseShare(b, id, ratio);
            && n < |t.entries| && t.entries[n].amount == b.entries[n].amount
            && t.entries[n] == b.entries[n].(status := t.entries[n].status)
            && (t.entries[n].status == b.entries[n].status
                || (n == id && ratio >= RATIO_ONE && ShareOf(b.entries[id].amount, ratio) > 0
                    && b.entries[n].status == Available && t.entries[n].status == Reversed))
  {
    hide ShareOf;
  }

  lemma {:induction false} SharesTakeBack(b: Books, ids: seq<nat>, ratio: int, id: nat)
    requires forall k :: 0 <= k < |ids| ==> ids[k] < |b.entries| && b.entries[ids[k]].amount >= 0
    requires forall j, k :: 0 <= j < k < |ids| ==> ids[j] < ids[k]
    requires ratio >= 0 && id < |b.entries|
    ensures var t := ReverseShares(b, ids, ratio);
            && ReversedTotal(t.entries, id)
               == ReversedTotal(b.entries, id) + (if id in ids then ShareOf(b.entries[id].amount, ratio) else 0)
            && t.entries[id] == b.entries[id].(status := t.entries[id].status)
            && (t.entries[id].status != b.entries[id].status ==> ratio >= RATIO_ONE)
            && (id !in ids ==> t.entries[id].status == b.entries[id].status)
    decreases |ids|
  {
    hide ShareOf, ReverseShare, ReversedTotal;
    if ids != [] {
      var init, last := ids[..|ids| - 1], ids[|ids| - 1];
      assert ids == init + [last] && last !in init;
      SharesTakeBack(b, init, ratio, id);
      SharesTakeBack(b, init, ratio, last);
      var m := ReverseShares(b, init, ratio);
      ShareTakesBack(m, last, ratio, id);
      ShareKeeps(m, last, ratio, id);
    }
  }

  /** One refund takes back a share of every entry it finds, and of no other. */
  lemma RefundTakesBack(b: Books, p: nat, refund: Cents, payment: Cents, id: nat)
    requires 0 <= refund && 0 < payment && id < |b.entries|
    ensures var t := ReverseForRefund(b, p, refund, payment); var ratio := Ratio(refund, payment);
            && id < |t.entries|
            && ReversedTotal(t.entries, id) == ReversedTotal(b.entries, id)
               + (if Reversible(b.entries[id], p) then ShareOf(b.entries[id].amount, ratio) else 0)
            && t.entries[id] == b.entries[id].(status := t.entries[id].status)
            && (ratio < RATIO_ONE || !Reversible(b.entries[id], p) ==> t.entries[id].status == b.entries[id].status)
  {
    RatioPositive(refund, payment);
    hide Ratio, ShareOf, ReverseShares, ReversedTotal;
    SharesTakeBack(b, Originals(b.entries, p), Ratio(refund, payment), id);
  }

  // ----- Several refunds -----

  /** back is c times refunded / payment within k * (0.5 cents + c * 0.5e-8): twice the difference,
      scaled by payment and 1e8, is at most k * payment * (1e8 + c). */
  ghost predicate Within(back: int, c: Cents, refunded: Cents, payment: Cents, k: int) {
    var bound := k * (payment * RATIO_ONE + c * payment);
    -bound <= 2 * (payment * (back * RATIO_ONE)) - 2 * (c * (refunded * RATIO_ONE)) <= bound
  }

  lemma WithinMore(x: int, y: int, c: Cents, r: Cents, q: Cents, payment: Cents, k: int)
    requires Within(x, c, r, payment, 1) && Within(y, c, q, payment, k)
    ensures Within(x + y, c, r + q, payment, k + 1)
  {
    var bound := payment * RATIO_ONE + c * payment;
    AddErrors(RATIO_ONE, payment, c, r, q, x, y, k, bound);
  }

  lemma ShareWithin(c: Cents, refund: Cents, payment: Cents)
    requires c >= 0 && payment > 0
    ensures Within(ShareOf(c, Ratio(refund, payment)), c, refund, payment, 1)
  {
    ShareError(c, refund, payment);
  }

  lemma NothingWithin(c: Cents, refund: Cents, payment: Cents)
    requires c >= 0 && refund >= 0 && 2 * (refund * RATIO_ONE) <= payment
    ensures Within(0, c, refund, payment, 1)
  {
    var scaled := refund * RATIO_ONE;
    assert c * (payment - 2 * scaled) >= 0;
    assert c * scaled >= 0;
    assert c * (payment - 2 * scaled) == c * payment - 2 * (c * scaled);
    assert payment * RATIO_ONE >= 0;
    assert payment * (0 * RATIO_ONE) == 0;
  }

  /** The entry keeps everything but its status, and its reversals took back their fraction. */
  ghost predicate TakenBack(b: Books, t: Books, id: nat, refunded: Cents, payment: Cents, k: int) {
    && id < |b.entries| && id < |t.entries| && t.entries[id] == b.entries[id].(status := t.entries[id].status)
    && Within(ReversedTotal(t.entries, id) - ReversedTotal(b.entries, id), b.entries[id].amount, refunded, payment, k)
  }

  /** The entry is reversible, unless what is not refunded is too small to matter. */
  ghost predicate Open(b: Books, p: nat, id: nat, rest: Cents, payment: Cents) {
    && id < |b.entries| && b.entries[id].reversalOf.None? && b.entries[id].amount > 0 && b.entries[id].payment == p
    && b.entries[id].status != Cancelled
    && (Reversible(b.entries[id], p) || 2 * RATIO_ONE * rest <= payment)
  }

  lemma RefundStep(b: Books, p: nat, last: Cents, payment: Cents, id: nat, rest: Cents)
    requires 0 < payment && 0 <= last <= rest <= payment && Open(b, p, id, rest, payment)
    ensures var t := ReverseForRefund(b, p, last, payment);
            Open(t, p, id, rest - last, payment) && TakenBack(b, t, id, last, payment, 1)
  {
    hide Ratio, ShareOf, ReverseForRefund, ReversedTotal, Within;
    RefundTakesBack(b, p, last, payment, id);
    RatioReachesOne(last, payment);
    StatusAfter(b, p, last, payment, id);
    var c := b.entries[id].amount;
    if Reversible(b.entries[id], p) {
      ShareWithin(c, last, payment);
    } else {
      NothingWithin(c, last, payment);
    }
  }

  lemma TakenBackTwice(b: Books, m: Books, t: Books, id: nat, first: Cents, second: Cents, payment: Cents, k: int)
    requires TakenBack(b, m, id, first, payment, 1) && TakenBack(m, t, id, second, payment, k)
    ensures TakenBack(b, t, id, first + second, payment, k + 1)
  {
    hide Within, ReversedTotal;
    WithinMore(ReversedTotal(m.entries, id) - ReversedTotal(b.entries, id),
               ReversedTotal(t.entries, id) - ReversedTotal(m.entries, id),
               b.entries[id].amount, first, second, payment, k);
  }

  lemma NothingTakenBack(b: Books, id: nat, payment: Cents)
    requires id < |b.entries|
    ensures TakenBack(b, b, id, 0, payment, 0)
  {
    assert payment * (0 * RATIO_ONE) == 0;
    assert b.entries[id].amount * (0 * RATIO_ONE) == 0;
    assert 0 * (payment * RATIO_ONE + b.entries[id].amount * payment) == 0;
  }

  /** A refund only ever marks an entry REVERSED. */
  lemma StatusAfter(b: Books, p: nat, refund: Cents, payment: Cents, id: nat)
    requires 0 <= refund && 0 < payment && id < |b.entries|
    ensures var t := ReverseForRefund(b, p, refund, payment);
            id < |t.entries| && (t.entries[id].status == b.entries[id].status || t.entries[id].status == Reversed)
  {
    hide Ratio, ShareOf, ReversedTotal;
    SharesStatus(b, Originals(b.entries, p), Ratio(refund, payment), id);
  }

  lemma {:induction false} SharesStatus(b: Books, ids: seq<nat>, ratio: int, id: nat)
    requires (forall k :: 0 <= k < |ids| ==> ids[k] < |b.entries|) && id < |b.entries|
    ensures var t := ReverseShares(b, ids, ratio);
            t.entries[id].status == b.entries[id].status || t.entries[id].status == Reversed
    decreases |ids|
  {
    hide ShareOf, ReverseShare;
    if ids != [] {
      SharesStatus(b, ids[..|ids| - 1], ratio, id);
      ShareKeeps(ReverseShares(b, ids[..|ids| - 1], ratio), ids[|ids| - 1], ratio, id);
    }
  }

  // ----- Refunds over a run -----

  /** The operation does not reverse the entry by hand, nor mark it so. */
  predicate NotByHand(op: Op, id: nat) {
    && (op.ReverseOp? ==> op.id != id)
    && (op.MarkOp? && id in op.ids ==> op.status != Reversed)
  }

  predicate RefundOf(op: Op, p: nat) { op.RefundOp? && op.payment == p }

  /** Nothing more is taken back of the entry, and it is not marked REVERSED. */
  ghost predicate LeftAlone(b: Books, t: Books, id: nat) {
    && id < |b.entries| && id < |t.entries|
    && ReversedTotal(t.entries, id) == ReversedTotal(b.entries, id)
    && t.entries[id] == b.entries[id].(status := t.entries[id].status)
    && (t.entries[id].status == b.entries[id].status || t.entries[id].status !in {Reversed, Cancelled})
  }

  lemma OpenLeftAlone(b: Books, t: Books, p: nat, id: nat, rest: Cents, payment: Cents)
    requires Open(b, p, id, rest, payment) && LeftAlone(b, t, id)
    ensures Open(t, p, id, rest, payment)
  {
    hide ReversedTotal;
  }

  lemma {:induction false} EarnLeavesAlone(b: Books, p: nat, j: nat, ratio: int, at: Time, n: nat, id: nat)
    requires j < |b.invoices| && n <= |b.invoices[j].lines| && b.invoices[j].dealer.Some? && id < |b.entries|
    ensures LeftAlone(b, EarnLines(b, p, j, ratio, at, n), id)
  {
    hide Due, Duplicate, ReversedTotal;
    if n > 0 {
      EarnLeavesAlone(b, p, j, ratio, at, n - 1, id);
      var c := EarnLines(b, p, j, ratio, at, n - 1);
      DueNames(c, p, j, n - 1, ratio, at);
      var due := Due(c, p, j, n - 1, ratio, at);
      if due.Some? {
        ReversedMore(c.entries, due.value, id);
      }
    }
  }

  lemma CreateLeavesAlone(b: Books, p: nat, j: nat, amount: Cents, at: Time, id: nat)
    requires id < |b.entries|
    ensures LeftAlone(b, CreateForAllocation(b, p, j, amount, at), id)
  {
    hide ReversedTotal, EarnLines, Ratio;
    if j < |b.invoices| && b.invoices[j].dealer.Some? && b.invoices[j].total > 0 {
      EarnLeavesAlone(b, p, j, Ratio(amount, b.invoices[j].total), at, |b.invoices[j].lines|, id);
    }
  }

  lemma {:induction false} AllocateAllLeavesAlone(b: Books, p: nat, shares: seq<Share>, at: Time, id: nat)
    requires AllocateAll(b, p, shares, at).Accepted? && id < |b.entries|
    ensures LeftAlone(b, AllocateAll(b, p, shares, at).books, id)
    ensures AllocateAll(b, p, shares, at).books.payments == b.payments
    decreases |shares|
  {
    hide ReversedTotal, Allocatable, CreateForAllocation;
    if shares != [] {
      var init, s := shares[..|shares| - 1], shares[|shares| - 1];
      AllocateAllLeavesAlone(b, p, init, at, id);
      var c := AllocateAll(b, p, init, at).books;
      AllocatableBounds(c, p, s);
      CreateLeavesAlone(PayInvoice(c, p, s), p, s.invoice, s.amount, at, id);
      CreateSame(PayInvoice(c, p, s), p, s.invoice, s.amount, at);
    }
  }

  lemma ConfirmLeavesAlone(b: Books, q: nat, shares: seq<Share>, at: Time, id: nat)
    requires Confirm(b, q, shares, at).Accepted? && id < |b.entries|
    ensures LeftAlone(b, Confirm(b, q, shares, at).books, id)
    ensures q < |b.payments|
    ensures Confirm(b, q, shares, at).books.payments == b.payments[q := b.payments[q].(confirmed := true)]
  {
    hide AllocateAll, FirstError, SharesTotal, ReversedTotal;
    AllocateAllLeavesAlone(b.(payments := b.payments[q := b.payments[q].(confirmed := true)]), q, shares, at, id);
  }

  /** A refund of another payment. */
  lemma OtherRefund(b: Books, q: nat, refund: Cents, payment: Cents, id: nat)
    requires 0 <= refund && 0 < payment && id < |b.entries| && b.entries[id].payment != q
    ensures LeftAlone(b, ReverseForRefund(b, q, refund, payment), id)
  {
    hide ReversedTotal, ReverseForRefund, Ratio, ShareOf;
    RefundTakesBack(b, q, refund, payment, id);
  }

  lemma MarkLeavesAlone(b: Books, ids: set<nat>, status: EntryStatus, id: nat)
    requires id < |b.entries| && status != Cancelled && (id in ids ==> status != Reversed)
    ensures LeftAlone(b, MarkEntries(b, ids, status), id)
  {
    SameReversed(b.entries, MarkEntries(b, ids, status).entries, id);
    hide ReversedTotal;
  }

  lemma ReverseLeavesAlone(b: Books, other: nat, id: nat)
    requires id < |b.entries| && other < |b.entries| && other != id
    ensures LeftAlone(b, ReverseWhole(b, other), id)
  {
    var o := b.entries[other];
    var now := b.entries[other := if o.status == Available then o.(status := Reversed) else o];
    SameReversed(b.entries, now, id);
    ReversedMore(now, ReversalEntry(o, other, o.amount, Reversed), id);
    hide ReversedTotal;
  }

  lemma SameEntriesLeftAlone(b: Books, t: Books, id: nat)
    requires t.entries == b.entries && id < |b.entries|
    ensures LeftAlone(b, t, id)
  {
  }

  /** What a refund that is accepted does to the books. */
  lemma RefundBooks(b: Books, q: nat, invoice: Option<nat>, amount: Cents)
    requires Refund(b, q, invoice, amount).Accepted?
    ensures q < |b.payments| && 0 < amount && b.payments[q].refunded + amount <= b.payments[q].amount
    ensures var t := Refund(b, q, invoice, amount).books; var c := ReverseForRefund(b, q, amount, b.payments[q].amount);
            && t.entries == c.entries
            && t.payments == b.payments[q := b.payments[q].(refunded := b.payments[q].refunded + amount)]
  {
    hide Ratio, AllocatedBy;
    var payment := b.payments[q].(refunded := b.payments[q].refunded + amount);
    var c := b.(payments := b.payments[q := payment]);
    var d := if invoice.Some? && invoice.value < |b.invoices| && payment.refunded >= payment.amount
             then SetStatus(c, invoice.value, BillingBooks.Refunded) else c;
    if payment.amount > 0 {
      SharesOfEntries(b, d, Originals(b.entries, q), Ratio(amount, payment.amount));
    }
  }

  /** Reversals depend on the entries only. */
  lemma {:induction false} SharesOfEntries(b: Books, d: Books, ids: seq<nat>, ratio: int)
    requires d.entries == b.entries && forall k :: 0 <= k < |ids| ==> ids[k] < |b.entries|
    ensures ReverseShares(d, ids, ratio).entries == ReverseShares(b, ids, ratio).entries
    decreases |ids|
  {
    hide ShareOf;
    if ids != [] {
      SharesOfEntries(b, d, ids[..|ids| - 1], ratio);
    }
  }

  lemma OtherLeavesAlone(b: Books, op: Op, p: nat, id: nat)
    requires Good(b) && Apply(b, op).Accepted? && NotByHand(op, id) && !RefundOf(op, p)
    requires p < |b.payments| && id < |b.entries| && b.entries[id].payment == p
    ensures var t := Apply(b, op).books;
            && LeftAlone(b, t, id) && p < |t.payments|
            && t.payments[p].amount == b.payments[p].amount && t.payments[p].refunded == b.payments[p].refunded
  {
    hide Good, NewInvoice, Storable, HasAllocation, Billed, Confirm, Refund, ReverseWhole, MarkEntries, ReversedTotal, LeftAlone;
    var t := Apply(b, op).books;
    match op
    case ConfirmOp(q, shares, at) => ConfirmLeavesAlone(b, q, shares, at, id);
    case RefundOp(q, i, amount) =>
      OtherRefundStep(b, q, i, amount, id);
      RefundBooks(b, q, i, amount);
    case ReverseOp(other) =>
      ReverseLeavesAlone(b, other, id);
      ReverseWholePayments(b, other);
    case MarkOp(ids, status) =>
      MarkLeavesAlone(b, ids, status, id);
      MarkPayments(b, ids, status);
    case _ => SameEntriesLeftAlone(b, t, id);
  }

  lemma OtherRefundStep(b: Books, q: nat, invoice: Option<nat>, amount: Cents, id: nat)
    requires Good(b) && Refund(b, q, invoice, amount).Accepted? && id < |b.entries| && b.entries[id].payment != q
    ensures LeftAlone(b, Refund(b, q, invoice, amount).books, id)
  {
    hide Inv, InvoiceFunded, Refund, ReverseForRefund, ReversedTotal;
    RefundBooks(b, q, invoice, amount);
    assert PaymentFunds(b.payments[q], q, b.allocations);
    OtherRefund(b, q, amount, b.payments[q].amount, id);
  }

  lemma ReverseWholePayments(b: Books, id: nat)
    requires id < |b.entries|
    ensures ReverseWhole(b, id).payments == b.payments
  {
  }

  lemma MarkPayments(b: Books, ids: set<nat>, status: EntryStatus)
    ensures MarkEntries(b, ids, status).payments == b.payments
  {
  }

  /** How many refunds of the payment the run accepts. */
  function RefundCount(b: Books, ops: seq<Op>, p: nat): nat
    decreases |ops|
  {
    if ops == [] then 0
    else
      match Apply(b, ops[0])
      case Rejected(_) => RefundCount(b, ops[1..], p)
      case Accepted(c) => (if RefundOf(ops[0], p) then 1 else 0) + RefundCount(c, ops[1..], p)
  }

  /** Where the refunds of a payment stand for an entry: it is reversible, unless what is left is too
      small to matter. */
  ghost predicate Standing(b: Books, p: nat, id: nat, payment: Cents) {
    && p < |b.payments| && b.payments[p].amount == payment && 0 < payment && 0 <= b.payments[p].refunded <= payment
    && Open(b, p, id, payment - b.payments[p].refunded, payment)
  }

  lemma StepTakesBack(b: Books, op: Op, p: nat, id: nat, payment: Cents)
    requires Good(b) && Standing(b, p, id, payment) && Apply(b, op).Accepted? && NotByHand(op, id)
    ensures var t := Apply(b, op).books;
            && Standing(t, p, id, payment)
            && (if RefundOf(op, p) then TakenBack(b, t, id, t.payments[p].refunded - b.payments[p].refunded, payment, 1)
                else LeftAlone(b, t, id) && t.payments[p].refunded == b.payments[p].refunded)
  {
    hide Good, TakenBack, LeftAlone, Refund, Confirm, ReverseForRefund, CreateInvoice, BillSubscription;
    var t := Apply(b, op).books;
    var rest := payment - b.payments[p].refunded;
    if RefundOf(op, p) {
      RefundBooks(b, p, op.refunded, op.amount);
      RefundStep(b, p, op.amount, payment, id, rest);
      EntriesOnly(b, ReverseForRefund(b, p, op.amount, payment), t, p, id, op.amount, rest - op.amount, payment);
    } else {
      hide Apply, Open;
      OpenEntry(b, p, id, rest, payment);
      OtherLeavesAlone(b, op, p, id);
      OpenLeftAlone(b, t, p, id, rest, payment);
    }
  }

  lemma OpenEntry(b: Books, p: nat, id: nat, rest: Cents, payment: Cents)
    requires Open(b, p, id, rest, payment)
    ensures id < |b.entries| && b.entries[id].payment == p
  {
  }

  /** TakenBack and Open read the entries only. */
  lemma EntriesOnly(b: Books, c: Books, t: Books, p: nat, id: nat, refunded: Cents, rest: Cents, payment: Cents)
    requires t.entries == c.entries && TakenBack(b, c, id, refunded, payment, 1) && Open(c, p, id, rest, payment)
    ensures TakenBack(b, t, id, refunded, payment, 1) && Open(t, p, id, rest, payment)
  {
    hide Within, ReversedTotal;
  }

  /** Main theorem.  Over any run, with any other operations between the refunds of a payment, the
      reversals of an entry that is not reversed by hand take back the refunded fraction of its amount
      c within k * (0.5 cents + c * 0.5e-8), where k is the number of those refunds. */
  lemma {:induction false} RefundsError(b: Books, ops: seq<Op>, p: nat, id: nat, payment: Cents)
    requires Good(b) && Standing(b, p, id, payment) && forall j :: 0 <= j < |ops| ==> NotByHand(ops[j], id)
    ensures var t := Run(b, ops);
            && Standing(t, p, id, payment)
            && TakenBack(b, t, id, t.payments[p].refunded - b.payments[p].refunded, payment, RefundCount(b, ops, p))
    decreases |ops|
  {
    hide Good, Open, TakenBack, LeftAlone, Apply, NotByHand;
    OpenEntry(b, p, id, payment - b.payments[p].refunded, payment);
    if ops == [] {
      NothingTakenBack(b, id, payment);
    } else {
      assert NotByHand(ops[0], id);
      if Apply(b, ops[0]).Accepted? {
        var c := Apply(b, ops[0]).books;
        StepKeeps(b, ops[0]);
        StepTakesBack(b, ops[0], p, id, payment);
        RefundsError(c, ops[1..], p, id, payment);
        var t, n := Run(b, ops), RefundCount(c, ops[1..], p);
        if RefundOf(ops[0], p) {
          TakenBackTwice(b, c, t, id, c.payments[p].refunded - b.payments[p].refunded,
                         t.payments[p].refunded - c.payments[p].refunded, payment, n);
        } else {
          AloneThenTakenBack(b, c, t, id, t.payments[p].refunded - c.payments[p].refunded, payment, n);
        }
      } else {
        RefundsError(b, ops[1..], p, id, payment);
      }
    }
  }

  lemma AloneThenTakenBack(b: Books, m: Books, t: Books, id: nat, refunded: Cents, payment: Cents, k: int)
    requires LeftAlone(b, m, id) && TakenBack(m, t, id, refunded, payment, k)
    ensures TakenBack(b, t, id, refunded, payment, k)
  {
    hide ReversedTotal, Within;
  }

  /** Main theorem.  A full refund takes back exactly the commission of every entry it finds. */
  lemma FullRefundTakesBackAll(b: Books, p: nat, payment: Cents, id: nat)
    requires 0 < payment && id < |b.entries| && Reversible(b.entries[id], p)
    ensures var t := ReverseForRefund(b, p, payment, payment);
            ReversedTotal(t.entries, id) == ReversedTotal(b.entries, id) + b.entries[id].amount
  {
    hide ReverseForRefund;
    RefundTakesBack(b, p, payment, payment, id);
    FullRefund(b.entries[id].amount, payment);
  }

  // ----- Manual reversal -----

  /** Main theorem.  reverseEntry takes back the full amount whatever refunds took back before, so the
      entry and its reversals cancel exactly when nothing had been taken back. */
  lemma ReverseEntryTakesBackAll(b: Books, id: nat)
    requires id < |b.entries| && CanReverse(b.entries[id])
    ensures var t := ReverseWhole(b, id);
            && ReversedTotal(t.entries, id) == ReversedTotal(b.entries, id) + b.entries[id].amount
            && (t.entries[id].amount == ReversedTotal(t.entries, id) <==> ReversedTotal(b.entries, id) == 0)
            && (CanReverse(t.entries[id]) <==> b.entries[id].status != Available)
  {
    var o := b.entries[id];
    var now := b.entries[id := if o.status == Available then o.(status := Reversed) else o];
    SameReversed(b.entries, now, id);
    ReversedMore(now, ReversalEntry(o, id, o.amount, Reversed), id);
  }

  // ----- When the reversals stay within the commission -----

  /** Main theorem.  After an accepted refund the reversals of a reversible entry of amount c, of which
      some is taken back already, stay within c exactly when c times the rounded ratio of the refund is
      less than half a cent above what is left. */
  lemma RefundWithin(b: Books, p: nat, invoice: Option<nat>, amount: Cents, id: nat)
    requires Good(b) && Refund(b, p, invoice, amount).Accepted? && id < |b.entries| && Reversible(b.entries[id], p)
    ensures p < |b.payments| && b.payments[p].amount > 0
    ensures var c := b.entries[id].amount; var left := c - ReversedTotal(b.entries, id);
            ReversedTotal(Refund(b, p, invoice, amount).books.entries, id) <= c
            <==> 2 * (c * Ratio(amount, b.payments[p].amount)) < (2 * left + 1) * RATIO_ONE
  {
    hide Good, Refund, ReverseForRefund, ReversedTotal, Ratio;
    RefundBooks(b, p, invoice, amount);
    RefundedSign(b, p);
    RefundTakesBack(b, p, amount, b.payments[p].amount, id);
    RatioPositive(amount, b.payments[p].amount);
    var c := b.entries[id].amount;
    ShareWithinLeft(c, Ratio(amount, b.payments[p].amount), c - ReversedTotal(b.entries, id));
  }

  lemma ShareWithinLeft(c: Cents, ratio: int, left: Cents)
    requires c >= 0 && ratio >= 0
    ensures ShareOf(c, ratio) <= left <==> 2 * (c * ratio) < (2 * left + 1) * RATIO_ONE
  {
    assert c * ratio >= 0;
    RoundDivAtMostIff(c * ratio, RATIO_ONE, left);
  }

  lemma RefundedSign(b: Books, p: nat)
    requires Good(b) && p < |b.payments|
    ensures 0 <= b.payments[p].refunded <= b.payments[p].amount
  {
    hide Inv, InvoiceFunded;
    assert PaymentFunds(b.payments[p], p, b.allocations);
  }

  /** The share of the entry that a refund takes back: none unless it is of the entry's payment and the
      entry is reversible. */
  predicate TakesShare(b: Books, op: Op, id: nat)
    requires id < |b.entries|
  {
    op.RefundOp? && op.payment < |b.payments| && b.payments[op.payment].amount > 0 && Reversible(b.entries[id], op.payment)
  }

  /** What an accepted operation takes back of an entry. */
  function Taken(b: Books, op: Op, id: nat): int
    requires id < |b.entries|
  {
    if TakesShare(b, op, id) then ShareOf(b.entries[id].amount, Ratio(op.amount, b.payments[op.payment].amount))
    else if op.ReverseOp? && op.id == id then b.entries[id].amount
    else 0
  }

  /** The entry keeps everything but its status, and this much more is taken back of it. */
  ghost predicate TakesBack(b: Books, t: Books, id: nat, taken: int) {
    && id < |b.entries| && id < |t.entries| && t.entries[id] == b.entries[id].(status := t.entries[id].status)
    && ReversedTotal(t.entries, id) == ReversedTotal(b.entries, id) + taken
  }

  lemma RefundTakes(b: Books, op: Op, id: nat)
    requires Good(b) && op.RefundOp? && Apply(b, op).Accepted? && id < |b.entries|
    ensures TakesBack(b, Apply(b, op).books, id, Taken(b, op, id))
  {
    hide Good, Refund, ReverseForRefund, ReversedTotal, Ratio, ShareOf;
    RefundBooks(b, op.payment, op.refunded, op.amount);
    RefundedSign(b, op.payment);
    RefundTakesBack(b, op.payment, op.amount, b.payments[op.payment].amount, id);
  }

  lemma ReverseTakes(b: Books, op: Op, id: nat)
    requires op.ReverseOp? && Apply(b, op).Accepted? && id < |b.entries|
    ensures TakesBack(b, Apply(b, op).books, id, Taken(b, op, id))
  {
    hide ReversedTotal;
    if op.id == id {
      ReverseEntryTakesBackAll(b, id);
    } else {
      ReverseLeavesAlone(b, op.id, id);
    }
  }

  lemma MarkTakes(b: Books, op: Op, id: nat)
    requires op.MarkOp? && Apply(b, op).Accepted? && id < |b.entries|
    ensures TakesBack(b, Apply(b, op).books, id, 0)
  {
    SameReversed(b.entries, Apply(b, op).books.entries, id);
    hide ReversedTotal;
  }

  lemma OtherTakes(b: Books, op: Op, id: nat)
    requires Apply(b, op).Accepted? && id < |b.entries| && !op.RefundOp? && !op.ReverseOp? && !op.MarkOp?
    ensures TakesBack(b, Apply(b, op).books, id, 0)
  {
    hide ReversedTotal, NewInvoice, Storable, Billed, HasAllocation, Confirm;
    if op.ConfirmOp? {
      ConfirmLeavesAlone(b, op.payment, op.shares, op.at, id);
    }
  }

  lemma StepTakes(b: Books, op: Op, id: nat)
    requires Good(b) && Apply(b, op).Accepted? && id < |b.entries|
    ensures TakesBack(b, Apply(b, op).books, id, Taken(b, op, id))
  {
    hide Good, Apply, TakesBack;
    if op.RefundOp? {
      RefundTakes(b, op, id);
    } else if op.ReverseOp? {
      ReverseTakes(b, op, id);
    } else if op.MarkOp? {
      MarkTakes(b, op, id);
    } else {
      OtherTakes(b, op, id);
    }
  }

  /** The condition under which an operation leaves the reversals of an entry within its amount: that of
      RefundWithin for a refund, and nothing taken back so far for a reversal by hand. */
  predicate StaysWithin(b: Books, op: Op, id: nat)
    requires id < |b.entries|
  {
    var c := b.entries[id].amount;
    var left := c - ReversedTotal(b.entries, id);
    if TakesShare(b, op, id) then 2 * (c * Ratio(op.amount, b.payments[op.payment].amount)) < (2 * left + 1) * RATIO_ONE
    else op.ReverseOp? && op.id == id ==> ReversedTotal(b.entries, id) <= 0
  }

  /** Taking back is never negative and stays within what is left exactly under the condition. */
  lemma TakenWithin(b: Books, op: Op, id: nat)
    requires Good(b) && Apply(b, op).Accepted? && id < |b.entries| && b.entries[id].amount >= 0
    requires ReversedTotal(b.entries, id) <= b.entries[id].amount
    ensures Taken(b, op, id) <= b.entries[id].amount - ReversedTotal(b.entries, id) <==> StaysWithin(b, op, id)
  {
    hide Good, Refund, ReversedTotal, Ratio, ShareOf;
    if TakesShare(b, op, id) {
      RefundBooks(b, op.payment, op.refunded, op.amount);
      RatioPositive(op.amount, b.payments[op.payment].amount);
      ShareWithinLeft(b.entries[id].amount, Ratio(op.amount, b.payments[op.payment].amount),
                      b.entries[id].amount - ReversedTotal(b.entries, id));
    }
  }

  lemma TakenSign(b: Books, op: Op, id: nat)
    requires Apply(b, op).Accepted? && id < |b.entries| && b.entries[id].amount >= 0
    ensures Taken(b, op, id) >= 0
  {
    hide Refund, ReversedTotal, Ratio, ShareOf;
    if TakesShare(b, op, id) {
      RefundBooks(b, op.payment, op.refunded, op.amount);
      RatioPositive(op.amount, b.payments[op.payment].amount);
      ShareSign(b.entries[id].amount, Ratio(op.amount, b.payments[op.payment].amount));
    }
  }

  /** Every accepted operation of the run leaves the reversals of the entry within its amount. */
  predicate RunStaysWithin(b: Books, ops: seq<Op>, id: nat)
    decreases |ops|
  {
    ops == [] ||
    match Apply(b, ops[0])
    case Rejected(_) => RunStaysWithin(b, ops[1..], id)
    case Accepted(c) => id < |b.entries| && StaysWithin(b, ops[0], id) && RunStaysWithin(c, ops[1..], id)
  }

  /** Main theorem.  Over any run, reversals by hand and any other operations included, what is taken back
      of a commission stays within it exactly when every accepted operation meets its condition; once it
      has exceeded the commission it always does. */
  lemma {:induction false} RunWithin(b: Books, ops: seq<Op>, id: nat)
    requires Good(b) && id < |b.entries| && b.entries[id].amount >= 0
    ensures var t, c := Run(b, ops), b.entries[id].amount;
            && id < |t.entries| && t.entries[id].amount == c
            && ReversedTotal(t.entries, id) >= ReversedTotal(b.entries, id)
            && (ReversedTotal(b.entries, id) <= c ==> (ReversedTotal(t.entries, id) <= c <==> RunStaysWithin(b, ops, id)))
    decreases |ops|
  {
    hide Good, Apply, ReversedTotal, StaysWithin, Taken;
    if ops != [] {
      if Apply(b, ops[0]).Accepted? {
        var c := Apply(b, ops[0]).books;
        StepKeeps(b, ops[0]);
        StepTakes(b, ops[0], id);
        TakenSign(b, ops[0], id);
        if ReversedTotal(b.entries, id) <= b.entries[id].amount {
          TakenWithin(b, ops[0], id);
        }
        RunWithin(c, ops[1..], id);
      } else {
        RunWithin(b, ops[1..], id);
      }
    }
  }

  // ----- Refunds and reversals by hand together -----

  /** Over a run: the amounts and the number of the refunds that find the entry reversible, and the
      number of its reversals by hand. */
  datatype Tally = Tally(refunded: Cents, refunds: nat, byHand: nat)

  function RunTally(b: Books, ops: seq<Op>, id: nat): Tally
    decreases |ops|
  {
    if ops == [] then Tally(0, 0, 0)
    else
      match Apply(b, ops[0])
      case Rejected(_) => RunTally(b, ops[1..], id)
      case Accepted(c) =>
        var rest := RunTally(c, ops[1..], id);
        if id < |b.entries| && TakesShare(b, ops[0], id) then
          rest.(refunded := ops[0].amount + rest.refunded, refunds := rest.refunds + 1)
        else if ops[0].ReverseOp? && ops[0].id == id then rest.(byHand := rest.byHand + 1)
        else rest
  }

  lemma AmountStays(b: Books, op: Op, p: nat, id: nat)
    requires Apply(b, op).Accepted? && p < |b.payments| && id < |b.entries|
    ensures p < |Apply(b, op).books.payments| && Apply(b, op).books.payments[p].amount == b.payments[p].amount
  {
    hide Confirm, LeftAlone;
    if op.ConfirmOp? {
      ConfirmLeavesAlone(b, op.payment, op.shares, op.at, id);
    } else {
      hide Apply;
      PaymentsStay(b, op);
    }
  }

  lemma NothingTaken(c: Cents, payment: Cents)
    ensures Within(0, c, 0, payment, 0)
  {
    assert payment * (0 * RATIO_ONE) == 0 && c * (0 * RATIO_ONE) == 0 && 0 * (payment * RATIO_ONE + c * payment) == 0;
  }

  /** Main theorem.  Over any run at all, what the reversals of a commission c take back is c for each
      reversal by hand, plus the fraction refunded while the entry was reversible within k * (0.5 cents +
      c * 0.5e-8), where k is the number of those refunds. */
  lemma {:induction false} ReversalsError(b: Books, ops: seq<Op>, id: nat, payment: Cents)
    requires Good(b) && id < |b.entries| && b.entries[id].amount >= 0 && b.entries[id].payment < |b.payments|
    requires payment == b.payments[b.entries[id].payment].amount
    ensures var t, c, n := Run(b, ops), b.entries[id].amount, RunTally(b, ops, id);
            && id < |t.entries| && t.entries[id].amount == c
            && Within(ReversedTotal(t.entries, id) - ReversedTotal(b.entries, id) - n.byHand * c, c, n.refunded, payment, n.refunds)
    decreases |ops|
  {
    hide Good, Apply, ReversedTotal, Taken, Within, Reversible;
    if ops == [] {
      NothingTaken(b.entries[id].amount, payment);
    } else if Apply(b, ops[0]).Accepted? {
      var m := Apply(b, ops[0]).books;
      StepKeeps(b, ops[0]);
      StepTakes(b, ops[0], id);
      AmountStays(b, ops[0], b.entries[id].payment, id);
      ReversalsError(m, ops[1..], id, payment);
      TallyStep(b, m, Run(b, ops), ops[0], id, payment, RunTally(m, ops[1..], id));
    } else {
      ReversalsError(b, ops[1..], id, payment);
    }
  }

  lemma TallyStep(b: Books, m: Books, t: Books, op: Op, id: nat, payment: Cents, n: Tally)
    requires id < |b.entries| && b.entries[id].amount >= 0 && b.entries[id].payment < |b.payments| && id < |t.entries|
    requires payment == b.payments[b.entries[id].payment].amount && TakesBack(b, m, id, Taken(b, op, id))
    requires Within(ReversedTotal(t.entries, id) - ReversedTotal(m.entries, id) - n.byHand * b.entries[id].amount,
                    b.entries[id].amount, n.refunded, payment, n.refunds)
    ensures var c := b.entries[id].amount;
            var q := if TakesShare(b, op, id) then n.(refunded := op.amount + n.refunded, refunds := n.refunds + 1)
                     else if op.ReverseOp? && op.id == id then n.(byHand := n.byHand + 1) else n;
            Within(ReversedTotal(t.entries, id) - ReversedTotal(b.entries, id) - q.byHand * c, c, q.refunded, payment, q.refunds)
  {
    hide ReversedTotal, Within, Ratio, ShareOf;
    var c := b.entries[id].amount;
    if TakesShare(b, op, id) {
      ShareWithin(c, op.amount, payment);
      WithinMore(Taken(b, op, id), ReversedTotal(t.entries, id) - ReversedTotal(m.entries, id) - n.byHand * c,
                 c, op.amount, n.refunded, payment, n.refunds);
    } else if op.ReverseOp? && op.id == id {
      assert (n.byHand + 1) * c == n.byHand * c + c;
    }
  }
}
