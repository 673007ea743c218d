/** What a transfer writes, in closed form, and why the order of its list does not matter. */
module RegistryTransfer {
  import opened Options
  import opened RegistryTables
  import opened Registry

  function EndAll(rows: seq<Tenure>, ids: seq<DeviceId>, at: Time): seq<Tenure> {
    seq(|rows|, i requires 0 <= i < |rows| =>
      if rows[i].device in ids && rows[i].endedAt.None? then rows[i].(endedAt := Some(at)) else rows[i])
  }

  function ReturnAll(rows: seq<DealerAllocation>, ids: seq<DeviceId>, at: Time): seq<DealerAllocation> {
    seq(|rows|, i requires 0 <= i < |rows| =>
      if rows[i].device in ids && Held(rows[i].status) then rows[i].(status := Returned, returnedAt := Some(at)) else rows[i])
  }

  /** One new row for every element of a list. */
  function Each<A, R>(xs: seq<A>, f: A -> R): seq<R> {
    seq(|xs|, k requires 0 <= k < |xs| => f(xs[k]))
  }

  function Opened(ids: seq<DeviceId>, to: Party, at: Time): seq<Tenure> {
    Each(ids, d => Tenure(d, to, Transfer, at, None))
  }

  function Granted(ids: seq<DeviceId>, dealer: Option<DealerId>, at: Time): seq<DealerAllocation> {
    if dealer.Some? then Each(ids, d => NewAllocation(dealer.value, d, at)) else []
  }

  function AllAllocated(devices: seq<Device>, ids: seq<DeviceId>): seq<Device> {
    seq(|devices|, d requires 0 <= d < |devices| =>
      if d in ids then devices[d].(lifecycle := Allocated) else devices[d])
  }

  /** The tables after a transfer. */
  function Transferred(s: State, ids: seq<DeviceId>, to: Party, dealer: Option<DealerId>, now: Time): State {
    s.(allocations := ReturnAll(s.allocations, ids, now) + Granted(ids, dealer, now),
       ownership := EndAll(s.ownership, ids, now) + Opened(ids, to, now),
       custody := EndAll(s.custody, ids, now) + Opened(ids, to, now),
       devices := AllAllocated(s.devices, ids))
  }

  lemma TenureStep(rows: seq<Tenure>, ids: seq<DeviceId>, last: DeviceId, to: Party, at: Time)
    requires last !in ids
    ensures Rotate(EndAll(rows, ids, at) + Opened(ids, to, at), last, to, Transfer, at)
            == EndAll(rows, ids + [last], at) + Opened(ids + [last], to, at)
  {
    var before := EndAll(rows, ids, at) + Opened(ids, to, at);
    assert Opened(ids + [last], to, at) == Opened(ids, to, at) + [Tenure(last, to, Transfer, at, None)];
    assert EndCurrent(before, last, at) == EndAll(rows, ids + [last], at) + Opened(ids, to, at);
  }

  lemma AllocationStep(rows: seq<DealerAllocation>, ids: seq<DeviceId>, last: DeviceId, dealer: Option<DealerId>, at: Time)
    requires last !in ids
    ensures ReturnHeld(ReturnAll(rows, ids, at) + Granted(ids, dealer, at), last, at)
            + (if dealer.Some? then [NewAllocation(dealer.value, last, at)] else [])
            == ReturnAll(rows, ids + [last], at) + Granted(ids + [last], dealer, at)
  {
    var before := ReturnAll(rows, ids, at) + Granted(ids, dealer, at);
    if dealer.Some? {
      assert Granted(ids + [last], dealer, at) == Granted(ids, dealer, at) + [NewAllocation(dealer.value, last, at)];
    }
    assert ReturnHeld(before, last, at) == ReturnAll(rows, ids + [last], at) + Granted(ids, dealer, at);
  }

  /** The loop of the transfer writes exactly the closed form. */
  lemma {:induction false} MoveAllForm(s: State, ids: seq<DeviceId>, to: Party, dealer: Option<DealerId>, now: Time)
    requires Distinct(ids) && forall k :: 0 <= k < |ids| ==> ids[k] < |s.devices|
    ensures MoveAll(s, ids, to, dealer, now) == Transferred(s, ids, to, dealer, now)
    decreases |ids|
  {
    if ids == [] {
      assert EndAll(s.ownership, ids, now) + Opened(ids, to, now) == s.ownership;
      assert EndAll(s.custody, ids, now) + Opened(ids, to, now) == s.custody;
      assert ReturnAll(s.allocations, ids, now) + Granted(ids, dealer, now) == s.allocations;
      assert AllAllocated(s.devices, ids) == s.devices;
    } else {
      var init, last := ids[..|ids| - 1], ids[|ids| - 1];
      assert ids == init + [last] && last !in init;
      MoveAllForm(s, init, to, dealer, now);
      TenureStep(s.ownership, init, last, to, now);
      TenureStep(s.custody, init, last, to, now);
      AllocationStep(s.allocations, init, last, dealer, now);
      DeviceStep(s.devices, init, last);
      hide Rotate, ReturnHeld, EndAll, ReturnAll, Opened, Granted, AllAllocated, SetLifecycle;
    }
  }

  lemma DeviceStep(devices: seq<Device>, ids: seq<DeviceId>, last: DeviceId)
    requires last < |devices|
    ensures SetLifecycle(AllAllocated(devices, ids), last, Allocated) == AllAllocated(devices, ids + [last])
  {
  }

  // ----- Order -----

  lemma {:induction false} EachPermuted<A, R>(xs: seq<A>, ys: seq<A>, f: A -> R)
    requires multiset(xs) == multiset(ys)
    ensures multiset(Each(xs, f)) == multiset(Each(ys, f))
    decreases |xs|
  {
    hide Each;
    if xs == [] {
      assert |ys| == |multiset(ys)| == 0;
    } else {
      var x := xs[0];
      assert x in multiset(xs);
      var j :| 0 <= j < |ys| && ys[j] == x;
      var rest := ys[..j] + ys[j + 1..];
      SplitOff(ys, j);
      SplitOff(xs, 0);
      assert xs[..0] + xs[1..] == xs[1..];
      Cancel(multiset(xs[1..]), multiset(rest), x);
      EachPermuted(xs[1..], rest, f);
      EachSplit(xs, 0, f);
      EachSplit(ys, j, f);
    }
  }

  lemma Cancel<A>(a: multiset<A>, b: multiset<A>, x: A)
    requires multiset{x} + a == multiset{x} + b
    ensures a == b
  {
    assert multiset{x} + a - multiset{x} == a;
    assert multiset{x} + b - multiset{x} == b;
  }

  lemma SplitOff<A>(xs: seq<A>, j: nat)
    requires j < |xs|
    ensures multiset(xs) == multiset{xs[j]} + multiset(xs[..j] + xs[j + 1..])
  {
    assert xs == xs[..j] + [xs[j]] + xs[j + 1..];
  }

  lemma EachSplit<A, R>(xs: seq<A>, j: nat, f: A -> R)
    requires j < |xs|
    ensures multiset(Each(xs, f)) == multiset{f(xs[j])} + multiset(Each(xs[..j] + xs[j + 1..], f))
  {
    var ys := Each(xs, f);
    SplitOff(ys, j);
    assert ys[..j] + ys[j + 1..] == Each(xs[..j] + xs[j + 1..], f);
  }

  /** Equal tables up to the ids of the rows. */
  ghost predicate SameUpToIds(s: State, t: State) {
    && s == t.(ownership := s.ownership, custody := s.custody, allocations := s.allocations)
    && multiset(s.ownership) == multiset(t.ownership)
    && multiset(s.custody) == multiset(t.custody)
    && multiset(s.allocations) == multiset(t.allocations)
  }

  lemma OrderOfMoves(s: State, xs: seq<DeviceId>, ys: seq<DeviceId>, to: Party, dealer: Option<DealerId>, now: Time)
    requires multiset(xs) == multiset(ys)
    ensures SameUpToIds(Transferred(s, xs, to, dealer, now), Transferred(s, ys, to, dealer, now))
  {
    assert forall d :: d in xs <==> d in multiset(xs);
    assert forall d :: d in ys <==> d in multiset(ys);
    assert EndAll(s.ownership, xs, now) == EndAll(s.ownership, ys, now);
    assert EndAll(s.custody, xs, now) == EndAll(s.custody, ys, now);
    assert ReturnAll(s.allocations, xs, now) == ReturnAll(s.allocations, ys, now);
    assert AllAllocated(s.devices, xs) == AllAllocated(s.devices, ys);
    EachPermuted(xs, ys, d => Tenure(d, to, Transfer, now, None));
    if dealer.Some? {
      EachPermuted(xs, ys, d => NewAllocation(dealer.value, d, now));
    }
    hide Each, EndAll, ReturnAll, AllAllocated;
  }

  lemma DistinctPermuted(xs: seq<DeviceId>, ys: seq<DeviceId>)
    requires multiset(xs) == multiset(ys) && Distinct(xs)
    ensures Distinct(ys)
  {
    Multiplicity(xs);
    forall i, j | 0 <= i < j < |ys| && ys[i] == ys[j]
      ensures false
    {
      TwiceIn(ys, i, j);
    }
  }

  lemma TwiceIn(ys: seq<DeviceId>, i: nat, j: nat)
    requires i < j < |ys| && ys[i] == ys[j]
    ensures ys[j] in ys && multiset(ys)[ys[j]] >= 2
  {
    assert ys == ys[..j] + [ys[j]] + ys[j + 1..];
    assert ys[i] in ys[..j];
  }

  lemma {:induction false} Multiplicity(xs: seq<DeviceId>)
    requires Distinct(xs)
    ensures forall x :: x in xs ==> multiset(xs)[x] == 1
  {
    if xs != [] {
      var rest := xs[1..];
      assert xs == [xs[0]] + rest;
      assert xs[0] !in rest;
      Multiplicity(rest);
      assert multiset(xs) == multiset{xs[0]} + multiset(rest);
    }
  }

  /** Main theorem.  Whether a transfer is accepted, and what it writes up to the ids of its rows,
      does not depend on the order of its list. */
  lemma TransferOrder(s: State, a: Actor, xs: seq<DeviceId>, ys: seq<DeviceId>, target: Target, now: Time)
    requires multiset(xs) == multiset(ys)
    ensures var r := TransferDevices(s, a, xs, target, now); var q := TransferDevices(s, a, ys, target, now);
            && (r.Accepted? <==> q.Accepted?)
            && (r.Rejected? ==> r == q)
            && (r.Accepted? ==> SameUpToIds(r.state, q.state))
  {
    if Distinct(xs) {
      DistinctPermuted(xs, ys);
    }
    if Distinct(ys) {
      DistinctPermuted(ys, xs);
    }
    assert forall d :: d in xs <==> d in multiset(xs);
    assert forall d :: d in ys <==> d in multiset(ys);
    TransferGuards(s, a, xs, ys, target, now);
    var r, q := TransferDevices(s, a, xs, target, now), TransferDevices(s, a, ys, target, now);
    if r.Accepted? {
      TransferForm(s, a, xs, target, now);
      TransferForm(s, a, ys, target, now);
      hide TransferDevices;
      OrderOfMoves(s, xs, ys, TargetParty(target), TargetDealer(s, target), now);
    }
  }

  lemma TransferGuards(s: State, a: Actor, xs: seq<DeviceId>, ys: seq<DeviceId>, target: Target, now: Time)
    requires Distinct(xs) <==> Distinct(ys)
    requires forall d :: d in xs <==> d in ys
    ensures var r := TransferDevices(s, a, xs, target, now); var q := TransferDevices(s, a, ys, target, now);
            (r.Accepted? <==> q.Accepted?) && (r.Rejected? ==> r == q)
  {
    hide Distinct, DeviceWhere, Movable, MoveAll, TargetError;
  }

  /** What an accepted transfer writes. */
  lemma TransferForm(s: State, a: Actor, ids: seq<DeviceId>, target: Target, now: Time)
    requires TransferDevices(s, a, ids, target, now).Accepted?
    ensures TransferDevices(s, a, ids, target, now).state
            == Transferred(s, ids, TargetParty(target), TargetDealer(s, target), now)
  {
    hide DeviceWhere, Movable, MoveAll, TargetError, Transferred;
    assert forall k :: 0 <= k < |ids| ==> ids[k] in ids;
    MoveAllForm(s, ids, TargetParty(target), TargetDealer(s, target), now);
  }
}
