/** Replacing a device is removing it and installing the replacement in one transaction. */
module RegistryReplacement {
  import opened Options
  import opened RegistryTables
  import opened Registry
  import opened RegistryInvariant
  import opened RegistryEffects
  import opened RegistrySteps

  /** What a removal leaves alone. */
  lemma TakeOutLeaves(s: State, i: nat, dealer: Option<DealerId>, allocation: Option<nat>, reason: EndReason,
                      removal: RemovalReason, now: Time)
    requires Linked(s) && Fitted(s.assignments, s.installations)
    requires i < |s.assignments| && s.assignments[i].status == Active
    requires allocation == FindHeld(s.allocations, s.assignments[i].device)
    requires TakeOut(s, i, dealer, allocation, reason, removal, now).Accepted?
    ensures var t := TakeOut(s, i, dealer, allocation, reason, removal, now).state; var d := s.assignments[i].device;
            && |t.allocations| == |s.allocations| && |t.assignments| == |s.assignments|
            && (forall j :: 0 <= j < |t.allocations| && s.allocations[j].device != d ==> t.allocations[j] == s.allocations[j])
            && (forall j :: 0 <= j < |t.allocations| && s.allocations[j].device == d ==> t.allocations[j].device == d)
            && (forall j :: 0 <= j < |t.assignments| && j != i ==> t.assignments[j] == s.assignments[j])
            && t.assignments[i].device == d && t.assignments[i].status == Ended
            && |t.devices| == |s.devices| && t.vehicles == s.vehicles && t.customers == s.customers
            && (forall e :: 0 <= e < |s.devices| && e != d ==> t.devices[e] == s.devices[e])
  {
    hide First, FindActive;
    assert FitsInstallation(s.assignments[i], s.installations);
  }

  lemma StockLeft(was: seq<DealerAllocation>, now: seq<DealerAllocation>, d: DeviceId, e: DeviceId)
    requires |now| == |was| && d != e
    requires forall j :: 0 <= j < |was| ==> if was[j].device == d then now[j].device == d else now[j] == was[j]
    ensures FindStock(now, e) == FindStock(was, e)
    ensures FindStock(now, e).Some? ==> now[FindStock(now, e).value] == was[FindStock(now, e).value]
  {
    hide First;
    assert forall j :: 0 <= j < |was| ==> StockFor(now[j], e) == StockFor(was[j], e);
  }

  lemma ActiveLeft(was: seq<Assignment>, now: seq<Assignment>, i: nat, e: DeviceId, v: VehicleId)
    requires |now| == |was| && i < |was| && was[i].device != e
    requires now[i].device == was[i].device && now[i].status != Active
    requires forall j :: 0 <= j < |was| && j != i ==> now[j] == was[j]
    ensures FindActive(now, e) == FindActive(was, e)
    ensures VehicleTaken(now, v, None) <==> VehicleTaken(was, v, Some(i))
  {
    hide First;
    assert forall j :: 0 <= j < |was| ==> ActiveFor(now[j], e) == ActiveFor(was[j], e);
    if VehicleTaken(now, v, None) {
      var j :| 0 <= j < |now| && PrimaryOn(now[j], v);
      assert PrimaryOn(was[j], v);
    }
    if VehicleTaken(was, v, Some(i)) {
      var j :| 0 <= j < |was| && Some(i) != Some(j) && PrimaryOn(was[j], v);
      assert PrimaryOn(now[j], v);
    }
  }

  /** The guards of replace, read before anything changes, are the guards of an install made
      after the removal. */
  lemma SameGuards(s: State, t: State, a: Actor, i: nat, next: DeviceId, v: VehicleId, dealer: Option<DealerId>)
    requires |t.allocations| == |s.allocations| && |t.assignments| == |s.assignments| && i < |s.assignments|
    requires s.assignments[i].device != next
    requires forall j :: 0 <= j < |t.allocations| && s.allocations[j].device != s.assignments[i].device ==>
               t.allocations[j] == s.allocations[j]
    requires forall j :: 0 <= j < |t.allocations| && s.allocations[j].device == s.assignments[i].device ==>
               t.allocations[j].device == s.assignments[i].device
    requires t.assignments[i].device == s.assignments[i].device && t.assignments[i].status == Ended
    requires forall j :: 0 <= j < |t.assignments| && j != i ==> t.assignments[j] == s.assignments[j]
    requires next < |s.devices| == |t.devices| && t.devices[next] == s.devices[next]
    ensures ResolveAllocation(t, a, next, dealer) == ResolveAllocation(s, a, next, dealer)
    ensures Installable(t, next, v, None) == Installable(s, next, v, Some(i))
  {
    hide FindStock, FindActive, VehicleTaken;
    StockLeft(s.allocations, t.allocations, s.assignments[i].device, next);
    ActiveLeft(s.assignments, t.assignments, i, next, v);
  }

  lemma SameVehicle(s: State, t: State, a: Actor, v: VehicleId)
    requires t.vehicles == s.vehicles && t.customers == s.customers
    ensures VehicleMutation(t, a, v) == VehicleMutation(s, a, v)
    ensures v < |s.vehicles| ==> ArchivedSite(t, v) == ArchivedSite(s, v)
  {
  }

  lemma PrimaryIsActive(s: State, d: DeviceId)
    requires ActiveOnce(s.assignments) && FindPrimary(s.assignments, d).Some?
    ensures FindActive(s.assignments, d) == FindPrimary(s.assignments, d)
  {
    hide First;
    SoleActive(s.assignments, FindPrimary(s.assignments, d).value);
  }

  /** The state between the removal and the install. */
  function Between(s: State, a: Actor, current: DeviceId, removal: RemovalReason, now: Time): Outcome
    requires Linked(s)
  {
    Remove(s, a, current, EndedByReplacement, removal, now)
  }

  /** Main theorem.  A replace of the device that fills a vehicle's primary place is accepted
      exactly when the removal is and the replacement could then be installed in the same vehicle,
      and both ways give the same tables.  The one difference is that install refuses a vehicle
      whose customer is archived and replace does not. */
  lemma ReplaceIsRemoveThenInstall(s: State, a: Actor, current: DeviceId, next: DeviceId, v: VehicleId,
                                   removal: RemovalReason, now: Time, at: Time)
    requires Inv(s) && current != next && FindPrimary(s.assignments, current).Some?
    requires VehicleOf(s.assignments, current) == Some(v)
    ensures v < |s.vehicles| && s.vehicles[v].customer in s.customers
    ensures var archived := s.customers[s.vehicles[v].customer].status == ArchivedCustomer;
            var m := Between(s, a, current, removal, now);
            var r := Replace(s, a, current, next, removal, now, at);
            && (r.Accepted? ==> m.Accepted?)
            && (m.Accepted? ==>
                  var i := Install(m.state, a, next, v, at);
                  && (archived ==> i == Rejected(BadRequest))
                  && (!archived ==> (r.Accepted? <==> i.Accepted?) && (r.Accepted? ==> r == i)))
  {
    PrimaryIsActive(s, current);
    ActiveLinked(s, current);
    hide Linked, First, FindActive, FindPrimary, FindHeld, FindStock, TakeOut, PutIn, ResolveAllocation, Installable;
    hide VehicleMutation;
    var i := FindActive(s.assignments, current).value;
    assert s.vehicles[v].status != ArchivedVehicle;
    hide ArchivedEmpty;
    var m := Between(s, a, current, removal, now);
    var mutation := VehicleMutation(s, a, v);
    if mutation.None? && m.Accepted? {
      var dealer := ManagingDealer(s, s.vehicles[v].customer);
      TakeOutLeaves(s, i, dealer, FindHeld(s.allocations, current), EndedByReplacement, removal, now);
      hide Inv, Fitted, Between, Remove;
      SameVehicle(s, m.state, a, v);
      if next < |s.devices| {
        SameGuards(s, m.state, a, i, next, v, dealer);
      }
    }
  }

  lemma ReplaceParts(s: State, a: Actor, current: DeviceId, next: DeviceId, removal: RemovalReason, now: Time, at: Time)
    requires Linked(s) && ActiveOnce(s.assignments) && Replace(s, a, current, next, removal, now, at).Accepted?
    ensures current != next && current < |s.devices| && next < |s.devices|
    ensures var f := FindActive(s.assignments, current);
            && f.Some? && f == FindPrimary(s.assignments, current)
            && var v := s.assignments[f.value].vehicle;
               && v < |s.vehicles| && s.vehicles[v].customer in s.customers
               && (s.assignments[f.value].installation.Some? ==> s.assignments[f.value].installation.value < |s.installations|)
               && Installable(s, next, v, f)
               && var dealer := ManagingDealer(s, s.vehicles[v].customer);
                  && ResolveAllocation(s, a, next, dealer).UseAllocation?
                  && var taken := TakeOut(s, f.value, dealer, FindHeld(s.allocations, current), EndedByReplacement, removal, now);
                     var row := ResolveAllocation(s, a, next, dealer).row;
                     && taken.Accepted? && next < |taken.state.devices| && v < |taken.state.vehicles|
                     && (row.Some? ==> row.value < |taken.state.allocations|)
                     && Replace(s, a, current, next, removal, now, at) ==
                          Accepted(PutIn(taken.state, next, v, s.vehicles[v].customer, dealer, row, at))
  {
    PrimaryIsActive(s, current);
    ActiveLinked(s, current);
    hide Linked, ActiveOnce, First, FindActive, FindPrimary, FindHeld, PutIn, Installable, VehicleMutation;
  }

  /** The removal half of a replacement leaves a state in which the replacement can be installed. */
  lemma ReplaceHalfway(s: State, a: Actor, current: DeviceId, next: DeviceId, i: nat, v: VehicleId,
                       dealer: Option<DealerId>, removal: RemovalReason, now: Time)
    requires Inv(s) && current != next && current < |s.devices| && next < |s.devices|
    requires FindActive(s.assignments, current) == Some(i) && v == s.assignments[i].vehicle && v < |s.vehicles|
    requires Installable(s, next, v, Some(i)) && ResolveAllocation(s, a, next, dealer).UseAllocation?
    requires TakeOut(s, i, dealer, FindHeld(s.allocations, current), EndedByReplacement, removal, now).Accepted?
    ensures var m := TakeOut(s, i, dealer, FindHeld(s.allocations, current), EndedByReplacement, removal, now).state;
            var row := ResolveAllocation(s, a, next, dealer).row;
            && Inv(m) && Becomes(s, m, current, TakenOut(Current(s, current), dealer))
            && |m.assignments| == |s.assignments| && m.vehicles == s.vehicles && m.customers == s.customers
            && Ready(m, next, v, row, dealer)
            && (dealer.None? ==> row.None? && FindStock(s.allocations, next).None?)
  {
    hide Linked, OpenOnce, HeldOnce, ActiveOnce, ArchivedEmpty, First, FindActive, FindHeld, FindStock, TakeOut, Installable;
    hide VehicleOf, Holder;
    var held := FindHeld(s.allocations, current);
    TakeOutKeeps(s, i, dealer, held, EndedByReplacement, removal, now);
    TakeOutLeaves(s, i, dealer, held, EndedByReplacement, removal, now);
    var m := TakeOut(s, i, dealer, held, EndedByReplacement, removal, now).state;
    hide Inv, Fitted, Becomes, Current, ResolveAllocation;
    SameGuards(s, m, a, i, next, v, dealer);
    if dealer.None? {
      ResolvedStock(s, a, next, dealer);
    }
    NextReady(m, a, next, v, dealer);
  }

  /** Two devices swap their roles in vehicle v, and no other device changes. */
  ghost predicate Swapped(s: State, t: State, current: DeviceId, next: DeviceId, v: VehicleId) {
    && current != next && current < |s.devices| && next < |s.devices| == |t.devices| && v < |s.vehicles|
    && Current(s, current).vehicle == Some(v)
    && (var customer := s.vehicles[v].customer; var dealer := ManagingDealer(s, customer);
       && Current(t, current) == TakenOut(Current(s, current), dealer)
       && Current(t, next) == Situation(Installed, Current(s, next).owner, Some(Customer(customer)),
                                        if dealer.Some? then Some(Holding(dealer.value, InUse))
                                        else Current(s, next).allocation, Some(v)))
    && (forall e :: 0 <= e < |s.devices| && e != current && e != next ==> Current(t, e) == Current(s, e))
  }

  lemma SwapInSteps(s: State, m: State, t: State, current: DeviceId, next: DeviceId, v: VehicleId, row: Option<nat>)
    requires current != next && current < |s.devices| && next < |s.devices| && v < |s.vehicles|
    requires Current(s, current).vehicle == Some(v)
    requires Becomes(s, m, current, TakenOut(Current(s, current), ManagingDealer(s, s.vehicles[v].customer)))
    requires Ready(m, next, v, row, ManagingDealer(s, s.vehicles[v].customer)) && next < |m.devices|
    requires ManagingDealer(s, s.vehicles[v].customer).None? ==> row.None?
    requires Becomes(m, t, next, Situation(Installed, Current(m, next).owner, Some(Customer(s.vehicles[v].customer)),
                 if row.Some? then Some(Holding(m.allocations[row.value].dealer, InUse))
                 else Current(m, next).allocation, Some(v)))
    ensures Swapped(s, t, current, next, v)
  {
    hide Current, Installable, FindStock;
  }

  /** What a replacement does. */
  lemma ReplaceKeeps(s: State, a: Actor, current: DeviceId, next: DeviceId, v: VehicleId, removal: RemovalReason,
                     now: Time, at: Time)
    requires Inv(s) && Replace(s, a, current, next, removal, now, at).Accepted?
    requires VehicleOf(s.assignments, current) == Some(v) && v < |s.vehicles|
    ensures var t := Replace(s, a, current, next, removal, now, at).state; Inv(t) && Swapped(s, t, current, next, v)
    ensures ManagingDealer(s, s.vehicles[v].customer).None? ==> FindStock(s.allocations, next).None?
  {
    ReplaceParts(s, a, current, next, removal, now, at);
    hide Linked, OpenOnce, HeldOnce, ActiveOnce, Fitted, ArchivedEmpty, ResolveAllocation, Becomes, Ready, Swapped;
    hide First, FindActive, FindPrimary, FindHeld, FindStock, TakeOut, PutIn, Installable, Replace, Holder, HoldingOf;
    var i := FindActive(s.assignments, current).value;
    assert Current(s, current).vehicle == Some(v);
    var dealer := ManagingDealer(s, s.vehicles[v].customer);
    ReplaceHalfway(s, a, current, next, i, v, dealer, removal, now);
    hide Inv, Current;
    var m := TakeOut(s, i, dealer, FindHeld(s.allocations, current), EndedByReplacement, removal, now).state;
    var row := ResolveAllocation(s, a, next, dealer).row;
    PutInKeeps(m, next, v, s.vehicles[v].customer, dealer, row, at);
    var t := PutIn(m, next, v, s.vehicles[v].customer, dealer, row, at);
    SwapInSteps(s, m, t, current, next, v, row);
  }

  /** The vehicle of a replacement. */
  lemma ReplaceSite(s: State, a: Actor, current: DeviceId, next: DeviceId, removal: RemovalReason, now: Time, at: Time)
    requires Linked(s) && Replace(s, a, current, next, removal, now, at).Accepted? && ActiveOnce(s.assignments)
    ensures var v := VehicleOf(s.assignments, current); v.Some? && v.value < |s.vehicles| && current < |s.devices|
  {
    hide Linked, ActiveOnce, FindActive, FindPrimary, FindHeld, PutIn, Installable, Replace, ResolveAllocation, TakeOut;
    ReplaceParts(s, a, current, next, removal, now, at);
  }

  lemma ResolvedStock(s: State, a: Actor, d: DeviceId, dealer: Option<DealerId>)
    requires ResolveAllocation(s, a, d, dealer).UseAllocation? && dealer.None?
    ensures ResolveAllocation(s, a, d, dealer).row.None? && FindStock(s.allocations, d).None?
  {
  }

  lemma NextReady(s: State, a: Actor, d: DeviceId, v: VehicleId, dealer: Option<DealerId>)
    requires d < |s.devices| && v < |s.vehicles| && Installable(s, d, v, None)
    requires ResolveAllocation(s, a, d, dealer).UseAllocation?
    ensures var row := ResolveAllocation(s, a, d, dealer).row;
            && Ready(s, d, v, row, dealer)
            && (dealer.None? ==> row.None? && FindStock(s.allocations, d).None?)
  {
    hide Installable;
  }

  /** After a replacement the vehicle has exactly one active primary assignment, the new one. */
  lemma OnePrimaryAfterReplace(s: State, a: Actor, current: DeviceId, next: DeviceId, v: VehicleId,
                               removal: RemovalReason, now: Time, at: Time)
    requires Inv(s) && Replace(s, a, current, next, removal, now, at).Accepted?
    requires VehicleOf(s.assignments, current) == Some(v)
    ensures var t := Replace(s, a, current, next, removal, now, at).state;
            forall i :: 0 <= i < |t.assignments| ==> (PrimaryOn(t.assignments[i], v) <==> i == |s.assignments|)
  {
    hide First, FindActive, FindPrimary, FindHeld, FindStock, TakeOut, Installable, Replace, ResolveAllocation, Linked, Fitted;
    ReplaceSite(s, a, current, next, removal, now, at);
    ReplaceRow(s, a, current, next, removal, now, at);
    ReplaceKeeps(s, a, current, next, v, removal, now, at);
    var t := Replace(s, a, current, next, removal, now, at).state;
    SolePrimary(t.assignments, |s.assignments|);
  }

  lemma ReplaceRow(s: State, a: Actor, current: DeviceId, next: DeviceId, removal: RemovalReason, now: Time, at: Time)
    requires Linked(s) && ActiveOnce(s.assignments) && Replace(s, a, current, next, removal, now, at).Accepted?
    ensures var t := Replace(s, a, current, next, removal, now, at).state; var f := FindActive(s.assignments, current);
            && f.Some? && |t.assignments| == |s.assignments| + 1
            && PrimaryOn(t.assignments[|s.assignments|], s.assignments[f.value].vehicle)
  {
    hide Linked, ActiveOnce, First, FindActive, FindPrimary, FindHeld, Installable, Replace, ResolveAllocation;
    ReplaceParts(s, a, current, next, removal, now, at);
  }

  lemma SolePrimary(rows: seq<Assignment>, k: nat)
    requires ActiveOnce(rows) && k < |rows| && PrimaryOn(rows[k], rows[k].vehicle)
    ensures forall i :: 0 <= i < |rows| ==> (PrimaryOn(rows[i], rows[k].vehicle) <==> i == k)
  {
  }
}
