/** Every operation keeps the invariant and changes the situation of the devices it names, and of
    no other device. */
module RegistryEffects {
  import opened Options
  import opened RegistryTables
  import opened Registry
  import opened RegistryInvariant

  // ----- Writes shared by the operations -----

  lemma RegisterKeeps(s: State, imei: Option<string>, serial: Option<string>, now: Time)
    requires Inv(s)
    ensures var t := RegisterDevice(s, imei, serial, now); var d := |s.devices|;
            && Inv(t) && |t.devices| == d + 1
            && Current(t, d) == Situation(InStock, Some(Platform), Some(Platform), None, None)
            && forall e :: 0 <= e < d ==> Current(t, e) == Current(s, e)
  {
    hide First, FindOpen, FindHeld, FindActive;
    var t, d := RegisterDevice(s, imei, serial, now), |s.devices|;
    NoRows(s, d);
    AppendHolder(s.ownership, Tenure(d, Platform, InitialStock, now, None));
    AppendHolder(s.custody, Tenure(d, Platform, Reception, now, None));
    forall e | 0 <= e < d
      ensures Current(t, e) == Current(s, e)
    {
      assert t.devices[e] == s.devices[e];
    }
    assert Current(t, d).vehicle.None?;
    assert Linked(t);
  }

  lemma NoRows(s: State, d: DeviceId)
    requires Linked(s) && d >= |s.devices|
    ensures FindOpen(s.ownership, d).None? && FindOpen(s.custody, d).None?
    ensures FindHeld(s.allocations, d).None? && FindActive(s.assignments, d).None?
  {
    hide First;
  }

  lemma MoveKeeps(s: State, d: DeviceId, to: Party, dealer: Option<DealerId>, now: Time)
    requires Inv(s) && d < |s.devices| && Movable(s, d)
    ensures var t := Move(s, d, to, dealer, now);
            && Inv(t)
            && Becomes(s, t, d, Situation(Allocated, Some(to), Some(to),
                                          if dealer.Some? then Some(Holding(dealer.value, Available)) else None, None))
            && t.assignments == s.assignments
            && (forall e :: 0 <= e < |s.devices| && e != d ==> t.devices[e] == s.devices[e])
  {
    LinkedMove(s, d, to, dealer, now);
    hide First, FindOpen, FindHeld, Linked, OpenOnce, HeldOnce, ActiveOnce, Fitted, ArchivedEmpty, Holder;
    var t := Move(s, d, to, dealer, now);
    RotateHolder(s.ownership, d, to, Transfer, now);
    RotateHolder(s.custody, d, to, Transfer, now);
    ReturnHeldEffect(s.allocations, d, now);
    var returned := ReturnHeld(s.allocations, d, now);
    if dealer.Some? {
      AppendHeld(returned, NewAllocation(dealer.value, d, now));
    } else {
      assert returned + [] == returned;
    }
    OthersKeep(s, t, d);
    SameArchived(s, t);
    InvAfter(s, t, d, Current(t, d));
  }

  lemma SameArchived(s: State, t: State)
    requires ArchivedEmpty(s) && t.assignments == s.assignments && t.vehicles == s.vehicles
    ensures ArchivedEmpty(t)
  {
  }

  lemma LinkedMove(s: State, d: DeviceId, to: Party, dealer: Option<DealerId>, now: Time)
    requires Linked(s) && d < |s.devices|
    ensures Linked(Move(s, d, to, dealer, now))
  {
  }

  /** If the parts of a situation are unchanged for other devices, so are their situations. */
  lemma OthersKeep(s: State, t: State, d: DeviceId)
    requires d < |s.devices| == |t.devices|
    requires forall e :: 0 <= e < |s.devices| && e != d ==> t.devices[e] == s.devices[e]
    requires forall e: DeviceId :: e != d ==> Holder(t.ownership, e) == Holder(s.ownership, e)
    requires forall e: DeviceId :: e != d ==> Holder(t.custody, e) == Holder(s.custody, e)
    requires forall e: DeviceId :: e != d ==> HoldingOf(t.allocations, e) == HoldingOf(s.allocations, e)
    requires forall e: DeviceId :: e != d ==> VehicleOf(t.assignments, e) == VehicleOf(s.assignments, e)
    ensures forall e :: 0 <= e < |s.devices| && e != d ==> Current(t, e) == Current(s, e)
  {
    hide Holder, HoldingOf, VehicleOf;
  }

  lemma AllocateKeeps(s: State, a: Actor, d: DeviceId, dealer: DealerId, now: Time)
    requires Inv(s) && Allocate(s, a, d, dealer, now).Accepted?
    ensures var t := Allocate(s, a, d, dealer, now).state;
            && Inv(t)
            && Becomes(s, t, d, Situation(Allocated, Current(s, d).owner, Some(Dealer(dealer)),
                                          Some(Holding(dealer, Available)), None))
  {
    var t := Allocate(s, a, d, dealer, now).state;
    LinkedCustody(s, t, d);
    hide First, FindOpen, FindHeld, Linked, OpenOnce, HeldOnce, ActiveOnce, Fitted, ArchivedEmpty, Holder;
    RotateHolder(s.custody, d, Dealer(dealer), Allocation, now);
    AppendHeld(s.allocations, NewAllocation(dealer, d, now));
    OthersKeep(s, t, d);
    SameArchived(s, t);
    assert Settled(Current(s, d));
    InvAfter(s, t, d, Current(t, d));
  }

  /** Adding rows of an existing device keeps the links. */
  lemma LinkedCustody(s: State, t: State, d: DeviceId)
    requires Linked(s) && d < |s.devices| == |t.devices|
    requires t.ownership == s.ownership && t.customers == s.customers
    requires t.vehicles == s.vehicles && t.installations == s.installations && t.assignments == s.assignments
    requires |s.custody| <= |t.custody| && |s.allocations| <= |t.allocations|
    requires forall i :: 0 <= i < |t.custody| ==>
               t.custody[i].device == if i < |s.custody| then s.custody[i].device else d
    requires forall i :: 0 <= i < |t.allocations| ==>
               t.allocations[i].device == if i < |s.allocations| then s.allocations[i].device else d
    ensures Linked(t)
  {
  }

  lemma ReturnKeeps(s: State, a: Actor, d: DeviceId, now: Time)
    requires Inv(s) && ReturnToPlatform(s, a, d, now).Accepted?
    ensures d < |s.devices|
    ensures var t := ReturnToPlatform(s, a, d, now).state;
            && Inv(t)
            && Becomes(s, t, d, Situation(InStock, Current(s, d).owner, Some(Platform), None, None))
  {
    var t := ReturnToPlatform(s, a, d, now).state;
    var i := FindHeld(s.allocations, d).value;
    LinkedCustody(s, t, d);
    hide First, FindOpen, Linked, OpenOnce, HeldOnce, ActiveOnce, Fitted, ArchivedEmpty, Holder;
    RotateHolder(s.custody, d, Platform, Return, now);
    RewriteHeld(s.allocations, i, s.allocations[i].(status := Returned, returnedAt := Some(now)));
    OthersKeep(s, t, d);
    SameArchived(s, t);
    assert Settled(Current(s, d));
    InvAfter(s, t, d, Current(t, d));
  }

  /** Writing device data that leaves every situation alone, or a lifecycle other than INSTALLED. */
  lemma UpdateKeeps(s: State, a: Actor, d: DeviceId, lifecycle: Option<Lifecycle>, retiredAt: Option<Time>)
    requires Inv(s) && Update(s, a, d, lifecycle, retiredAt).Accepted?
    ensures var t := Update(s, a, d, lifecycle, retiredAt).state;
            && Inv(t)
            && Becomes(s, t, d, if lifecycle.Some? then Current(s, d).(lifecycle := lifecycle.value) else Current(s, d))
  {
    var t := Update(s, a, d, lifecycle, retiredAt).state;
    assert Linked(t);
    hide First, FindOpen, FindHeld, Linked, OpenOnce, HeldOnce, ActiveOnce, Fitted, ArchivedEmpty, Holder;
    OthersKeep(s, t, d);
    SameArchived(s, t);
    assert Settled(Current(s, d));
    InvAfter(s, t, d, Current(t, d));
  }

  /** What must hold where a device is put into a vehicle. */
  ghost predicate Ready(s: State, d: DeviceId, v: VehicleId, allocation: Option<nat>, dealer: Option<DealerId>) {
    && d < |s.devices| && v < |s.vehicles|
    && Installable(s, d, v, None)
    && (allocation.Some? ==> allocation == FindStock(s.allocations, d))
    && (dealer.Some? ==> allocation.Some? && s.allocations[allocation.value].dealer == dealer.value)
    && (allocation.None? ==> dealer.None?)
  }

  lemma PutInTables(s: State, d: DeviceId, v: VehicleId, customer: CustomerId, dealer: Option<DealerId>,
                    allocation: Option<nat>, at: Time)
    requires OpenOnce(s.custody) && HeldOnce(s.allocations) && ActiveOnce(s.assignments)
    requires Fitted(s.assignments, s.installations) && Linked(s)
    requires Ready(s, d, v, allocation, dealer)
    ensures var t := PutIn(s, d, v, customer, dealer, allocation, at);
            && OpenOnce(t.custody) && HeldOnce(t.allocations) && ActiveOnce(t.assignments)
            && Fitted(t.assignments, t.installations)
            && FindActive(t.assignments, d) == Some(|s.assignments|)
            && Holder(t.custody, d) == Some(Customer(customer))
            && HoldingOf(t.allocations, d) == (
                 if allocation.Some? then Some(Holding(s.allocations[allocation.value].dealer, InUse))
                 else HoldingOf(s.allocations, d))
            && VehicleOf(t.assignments, d) == Some(v)
            && (forall e: DeviceId :: e != d ==> Holder(t.custody, e) == Holder(s.custody, e))
            && (forall e: DeviceId :: e != d ==> HoldingOf(t.allocations, e) == HoldingOf(s.allocations, e))
            && (forall e: DeviceId :: e != d ==> VehicleOf(t.assignments, e) == VehicleOf(s.assignments, e))
  {
    hide First, FindOpen, FindHeld, FindActive, FindStock, OpenOnce, HeldOnce, ActiveOnce, Fitted, Holder, HoldingOf;
    hide VehicleOf, VehicleTaken;
    var t := PutIn(s, d, v, customer, dealer, allocation, at);
    var row := t.assignments[|s.assignments|];
    RotateHolder(s.custody, d, Customer(customer), Installation, at);
    AppendActive(s.assignments, row);
    FitAppend(s.assignments, s.installations, row, t.installations[|s.installations|]);
    if allocation.Some? {
      StockIsHeld(s.allocations, d);
      RewriteHeld(s.allocations, allocation.value, t.allocations[allocation.value]);
    }
  }

  lemma PutInKeeps(s: State, d: DeviceId, v: VehicleId, customer: CustomerId, dealer: Option<DealerId>,
                   allocation: Option<nat>, at: Time)
    requires Inv(s) && Ready(s, d, v, allocation, dealer)
    ensures var t := PutIn(s, d, v, customer, dealer, allocation, at);
            && Inv(t)
            && Becomes(s, t, d, Situation(Installed, Current(s, d).owner, Some(Customer(customer)),
                 if allocation.Some? then Some(Holding(s.allocations[allocation.value].dealer, InUse))
                 else HoldingOf(s.allocations, d), Some(v)))
            && FindActive(t.assignments, d) == Some(|s.assignments|)
  {
    hide First, FindOpen, FindHeld, FindActive, FindStock, OpenOnce, HeldOnce, ActiveOnce, Fitted, ArchivedEmpty;
    hide Holder, HoldingOf, VehicleOf, VehicleTaken;
    var t := PutIn(s, d, v, customer, dealer, allocation, at);
    PutInTables(s, d, v, customer, dealer, allocation, at);
    PutInFrame(s, d, v, customer, dealer, allocation, at);
    hide Linked, PutIn;
    OthersKeep(s, t, d);
    assert Settled(Current(s, d));
    InvAfter(s, t, d, Current(t, d));
  }

  lemma PutInFrame(s: State, d: DeviceId, v: VehicleId, customer: CustomerId, dealer: Option<DealerId>,
                    allocation: Option<nat>, at: Time)
    requires Linked(s) && ArchivedEmpty(s) && d < |s.devices| && v < |s.vehicles|
    requires allocation.Some? ==> allocation.value < |s.allocations|
    ensures Linked(PutIn(s, d, v, customer, dealer, allocation, at))
    ensures ArchivedEmpty(PutIn(s, d, v, customer, dealer, allocation, at))
    ensures var t := PutIn(s, d, v, customer, dealer, allocation, at);
            && t.ownership == s.ownership && t.customers == s.customers && t.dealers == s.dealers
            && t.devices == SetLifecycle(s.devices, d, Installed)
            && t.vehicles == s.vehicles[v := s.vehicles[v].(status := ActiveVehicle)]
  {
  }

  lemma TakeOutTables(s: State, i: nat, dealer: Option<DealerId>, allocation: Option<nat>, reason: EndReason,
                      removal: RemovalReason, now: Time)
    requires OpenOnce(s.custody) && HeldOnce(s.allocations) && ActiveOnce(s.assignments)
    requires Fitted(s.assignments, s.installations) && Linked(s)
    requires i < |s.assignments| && s.assignments[i].status == Active
    requires allocation == FindHeld(s.allocations, s.assignments[i].device)
    requires TakeOut(s, i, dealer, allocation, reason, removal, now).Accepted?
    ensures var t := TakeOut(s, i, dealer, allocation, reason, removal, now).state;
            var d := s.assignments[i].device;
            var kept := dealer.Some? && allocation.Some?;
            && OpenOnce(t.custody) && HeldOnce(t.allocations) && ActiveOnce(t.assignments)
            && Fitted(t.assignments, t.installations)
            && Holder(t.custody, d) == Some(if kept then Dealer(dealer.value) else Platform)
            && HoldingOf(t.allocations, d) == (
                 if kept then Some(Holding(s.allocations[allocation.value].dealer, Available))
                 else HoldingOf(s.allocations, d))
            && VehicleOf(t.assignments, d).None?
            && (forall e: DeviceId :: e != d ==> Holder(t.custody, e) == Holder(s.custody, e))
            && (forall e: DeviceId :: e != d ==> HoldingOf(t.allocations, e) == HoldingOf(s.allocations, e))
            && (forall e: DeviceId :: e != d ==> VehicleOf(t.assignments, e) == VehicleOf(s.assignments, e))
  {
    var t := TakeOut(s, i, dealer, allocation, reason, removal, now).state;
    var d := s.assignments[i].device;
    var kept := dealer.Some? && allocation.Some?;
    assert FitsInstallation(s.assignments[i], s.installations);
    assert kept ==> HeldFor(s.allocations[allocation.value], d);
    hide First, FindOpen, FindHeld, FindActive, Linked, OpenOnce, HeldOnce, ActiveOnce, Fitted, Holder, HoldingOf, VehicleOf;
    RotateHolder(s.custody, d, if kept then Dealer(dealer.value) else Platform, Removal, now);
    EndActive(s.assignments, i, t.assignments[i]);
    var n := s.assignments[i].installation.value;
    FitEnd(s.assignments, s.installations, i, t.assignments[i], t.installations[n]);
    if kept {
      RewriteHeld(s.allocations, allocation.value, t.allocations[allocation.value]);
    }
  }

  lemma TakeOutKeeps(s: State, i: nat, dealer: Option<DealerId>, allocation: Option<nat>, reason: EndReason,
                     removal: RemovalReason, now: Time)
    requires Inv(s) && i < |s.assignments| && s.assignments[i].status == Active
    requires allocation == FindHeld(s.allocations, s.assignments[i].device)
    requires TakeOut(s, i, dealer, allocation, reason, removal, now).Accepted?
    ensures var t := TakeOut(s, i, dealer, allocation, reason, removal, now).state;
            var d := s.assignments[i].device;
            var kept := dealer.Some? && allocation.Some?;
            && Inv(t)
            && Becomes(s, t, d, Situation(
                 if kept then Allocated else InStock, Current(s, d).owner,
                 Some(if kept then Dealer(dealer.value) else Platform),
                 if kept then Some(Holding(s.allocations[allocation.value].dealer, Available))
                 else Current(s, d).allocation, None))
            && t.vehicles == s.vehicles && t.customers == s.customers
  {
    hide First, FindOpen, FindHeld, FindActive, OpenOnce, HeldOnce, ActiveOnce, Fitted, ArchivedEmpty;
    hide Holder, HoldingOf, VehicleOf;
    var t := TakeOut(s, i, dealer, allocation, reason, removal, now).state;
    var d := s.assignments[i].device;
    TakeOutTables(s, i, dealer, allocation, reason, removal, now);
    TakeOutFrame(s, i, dealer, allocation, reason, removal, now);
    hide Linked, TakeOut;
    OthersKeep(s, t, d);
    assert Settled(Current(s, d));
    InvAfter(s, t, d, Current(t, d));
  }

  lemma TakeOutFrame(s: State, i: nat, dealer: Option<DealerId>, allocation: Option<nat>, reason: EndReason,
                     removal: RemovalReason, now: Time)
    requires Linked(s) && ArchivedEmpty(s) && Fitted(s.assignments, s.installations)
    requires i < |s.assignments| && s.assignments[i].status == Active
    requires allocation.Some? ==> allocation.value < |s.allocations|
    requires TakeOut(s, i, dealer, allocation, reason, removal, now).Accepted?
    ensures var t := TakeOut(s, i, dealer, allocation, reason, removal, now).state;
            && Linked(t) && ArchivedEmpty(t)
            && t.vehicles == s.vehicles && t.customers == s.customers && t.ownership == s.ownership
            && t.devices == SetLifecycle(s.devices, s.assignments[i].device,
                                         if dealer.Some? && allocation.Some? then Allocated else InStock)
  {
    hide First, FindActive;
    var t := TakeOut(s, i, dealer, allocation, reason, removal, now).state;
    assert FitsInstallation(s.assignments[i], s.installations);
    LinkedTakeOut(s, t, i);
  }

  lemma LinkedTakeOut(s: State, t: State, i: nat)
    requires Linked(s) && ArchivedEmpty(s) && i < |s.assignments|
    requires |t.devices| == |s.devices| && |t.assignments| == |s.assignments|
    requires t.ownership == s.ownership && t.vehicles == s.vehicles && t.customers == s.customers
    requires forall j :: 0 <= j < |t.assignments| ==>
               && t.assignments[j].device == s.assignments[j].device
               && t.assignments[j].vehicle == s.assignments[j].vehicle
               && t.assignments[j].installation == s.assignments[j].installation
               && (t.assignments[j].status == Active ==> s.assignments[j].status == Active)
    requires |t.installations| == |s.installations| && |t.allocations| == |s.allocations|
    requires forall j :: 0 <= j < |t.installations| ==> t.installations[j].device == s.installations[j].device
    requires forall j :: 0 <= j < |t.allocations| ==> t.allocations[j].device == s.allocations[j].device
    requires forall j :: 0 <= j < |t.custody| ==> t.custody[j].device < |s.devices|
    ensures Linked(t) && ArchivedEmpty(t)
  {
  }
}
