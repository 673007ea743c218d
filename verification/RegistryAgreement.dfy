/** Custody, allocation and installation tell the same story, as long as customers keep their
    managing dealers. */
module RegistryAgreement {
  import opened Options
  import opened RegistryTables
  import opened Registry
  import opened RegistryInvariant
  import opened RegistryEffects
  import opened RegistrySteps
  import opened RegistryReplacement

  /** A dealer that holds a device has the only active allocation, and it is AVAILABLE; the platform
      holds only devices without one; an installed device is held by its vehicle's customer and is
      allocated, INSTALLED, to the managing dealer exactly when there is one; and only installed
      devices have an INSTALLED allocation. */
  ghost predicate Agrees(s: State, c: Situation) {
    && (forall x :: c.custodian == Some(Dealer(x)) ==> c.allocation == Some(Holding(x, Available)))
    && (c.custodian == Some(Platform) ==> c.allocation.None?)
    && (c.vehicle.Some? ==>
          && c.vehicle.value < |s.vehicles|
          && var customer := s.vehicles[c.vehicle.value].customer; var m := ManagingDealer(s, customer);
             && c.custodian == Some(Customer(customer))
             && c.allocation == if m.Some? then Some(Holding(m.value, InUse)) else None)
    && (c.vehicle.None? ==> c.allocation.Some? ==> c.allocation.value.status == Available)
  }

  ghost predicate Agreement(s: State) {
    forall d :: 0 <= d < |s.devices| ==> Agrees(s, Current(s, d))
  }

  /** Vehicles stay with their customers and those customers with their managing dealers. */
  ghost predicate SameManagers(s: State, t: State) {
    && |s.vehicles| <= |t.vehicles|
    && forall v :: 0 <= v < |s.vehicles| ==>
         && t.vehicles[v].customer == s.vehicles[v].customer
         && ManagingDealer(t, s.vehicles[v].customer) == ManagingDealer(s, s.vehicles[v].customer)
  }

  lemma AgreesStill(s: State, t: State, c: Situation)
    requires Agrees(s, c) && SameManagers(s, t)
    ensures Agrees(t, c)
  {
  }

  lemma AgreementAfter(s: State, t: State, d: DeviceId, c: Situation)
    requires Agreement(s) && SameManagers(s, t) && d < |s.devices| && Becomes(s, t, d, c) && Agrees(s, c)
    ensures Agreement(t)
  {
    hide Current, SameManagers, Agrees;
    forall e | 0 <= e < |t.devices|
      ensures Agrees(t, Current(t, e))
    {
      AgreesStill(s, t, if e == d then c else Current(s, e));
    }
  }

  lemma SameSituations(s: State, t: State)
    requires t.devices == s.devices && t.ownership == s.ownership && t.custody == s.custody
    requires t.allocations == s.allocations && t.assignments == s.assignments
    ensures forall d :: 0 <= d < |s.devices| ==> Current(t, d) == Current(s, d)
    ensures Agreement(s) && SameManagers(s, t) ==> Agreement(t)
    ensures Inv(s) && t.installations == s.installations && Linked(t) && ArchivedEmpty(t) ==> Inv(t)
  {
    hide SameManagers, Agrees, Linked, ArchivedEmpty, Settled, FindOpen, FindHeld, FindActive, Fitted, OpenOnce, HeldOnce, ActiveOnce;
    if Agreement(s) && SameManagers(s, t) {
      forall d | 0 <= d < |t.devices|
        ensures Agrees(t, Current(t, d))
      {
        AgreesStill(s, t, Current(s, d));
      }
    }
  }

  /** What every step keeps. */
  ghost predicate Sound(s: State, t: State) {
    Inv(t) && (Agreement(s) && SameManagers(s, t) ==> Agreement(t))
  }

  lemma RegisterSound(s: State, a: Actor, model: nat, imei: Option<string>, serial: Option<string>, now: Time)
    requires Inv(s) && Register(s, a, model, imei, serial, now).Accepted?
    ensures Sound(s, Register(s, a, model, imei, serial, now).state)
  {
    hide SameManagers, Agrees, Current, RegisterDevice, Inv, IdentityKnown;
    var i, n := Optional(imei), OptionalUpper(serial);
    var t := RegisterDevice(s, i, n, now);
    RegisterKeeps(s, i, n, now);
    if Agreement(s) && SameManagers(s, t) {
      forall d | 0 <= d < |t.devices|
        ensures Agrees(t, Current(t, d))
      {
        if d < |s.devices| {
          AgreesStill(s, t, Current(s, d));
        } else {
          PlatformAgrees(t, Current(t, d));
        }
      }
    }
  }

  lemma PlatformAgrees(s: State, c: Situation)
    requires c.custodian == Some(Platform) && c.allocation.None? && c.vehicle.None?
    ensures Agrees(s, c)
  {
  }

  lemma UpdateSound(s: State, a: Actor, d: DeviceId, lifecycle: Option<Lifecycle>, retiredAt: Option<Time>)
    requires Inv(s) && Update(s, a, d, lifecycle, retiredAt).Accepted?
    ensures Sound(s, Update(s, a, d, lifecycle, retiredAt).state)
  {
    hide SameManagers, Inv, Current, FindActive;
    var t := Update(s, a, d, lifecycle, retiredAt).state;
    UpdateKeeps(s, a, d, lifecycle, retiredAt);
    if Agreement(s) && SameManagers(s, t) {
      assert Agrees(s, Current(s, d));
      AgreementAfter(s, t, d, Current(t, d));
    }
  }

  lemma MoveSound(s: State, a: Actor, ids: seq<DeviceId>, target: Target, now: Time)
    requires Inv(s) && TransferDevices(s, a, ids, target, now).Accepted?
    ensures Sound(s, TransferDevices(s, a, ids, target, now).state)
  {
    hide SameManagers, Inv, Current, DeviceWhere, Movable, MoveAll;
    var to, dealer := TargetParty(target), TargetDealer(s, target);
    assert forall k :: 0 <= k < |ids| ==> ids[k] in ids;
    MoveAllKeeps(s, ids, to, dealer, now);
    var t := MoveAll(s, ids, to, dealer, now);
    if Agreement(s) && SameManagers(s, t) {
      forall d | 0 <= d < |t.devices|
        ensures Agrees(t, Current(t, d))
      {
        if d !in ids {
          AgreesStill(s, t, Current(s, d));
        }
      }
    }
  }

  lemma AllocateSound(s: State, a: Actor, d: DeviceId, dealer: DealerId, now: Time)
    requires Inv(s) && Allocate(s, a, d, dealer, now).Accepted?
    ensures Sound(s, Allocate(s, a, d, dealer, now).state)
  {
    hide SameManagers, Inv, Current, Allocate;
    AllocateKeeps(s, a, d, dealer, now);
    var t := Allocate(s, a, d, dealer, now).state;
    if Agreement(s) && SameManagers(s, t) {
      AllocateBound(s, a, d, dealer, now);
      AgreementAfter(s, t, d, Current(t, d));
    }
  }

  lemma AllocateBound(s: State, a: Actor, d: DeviceId, dealer: DealerId, now: Time)
    requires Allocate(s, a, d, dealer, now).Accepted?
    ensures d < |s.devices|
  {
  }

  lemma ReturnSound(s: State, a: Actor, d: DeviceId, now: Time)
    requires Inv(s) && ReturnToPlatform(s, a, d, now).Accepted?
    ensures Sound(s, ReturnToPlatform(s, a, d, now).state)
  {
    hide SameManagers, Linked, Current, ReturnToPlatform, OpenOnce, HeldOnce, ActiveOnce, Fitted, ArchivedEmpty;
    ReturnKeeps(s, a, d, now);
    hide Inv;
    var t := ReturnToPlatform(s, a, d, now).state;
    if Agreement(s) && SameManagers(s, t) {
      PlatformAgrees(s, Current(t, d));
      AgreementAfter(s, t, d, Current(t, d));
    }
  }

  /** A device that is not installed and has no allocation in stock has no active allocation. */
  lemma NoStockNoHolding(s: State, d: DeviceId)
    requires Inv(s) && Agreement(s) && d < |s.devices|
    requires FindActive(s.assignments, d).None? && FindStock(s.allocations, d).None?
    ensures Current(s, d).allocation.None?
  {
    hide FindStock, FindActive, Linked, Fitted, FindOpen, FindHeld;
    StockIsHeld(s.allocations, d);
    assert Agrees(s, Current(s, d));
  }

  lemma InstallSound(s: State, a: Actor, d: DeviceId, v: VehicleId, at: Time)
    requires Inv(s) && Install(s, a, d, v, at).Accepted?
    ensures Sound(s, Install(s, a, d, v, at).state)
  {
    hide SameManagers, Current, FindStock, FindActive, FindHeld, FindOpen, PutIn, Inv, Install;
    InstallKeeps(s, a, d, v, at);
    InstallFree(s, a, d, v, at);
    var t := Install(s, a, d, v, at).state;
    if Agreement(s) && SameManagers(s, t) {
      if ManagingDealer(s, s.vehicles[v].customer).None? {
        NoStockNoHolding(s, d);
      }
      AgreementAfter(s, t, d, Current(t, d));
    }
  }

  lemma InstallFree(s: State, a: Actor, d: DeviceId, v: VehicleId, at: Time)
    requires Install(s, a, d, v, at).Accepted?
    ensures FindActive(s.assignments, d).None?
  {
    hide FindActive, FindStock, PutIn;
  }

  lemma TakenOutAgrees(s: State, c: Situation)
    requires Agrees(s, c) && c.vehicle.Some?
    ensures Agrees(s, TakenOut(c, ManagingDealer(s, s.vehicles[c.vehicle.value].customer)))
  {
  }

  lemma RemoveSound(s: State, a: Actor, d: DeviceId, reason: EndReason, removal: RemovalReason, now: Time)
    requires Inv(s) && Remove(s, a, d, reason, removal, now).Accepted?
    ensures Sound(s, Remove(s, a, d, reason, removal, now).state)
  {
    hide SameManagers, Current, Linked, Remove, OpenOnce, HeldOnce, ActiveOnce, Fitted, ArchivedEmpty;
    RemoveKeeps(s, a, d, reason, removal, now);
    hide Inv;
    var t := Remove(s, a, d, reason, removal, now).state;
    if Agreement(s) && SameManagers(s, t) {
      TakenOutAgrees(s, Current(s, d));
      hide Agrees;
      AgreementAfter(s, t, d, Current(t, d));
    }
  }

  lemma ReplaceSound(s: State, a: Actor, current: DeviceId, next: DeviceId, removal: RemovalReason, now: Time, at: Time)
    requires Inv(s) && Replace(s, a, current, next, removal, now, at).Accepted?
    ensures Sound(s, Replace(s, a, current, next, removal, now, at).state)
  {
    ReplaceFree(s, a, current, next, removal, now, at);
    ReplaceSite(s, a, current, next, removal, now, at);
    hide SameManagers, Linked, Replace, OpenOnce, HeldOnce, ActiveOnce, Fitted, ArchivedEmpty, Holder, HoldingOf;
    hide FindActive, FindStock, Agrees;
    var v := VehicleOf(s.assignments, current).value;
    assert Current(s, current).vehicle == Some(v);
    hide Current;
    ReplaceKeeps(s, a, current, next, v, removal, now, at);
    var t := Replace(s, a, current, next, removal, now, at).state;
    var dealer := ManagingDealer(s, s.vehicles[v].customer);
    if Agreement(s) && SameManagers(s, t) {
      if dealer.None? {
        NoStockNoHolding(s, next);
      }
      hide Inv, Swapped;
      SwapAgrees(s, t, current, next, v);
    }
  }

  lemma SwapAgrees(s: State, t: State, current: DeviceId, next: DeviceId, v: VehicleId)
    requires Agreement(s) && SameManagers(s, t) && Swapped(s, t, current, next, v)
    requires ManagingDealer(s, s.vehicles[v].customer).None? ==> Current(s, next).allocation.None?
    ensures Agreement(t)
  {
    hide SameManagers, Current;
    assert Agrees(s, Current(s, current));
    TakenOutAgrees(s, Current(s, current));
    assert Agrees(s, Current(t, next));
    hide Agrees;
    forall d | 0 <= d < |t.devices|
      ensures Agrees(t, Current(t, d))
    {
      AgreesStill(s, t, if d == current || d == next then Current(t, d) else Current(s, d));
    }
  }

  lemma ReplaceFree(s: State, a: Actor, current: DeviceId, next: DeviceId, removal: RemovalReason, now: Time, at: Time)
    requires Linked(s) && ActiveOnce(s.assignments) && Replace(s, a, current, next, removal, now, at).Accepted?
    ensures FindActive(s.assignments, next).None?
  {
    hide Linked, FindActive, FindPrimary, FindHeld, FindStock, TakeOut, PutIn, ResolveAllocation, ActiveOnce, Replace;
    ReplaceParts(s, a, current, next, removal, now, at);
  }

  /** Vehicle operations and changes made elsewhere: the archive guard of the update keeps archived
      vehicles empty. */
  lemma VehicleSound(s: State, a: Actor, op: Op, now: Time)
    requires Inv(s) && Apply(s, a, op, now).Accepted?
    requires op.CreateVehicleOp? || op.UpdateVehicleOp? || op.SetCustomerOp? || op.SetDealerOp? || op.SetModelsOp?
    ensures Sound(s, Apply(s, a, op, now).state)
  {
    var t := Apply(s, a, op, now).state;
    assert Linked(t) && ArchivedEmpty(t);
    hide Inv, Linked, Apply, Agreement, SameManagers, ArchivedEmpty;
    SameTables(s, a, op, now);
    SameSituations(s, t);
  }

  lemma SameTables(s: State, a: Actor, op: Op, now: Time)
    requires Linked(s) && Apply(s, a, op, now).Accepted?
    requires op.CreateVehicleOp? || op.UpdateVehicleOp? || op.SetCustomerOp? || op.SetDealerOp? || op.SetModelsOp?
    ensures var t := Apply(s, a, op, now).state;
            && t.devices == s.devices && t.ownership == s.ownership && t.custody == s.custody
            && t.allocations == s.allocations && t.assignments == s.assignments && t.installations == s.installations
  {
    hide Linked, NormalizeRegistration, OptionalUpper;
  }

  /** Main theorem.  Every accepted step keeps the invariant, and keeps the agreement unless it
      changes the managing dealer of a customer with vehicles. */
  lemma StepSound(s: State, a: Actor, op: Op, now: Time)
    requires Inv(s) && Apply(s, a, op, now).Accepted?
    ensures Sound(s, Apply(s, a, op, now).state)
  {
    hide Sound, Agreement;
    hide Linked, OpenOnce, HeldOnce, ActiveOnce, Fitted, ArchivedEmpty, Current;
    hide Register, Update, TransferDevices, Allocate, ReturnToPlatform, Install, Remove, Replace, CreateVehicle, UpdateVehicle;
    match op
    case RegisterOp(model, imei, serial) => RegisterSound(s, a, model, imei, serial, now);
    case UpdateOp(d, lifecycle, retiredAt) => UpdateSound(s, a, d, lifecycle, retiredAt);
    case TransferOp(ids, target) => MoveSound(s, a, ids, target, now);
    case AllocateOp(d, dealer) => AllocateSound(s, a, d, dealer, now);
    case ReturnOp(d) => ReturnSound(s, a, d, now);
    case InstallOp(d, v, at) => InstallSound(s, a, d, v, Or(at, now));
    case RemoveOp(d, reason, removal) => RemoveSound(s, a, d, reason, removal, now);
    case ReplaceOp(d, next, removal, at) => ReplaceSound(s, a, d, next, removal, now, Or(at, now));
    case _ => VehicleSound(s, a, op, now);
  }
}
