/** What accepted requests write, row by row, and where it leaves the devices they name. */
module RegistryWrites {
  import opened Options
  import opened RegistryTables
  import opened Registry
  import opened RegistryInvariant
  import opened RegistryEffects
  import opened RegistrySteps
  import opened RegistryScope
  import opened RegistryTransfer
  import opened RegistryReplacement
  import opened RegistryAnswers

  // ----- Tables -----

  /** The open row of d ends at an instant, and one row of d opens at the same instant. */
  ghost predicate Handed(was: seq<Tenure>, now: seq<Tenure>, d: DeviceId, to: Party, reason: Reason, at: Time) {
    && |now| == |was| + 1 && now[|was|] == Tenure(d, to, reason, at, None)
    && forall i :: 0 <= i < |was| ==>
         now[i] == if was[i].device == d && was[i].endedAt == None then was[i].(endedAt := Some(at)) else was[i]
  }

  lemma RotateHands(rows: seq<Tenure>, d: DeviceId, to: Party, reason: Reason, at: Time)
    ensures Handed(rows, Rotate(rows, d, to, reason, at), d, to, reason, at)
  {
  }

  /** Only the lifecycle of d changes. */
  ghost predicate NowIs(was: seq<Device>, now: seq<Device>, d: DeviceId, l: Lifecycle) {
    && |now| == |was|
    && forall e :: 0 <= e < |was| ==> now[e] == if e == d then was[e].(lifecycle := l) else was[e]
  }

  /** The request leaves these tables. */
  ghost predicate SameRest(s: State, t: State) {
    t.customers == s.customers && t.dealers == s.dealers && t.activeModels == s.activeModels
    && t.platformOrganization == s.platformOrganization
  }

  // ----- install -----

  ghost predicate InstallWrites(s: State, t: State, d: DeviceId, v: VehicleId, at: Time) {
    && v < |s.vehicles|
    && var c := s.vehicles[v].customer; var m := if c in s.customers then s.customers[c].managingDealer else None;
       && NowIs(s.devices, t.devices, d, Installed)
       && t.ownership == s.ownership
       && Handed(s.custody, t.custody, d, Customer(c), Installation, at)
       && |t.installations| == |s.installations| + 1
       && (forall i :: 0 <= i < |s.installations| ==> t.installations[i] == s.installations[i])
       && t.installations[|s.installations|] == DeviceInstallation(d, v, m, Completed, at, None, None)
       && |t.assignments| == |s.assignments| + 1
       && (forall i :: 0 <= i < |s.assignments| ==> t.assignments[i] == s.assignments[i])
       && t.assignments[|s.assignments|] == Assignment(v, d, Some(|s.installations|), Primary, Active, at, None, None)
       && |t.allocations| == |s.allocations|
       && (forall i :: 0 <= i < |s.allocations| ==>
             t.allocations[i] == if m.Some? && InStockOf(s.allocations[i], d, m.value)
                                 then s.allocations[i].(status := InUse, installedAt := Some(at)) else s.allocations[i])
       && |t.vehicles| == |s.vehicles|
       && (forall w :: 0 <= w < |s.vehicles| ==>
             t.vehicles[w] == if w == v then s.vehicles[w].(status := ActiveVehicle) else s.vehicles[w])
       && SameRest(s, t)
  }

  lemma OnlyStock(rows: seq<DealerAllocation>, d: DeviceId, m: DealerId)
    requires HeldOnce(rows) && FindStock(rows, d).Some? && rows[FindStock(rows, d).value].dealer == m
    ensures forall i :: 0 <= i < |rows| ==> (InStockOf(rows[i], d, m) <==> i == FindStock(rows, d).value)
  {
    hide First;
  }

  lemma PutInWrites(s: State, d: DeviceId, v: VehicleId, at: Time)
    requires HeldOnce(s.allocations) && d < |s.devices| && v < |s.vehicles|
    requires var dealer := ManagingDealer(s, s.vehicles[v].customer); var stock := FindStock(s.allocations, d);
             dealer.Some? ==> stock.Some? && s.allocations[stock.value].dealer == dealer.value
    ensures var dealer := ManagingDealer(s, s.vehicles[v].customer);
            InstallWrites(s, PutIn(s, d, v, s.vehicles[v].customer, dealer,
                                   if dealer.Some? then FindStock(s.allocations, d) else None, at), d, v, at)
  {
    hide Rotate, FindStock, HeldOnce, Handed;
    var dealer := ManagingDealer(s, s.vehicles[v].customer);
    RotateHands(s.custody, d, Customer(s.vehicles[v].customer), Installation, at);
    if dealer.Some? {
      OnlyStock(s.allocations, d, dealer.value);
    }
    hide InStockOf;
  }

  /** Main theorem.  What an accepted install writes: the lifecycle, the custody, one COMPLETED
      installation, one active primary assignment that refers to it, the allocation of the managing
      dealer and the status of the vehicle - and nothing else. */
  lemma InstallEffect(s: State, a: Actor, d: DeviceId, v: VehicleId, at: Time)
    requires HeldOnce(s.allocations) && Install(s, a, d, v, at).Accepted?
    ensures InstallWrites(s, Install(s, a, d, v, at).state, d, v, at)
  {
    hide FindStock, FindActive, PutIn, Installable, VehicleMutation, InstallWrites, HeldOnce;
    InstallReady(s, a, d, v, at);
    hide Install;
    PutInWrites(s, d, v, at);
  }

  // ----- remove -----

  /** Row i is the active assignment that ends. */
  ghost predicate RemoveWrites(s: State, t: State, i: nat, reason: EndReason, removal: RemovalReason, now: Time) {
    && i < |s.assignments| && s.assignments[i].vehicle < |s.vehicles|
    && var d := s.assignments[i].device; var c := s.vehicles[s.assignments[i].vehicle].customer;
       var m := if c in s.customers then s.customers[c].managingDealer else None;
       var back := m.Some? && Allotted(s, d);
       && NowIs(s.devices, t.devices, d, if back then Allocated else InStock)
       && t.ownership == s.ownership
       && Handed(s.custody, t.custody, d, if back then Dealer(m.value) else Platform, Removal, now)
       && |t.assignments| == |s.assignments|
       && (forall k :: 0 <= k < |s.assignments| ==>
             t.assignments[k] == if k == i then s.assignments[k].(status := Ended, endedAt := Some(now), endReason := Some(reason))
                                 else s.assignments[k])
       && |t.installations| == |s.installations|
       && (forall k :: 0 <= k < |s.installations| ==>
             t.installations[k] == if s.assignments[i].installation == Some(k)
                                   then s.installations[k].(status := InstallationStatus.Removed, removedAt := Some(now),
                                                            removalReason := Some(removal))
                                   else s.installations[k])
       && |t.allocations| == |s.allocations|
       && (forall k :: 0 <= k < |s.allocations| ==>
             t.allocations[k] == if m.Some? && AllocatedNow(s.allocations[k], d)
                                 then s.allocations[k].(status := Available, availableAt := Some(now)) else s.allocations[k])
       && t.vehicles == s.vehicles && SameRest(s, t)
  }

  lemma OnlyHeld(rows: seq<DealerAllocation>, d: DeviceId)
    requires HeldOnce(rows)
    ensures forall i :: 0 <= i < |rows| ==> (AllocatedNow(rows[i], d) <==> FindHeld(rows, d) == Some(i))
  {
    hide First;
    forall i | 0 <= i < |rows| && AllocatedNow(rows[i], d)
      ensures FindHeld(rows, d) == Some(i)
    {
      HeldFound(rows, i);
    }
  }

  lemma TakeOutBack(s: State, i: nat, reason: EndReason, removal: RemovalReason, now: Time)
    requires HeldOnce(s.allocations) && i < |s.assignments| && s.assignments[i].device < |s.devices|
    requires s.assignments[i].vehicle < |s.vehicles|
    requires s.assignments[i].installation.Some? ==> s.assignments[i].installation.value < |s.installations|
    requires var c := s.vehicles[s.assignments[i].vehicle].customer;
             TakeOut(s, i, ManagingDealer(s, c), FindHeld(s.allocations, s.assignments[i].device), reason, removal, now).Accepted?
    requires ManagingDealer(s, s.vehicles[s.assignments[i].vehicle].customer).Some?
    requires FindHeld(s.allocations, s.assignments[i].device).Some?
    ensures var c := s.vehicles[s.assignments[i].vehicle].customer;
            RemoveWrites(s, TakeOut(s, i, ManagingDealer(s, c), FindHeld(s.allocations, s.assignments[i].device), reason, removal, now).state,
                         i, reason, removal, now)
  {
    hide Rotate, FindHeld, HeldOnce, Handed, AllocatedNow, Allotted;
    var d, dealer := s.assignments[i].device, ManagingDealer(s, s.vehicles[s.assignments[i].vehicle].customer);
    Stocking(s, d, 0);
    OnlyHeld(s.allocations, d);
    RotateHands(s.custody, d, Dealer(dealer.value), Removal, now);
  }

  lemma TakeOutToPlatform(s: State, i: nat, reason: EndReason, removal: RemovalReason, now: Time)
    requires HeldOnce(s.allocations) && i < |s.assignments| && s.assignments[i].device < |s.devices|
    requires s.assignments[i].vehicle < |s.vehicles|
    requires s.assignments[i].installation.Some? ==> s.assignments[i].installation.value < |s.installations|
    requires var c := s.vehicles[s.assignments[i].vehicle].customer;
             TakeOut(s, i, ManagingDealer(s, c), FindHeld(s.allocations, s.assignments[i].device), reason, removal, now).Accepted?
    requires ManagingDealer(s, s.vehicles[s.assignments[i].vehicle].customer).None?
               || FindHeld(s.allocations, s.assignments[i].device).None?
    ensures var c := s.vehicles[s.assignments[i].vehicle].customer;
            RemoveWrites(s, TakeOut(s, i, ManagingDealer(s, c), FindHeld(s.allocations, s.assignments[i].device), reason, removal, now).state,
                         i, reason, removal, now)
  {
    hide Rotate, FindHeld, HeldOnce, Handed, AllocatedNow, Allotted;
    var d := s.assignments[i].device;
    Stocking(s, d, 0);
    OnlyHeld(s.allocations, d);
    RotateHands(s.custody, d, Platform, Removal, now);
  }

  lemma TakeOutWrites(s: State, i: nat, reason: EndReason, removal: RemovalReason, now: Time)
    requires HeldOnce(s.allocations) && i < |s.assignments| && s.assignments[i].device < |s.devices|
    requires s.assignments[i].vehicle < |s.vehicles|
    requires s.assignments[i].installation.Some? ==> s.assignments[i].installation.value < |s.installations|
    requires var c := s.vehicles[s.assignments[i].vehicle].customer;
             TakeOut(s, i, ManagingDealer(s, c), FindHeld(s.allocations, s.assignments[i].device), reason, removal, now).Accepted?
    ensures var c := s.vehicles[s.assignments[i].vehicle].customer;
            RemoveWrites(s, TakeOut(s, i, ManagingDealer(s, c), FindHeld(s.allocations, s.assignments[i].device), reason, removal, now).state,
                         i, reason, removal, now)
  {
    hide TakeOut, FindHeld, RemoveWrites, HeldOnce;
    if ManagingDealer(s, s.vehicles[s.assignments[i].vehicle].customer).Some? && FindHeld(s.allocations, s.assignments[i].device).Some? {
      TakeOutBack(s, i, reason, removal, now);
    } else {
      TakeOutToPlatform(s, i, reason, removal, now);
    }
  }

  /** Main theorem.  What an accepted remove writes. */
  lemma RemoveEffect(s: State, a: Actor, d: DeviceId, i: nat, reason: EndReason, removal: RemovalReason, now: Time)
    requires Inv(s) && i < |s.assignments| && Carries(s.assignments[i], d)
    requires Linked(s) && Remove(s, a, d, reason, removal, now).Accepted?
    ensures RemoveWrites(s, Remove(s, a, d, reason, removal, now).state, i, reason, removal, now)
  {
    hide OpenOnce, HeldOnce, ActiveOnce, Fitted, ArchivedEmpty, Current, FindActive, FindHeld, TakeOut, RemoveWrites, VehicleMutation;
    InvOnce(s);
    SoleActive(s.assignments, i);
    ActiveLinked(s, d);
    hide Linked, Inv;
    TakeOutWrites(s, i, reason, removal, now);
  }

  // ----- replace -----

  /** Main theorem.  An accepted replace writes what a removal and then an install write. */
  lemma ReplaceEffect(s: State, a: Actor, current: DeviceId, next: DeviceId, i: nat, removal: RemovalReason, now: Time, at: Time)
    requires Inv(s) && Linked(s) && Replace(s, a, current, next, removal, now, at).Accepted?
    requires i < |s.assignments| && Carries(s.assignments[i], current)
    ensures exists m :: RemoveWrites(s, m, i, EndedByReplacement, removal, now)
              && InstallWrites(m, Replace(s, a, current, next, removal, now, at).state, next, s.assignments[i].vehicle, at)
  {
    hide Linked, OpenOnce, HeldOnce, ActiveOnce, Fitted, ArchivedEmpty, Current, FindActive, FindPrimary, FindHeld, FindStock;
    hide TakeOut, PutIn, Installable, Replace, ResolveAllocation, RemoveWrites, InstallWrites, Ready, Becomes;
    InvOnce(s);
    SoleActive(s.assignments, i);
    ReplaceParts(s, a, current, next, removal, now, at);
    var v := s.assignments[i].vehicle;
    var dealer := ManagingDealer(s, s.vehicles[v].customer);
    TakeOutWrites(s, i, EndedByReplacement, removal, now);
    ReplaceHalfway(s, a, current, next, i, v, dealer, removal, now);
    var m := TakeOut(s, i, dealer, FindHeld(s.allocations, current), EndedByReplacement, removal, now).state;
    InvOnce(m);
    hide Inv;
    ReadyStock(m, next, v, ResolveAllocation(s, a, next, dealer).row, dealer);
    PutInWrites(m, next, v, at);
    assert RemoveWrites(s, m, i, EndedByReplacement, removal, now);
  }

  lemma ReadyStock(s: State, d: DeviceId, v: VehicleId, row: Option<nat>, dealer: Option<DealerId>)
    requires Ready(s, d, v, row, dealer)
    ensures d < |s.devices| && v < |s.vehicles|
    ensures dealer.Some? ==> row == FindStock(s.allocations, d) && row.Some? && s.allocations[row.value].dealer == dealer.value
  {
    hide FindStock, Installable;
  }

  // ----- transfer -----

  ghost function TargetOwner(target: Target): Party {
    match target case ToDealer(m) => Dealer(m) case ToCustomer(c) => Customer(c)
  }

  /** The dealer that a transfer allocates to: the target dealer, or the target customer's managing dealer. */
  ghost predicate AllocatesTo(s: State, target: Target, m: DealerId) {
    match target case ToDealer(x) => m == x case ToCustomer(c) => Manages(s, m, c)
  }

  /** All open rows of the listed devices end, and one row opens for each. */
  ghost predicate AllHanded(was: seq<Tenure>, now: seq<Tenure>, ids: seq<DeviceId>, to: Party, at: Time) {
    && |now| == |was| + |ids|
    && (forall i :: 0 <= i < |was| ==>
          now[i] == if was[i].device in ids && was[i].endedAt == None then was[i].(endedAt := Some(at)) else was[i])
    && (forall k :: 0 <= k < |ids| ==> now[|was| + k] == Tenure(ids[k], to, Transfer, at, None))
  }

  /** All active allocations of the listed devices are returned, and one is made for each if a dealer
      receives them. */
  ghost predicate AllAllotted(s: State, now: seq<DealerAllocation>, ids: seq<DeviceId>, target: Target, at: Time) {
    var was := s.allocations;
    && |now| >= |was|
    && (forall i :: 0 <= i < |was| ==>
          now[i] == if was[i].device in ids && AllocatedNow(was[i], was[i].device)
                    then was[i].(status := Returned, returnedAt := Some(at)) else was[i])
    && (forall m :: AllocatesTo(s, target, m) ==>
          && |now| == |was| + |ids|
          && forall k :: 0 <= k < |ids| ==> now[|was| + k] == DealerAllocation(m, ids[k], Available, Some(at), None, None))
    && ((forall m :: !AllocatesTo(s, target, m)) ==> |now| == |was|)
  }

  ghost predicate TransferWrites(s: State, t: State, ids: seq<DeviceId>, target: Target, now: Time) {
    && |t.devices| == |s.devices|
    && (forall e :: 0 <= e < |s.devices| ==>
          t.devices[e] == if e in ids then s.devices[e].(lifecycle := Allocated) else s.devices[e])
    && AllHanded(s.ownership, t.ownership, ids, TargetOwner(target), now)
    && AllHanded(s.custody, t.custody, ids, TargetOwner(target), now)
    && AllAllotted(s, t.allocations, ids, target, now)
    && t.installations == s.installations && t.assignments == s.assignments && t.vehicles == s.vehicles && SameRest(s, t)
  }

  lemma Receiver(s: State, target: Target)
    ensures TargetDealer(s, target).Some? ==> forall m :: AllocatesTo(s, target, m) <==> m == TargetDealer(s, target).value
    ensures TargetDealer(s, target).None? ==> forall m :: !AllocatesTo(s, target, m)
    ensures TargetParty(target) == TargetOwner(target)
  {
    if target.ToCustomer? {
      NoManager(s, target.customer);
    }
  }

  lemma HandsAll(rows: seq<Tenure>, ids: seq<DeviceId>, to: Party, at: Time)
    ensures AllHanded(rows, EndAll(rows, ids, at) + Opened(ids, to, at), ids, to, at)
  {
  }

  lemma AllotsAll(s: State, ids: seq<DeviceId>, target: Target, at: Time)
    ensures AllAllotted(s, ReturnAll(s.allocations, ids, at) + Granted(ids, TargetDealer(s, target), at), ids, target, at)
  {
    hide TargetDealer, AllocatesTo;
    Receiver(s, target);
    var dealer := TargetDealer(s, target);
    if dealer.Some? {
      assert AllocatesTo(s, target, dealer.value);
    }
  }

  /** Main theorem.  What an accepted transfer writes. */
  lemma TransferEffect(s: State, a: Actor, ids: seq<DeviceId>, target: Target, now: Time)
    requires TransferDevices(s, a, ids, target, now).Accepted?
    ensures TransferWrites(s, TransferDevices(s, a, ids, target, now).state, ids, target, now)
  {
    hide TransferDevices, EndAll, ReturnAll, Opened, Granted, AllHanded, AllAllotted, TargetDealer;
    TransferForm(s, a, ids, target, now);
    Receiver(s, target);
    HandsAll(s.ownership, ids, TargetOwner(target), now);
    HandsAll(s.custody, ids, TargetOwner(target), now);
    AllotsAll(s, ids, target, now);
  }

  /** Main theorem.  After an accepted transfer every listed device is ALLOCATED, in no vehicle, owned and
      held by the target, and allocated AVAILABLE to the target dealer or to the target customer's managing
      dealer, and to nobody when the customer has none. */
  lemma TransferOutcome(s: State, a: Actor, ids: seq<DeviceId>, target: Target, now: Time, d: DeviceId)
    requires Inv(s) && TransferDevices(s, a, ids, target, now).Accepted? && d in ids
    ensures var t := TransferDevices(s, a, ids, target, now).state;
            && d < |t.devices| && Current(t, d).lifecycle == Allocated && Current(t, d).vehicle == None
            && match target
               case ToDealer(x) =>
                 && Current(t, d).owner == Some(Dealer(x)) && Current(t, d).custodian == Some(Dealer(x))
                 && Current(t, d).allocation == Some(Holding(x, Available))
               case ToCustomer(c) =>
                 && Current(t, d).owner == Some(Customer(c)) && Current(t, d).custodian == Some(Customer(c))
                 && c in s.customers
                 && Current(t, d).allocation
                    == (match s.customers[c].managingDealer case Some(m) => Some(Holding(m, Available)) case None => None)
  {
    hide Inv, Current, DeviceWhere, Movable, MoveAll;
    assert forall k :: 0 <= k < |ids| ==> ids[k] in ids;
    MoveAllKeeps(s, ids, TargetParty(target), TargetDealer(s, target), now);
  }

  // ----- allocate, return and update -----

  /** Main theorem.  What an accepted allocation writes. */
  lemma AllocateEffect(s: State, a: Actor, d: DeviceId, m: DealerId, now: Time)
    requires Allocate(s, a, d, m, now).Accepted?
    ensures var t := Allocate(s, a, d, m, now).state;
            && NowIs(s.devices, t.devices, d, Allocated) && t.ownership == s.ownership
            && Handed(s.custody, t.custody, d, Dealer(m), Allocation, now)
            && |t.allocations| == |s.allocations| + 1
            && (forall i :: 0 <= i < |s.allocations| ==> t.allocations[i] == s.allocations[i])
            && t.allocations[|s.allocations|] == DealerAllocation(m, d, Available, Some(now), None, None)
            && t.installations == s.installations && t.assignments == s.assignments && t.vehicles == s.vehicles && SameRest(s, t)
  {
    hide FindHeld, FindActive, Rotate, Handed;
    RotateHands(s.custody, d, Dealer(m), Allocation, now);
  }

  /** Main theorem.  What an accepted return writes; row i is the active allocation. */
  lemma ReturnEffect(s: State, a: Actor, d: DeviceId, i: nat, now: Time)
    requires Inv(s) && Linked(s) && i < |s.allocations| && AllocatedNow(s.allocations[i], d)
    requires ReturnToPlatform(s, a, d, now).Accepted?
    ensures var t := ReturnToPlatform(s, a, d, now).state;
            && NowIs(s.devices, t.devices, d, InStock) && t.ownership == s.ownership
            && Handed(s.custody, t.custody, d, Platform, Return, now)
            && |t.allocations| == |s.allocations|
            && (forall k :: 0 <= k < |s.allocations| ==>
                  t.allocations[k] == if k == i then s.allocations[k].(status := Returned, returnedAt := Some(now))
                                      else s.allocations[k])
            && t.installations == s.installations && t.assignments == s.assignments && t.vehicles == s.vehicles && SameRest(s, t)
  {
    hide FindHeld, FindActive, Rotate, Handed, OpenOnce, ActiveOnce, Fitted, ArchivedEmpty, Current;
    RotateHands(s.custody, d, Platform, Return, now);
    HeldFound(s.allocations, i);
  }

  /** Main theorem.  What an accepted update writes: the lifecycle if one is given, and with it the time of
      retirement for RETIRED and none for any other. */
  lemma UpdateEffect(s: State, a: Actor, d: DeviceId, lifecycle: Option<Lifecycle>, retiredAt: Option<Time>)
    requires Update(s, a, d, lifecycle, retiredAt).Accepted?
    ensures var t := Update(s, a, d, lifecycle, retiredAt).state;
            && t == s.(devices := t.devices) && |t.devices| == |s.devices| && d < |s.devices|
            && (forall e :: 0 <= e < |s.devices| && e != d ==> t.devices[e] == s.devices[e])
            && t.devices[d].imei == s.devices[d].imei && t.devices[d].serial == s.devices[d].serial
            && (lifecycle == None ==> t.devices[d] == s.devices[d])
            && (lifecycle != None ==>
                  && Some(t.devices[d].lifecycle) == lifecycle
                  && t.devices[d].retiredAt == if lifecycle == Some(Retired) then retiredAt else None)
  {
    hide FindActive;
  }

  // ----- Scope -----

  /** Main theorem.  An accepted request of an actor without platform scope leaves every device alone that
      had neither an active allocation to a dealer of the actor nor an active assignment to a vehicle whose
      customer the actor is or manages. */
  lemma UnseenStays(s: State, a: Actor, op: Op, now: Time, d: DeviceId)
    requires Inv(s) && Linked(s) && Apply(s, a, op, now).Accepted? && Request(op)
    requires d < |s.devices| && !Sees(s, a, d)
    ensures Untouched(s, Apply(s, a, op, now).state, d)
  {
    hide Inv, Linked, Apply, Untouched, DeviceWhere;
    Visibility(s, a, d);
    Roles(a, 0);
    hide IsPlatform, OfPlatform;
    ChangesStayInScope(s, a, op, now, d);
  }

  /** Nor does it change an existing vehicle whose customer the actor neither is nor manages. */
  lemma UnseenVehicleStays(s: State, a: Actor, op: Op, now: Time, v: VehicleId)
    requires Linked(s) && Apply(s, a, op, now).Accepted? && Request(op)
    requires v < |s.vehicles| && !OfPlatform(a) && !SeesCustomer(s, a, s.vehicles[v].customer)
    ensures var t := Apply(s, a, op, now).state; v < |t.vehicles| && t.vehicles[v] == s.vehicles[v]
  {
    hide Linked, Apply, OfPlatform, IsPlatform, OfCustomer, ActsForCustomer, ActsForManager, OfDealer, Manages;
    Roles(a, s.vehicles[v].customer);
    Administration(s, a, s.vehicles[v].customer);
    VehiclesStayInScope(s, a, op, now, v);
  }
}
