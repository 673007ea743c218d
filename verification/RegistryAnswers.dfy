/** Which requests the registry accepts and how it answers the others, said of the rows and roles
    themselves and not through the reads and guards of the operations. */
module RegistryAnswers {
  import opened Options
  import opened RegistryTables
  import opened Registry
  import opened RegistryInvariant
  import opened RegistrySteps
  import opened RegistryReplacement

  // ----- Roles -----

  ghost predicate OfPlatform(a: Actor) { exists k :: 0 <= k < |a.roles| && a.roles[k] == PlatformScope }

  ghost predicate OfDealer(a: Actor, m: DealerId) { exists k :: 0 <= k < |a.roles| && a.roles[k] == DealerScope(m) }

  ghost predicate OfCustomer(a: Actor, c: CustomerId) {
    || (exists k :: 0 <= k < |a.roles| && a.roles[k] == CustomerScope(c))
    || (exists k :: 0 <= k < |a.customerIds| && a.customerIds[k] == c)
  }

  ghost predicate Manages(s: State, m: DealerId, c: CustomerId) { c in s.customers && s.customers[c].managingDealer == Some(m) }

  /** The platform, or the customer's managing dealer. */
  ghost predicate Administers(s: State, a: Actor, c: CustomerId) {
    OfPlatform(a) || exists m :: Manages(s, m, c) && OfDealer(a, m)
  }

  // ----- Rows -----

  ghost predicate Carries(r: Assignment, d: DeviceId) { r.device == d && r.status == Active }

  /** Some vehicle carries the device. */
  ghost predicate Carried(s: State, d: DeviceId) { exists i :: 0 <= i < |s.assignments| && Carries(s.assignments[i], d) }

  /** The vehicle has an active primary device. */
  ghost predicate Equipped(s: State, v: VehicleId) {
    exists i :: 0 <= i < |s.assignments| && s.assignments[i].vehicle == v
                && s.assignments[i].kind == Primary && s.assignments[i].status == Active
  }

  ghost predicate InStockOf(r: DealerAllocation, d: DeviceId, m: DealerId) {
    r.device == d && r.dealer == m && (r.status == Pending || r.status == Available)
  }

  ghost predicate Stocked(s: State, d: DeviceId, m: DealerId) {
    exists i :: 0 <= i < |s.allocations| && InStockOf(s.allocations[i], d, m)
  }

  ghost predicate AllocatedNow(r: DealerAllocation, d: DeviceId) {
    r.device == d && (r.status == Pending || r.status == Available || r.status == InUse)
  }

  ghost predicate Allotted(s: State, d: DeviceId) { exists i :: 0 <= i < |s.allocations| && AllocatedNow(s.allocations[i], d) }

  /** What deviceWhere lets an actor see. */
  ghost predicate Sees(s: State, a: Actor, d: DeviceId) {
    || OfPlatform(a)
    || (exists i :: 0 <= i < |s.allocations| && AllocatedNow(s.allocations[i], d) && OfDealer(a, s.allocations[i].dealer))
    || (exists i :: 0 <= i < |s.assignments| && Carries(s.assignments[i], d) && s.assignments[i].vehicle < |s.vehicles|
                    && SeesCustomer(s, a, s.vehicles[s.assignments[i].vehicle].customer))
  }

  ghost predicate SeesCustomer(s: State, a: Actor, c: CustomerId) {
    OfCustomer(a, c) || exists m :: Manages(s, m, c) && OfDealer(a, m)
  }

  ghost predicate OpenDealer(s: State, m: DealerId) { m in s.dealers && s.dealers[m] }

  // ----- What the guards of the operations mean -----

  lemma Roles(a: Actor, m: DealerId)
    ensures IsPlatform(a) <==> OfPlatform(a)
    ensures ActsForDealer(a, m) <==> OfDealer(a, m)
    ensures ActsForCustomer(a, m) <==> OfCustomer(a, m)
  {
  }

  lemma Administration(s: State, a: Actor, c: CustomerId)
    ensures ActsForManager(s, a, c) <==> exists m :: Manages(s, m, c) && OfDealer(a, m)
    ensures IsPlatform(a) || ActsForManager(s, a, c) <==> Administers(s, a, c)
  {
    var m := ManagingDealer(s, c);
    if m.Some? {
      Roles(a, m.value);
      assert Manages(s, m.value, c);
    }
    Roles(a, 0);
  }

  lemma Visibility(s: State, a: Actor, d: DeviceId)
    ensures DeviceWhere(s, a, d) <==> Sees(s, a, d)
  {
    hide ActsForManager, OfDealer, OfCustomer, ActsForDealer, ActsForCustomer, Manages;
    Roles(a, 0);
    forall i | 0 <= i < |s.allocations|
      ensures ActsForDealer(a, s.allocations[i].dealer) <==> OfDealer(a, s.allocations[i].dealer)
      ensures HeldFor(s.allocations[i], d) <==> AllocatedNow(s.allocations[i], d)
    {
      Roles(a, s.allocations[i].dealer);
    }
    forall v | 0 <= v < |s.vehicles|
      ensures ActsForManager(s, a, s.vehicles[v].customer) || ActsForCustomer(a, s.vehicles[v].customer)
              <==> SeesCustomer(s, a, s.vehicles[v].customer)
    {
      Administration(s, a, s.vehicles[v].customer);
      Roles(a, s.vehicles[v].customer);
    }
    assert forall i :: 0 <= i < |s.assignments| ==> (ActiveFor(s.assignments[i], d) <==> Carries(s.assignments[i], d));
  }

  lemma Carrying(s: State, d: DeviceId, v: VehicleId)
    ensures FindActive(s.assignments, d).Some? <==> Carried(s, d)
    ensures VehicleTaken(s.assignments, v, None) <==> Equipped(s, v)
  {
    hide First;
    assert forall i :: 0 <= i < |s.assignments| ==> (ActiveFor(s.assignments[i], d) <==> Carries(s.assignments[i], d));
  }

  lemma Stocking(s: State, d: DeviceId, m: DealerId)
    requires HeldOnce(s.allocations)
    ensures var i := FindStock(s.allocations, d);
            && (i.Some? && s.allocations[i.value].dealer == m <==> Stocked(s, d, m))
            && (i.Some? <==> exists n :: Stocked(s, d, n))
    ensures FindHeld(s.allocations, d).Some? <==> Allotted(s, d)
  {
    hide First;
    var i := FindStock(s.allocations, d);
    if i.Some? {
      assert InStockOf(s.allocations[i.value], d, s.allocations[i.value].dealer);
      assert Stocked(s, d, s.allocations[i.value].dealer);
    }
    forall k, n | 0 <= k < |s.allocations| && InStockOf(s.allocations[k], d, n)
      ensures i == Some(k)
    {
      assert StockFor(s.allocations[k], d);
    }
    var h := FindHeld(s.allocations, d);
    if h.Some? {
      assert AllocatedNow(s.allocations[h.value], d);
    }
    assert forall k :: 0 <= k < |s.allocations| && AllocatedNow(s.allocations[k], d) ==> HeldFor(s.allocations[k], d);
  }

  // ----- install -----

  /** How install answers: the first reason that holds, if any. */
  ghost function InstallError(s: State, a: Actor, d: DeviceId, v: VehicleId): Option<Error> {
    if v >= |s.vehicles| then Some(NotFound)
    else
      var c := s.vehicles[v].customer;
      if !Administers(s, a, c) then Some(Forbidden)
      else if s.vehicles[v].status == ArchivedVehicle || (c in s.customers && s.customers[c].status == ArchivedCustomer) then
        Some(BadRequest)
      else if d >= |s.devices| then Some(NotFound)
      else if exists m :: Manages(s, m, c) && !(Stocked(s, d, m) && (OfPlatform(a) || OfDealer(a, m))) then Some(Forbidden)
      else if (forall m :: !Manages(s, m, c)) && !OfPlatform(a) then Some(Forbidden)
      else if (forall m :: !Manages(s, m, c)) && (exists m :: Stocked(s, d, m)) then Some(Conflict)
      else if s.devices[d].lifecycle != InStock && s.devices[d].lifecycle != Allocated then Some(Conflict)
      else if Carried(s, d) || Equipped(s, v) then Some(Conflict)
      else None
  }

  lemma NoManager(s: State, c: CustomerId)
    ensures ManagingDealer(s, c).None? <==> forall m :: !Manages(s, m, c)
    ensures ManagingDealer(s, c).Some? ==> forall m :: Manages(s, m, c) <==> m == ManagingDealer(s, c).value
  {
    if ManagingDealer(s, c).Some? {
      assert Manages(s, ManagingDealer(s, c).value, c);
    }
  }

  lemma Resolution(s: State, a: Actor, d: DeviceId, c: CustomerId)
    requires HeldOnce(s.allocations)
    ensures var r := ResolveAllocation(s, a, d, ManagingDealer(s, c));
            r.Refused? ==>
              r.error == if (exists m :: Manages(s, m, c) && !(Stocked(s, d, m) && (OfPlatform(a) || OfDealer(a, m))))
                            || ((forall m :: !Manages(s, m, c)) && !OfPlatform(a)) then Forbidden else Conflict
    ensures var r := ResolveAllocation(s, a, d, ManagingDealer(s, c));
            r.UseAllocation? <==>
              && (forall m :: Manages(s, m, c) ==> Stocked(s, d, m) && (OfPlatform(a) || OfDealer(a, m)))
              && ((forall m :: !Manages(s, m, c)) ==> OfPlatform(a) && forall m :: !Stocked(s, d, m))
  {
    hide FindStock, Stocked, Manages, OfDealer, OfPlatform, ActsForDealer, HeldOnce;
    NoManager(s, c);
    var m := ManagingDealer(s, c);
    if m.Some? {
      Stocking(s, d, m.value);
      Roles(a, m.value);
    } else {
      Stocking(s, d, 0);
      Roles(a, 0);
    }
  }

  /** Main theorem.  install answers every request as the source does: from tables in order, it is
      rejected with exactly the first reason that holds and accepted when none does. */
  lemma InstallAnswer(s: State, a: Actor, d: DeviceId, v: VehicleId, at: Time)
    requires Inv(s)
    ensures forall e :: Install(s, a, d, v, at) == Rejected(e) <==> InstallError(s, a, d, v) == Some(e)
    ensures Install(s, a, d, v, at).Accepted? <==> InstallError(s, a, d, v).None?
  {
    hide Linked, OpenOnce, HeldOnce, ActiveOnce, Fitted, ArchivedEmpty, Current, PutIn, ResolveAllocation, FindActive;
    hide Administers, Manages, Stocked, OfPlatform, OfDealer, Carried, Equipped, VehicleTaken, ActsForManager, IsPlatform;
    if v < |s.vehicles| {
      var c := s.vehicles[v].customer;
      Administration(s, a, c);
      assert HeldOnce(s.allocations);
      hide Inv;
      Resolution(s, a, d, c);
      Carrying(s, d, v);
    }
  }

  /** Main theorem.  install is accepted exactly when: the vehicle exists and the actor is of the platform
      or of the dealer that manages its customer; neither is archived; the device exists, is IN_STOCK or
      ALLOCATED and in no vehicle, and the vehicle has no active primary device; and the managing dealer
      has the device in stock, or there is no such dealer, the actor is of the platform and no dealer has
      it in stock. */
  lemma InstallAccepted(s: State, a: Actor, d: DeviceId, v: VehicleId, at: Time)
    requires Inv(s)
    ensures Install(s, a, d, v, at).Accepted? <==>
              && v < |s.vehicles| && d < |s.devices|
              && Administers(s, a, s.vehicles[v].customer)
              && s.vehicles[v].status != ArchivedVehicle
              && s.customers[s.vehicles[v].customer].status != ArchivedCustomer
              && (s.devices[d].lifecycle == InStock || s.devices[d].lifecycle == Allocated)
              && !Carried(s, d) && !Equipped(s, v)
              && (forall m :: Manages(s, m, s.vehicles[v].customer) ==> Stocked(s, d, m) && (OfPlatform(a) || OfDealer(a, m)))
              && ((forall m :: !Manages(s, m, s.vehicles[v].customer)) ==> OfPlatform(a) && forall m :: !Stocked(s, d, m))
  {
    hide OpenOnce, HeldOnce, ActiveOnce, Fitted, ArchivedEmpty, Current, Install;
    hide Administers, Manages, Stocked, OfPlatform, OfDealer, Carried, Equipped;
    InstallAnswer(s, a, d, v, at);
  }

  // ----- remove and replace -----

  /** Whether a removal can put the device somewhere: back to the managing dealer when the device is
      allocated, or to the platform organization. */
  ghost predicate HasPlace(s: State, d: DeviceId, c: CustomerId) {
    ((exists m :: Manages(s, m, c)) && Allotted(s, d)) || s.platformOrganization
  }

  lemma TakeOutAnswer(s: State, i: nat, c: CustomerId, reason: EndReason, removal: RemovalReason, now: Time)
    requires HeldOnce(s.allocations) && i < |s.assignments| && s.assignments[i].device < |s.devices|
    requires s.assignments[i].installation.Some? ==> s.assignments[i].installation.value < |s.installations|
    ensures var o := TakeOut(s, i, ManagingDealer(s, c), FindHeld(s.allocations, s.assignments[i].device), reason, removal, now);
            (o.Accepted? <==> HasPlace(s, s.assignments[i].device, c)) && (o.Rejected? ==> o.error == NotFound)
  {
    hide FindHeld, Rotate, SetLifecycle, HeldOnce, Manages, Allotted;
    Stocking(s, s.assignments[i].device, 0);
    NoManager(s, c);
  }

  /** How remove answers for a device in vehicle v. */
  ghost function RemoveError(s: State, a: Actor, d: DeviceId, v: VehicleId): Option<Error>
    requires v < |s.vehicles|
  {
    if !Administers(s, a, s.vehicles[v].customer) then Some(Forbidden)
    else if !HasPlace(s, d, s.vehicles[v].customer) then Some(NotFound)
    else None
  }

  lemma NotCarried(s: State, a: Actor, d: DeviceId, reason: EndReason, removal: RemovalReason, now: Time)
    requires Inv(s) && !Carried(s, d)
    ensures Linked(s) && Remove(s, a, d, reason, removal, now) == Rejected(NotFound)
  {
    hide Linked, OpenOnce, HeldOnce, ActiveOnce, Fitted, ArchivedEmpty, Current, FindActive, Carried, TakeOut;
    Carrying(s, d, 0);
  }

  /** Main theorem.  remove is NOT_FOUND for a device in no vehicle; for a device that row i puts into a
      vehicle it is rejected with exactly the first reason that holds and accepted when none does. */
  lemma RemoveAnswer(s: State, a: Actor, d: DeviceId, i: nat, reason: EndReason, removal: RemovalReason, now: Time)
    requires Inv(s) && i < |s.assignments| && Carries(s.assignments[i], d)
    ensures Linked(s) && d < |s.devices| && s.assignments[i].vehicle < |s.vehicles|
    ensures var r := Remove(s, a, d, reason, removal, now); var e := RemoveError(s, a, d, s.assignments[i].vehicle);
            (r.Accepted? <==> e.None?) && (r.Rejected? ==> Some(r.error) == e)
  {
    hide OpenOnce, HeldOnce, ActiveOnce, Fitted, ArchivedEmpty, Current, FindActive, FindHeld, TakeOut, Administers, HasPlace;
    InvOnce(s);
    SoleActive(s.assignments, i);
    ActiveLinked(s, d);
    hide Linked;
    var c := s.vehicles[s.assignments[i].vehicle].customer;
    Administration(s, a, c);
    TakeOutAnswer(s, i, c, reason, removal, now);
  }

  lemma InvOnce(s: State)
    requires Inv(s)
    ensures Linked(s) && ActiveOnce(s.assignments) && HeldOnce(s.allocations)
  {
  }

  /** How replace answers for a device that is primary in vehicle v. */
  ghost function ReplaceError(s: State, a: Actor, current: DeviceId, next: DeviceId, v: VehicleId): Option<Error>
    requires v < |s.vehicles|
  {
    var c := s.vehicles[v].customer;
    if !Administers(s, a, c) then Some(Forbidden)
    else if next >= |s.devices| then Some(NotFound)
    else if exists m :: Manages(s, m, c) && !(Stocked(s, next, m) && (OfPlatform(a) || OfDealer(a, m))) then Some(Forbidden)
    else if (forall m :: !Manages(s, m, c)) && !OfPlatform(a) then Some(Forbidden)
    else if (forall m :: !Manages(s, m, c)) && (exists m :: Stocked(s, next, m)) then Some(Conflict)
    else if s.devices[next].lifecycle != InStock && s.devices[next].lifecycle != Allocated then Some(Conflict)
    else if Carried(s, next) then Some(Conflict)
    else if !HasPlace(s, current, c) then Some(NotFound)
    else None
  }

  lemma NotPrimary(s: State, a: Actor, current: DeviceId, next: DeviceId, removal: RemovalReason, now: Time, at: Time)
    requires Linked(s)
    ensures current == next ==> Replace(s, a, current, next, removal, now, at) == Rejected(BadRequest)
    ensures current != next && (forall i :: 0 <= i < |s.assignments| && Carries(s.assignments[i], current) ==> s.assignments[i].kind != Primary) ==>
              Replace(s, a, current, next, removal, now, at) == Rejected(NotFound)
  {
    hide Linked, First, FindActive, FindHeld, FindStock, TakeOut, PutIn, VehicleMutation, ResolveAllocation, Installable;
    var i := FindPrimary(s.assignments, current);
    if i.Some? {
      assert Carries(s.assignments[i.value], current);
    }
  }

  lemma NoOtherPrimary(s: State, i: nat, next: DeviceId)
    requires ActiveOnce(s.assignments) && i < |s.assignments| && s.assignments[i].status == Active && s.assignments[i].kind == Primary
    requires next < |s.devices|
    ensures Installable(s, next, s.assignments[i].vehicle, Some(i)) <==>
            (s.devices[next].lifecycle == InStock || s.devices[next].lifecycle == Allocated) && !Carried(s, next)
  {
    hide First, FindActive, Carried;
    Carrying(s, next, 0);
  }

  /** Main theorem.  replace, for a current device that row i makes primary in its vehicle, is rejected with
      exactly the first reason that holds and accepted when none does. */
  lemma ReplaceAnswer(s: State, a: Actor, current: DeviceId, next: DeviceId, i: nat, removal: RemovalReason, now: Time, at: Time)
    requires Inv(s) && current != next && i < |s.assignments| && Carries(s.assignments[i], current) && s.assignments[i].kind == Primary
    ensures Linked(s) && s.assignments[i].vehicle < |s.vehicles|
    ensures var r := Replace(s, a, current, next, removal, now, at); var e := ReplaceError(s, a, current, next, s.assignments[i].vehicle);
            (r.Accepted? <==> e.None?) && (r.Rejected? ==> Some(r.error) == e)
  {
    hide OpenOnce, HeldOnce, ActiveOnce, Fitted, ArchivedEmpty, Current, FindActive, FindHeld, TakeOut, Administers, HasPlace;
    hide PutIn, Installable, ResolveAllocation, Manages, Stocked, OfPlatform, OfDealer, Carried, FindPrimary;
    InvOnce(s);
    PrimaryFound(s, i);
    ActiveLinked(s, current);
    hide Linked;
    var c := s.vehicles[s.assignments[i].vehicle].customer;
    Administration(s, a, c);
    TakeOutAnswer(s, i, c, EndedByReplacement, removal, now);
    Resolution(s, a, next, c);
    if next < |s.devices| {
      NoOtherPrimary(s, i, next);
    }
    hide ActsForManager, IsPlatform;
  }

  lemma PrimaryFound(s: State, i: nat)
    requires ActiveOnce(s.assignments) && i < |s.assignments| && s.assignments[i].status == Active && s.assignments[i].kind == Primary
    ensures FindPrimary(s.assignments, s.assignments[i].device) == Some(i)
    ensures FindActive(s.assignments, s.assignments[i].device) == Some(i)
  {
    hide First;
    assert PrimaryFor(s.assignments[i], s.assignments[i].device);
    SoleActive(s.assignments, i);
    PrimaryIsActive(s, s.assignments[i].device);
  }

  // ----- transfer -----

  ghost function DealerTargetError(s: State, a: Actor, m: DealerId): Option<Error> {
    if !(OfPlatform(a) || OfDealer(a, m)) then Some(Forbidden) else if !OpenDealer(s, m) then Some(BadRequest) else None
  }

  ghost function CustomerTargetError(s: State, a: Actor, c: CustomerId): Option<Error> {
    if c !in s.customers then Some(NotFound)
    else if !Administers(s, a, c) then Some(Forbidden)
    else if s.customers[c].status != PendingCustomer && s.customers[c].status != ActiveCustomer then Some(BadRequest)
    else None
  }

  /** How transfer answers: the first reason that holds, if any. */
  ghost function TransferError(s: State, a: Actor, ids: seq<DeviceId>, target: Target): Option<Error> {
    if exists j, k :: 0 <= j < k < |ids| && ids[j] == ids[k] then Some(BadRequest)
    else
      var e := match target case ToDealer(m) => DealerTargetError(s, a, m) case ToCustomer(c) => CustomerTargetError(s, a, c);
      if e.Some? then e
      else if exists d :: d in ids && !(d < |s.devices| && Sees(s, a, d)) then Some(NotFound)
      else if exists d :: d in ids && !Idle(s, d) then Some(Conflict)
      else None
  }

  /** In no vehicle, and RECEIVED, IN_STOCK or ALLOCATED. */
  ghost predicate Idle(s: State, d: DeviceId) {
    && d < |s.devices| && !Carried(s, d)
    && (s.devices[d].lifecycle == Received || s.devices[d].lifecycle == InStock || s.devices[d].lifecycle == Allocated)
  }

  lemma IdleIsMovable(s: State, d: DeviceId)
    requires d < |s.devices|
    ensures Movable(s, d) <==> Idle(s, d)
  {
    hide FindActive, Carried;
    Carrying(s, d, 0);
  }

  lemma TargetAnswer(s: State, a: Actor, target: Target)
    ensures TargetError(s, a, target) ==
            match target case ToDealer(m) => DealerTargetError(s, a, m) case ToCustomer(c) => CustomerTargetError(s, a, c)
  {
    hide OfPlatform, OfDealer, Manages, ActsForDealer, IsPlatform;
    match target
    case ToDealer(m) => Roles(a, m);
    case ToCustomer(c) => Administration(s, a, c);
  }

  /** Main theorem.  transfer is rejected with exactly the first reason that holds and accepted when none
      does. */
  lemma TransferAnswer(s: State, a: Actor, ids: seq<DeviceId>, target: Target, now: Time)
    ensures var r := TransferDevices(s, a, ids, target, now); var e := TransferError(s, a, ids, target);
            (r.Accepted? <==> e.None?) && (r.Rejected? ==> Some(r.error) == e)
  {
    hide TargetError, DealerTargetError, CustomerTargetError, Sees, DeviceWhere, Idle, Movable, MoveAll;
    TargetAnswer(s, a, target);
    forall d: DeviceId
      ensures DeviceWhere(s, a, d) <==> Sees(s, a, d)
    {
      Visibility(s, a, d);
    }
    forall d | 0 <= d < |s.devices|
      ensures Movable(s, d) <==> Idle(s, d)
    {
      IdleIsMovable(s, d);
    }
  }

  // ----- allocate and return -----

  ghost function AllocateError(s: State, a: Actor, d: DeviceId, m: DealerId): Option<Error> {
    if !OfPlatform(a) then Some(Forbidden)
    else if d >= |s.devices| then Some(NotFound)
    else if !OpenDealer(s, m) then Some(BadRequest)
    else if Allotted(s, d) || Carried(s, d) then Some(Conflict)
    else if s.devices[d].lifecycle != Received && s.devices[d].lifecycle != InStock then Some(Conflict)
    else None
  }

  /** Main theorem.  allocate is rejected with exactly the first reason that holds and accepted when none
      does. */
  lemma AllocateAnswer(s: State, a: Actor, d: DeviceId, m: DealerId, now: Time)
    requires HeldOnce(s.allocations)
    ensures var r := Allocate(s, a, d, m, now); var e := AllocateError(s, a, d, m);
            (r.Accepted? <==> e.None?) && (r.Rejected? ==> Some(r.error) == e)
  {
    hide FindActive, FindHeld, HeldOnce, Allotted, Carried, OfPlatform, IsPlatform, Rotate;
    Roles(a, m);
    Carrying(s, d, 0);
    Stocking(s, d, 0);
  }

  /** How returnToPlatform answers for a device that is allocated to dealer m. */
  ghost function ReturnError(s: State, a: Actor, d: DeviceId, m: DealerId): Option<Error> {
    if !(OfPlatform(a) || OfDealer(a, m)) then Some(Forbidden)
    else if Carried(s, d) then Some(Conflict)
    else if !s.platformOrganization then Some(NotFound)
    else None
  }

  lemma NotAllotted(s: State, a: Actor, d: DeviceId, now: Time)
    requires Inv(s) && !Allotted(s, d)
    ensures Linked(s) && ReturnToPlatform(s, a, d, now) == Rejected(NotFound)
  {
    hide FindHeld, FindActive, Allotted, Linked, HeldOnce, OpenOnce, ActiveOnce, Fitted, ArchivedEmpty, Current;
    Stocking(s, d, 0);
  }

  /** Main theorem.  returnToPlatform is NOT_FOUND for a device without an active allocation; for a device
      that row i allocates it is rejected with exactly the first reason that holds and accepted when none
      does. */
  lemma ReturnAnswer(s: State, a: Actor, d: DeviceId, i: nat, now: Time)
    requires Inv(s) && i < |s.allocations| && AllocatedNow(s.allocations[i], d)
    ensures Linked(s)
    ensures var r := ReturnToPlatform(s, a, d, now); var e := ReturnError(s, a, d, s.allocations[i].dealer);
            (r.Accepted? <==> e.None?) && (r.Rejected? ==> Some(r.error) == e)
  {
    hide FindActive, OpenOnce, ActiveOnce, Fitted, ArchivedEmpty, Current, Carried, OfPlatform, OfDealer, First, Rotate;
    HeldFound(s.allocations, i);
    Carrying(s, d, 0);
    Roles(a, s.allocations[i].dealer);
  }

  lemma HeldFound(rows: seq<DealerAllocation>, i: nat)
    requires HeldOnce(rows) && i < |rows| && AllocatedNow(rows[i], rows[i].device)
    ensures FindHeld(rows, rows[i].device) == Some(i)
  {
    hide First;
    assert HeldFor(rows[i], rows[i].device);
  }

  // ----- update -----

  ghost function UpdateError(s: State, a: Actor, d: DeviceId, lifecycle: Option<Lifecycle>, retiredAt: Option<Time>): Option<Error> {
    if !OfPlatform(a) then Some(Forbidden)
    else if d >= |s.devices| then Some(NotFound)
    else if lifecycle == Some(Retired) && retiredAt == None then Some(BadRequest)
    else if lifecycle == Some(Installed) || lifecycle == Some(Allocated) then Some(BadRequest)
    else if lifecycle != None && Carried(s, d) then Some(Conflict)
    else None
  }

  /** Main theorem.  update is rejected with exactly the first reason that holds and accepted when none
      does. */
  lemma UpdateAnswer(s: State, a: Actor, d: DeviceId, lifecycle: Option<Lifecycle>, retiredAt: Option<Time>)
    ensures var r := Update(s, a, d, lifecycle, retiredAt); var e := UpdateError(s, a, d, lifecycle, retiredAt);
            (r.Accepted? <==> e.None?) && (r.Rejected? ==> Some(r.error) == e)
  {
    hide FindActive, Carried, OfPlatform, IsPlatform;
    Roles(a, 0);
    Carrying(s, d, 0);
  }
}
