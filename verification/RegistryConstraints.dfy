/** The constraints that the database puts on single rows and on identities, and exactly which
    accepted operations run into them. */
module RegistryConstraints {
  import opened Options
  import opened RegistryTables
  import opened Registry
  import opened RegistryInvariant
  import opened RegistrySteps
  import opened RegistryReplacement
  import opened RegistryTransfer

  // ----- The constraints -----

  /** devices_retirement_consistency. */
  ghost predicate Retirement(devices: seq<Device>) {
    forall d :: 0 <= d < |devices| ==> (devices[d].lifecycle == Retired <==> devices[d].retiredAt.Some?)
  }

  /** device_installations_removal_consistency. */
  ghost predicate RemovalDates(rows: seq<DeviceInstallation>) {
    forall i :: 0 <= i < |rows| ==>
      (if rows[i].status == Removed then rows[i].removedAt.Some? && rows[i].removalReason.Some?
       else rows[i].removedAt.None? && rows[i].removalReason.None?)
  }

  /** vehicle_device_assignments_status_consistency. */
  ghost predicate AssignmentDates(rows: seq<Assignment>) {
    forall i :: 0 <= i < |rows| ==>
      (if rows[i].status == Active then rows[i].endedAt.None? && rows[i].endReason.None? else rows[i].endedAt.Some?)
  }

  predicate Clash(a: Option<string>, b: Option<string>) { a.Some? && a == b }

  /** The unique indexes on IMEI and serial number. */
  ghost predicate UniqueDevices(devices: seq<Device>) {
    forall i, j :: 0 <= i < j < |devices| ==>
      !Clash(devices[i].imei, devices[j].imei) && !Clash(devices[i].serial, devices[j].serial)
  }

  predicate VehiclesClash(v: Vehicle, w: Vehicle) {
    Clash(v.registration, w.registration) || Clash(v.chassis, w.chassis) || Clash(v.engine, w.engine)
  }

  /** The unique indexes on registration, chassis and engine number. */
  ghost predicate UniqueVehicles(vehicles: seq<Vehicle>) {
    forall i, j :: 0 <= i < j < |vehicles| ==> !VehiclesClash(vehicles[i], vehicles[j])
  }

  ghost predicate Constraints(s: State) {
    && Retirement(s.devices) && RemovalDates(s.installations) && AssignmentDates(s.assignments)
    && UniqueDevices(s.devices) && UniqueVehicles(s.vehicles)
  }

  predicate Nonempty(a: Option<string>) { a != Some("") }

  /** What the code keeps beside the constraints: identities other than a registration are not
      empty, and a vehicle has an archiving time exactly while it is archived. */
  ghost predicate Tidy(s: State) {
    && (forall d :: 0 <= d < |s.devices| ==> Nonempty(s.devices[d].imei) && Nonempty(s.devices[d].serial))
    && (forall v :: 0 <= v < |s.vehicles| ==>
          && Nonempty(s.vehicles[v].chassis) && Nonempty(s.vehicles[v].engine)
          && (s.vehicles[v].status == ArchivedVehicle <==> s.vehicles[v].archivedAt.Some?))
  }

  /** A registration made of separators only is stored as the empty string, which the lookup for
      duplicates skips. */
  predicate EmptyTwice(s: State, registration: Option<string>, excluded: Option<VehicleId>) {
    && NormalizeRegistration(registration) == Some("")
    && exists i :: 0 <= i < |s.vehicles| && excluded != Some(i) && s.vehicles[i].registration == Some("")
  }

  /** The accepted operations that the database refuses. */
  predicate RefusedByDatabase(s: State, op: Op) {
    match op
    case ReturnOp(d) => d < |s.devices| && s.devices[d].lifecycle == Retired
    case CreateVehicleOp(_, registration, _, _) => EmptyTwice(s, registration, None)
    case UpdateVehicleOp(v, change, _) => change.registration.Some? && EmptyTwice(s, change.registration, Some(v))
    case _ => false
  }

  // ----- Devices -----

  lemma LifecycleRetirement(devices: seq<Device>, d: DeviceId, l: Lifecycle)
    requires Retirement(devices) && d < |devices| && l != Retired
    ensures Retirement(SetLifecycle(devices, d, l)) <==> devices[d].lifecycle != Retired
    ensures UniqueDevices(devices) ==> UniqueDevices(SetLifecycle(devices, d, l))
  {
    assert SetLifecycle(devices, d, l)[d].lifecycle == l;
  }

  lemma TransferRetirement(devices: seq<Device>, ids: seq<DeviceId>)
    requires Retirement(devices) && UniqueDevices(devices)
    requires forall d :: d in ids && d < |devices| ==> devices[d].lifecycle != Retired
    ensures Retirement(AllAllocated(devices, ids)) && UniqueDevices(AllAllocated(devices, ids))
  {
  }

  lemma OptionalNonempty(v: Option<string>)
    ensures Nonempty(Optional(v)) && Nonempty(OptionalUpper(v))
  {
  }

  lemma RegisterConstrained(s: State, a: Actor, model: nat, imei: Option<string>, serial: Option<string>, now: Time)
    requires Constraints(s) && Tidy(s) && Register(s, a, model, imei, serial, now).Accepted?
    ensures var t := Register(s, a, model, imei, serial, now).state; Constraints(t) && Tidy(t)
  {
    OptionalNonempty(imei);
    OptionalNonempty(serial);
    hide Optional, OptionalUpper, VehiclesClash, RemovalDates, AssignmentDates;
  }

  lemma UpdateConstrained(s: State, a: Actor, d: DeviceId, lifecycle: Option<Lifecycle>, retiredAt: Option<Time>)
    requires Constraints(s) && Tidy(s) && Update(s, a, d, lifecycle, retiredAt).Accepted?
    ensures var t := Update(s, a, d, lifecycle, retiredAt).state; Constraints(t) && Tidy(t)
  {
    hide FindActive, VehiclesClash, RemovalDates, AssignmentDates, UniqueVehicles;
  }

  lemma SameIdentities(s: State, t: State)
    requires Tidy(s) && t.vehicles == s.vehicles && |t.devices| == |s.devices|
    requires forall d :: 0 <= d < |s.devices| ==> t.devices[d].imei == s.devices[d].imei && t.devices[d].serial == s.devices[d].serial
    ensures Tidy(t)
  {
  }

  lemma TransferConstrained(s: State, a: Actor, ids: seq<DeviceId>, target: Target, now: Time)
    requires Constraints(s) && Tidy(s) && TransferDevices(s, a, ids, target, now).Accepted?
    ensures var t := TransferDevices(s, a, ids, target, now).state; Constraints(t) && Tidy(t)
  {
    TransferForm(s, a, ids, target, now);
    hide FindActive, Retirement, UniqueDevices, UniqueVehicles, RemovalDates, AssignmentDates, Tidy, Distinct, DeviceWhere;
    hide MoveAll, EndAll, ReturnAll, Opened, Granted, TargetError;
    assert forall d :: d in ids && d < |s.devices| ==> s.devices[d].lifecycle != Retired;
    TransferRetirement(s.devices, ids);
    SameIdentities(s, TransferDevices(s, a, ids, target, now).state);
  }

  lemma StockConstrained(s: State, a: Actor, op: Op, now: Time)
    requires Linked(s) && Constraints(s) && Tidy(s) && Apply(s, a, op, now).Accepted? && (op.AllocateOp? || op.ReturnOp?)
    ensures var t := Apply(s, a, op, now).state; Tidy(t) && (Constraints(t) <==> !RefusedByDatabase(s, op))
  {
    hide FindActive, FindHeld, Retirement, UniqueDevices, UniqueVehicles, RemovalDates, AssignmentDates, Tidy, Rotate;
    var t := Apply(s, a, op, now).state;
    var d := op.device;
    if op.ReturnOp? {
      HeldLinked(s, d);
    }
    hide Linked;
    LifecycleRetirement(s.devices, d, t.devices[d].lifecycle);
    SameIdentities(s, t);
  }

  lemma HeldLinked(s: State, d: DeviceId)
    requires Linked(s) && FindHeld(s.allocations, d).Some?
    ensures d < |s.devices|
  {
  }

  // ----- Installations -----

  lemma AppendDates(rows: seq<Assignment>, ins: seq<DeviceInstallation>, a: Assignment, k: DeviceInstallation)
    requires AssignmentDates(rows) && RemovalDates(ins)
    requires a.status == Active && a.endedAt.None? && a.endReason.None?
    requires k.status == Completed && k.removedAt.None? && k.removalReason.None?
    ensures AssignmentDates(rows + [a]) && RemovalDates(ins + [k])
  {
  }

  lemma PutInConstrained(s: State, d: DeviceId, v: VehicleId, customer: CustomerId, dealer: Option<DealerId>,
                         allocation: Option<nat>, at: Time)
    requires Constraints(s) && Tidy(s) && d < |s.devices| && v < |s.vehicles|
    requires allocation.Some? ==> allocation.value < |s.allocations|
    requires s.devices[d].lifecycle != Retired && s.vehicles[v].status != ArchivedVehicle
    ensures var t := PutIn(s, d, v, customer, dealer, allocation, at); Constraints(t) && Tidy(t)
  {
    var t := PutIn(s, d, v, customer, dealer, allocation, at);
    assert UniqueVehicles(t.vehicles);
    assert Tidy(t);
    hide Retirement, UniqueDevices, UniqueVehicles, RemovalDates, AssignmentDates, Tidy, Rotate;
    LifecycleRetirement(s.devices, d, Installed);
    AppendDates(s.assignments, s.installations, t.assignments[|s.assignments|], t.installations[|s.installations|]);
  }

  lemma InstallConstrained(s: State, a: Actor, d: DeviceId, v: VehicleId, at: Time)
    requires Constraints(s) && Tidy(s) && Install(s, a, d, v, at).Accepted?
    ensures var t := Install(s, a, d, v, at).state; Constraints(t) && Tidy(t)
  {
    hide First, FindActive, FindStock, PutIn, Constraints, Tidy, VehicleMutation, VehicleTaken;
    InstallReady(s, a, d, v, at);
    var dealer := ManagingDealer(s, s.vehicles[v].customer);
    var stock := if dealer.Some? then FindStock(s.allocations, d) else None;
    PutInConstrained(s, d, v, s.vehicles[v].customer, dealer, stock, at);
  }

  lemma EndDates(rows: seq<Assignment>, ins: seq<DeviceInstallation>, i: nat, n: nat, a: Assignment, k: DeviceInstallation)
    requires AssignmentDates(rows) && RemovalDates(ins) && i < |rows| && n < |ins|
    requires a.status == Ended && a.endedAt.Some?
    requires k.status == Removed && k.removedAt.Some? && k.removalReason.Some?
    ensures AssignmentDates(rows[i := a]) && RemovalDates(ins[n := k])
  {
  }

  lemma TakeOutConstrained(s: State, i: nat, dealer: Option<DealerId>, allocation: Option<nat>, reason: EndReason,
                           removal: RemovalReason, now: Time)
    requires Constraints(s) && Tidy(s) && i < |s.assignments| && s.assignments[i].device < |s.devices|
    requires s.assignments[i].installation.Some? && s.assignments[i].installation.value < |s.installations|
    requires allocation.Some? ==> allocation.value < |s.allocations|
    requires s.devices[s.assignments[i].device].lifecycle != Retired
    requires TakeOut(s, i, dealer, allocation, reason, removal, now).Accepted?
    ensures var t := TakeOut(s, i, dealer, allocation, reason, removal, now).state; Constraints(t) && Tidy(t)
  {
    hide Retirement, UniqueDevices, UniqueVehicles, RemovalDates, AssignmentDates, Tidy, Rotate;
    var t := TakeOut(s, i, dealer, allocation, reason, removal, now).state;
    var d, n := s.assignments[i].device, s.assignments[i].installation.value;
    LifecycleRetirement(s.devices, d, t.devices[d].lifecycle);
    EndDates(s.assignments, s.installations, i, n, t.assignments[i], t.installations[n]);
    SameIdentities(s, t);
  }

  /** An installed device is fitted and its lifecycle says so. */
  lemma InstalledIsFitted(s: State, i: nat)
    requires Inv(s) && i < |s.assignments| && s.assignments[i].status == Active
    ensures s.assignments[i].device < |s.devices| && s.devices[s.assignments[i].device].lifecycle == Installed
    ensures s.assignments[i].installation.Some? && s.assignments[i].installation.value < |s.installations|
    ensures s.assignments[i].vehicle < |s.vehicles| && s.vehicles[s.assignments[i].vehicle].status != ArchivedVehicle
  {
    hide FindOpen, FindHeld, FindActive, OpenOnce, HeldOnce;
    SoleActive(s.assignments, i);
    assert FitsInstallation(s.assignments[i], s.installations);
    assert Settled(Current(s, s.assignments[i].device));
  }

  lemma RemoveConstrained(s: State, a: Actor, d: DeviceId, reason: EndReason, removal: RemovalReason, now: Time)
    requires Inv(s) && Constraints(s) && Tidy(s) && Remove(s, a, d, reason, removal, now).Accepted?
    ensures var t := Remove(s, a, d, reason, removal, now).state; Constraints(t) && Tidy(t)
  {
    ActiveLinked(s, d);
    hide Linked, FindActive, FindHeld, TakeOut, Constraints, Tidy, OpenOnce, HeldOnce, ActiveOnce, Fitted, ArchivedEmpty, Current;
    var i := FindActive(s.assignments, d).value;
    InstalledIsFitted(s, i);
    hide Inv;
    TakeOutConstrained(s, i, ManagingDealer(s, s.vehicles[s.assignments[i].vehicle].customer), FindHeld(s.allocations, d),
                       reason, removal, now);
  }

  /** Replace relies on what the other operations keep: the vehicle it fills is not archived. */
  lemma ReplaceConstrained(s: State, a: Actor, current: DeviceId, next: DeviceId, removal: RemovalReason, now: Time, at: Time)
    requires Inv(s) && Constraints(s) && Tidy(s) && Replace(s, a, current, next, removal, now, at).Accepted?
    ensures var t := Replace(s, a, current, next, removal, now, at).state; Constraints(t) && Tidy(t)
  {
    ReplaceParts(s, a, current, next, removal, now, at);
    hide Linked, OpenOnce, HeldOnce, ActiveOnce, ArchivedEmpty, Current, ResolveAllocation, Constraints, Tidy;
    hide First, FindActive, FindPrimary, FindHeld, FindStock, TakeOut, PutIn, VehicleTaken, Replace, Fitted;
    var i := FindActive(s.assignments, current).value;
    var v := s.assignments[i].vehicle;
    var dealer := ManagingDealer(s, s.vehicles[v].customer);
    var held := FindHeld(s.allocations, current);
    InstalledIsFitted(s, i);
    TakeOutConstrained(s, i, dealer, held, EndedByReplacement, removal, now);
    TakeOutLeaves(s, i, dealer, held, EndedByReplacement, removal, now);
    hide Inv;
    var m := TakeOut(s, i, dealer, held, EndedByReplacement, removal, now).state;
    PutInConstrained(m, next, v, s.vehicles[v].customer, dealer, ResolveAllocation(s, a, next, dealer).row, at);
  }

  // ----- Vehicles -----

  /** The lookup for duplicates is the unique index, except for empty registrations. */
  lemma AddVehicle(s: State, row: Vehicle)
    requires UniqueVehicles(s.vehicles) && Tidy(s) && Nonempty(row.chassis) && Nonempty(row.engine)
    requires !VehicleIdentityKnown(s, row.registration, row.chassis, row.engine, None)
    ensures UniqueVehicles(s.vehicles + [row]) <==>
            !(row.registration == Some("") && exists i :: 0 <= i < |s.vehicles| && s.vehicles[i].registration == Some(""))
  {
    var t := s.vehicles + [row];
    if i :| 0 <= i < |s.vehicles| && s.vehicles[i].registration == Some("") && row.registration == Some("") {
      assert VehiclesClash(t[i], t[|s.vehicles|]);
    }
  }

  lemma CreateVehicleConstrained(s: State, a: Actor, op: Op, now: Time)
    requires Linked(s) && Constraints(s) && Tidy(s) && Apply(s, a, op, now).Accepted? && op.CreateVehicleOp?
    ensures var t := Apply(s, a, op, now).state; Tidy(t) && (Constraints(t) <==> !RefusedByDatabase(s, op))
  {
    OptionalNonempty(op.chassis);
    OptionalNonempty(op.engine);
    hide Retirement, UniqueDevices, UniqueVehicles, RemovalDates, AssignmentDates, VehicleIdentityKnown, Linked;
    hide NormalizeRegistration, OptionalUpper, CustomerMutation;
    var t := Apply(s, a, op, now).state;
    AddVehicle(s, t.vehicles[|s.vehicles|]);
  }

  lemma ChangeVehicle(s: State, v: VehicleId, row: Vehicle, r: Option<string>, c: Option<string>, n: Option<string>)
    requires v < |s.vehicles| && UniqueVehicles(s.vehicles) && Tidy(s) && Nonempty(c) && Nonempty(n)
    requires !VehicleIdentityKnown(s, r, c, n, Some(v))
    requires row.registration == r || row.registration == s.vehicles[v].registration
    requires row.chassis == c || row.chassis == s.vehicles[v].chassis
    requires row.engine == n || row.engine == s.vehicles[v].engine
    ensures UniqueVehicles(s.vehicles[v := row]) <==>
            !(row.registration == Some("")
              && exists i :: 0 <= i < |s.vehicles| && Some(v) != Some(i) && s.vehicles[i].registration == Some(""))
  {
    var t := s.vehicles[v := row];
    if i :| 0 <= i < |s.vehicles| && Some(v) != Some(i) && s.vehicles[i].registration == Some("") && row.registration == Some("") {
      assert VehiclesClash(t[i], t[v]) && VehiclesClash(t[v], t[i]);
      assert i < v || v < i;
    } else {
      forall i, j | 0 <= i < j < |t|
        ensures !VehiclesClash(t[i], t[j])
      {
        assert !VehiclesClash(s.vehicles[i], s.vehicles[j]);
      }
    }
  }

  lemma UpdateVehicleConstrained(s: State, a: Actor, op: Op, now: Time)
    requires Linked(s) && Constraints(s) && Tidy(s) && Apply(s, a, op, now).Accepted? && op.UpdateVehicleOp?
    ensures var t := Apply(s, a, op, now).state; Tidy(t) && (Constraints(t) <==> !RefusedByDatabase(s, op))
  {
    var change, v := op.change, op.vehicle;
    OptionalNonempty(change.chassis);
    OptionalNonempty(change.engine);
    hide Retirement, UniqueDevices, RemovalDates, AssignmentDates, VehicleIdentityKnown, Linked;
    hide NormalizeRegistration, OptionalUpper, VehicleMutation, VehicleInUse, VehiclesClash;
    var t := Apply(s, a, op, now).state;
    var r, c, n := NormalizeRegistration(change.registration), OptionalUpper(change.chassis), OptionalUpper(change.engine);
    ChangeVehicle(s, v, t.vehicles[v], r, c, n);
    if change.registration.None? {
      assert UniqueVehicles(t.vehicles) by {
        OldRegistrationUnique(s, v);
      }
    }
  }

  lemma OldRegistrationUnique(s: State, v: VehicleId)
    requires v < |s.vehicles| && UniqueVehicles(s.vehicles)
    ensures s.vehicles[v].registration == Some("") ==>
              forall i :: 0 <= i < |s.vehicles| && Some(v) != Some(i) ==> s.vehicles[i].registration != Some("")
  {
    forall i | 0 <= i < |s.vehicles| && i != v && s.vehicles[v].registration == Some("")
      ensures s.vehicles[i].registration != Some("")
    {
      assert i < v ==> !VehiclesClash(s.vehicles[i], s.vehicles[v]);
      assert v < i ==> !VehiclesClash(s.vehicles[v], s.vehicles[i]);
    }
  }

  /** Main theorem.  The guards of the services imply the constraints of the database, except for
      two families of requests: returning a device that was retired while it was allocated, and
      storing a second registration that consists of separators only. */
  lemma StepConstrained(s: State, a: Actor, op: Op, now: Time)
    requires Inv(s) && Constraints(s) && Tidy(s) && Apply(s, a, op, now).Accepted?
    ensures var t := Apply(s, a, op, now).state; Tidy(t) && (Constraints(t) <==> !RefusedByDatabase(s, op))
  {
    hide Constraints, Tidy, Linked, OpenOnce, HeldOnce, ActiveOnce, Fitted, ArchivedEmpty, Current;
    hide Register, Update, TransferDevices, Allocate, ReturnToPlatform, Install, Remove, Replace, CreateVehicle, UpdateVehicle;
    match op
    case RegisterOp(model, imei, serial) => RegisterConstrained(s, a, model, imei, serial, now);
    case UpdateOp(d, lifecycle, retiredAt) => UpdateConstrained(s, a, d, lifecycle, retiredAt);
    case TransferOp(ids, target) => TransferConstrained(s, a, ids, target, now);
    case AllocateOp(_, _) => StockConstrained(s, a, op, now);
    case ReturnOp(_) => StockConstrained(s, a, op, now);
    case InstallOp(d, v, at) => InstallConstrained(s, a, d, v, Or(at, now));
    case RemoveOp(d, reason, removal) => RemoveConstrained(s, a, d, reason, removal, now);
    case ReplaceOp(d, next, removal, at) => ReplaceConstrained(s, a, d, next, removal, now, Or(at, now));
    case CreateVehicleOp(_, _, _, _) => CreateVehicleConstrained(s, a, op, now);
    case UpdateVehicleOp(_, _, _) => UpdateVehicleConstrained(s, a, op, now);
    case _ => SameRowsConstrained(s, Apply(s, a, op, now).state);
  }

  lemma SameRowsConstrained(s: State, t: State)
    requires Constraints(s) && Tidy(s) && t.devices == s.devices && t.installations == s.installations
    requires t.assignments == s.assignments && t.vehicles == s.vehicles
    ensures Constraints(t) && Tidy(t)
  {
  }
}
