/** The services themselves: tables that their methods change step by step, with the transaction
    undone when a step in it fails. */
module DevicesService {
  import opened Options
  import opened RegistryTables
  import opened Registry
  import opened RegistryBulk
  import opened RegistryInvariant
  import opened RegistrySteps
  import opened RegistryAgreement
  import opened RegistryRuns

  /** The answer of a request and the tables after it are the ones of an outcome. */
  ghost predicate Meets(error: Option<Error>, before: State, after: State, o: Outcome) {
    match o
    case Rejected(e) => error == Some(e) && after == before
    case Accepted(t) => error == None && after == t
  }

  lemma TakeOutSizes(s: State, i: nat, dealer: Option<DealerId>, allocation: Option<nat>, removal: RemovalReason, now: Time)
    requires i < |s.assignments| && s.assignments[i].device < |s.devices|
    requires s.assignments[i].installation.Some? ==> s.assignments[i].installation.value < |s.installations|
    requires allocation.Some? ==> allocation.value < |s.allocations|
    requires TakeOut(s, i, dealer, allocation, EndedByReplacement, removal, now).Accepted?
    ensures var m := TakeOut(s, i, dealer, allocation, EndedByReplacement, removal, now).state;
            |m.devices| == |s.devices| && m.vehicles == s.vehicles && |m.allocations| == |s.allocations|
  {
  }

  /** What every accepted request keeps. */
  lemma OutcomeKeeps(s: State, a: Actor, op: Op, now: Time)
    requires Inv(s)
    ensures Linked(s) && (Apply(s, a, op, now).Accepted? ==> Inv(Apply(s, a, op, now).state))
  {
    hide Inv, Apply, Agreement;
    GoodLinked(s);
    hide Linked;
    if Apply(s, a, op, now).Accepted? {
      StepSound(s, a, op, now);
    }
  }

  lemma ReplaceOutcome(s: State, a: Actor, current: DeviceId, next: DeviceId, removal: RemovalReason, now: Time, at: Time)
    requires Inv(s)
    ensures Linked(s)
    ensures Replace(s, a, current, next, removal, now, at).Accepted? ==>
              Inv(Replace(s, a, current, next, removal, now, at).state)
  {
    hide Inv, Replace;
    OutcomeKeeps(s, a, ReplaceOp(current, next, removal, Some(at)), now);
  }

  class Registrar {
    var devices: seq<Device>
    var ownership: seq<Tenure>
    var custody: seq<Tenure>
    var allocations: seq<DealerAllocation>
    var installations: seq<DeviceInstallation>
    var assignments: seq<Assignment>
    var vehicles: seq<Vehicle>
    var customers: map<CustomerId, CustomerRow>
    var dealers: map<DealerId, bool>
    var activeModels: set<nat>
    var platformOrganization: bool

    constructor (customers: map<CustomerId, CustomerRow>, dealers: map<DealerId, bool>, models: set<nat>, platform: bool)
      ensures Valid() && Tables() == State([], [], [], [], [], [], [], customers, dealers, models, platform)
    {
      FreshIsGood(State([], [], [], [], [], [], [], customers, dealers, models, platform));
      devices, ownership, custody, allocations, installations, assignments, vehicles := [], [], [], [], [], [], [];
      this.customers, this.dealers, activeModels, platformOrganization := customers, dealers, models, platform;
    }

    /** The invariant of the registry holds. */
    ghost predicate Valid()
      reads this
    {
      Inv(Tables())
    }

    function Tables(): State
      reads this
    {
      State(devices, ownership, custody, allocations, installations, assignments, vehicles, customers, dealers,
            activeModels, platformOrganization)
    }

    /** Undoes a transaction. */
    method Rollback(saved: State)
      modifies this
      ensures Tables() == saved
    {
      devices, ownership, custody, allocations := saved.devices, saved.ownership, saved.custody, saved.allocations;
      installations, assignments, vehicles := saved.installations, saved.assignments, saved.vehicles;
      customers, dealers, activeModels := saved.customers, saved.dealers, saved.activeModels;
      platformOrganization := saved.platformOrganization;
    }

    method EndCurrentOwnership(d: DeviceId, at: Time)
      modifies this`ownership
      ensures ownership == EndCurrent(old(ownership), d, at)
    {
      ownership := EndCurrent(ownership, d, at);
    }

    method EndCurrentCustody(d: DeviceId, at: Time)
      modifies this`custody
      ensures custody == EndCurrent(old(custody), d, at)
    {
      custody := EndCurrent(custody, d, at);
    }

    method OpenCustody(d: DeviceId, holder: Party, reason: Reason, at: Time)
      modifies this`custody
      ensures custody == old(custody) + [Tenure(d, holder, reason, at, None)]
    {
      custody := custody + [Tenure(d, holder, reason, at, None)];
    }

    method SetDeviceLifecycle(d: DeviceId, l: Lifecycle)
      requires d < |devices|
      modifies this`devices
      ensures devices == SetLifecycle(old(devices), d, l)
    {
      devices := devices[d := devices[d].(lifecycle := l)];
    }

    method RegisterDevice(a: Actor, model: nat, imeiText: Option<string>, serialText: Option<string>, now: Time)
      returns (error: Option<Error>)
      requires Valid()
      modifies this
      ensures Valid()
      ensures Meets(error, old(Tables()), Tables(), Register(old(Tables()), a, model, imeiText, serialText, now))
    {
      hide Inv;
      OutcomeKeeps(Tables(), a, RegisterOp(model, imeiText, serialText), now);
      if !IsPlatform(a) { return Some(Forbidden); }
      if model !in activeModels { return Some(BadRequest); }
      var imei, serial := Optional(imeiText), OptionalUpper(serialText);
      if imei.None? && serial.None? { return Some(BadRequest); }
      if IdentityKnown(Tables(), imei, serial) { return Some(Conflict); }
      if !platformOrganization { return Some(NotFound); }
      var created := |devices|;
      devices := devices + [Device(imei, serial, InStock, None)];
      ownership := ownership + [Tenure(created, Platform, InitialStock, now, None)];
      custody := custody + [Tenure(created, Platform, Reception, now, None)];
      return None;
    }

    method UpdateDevice(a: Actor, d: DeviceId, lifecycle: Option<Lifecycle>, retiredAt: Option<Time>)
      returns (error: Option<Error>)
      requires Valid()
      modifies this
      ensures Valid()
      ensures Meets(error, old(Tables()), Tables(), Update(old(Tables()), a, d, lifecycle, retiredAt))
    {
      hide Inv;
      OutcomeKeeps(Tables(), a, UpdateOp(d, lifecycle, retiredAt), 0);
      if !IsPlatform(a) { return Some(Forbidden); }
      if d >= |devices| { return Some(NotFound); }
      if lifecycle == Some(Retired) && retiredAt.None? { return Some(BadRequest); }
      if lifecycle.Some? && lifecycle.value in {Installed, Allocated} { return Some(BadRequest); }
      var active := FindActive(assignments, d);
      if active.Some? && lifecycle.Some? && lifecycle.value != Installed { return Some(Conflict); }
      if lifecycle.Some? {
        var retired := if lifecycle == Some(Retired) then retiredAt else None;
        devices := devices[d := devices[d].(lifecycle := lifecycle.value, retiredAt := retired)];
      }
      return None;
    }

    /** One round of the loop of a transfer. */
    method MoveDevice(d: DeviceId, to: Party, dealer: Option<DealerId>, now: Time)
      requires d < |devices|
      modifies this`ownership, this`custody, this`allocations, this`devices
      ensures Tables() == Move(old(Tables()), d, to, dealer, now)
    {
      allocations := ReturnHeld(allocations, d, now);
      EndCurrentOwnership(d, now);
      EndCurrentCustody(d, now);
      ownership := ownership + [Tenure(d, to, Transfer, now, None)];
      custody := custody + [Tenure(d, to, Transfer, now, None)];
      if dealer.Some? {
        allocations := allocations + [NewAllocation(dealer.value, d, now)];
      } else {
        assert allocations + [] == allocations;
      }
      SetDeviceLifecycle(d, Allocated);
    }

    method TransferAll(a: Actor, ids: seq<DeviceId>, target: Target, now: Time) returns (error: Option<Error>)
      requires Valid()
      modifies this
      ensures Valid()
      ensures Meets(error, old(Tables()), Tables(), TransferDevices(old(Tables()), a, ids, target, now))
    {
      hide Inv;
      OutcomeKeeps(Tables(), a, TransferOp(ids, target), now);
      var s := Tables();
      if !Distinct(ids) { return Some(BadRequest); }
      error := TargetError(s, a, target);
      if error.Some? { return; }
      if exists d :: d in ids && !(d < |devices| && DeviceWhere(s, a, d)) { return Some(NotFound); }
      if exists d :: d in ids && !Movable(s, d) { return Some(Conflict); }
      var to, dealer := TargetParty(target), TargetDealer(s, target);
      assert forall k :: 0 <= k < |ids| ==> ids[k] in ids;
      hide MoveAll, DeviceWhere, Movable, Distinct, TargetError;
      MoveDevices(ids, to, dealer, now);
      return None;
    }

    method MoveDevices(ids: seq<DeviceId>, to: Party, dealer: Option<DealerId>, now: Time)
      requires forall k :: 0 <= k < |ids| ==> ids[k] < |devices|
      modifies this`ownership, this`custody, this`allocations, this`devices
      ensures Tables() == MoveAll(old(Tables()), ids, to, dealer, now)
    {
      hide Move;
      var s, i := Tables(), 0;
      while i < |ids|
        invariant 0 <= i <= |ids|
        invariant Tables() == MoveAll(s, ids[..i], to, dealer, now)
      {
        assert ids[..i + 1][..i] == ids[..i];
        MoveDevice(ids[i], to, dealer, now);
        i := i + 1;
      }
      assert ids[..i] == ids;
    }

    method AllocateDevice(a: Actor, d: DeviceId, dealer: DealerId, now: Time) returns (error: Option<Error>)
      requires Valid()
      modifies this
      ensures Valid()
      ensures Meets(error, old(Tables()), Tables(), Allocate(old(Tables()), a, d, dealer, now))
    {
      hide Inv;
      OutcomeKeeps(Tables(), a, AllocateOp(d, dealer), now);
      if !IsPlatform(a) { return Some(Forbidden); }
      var allocation, assignment := FindHeld(allocations, d), FindActive(assignments, d);
      if d >= |devices| { return Some(NotFound); }
      if !(dealer in dealers && dealers[dealer]) { return Some(BadRequest); }
      if allocation.Some? { return Some(Conflict); }
      if assignment.Some? { return Some(Conflict); }
      if devices[d].lifecycle !in {Received, InStock} { return Some(Conflict); }
      EndCurrentCustody(d, now);
      allocations := allocations + [NewAllocation(dealer, d, now)];
      custody := custody + [Tenure(d, Dealer(dealer), Allocation, now, None)];
      SetDeviceLifecycle(d, Allocated);
      return None;
    }

    method ReturnDevice(a: Actor, d: DeviceId, now: Time) returns (error: Option<Error>)
      requires Valid()
      modifies this
      ensures Valid()
      ensures Meets(error, old(Tables()), Tables(), ReturnToPlatform(old(Tables()), a, d, now))
    {
      hide Inv;
      OutcomeKeeps(Tables(), a, ReturnOp(d), now);
      var allocation := FindHeld(allocations, d);
      if allocation.None? { return Some(NotFound); }
      if !MayUseDealer(a, allocations[allocation.value].dealer) { return Some(Forbidden); }
      var assignment := FindActive(assignments, d);
      if assignment.Some? { return Some(Conflict); }
      if !platformOrganization { return Some(NotFound); }
      var i := allocation.value;
      allocations := allocations[i := allocations[i].(status := Returned, returnedAt := Some(now))];
      EndCurrentCustody(d, now);
      custody := custody + [Tenure(d, Platform, Return, now, None)];
      SetDeviceLifecycle(d, InStock);
      return None;
    }

    method InstallWithinTransaction(d: DeviceId, v: VehicleId, customer: CustomerId, dealer: Option<DealerId>,
                                    allocation: Option<nat>, at: Time)
      requires d < |devices| && v < |vehicles|
      requires allocation.Some? ==> allocation.value < |allocations|
      modifies this`assignments, this`installations, this`custody, this`allocations, this`devices, this`vehicles
      ensures Tables() == PutIn(old(Tables()), d, v, customer, dealer, allocation, at)
    {
      hide EndCurrent, SetLifecycle;
      var installation := |installations|;
      installations := installations + [DeviceInstallation(d, v, dealer, Completed, at, None, None)];
      assignments := assignments + [Assignment(v, d, Some(installation), Primary, Active, at, None, None)];
      EndCurrentCustody(d, at);
      custody := custody + [Tenure(d, Customer(customer), Installation, at, None)];
      SetDeviceLifecycle(d, Installed);
      vehicles := vehicles[v := vehicles[v].(status := ActiveVehicle)];
      if allocation.Some? {
        var i := allocation.value;
        allocations := allocations[i := allocations[i].(status := InUse, installedAt := Some(at))];
      }
    }

    method InstallDevice(a: Actor, d: DeviceId, v: VehicleId, at: Time) returns (error: Option<Error>)
      requires Valid()
      modifies this
      ensures Valid()
      ensures Meets(error, old(Tables()), Tables(), Install(old(Tables()), a, d, v, at))
    {
      hide Inv;
      OutcomeKeeps(Tables(), a, InstallOp(d, v, Some(at)), at);
      var s := Tables();
      error := VehicleMutation(s, a, v);
      if error.Some? { return; }
      if ArchivedSite(s, v) { return Some(BadRequest); }
      if d >= |devices| { return Some(NotFound); }
      var dealer := ManagingDealer(s, vehicles[v].customer);
      var allocation := ResolveAllocation(s, a, d, dealer);
      if allocation.Refused? { return Some(allocation.error); }
      if !Installable(s, d, v, None) { return Some(Conflict); }
      hide PutIn, Installable, ArchivedSite;
      InstallWithinTransaction(d, v, vehicles[v].customer, dealer, allocation.row, at);
      return None;
    }

    method EndAssignment(i: nat, reason: EndReason, removal: RemovalReason, now: Time)
      requires i < |assignments|
      requires assignments[i].installation.Some? ==> assignments[i].installation.value < |installations|
      modifies this`assignments, this`installations
      ensures var row := old(assignments[i]);
              && assignments == old(assignments)[i := row.(status := Ended, endedAt := Some(now), endReason := Some(reason))]
              && installations == if row.installation.None? then old(installations)
                                  else old(installations)[row.installation.value :=
                                         old(installations)[row.installation.value].(
                                           status := Removed, removedAt := Some(now), removalReason := Some(removal))]
    {
      var installation := assignments[i].installation;
      assignments := assignments[i := assignments[i].(status := Ended, endedAt := Some(now), endReason := Some(reason))];
      if installation.Some? {
        var n := installation.value;
        installations := installations[n := installations[n].(status := Removed, removedAt := Some(now),
                                                              removalReason := Some(removal))];
      }
    }

    /** Fails after its first writes when the platform organization is missing. */
    method RemoveWithinTransaction(i: nat, dealer: Option<DealerId>, allocation: Option<nat>, reason: EndReason,
                                   removal: RemovalReason, now: Time) returns (error: Option<Error>)
      requires i < |assignments| && assignments[i].device < |devices|
      requires assignments[i].installation.Some? ==> assignments[i].installation.value < |installations|
      requires allocation.Some? ==> allocation.value < |allocations|
      modifies this`assignments, this`installations, this`custody, this`allocations, this`devices
      ensures error == (match TakeOut(old(Tables()), i, dealer, allocation, reason, removal, now)
                        case Accepted(_) => None
                        case Rejected(e) => Some(e))
      ensures error == None ==> Tables() == TakeOut(old(Tables()), i, dealer, allocation, reason, removal, now).state
    {
      hide EndCurrent, SetLifecycle;
      var d := assignments[i].device;
      EndAssignment(i, reason, removal, now);
      EndCurrentCustody(d, now);
      if dealer.Some? && allocation.Some? {
        OpenCustody(d, Dealer(dealer.value), Removal, now);
        var k := allocation.value;
        allocations := allocations[k := allocations[k].(status := Available, availableAt := Some(now))];
        SetDeviceLifecycle(d, Allocated);
      } else {
        if !platformOrganization { return Some(NotFound); }
        OpenCustody(d, Platform, Removal, now);
        SetDeviceLifecycle(d, InStock);
      }
      return None;
    }

    method RemoveDevice(a: Actor, d: DeviceId, reason: EndReason, removal: RemovalReason, now: Time)
      returns (error: Option<Error>)
      requires Valid()
      modifies this
      ensures Valid()
      ensures Meets(error, old(Tables()), Tables(), Remove(old(Tables()), a, d, reason, removal, now))
    {
      hide Inv;
      OutcomeKeeps(Tables(), a, RemoveOp(d, reason, removal), now);
      var s := Tables();
      var assignment := FindActive(assignments, d);
      if assignment.None? { return Some(NotFound); }
      var v := assignments[assignment.value].vehicle;
      error := VehicleMutation(s, a, v);
      if error.Some? { return; }
      var allocation := FindHeld(allocations, d);
      var dealer := ManagingDealer(s, vehicles[v].customer);
      hide TakeOut, FindActive, FindHeld, VehicleMutation;
      error := RemoveWithinTransaction(assignment.value, dealer, allocation, reason, removal, now);
      if error.Some? { Rollback(s); }
    }

    /** Removes one device and installs the other. */
    method ReplaceWithinTransaction(i: nat, next: DeviceId, v: VehicleId, customer: CustomerId, dealer: Option<DealerId>,
                                    held: Option<nat>, row: Option<nat>, removal: RemovalReason, now: Time, at: Time)
      returns (error: Option<Error>)
      requires i < |assignments| && assignments[i].device < |devices|
      requires assignments[i].installation.Some? ==> assignments[i].installation.value < |installations|
      requires held.Some? ==> held.value < |allocations|
      requires next < |devices| && v < |vehicles| && (row.Some? ==> row.value < |allocations|)
      modifies this`assignments, this`installations, this`custody, this`allocations, this`devices, this`vehicles
      ensures match TakeOut(old(Tables()), i, dealer, held, EndedByReplacement, removal, now)
              case Rejected(e) => error == Some(e)
              case Accepted(m) =>
                && next < |m.devices| && v < |m.vehicles| && (row.Some? ==> row.value < |m.allocations|)
                && error == None && Tables() == PutIn(m, next, v, customer, dealer, row, at)
    {
      hide TakeOut, PutIn;
      var s := Tables();
      if TakeOut(s, i, dealer, held, EndedByReplacement, removal, now).Accepted? {
        TakeOutSizes(s, i, dealer, held, removal, now);
      }
      error := RemoveWithinTransaction(i, dealer, held, EndedByReplacement, removal, now);
      if error.None? {
        InstallWithinTransaction(next, v, customer, dealer, row, at);
      }
    }

    method ReplaceDevice(a: Actor, current: DeviceId, next: DeviceId, removal: RemovalReason, now: Time, at: Time)
      returns (error: Option<Error>)
      requires Valid()
      modifies this
      ensures Valid()
      ensures Meets(error, old(Tables()), Tables(), Replace(old(Tables()), a, current, next, removal, now, at))
    {
      hide Inv, TakeOut, PutIn, FindPrimary, FindHeld, FindStock, Installable;
      var s := Tables();
      ReplaceOutcome(s, a, current, next, removal, now, at);
      if current == next { return Some(BadRequest); }
      var assignment := FindPrimary(assignments, current);
      if assignment.None? { return Some(NotFound); }
      var v := assignments[assignment.value].vehicle;
      error := VehicleMutation(s, a, v);
      if error.Some? { return; }
      if next >= |devices| { return Some(NotFound); }
      var customer := vehicles[v].customer;
      var dealer := ManagingDealer(s, customer);
      var held, stock := FindHeld(allocations, current), ResolveAllocation(s, a, next, dealer);
      if stock.Refused? { return Some(stock.error); }
      if !Installable(s, next, v, assignment) { return Some(Conflict); }
      error := ReplaceWithinTransaction(assignment.value, next, v, customer, dealer, held, stock.row, removal, now, at);
      if error.Some? { Rollback(s); }
    }

    /** results, seen and the tables grow line by line. */
    method RegisterLines(a: Actor, model: nat, lines: seq<string>, now: Time)
      returns (error: Option<Error>, results: seq<LineResult>)
      requires Valid()
      modifies this
      ensures Valid()
      ensures if IsPlatform(a) then error == None && Tables() == BulkRegister(old(Tables()), a, model, lines, now).state
                                    && results == BulkRegister(old(Tables()), a, model, lines, now).results
              else error == Some(Forbidden) && results == [] && Tables() == old(Tables())
    {
      hide Inv;
      if !IsPlatform(a) { return Some(Forbidden), []; }
      var s := Tables();
      var seen: set<string> := {};
      results := [];
      var i := 0;
      hide Register, Trim, ValidImei;
      while i < |lines|
        invariant 0 <= i <= |lines| && Valid()
        invariant Bulk(Tables(), seen, results) == BulkRegister(s, a, model, lines[..i], now)
      {
        assert lines[..i + 1][..i] == lines[..i];
        var imei := Trim(lines[i]);
        i := i + 1;
        if !ValidImei(imei) {
          results := results + [LineResult(imei, BadImei)];
          continue;
        }
        if imei in seen {
          results := results + [LineResult(imei, RepeatedLine)];
          continue;
        }
        seen := seen + {imei};
        var failure := RegisterDevice(a, model, Some(imei), None, now);
        results := results + [LineResult(imei, if failure.None? then Created else Failed(failure.value))];
      }
      assert lines[..i] == lines;
      error := None;
    }

    method AddVehicle(a: Actor, customer: CustomerId, registration: Option<string>, chassis: Option<string>,
                      engine: Option<string>) returns (error: Option<Error>)
      requires Valid()
      modifies this
      ensures Valid()
      ensures Meets(error, old(Tables()), Tables(), CreateVehicle(old(Tables()), a, customer, registration, chassis, engine))
    {
      hide Inv;
      OutcomeKeeps(Tables(), a, CreateVehicleOp(customer, registration, chassis, engine), 0);
      error := CustomerMutation(Tables(), a, customer);
      if error.Some? { return; }
      if customers[customer].status !in {PendingCustomer, ActiveCustomer} { return Some(BadRequest); }
      var r, c, n := NormalizeRegistration(registration), OptionalUpper(chassis), OptionalUpper(engine);
      if VehicleIdentityKnown(Tables(), r, c, n, None) { return Some(Conflict); }
      vehicles := vehicles + [Vehicle(customer, PendingVehicle, None, r, c, n)];
    }

    method ChangeVehicle(a: Actor, v: VehicleId, change: VehicleChange, subscribed: bool, now: Time)
      returns (error: Option<Error>)
      requires Valid()
      modifies this
      ensures Valid()
      ensures Meets(error, old(Tables()), Tables(), UpdateVehicle(old(Tables()), a, v, change, subscribed, now))
    {
      hide Inv;
      OutcomeKeeps(Tables(), a, UpdateVehicleOp(v, change, subscribed), now);
      error := VehicleMutation(Tables(), a, v);
      if error.Some? { return; }
      if change.status == Some(ArchivedVehicle) && (VehicleInUse(assignments, v) || subscribed) { return Some(Conflict); }
      var r, c, n := NormalizeRegistration(change.registration), OptionalUpper(change.chassis), OptionalUpper(change.engine);
      if VehicleIdentityKnown(Tables(), r, c, n, Some(v)) { return Some(Conflict); }
      var row := vehicles[v];
      if change.status.Some? {
        row := row.(status := change.status.value, archivedAt := if change.status == Some(ArchivedVehicle) then Some(now) else None);
      }
      if change.registration.Some? { row := row.(registration := r); }
      if change.chassis.Some? { row := row.(chassis := c); }
      if change.engine.Some? { row := row.(engine := n); }
      vehicles := vehicles[v := row];
    }
  }
}
