/** The operations of the device and vehicle services, as functions of the tables. */
module Registry {
  import opened Options
  import opened RegistryTables

  datatype Error = NotFound | BadRequest | Forbidden | Conflict

  datatype Outcome = Accepted(state: State) | Rejected(error: Error)

  // ----- Actors (asset-access.service.ts) -----

  datatype Scope = PlatformScope | DealerScope(dealer: DealerId) | CustomerScope(customer: CustomerId)

  datatype Actor = Actor(roles: seq<Scope>, customerIds: seq<CustomerId>)

  predicate IsPlatform(a: Actor) { PlatformScope in a.roles }

  predicate ActsForDealer(a: Actor, d: DealerId) { DealerScope(d) in a.roles }

  predicate ActsForCustomer(a: Actor, c: CustomerId) { c in a.customerIds || CustomerScope(c) in a.roles }

  /** assertDealer. */
  predicate MayUseDealer(a: Actor, d: DealerId) { IsPlatform(a) || ActsForDealer(a, d) }

  function ManagingDealer(s: State, c: CustomerId): Option<DealerId> {
    if c in s.customers then s.customers[c].managingDealer else None
  }

  predicate ActsForManager(s: State, a: Actor, c: CustomerId) {
    var m := ManagingDealer(s, c);
    m.Some? && ActsForDealer(a, m.value)
  }

  /** vehicleWhere. */
  predicate VehicleWhere(s: State, a: Actor, v: VehicleId)
    requires v < |s.vehicles|
  {
    IsPlatform(a) || ActsForManager(s, a, s.vehicles[v].customer) || ActsForCustomer(a, s.vehicles[v].customer)
  }

  /** deviceWhere: an active allocation to a dealer of the actor, or an active assignment to a
      vehicle whose customer the actor manages or is. */
  predicate DeviceWhere(s: State, a: Actor, d: DeviceId) {
    || IsPlatform(a)
    || (exists i :: 0 <= i < |s.allocations| && HeldFor(s.allocations[i], d)
                    && ActsForDealer(a, s.allocations[i].dealer))
    || (exists i :: 0 <= i < |s.assignments| && ActiveFor(s.assignments[i], d)
                    && s.assignments[i].vehicle < |s.vehicles|
                    && (ActsForManager(s, a, s.vehicles[s.assignments[i].vehicle].customer)
                        || ActsForCustomer(a, s.vehicles[s.assignments[i].vehicle].customer)))
  }

  /** assertVehicleMutation. */
  function VehicleMutation(s: State, a: Actor, v: VehicleId): Option<Error> {
    if v >= |s.vehicles| then Some(NotFound)
    else if IsPlatform(a) || ActsForManager(s, a, s.vehicles[v].customer) then None
    else Some(Forbidden)
  }

  /** assertCustomerMutation. */
  function CustomerMutation(s: State, a: Actor, c: CustomerId): Option<Error> {
    if c !in s.customers then Some(NotFound)
    else if IsPlatform(a) || ActsForManager(s, a, c) then None
    else Some(Forbidden)
  }

  // ----- Identities -----

  predicate IsSpace(c: char) {
    c in {' ', '\t', '\n', '\r', '\U{B}', '\U{C}', '\U{A0}', '\U{1680}', '\U{2028}', '\U{2029}', '\U{202F}',
          '\U{205F}', '\U{3000}', '\U{FEFF}'} || '\U{2000}' <= c <= '\U{200A}'
  }

  function TrimStart(t: string): string {
    if t != [] && IsSpace(t[0]) then TrimStart(t[1..]) else t
  }

  function TrimEnd(t: string): string {
    if t != [] && IsSpace(t[|t| - 1]) then TrimEnd(t[..|t| - 1]) else t
  }

  function Trim(t: string): string { TrimEnd(TrimStart(t)) }

  function Upper(t: string): string {
    seq(|t|, i requires 0 <= i < |t| => if 'a' <= t[i] <= 'z' then t[i] - 'a' + 'A' else t[i])
  }

  /** optional. */
  function Optional(value: Option<string>): Option<string> {
    if value.Some? && Trim(value.value) != "" then Some(Trim(value.value)) else None
  }

  /** optionalUpper. */
  function OptionalUpper(value: Option<string>): Option<string> {
    if value.Some? && Trim(value.value) != "" then Some(Upper(Trim(value.value))) else None
  }

  function DropSeparators(t: string): string {
    if t == "" then ""
    else (if IsSpace(t[0]) || t[0] == '-' then "" else [t[0]]) + DropSeparators(t[1..])
  }

  /** normalizeRegistration. */
  function NormalizeRegistration(value: Option<string>): Option<string> {
    if value.Some? && Trim(value.value) != "" then Some(DropSeparators(Upper(Trim(value.value)))) else None
  }

  /** An identity is looked up only when it is not empty. */
  predicate SameIdentity(a: Option<string>, b: Option<string>) { a.Some? && a.value != "" && a == b }

  // ----- Links -----

  /** Rows refer to rows that exist. */
  ghost predicate Linked(s: State) {
    && (forall i :: 0 <= i < |s.assignments| ==>
          s.assignments[i].device < |s.devices| && s.assignments[i].vehicle < |s.vehicles|
          && (s.assignments[i].installation.Some? ==> s.assignments[i].installation.value < |s.installations|))
    && (forall i :: 0 <= i < |s.ownership| ==> s.ownership[i].device < |s.devices|)
    && (forall i :: 0 <= i < |s.custody| ==> s.custody[i].device < |s.devices|)
    && (forall i :: 0 <= i < |s.allocations| ==> s.allocations[i].device < |s.devices|)
    && (forall i :: 0 <= i < |s.installations| ==> s.installations[i].device < |s.devices|)
    && (forall i :: 0 <= i < |s.vehicles| ==> s.vehicles[i].customer in s.customers)
  }

  // ----- Device operations -----

  predicate IdentityKnown(s: State, imei: Option<string>, serial: Option<string>) {
    exists i :: 0 <= i < |s.devices| &&
                (SameIdentity(imei, s.devices[i].imei) || SameIdentity(serial, s.devices[i].serial))
  }

  function RegisterDevice(s: State, imei: Option<string>, serial: Option<string>, now: Time): State {
    var d := |s.devices|;
    s.(devices := s.devices + [Device(imei, serial, InStock, None)],
       ownership := s.ownership + [Tenure(d, Platform, InitialStock, now, None)],
       custody := s.custody + [Tenure(d, Platform, Reception, now, None)])
  }

  function Register(s: State, a: Actor, model: nat, imeiText: Option<string>, serialText: Option<string>, now: Time): Outcome {
    var imei, serial := Optional(imeiText), OptionalUpper(serialText);
    if !IsPlatform(a) then Rejected(Forbidden)
    else if model !in s.activeModels then Rejected(BadRequest)
    else if imei.None? && serial.None? then Rejected(BadRequest)
    else if IdentityKnown(s, imei, serial) then Rejected(Conflict)
    else if !s.platformOrganization then Rejected(NotFound)
    else Accepted(RegisterDevice(s, imei, serial, now))
  }

  function Update(s: State, a: Actor, d: DeviceId, lifecycle: Option<Lifecycle>, retiredAt: Option<Time>): Outcome {
    if !IsPlatform(a) then Rejected(Forbidden)
    else if d >= |s.devices| then Rejected(NotFound)
    else if lifecycle == Some(Retired) && retiredAt.None? then Rejected(BadRequest)
    else if lifecycle == Some(Installed) || lifecycle == Some(Allocated) then Rejected(BadRequest)
    else if FindActive(s.assignments, d).Some? && lifecycle.Some? then Rejected(Conflict)
    else Accepted(s.(devices := UpdateRow(s.devices, d, lifecycle, retiredAt)))
  }

  function UpdateRow(devices: seq<Device>, d: DeviceId, lifecycle: Option<Lifecycle>, retiredAt: Option<Time>): seq<Device>
    requires d < |devices|
  {
    if lifecycle.None? then devices
    else
      var retired := if lifecycle == Some(Retired) then retiredAt else None;
      devices[d := devices[d].(lifecycle := lifecycle.value, retiredAt := retired)]
  }

  datatype Target = ToDealer(dealer: DealerId) | ToCustomer(customer: CustomerId)

  function TargetError(s: State, a: Actor, target: Target): Option<Error> {
    match target
    case ToDealer(d) =>
      if !MayUseDealer(a, d) then Some(Forbidden)
      else if !(d in s.dealers && s.dealers[d]) then Some(BadRequest)
      else None
    case ToCustomer(c) =>
      var e := CustomerMutation(s, a, c);
      if e.Some? then e
      else if s.customers[c].status !in {PendingCustomer, ActiveCustomer} then Some(BadRequest)
      else None
  }

  function TargetParty(target: Target): Party {
    match target case ToDealer(d) => Dealer(d) case ToCustomer(c) => Customer(c)
  }

  /** The dealer that receives the allocation, if any. */
  function TargetDealer(s: State, target: Target): Option<DealerId> {
    match target case ToDealer(d) => Some(d) case ToCustomer(c) => ManagingDealer(s, c)
  }

  predicate Movable(s: State, d: DeviceId)
    requires d < |s.devices|
  {
    FindActive(s.assignments, d).None? && s.devices[d].lifecycle in {Received, InStock, Allocated}
  }

  function Move(s: State, d: DeviceId, to: Party, dealer: Option<DealerId>, now: Time): State
    requires d < |s.devices|
  {
    s.(allocations := ReturnHeld(s.allocations, d, now) +
                      (if dealer.Some? then [NewAllocation(dealer.value, d, now)] else []),
       ownership := Rotate(s.ownership, d, to, Transfer, now),
       custody := Rotate(s.custody, d, to, Transfer, now),
       devices := SetLifecycle(s.devices, d, Allocated))
  }

  function MoveAll(s: State, ids: seq<DeviceId>, to: Party, dealer: Option<DealerId>, now: Time): (r: State)
    requires forall k :: 0 <= k < |ids| ==> ids[k] < |s.devices|
    ensures |r.devices| == |s.devices|
    decreases |ids|
  {
    if ids == [] then s
    else Move(MoveAll(s, ids[..|ids| - 1], to, dealer, now), ids[|ids| - 1], to, dealer, now)
  }

  predicate Distinct(ids: seq<DeviceId>) {
    forall i, j :: 0 <= i < j < |ids| ==> ids[i] != ids[j]
  }

  function TransferDevices(s: State, a: Actor, ids: seq<DeviceId>, target: Target, now: Time): Outcome {
    if !Distinct(ids) then Rejected(BadRequest)
    else
      var e := TargetError(s, a, target);
      if e.Some? then Rejected(e.value)
      else if exists d :: d in ids && !(d < |s.devices| && DeviceWhere(s, a, d)) then Rejected(NotFound)
      else if exists d :: d in ids && !Movable(s, d) then Rejected(Conflict)
      else
        assert forall k :: 0 <= k < |ids| ==> ids[k] in ids;
        Accepted(MoveAll(s, ids, TargetParty(target), TargetDealer(s, target), now))
  }

  function Allocate(s: State, a: Actor, d: DeviceId, dealer: DealerId, now: Time): Outcome {
    if !IsPlatform(a) then Rejected(Forbidden)
    else if d >= |s.devices| then Rejected(NotFound)
    else if !(dealer in s.dealers && s.dealers[dealer]) then Rejected(BadRequest)
    else if FindHeld(s.allocations, d).Some? then Rejected(Conflict)
    else if FindActive(s.assignments, d).Some? then Rejected(Conflict)
    else if s.devices[d].lifecycle !in {Received, InStock} then Rejected(Conflict)
    else Accepted(s.(allocations := s.allocations + [NewAllocation(dealer, d, now)],
                     custody := Rotate(s.custody, d, Dealer(dealer), Allocation, now),
                     devices := SetLifecycle(s.devices, d, Allocated)))
  }

  function ReturnToPlatform(s: State, a: Actor, d: DeviceId, now: Time): Outcome
    requires Linked(s)
  {
    var held := FindHeld(s.allocations, d);
    if held.None? then Rejected(NotFound)
    else if !MayUseDealer(a, s.allocations[held.value].dealer) then Rejected(Forbidden)
    else if FindActive(s.assignments, d).Some? then Rejected(Conflict)
    else if !s.platformOrganization then Rejected(NotFound)
    else
      var row := s.allocations[held.value];
      Accepted(s.(allocations := s.allocations[held.value := row.(status := Returned, returnedAt := Some(now))],
                  custody := Rotate(s.custody, d, Platform, Return, now),
                  devices := SetLifecycle(s.devices, d, InStock)))
  }

  datatype Resolved = UseAllocation(row: Option<nat>) | Refused(error: Error)

  /** resolveInstallAllocation. */
  function ResolveAllocation(s: State, a: Actor, d: DeviceId, dealer: Option<DealerId>): Resolved {
    var stock := FindStock(s.allocations, d);
    if dealer.Some? then
      if stock.None? || s.allocations[stock.value].dealer != dealer.value then Refused(Forbidden)
      else if !MayUseDealer(a, dealer.value) then Refused(Forbidden)
      else UseAllocation(stock)
    else if !IsPlatform(a) then Refused(Forbidden)
    else if stock.Some? then Refused(Conflict)
    else UseAllocation(None)
  }

  /** assertInstallationAvailability. */
  predicate Installable(s: State, d: DeviceId, v: VehicleId, ignored: Option<nat>)
    requires d < |s.devices|
  {
    && s.devices[d].lifecycle in {InStock, Allocated}
    && FindActive(s.assignments, d).None?
    && !VehicleTaken(s.assignments, v, ignored)
  }

  /** installWithinTransaction. */
  function PutIn(s: State, d: DeviceId, v: VehicleId, customer: CustomerId, dealer: Option<DealerId>,
                 allocation: Option<nat>, at: Time): State
    requires d < |s.devices| && v < |s.vehicles|
    requires allocation.Some? ==> allocation.value < |s.allocations|
  {
    s.(installations := s.installations + [DeviceInstallation(d, v, dealer, Completed, at, None, None)],
       assignments := s.assignments + [Assignment(v, d, Some(|s.installations|), Primary, Active, at, None, None)],
       custody := Rotate(s.custody, d, Customer(customer), Installation, at),
       devices := SetLifecycle(s.devices, d, Installed),
       vehicles := s.vehicles[v := s.vehicles[v].(status := ActiveVehicle)],
       allocations := if allocation.None? then s.allocations
                      else s.allocations[allocation.value :=
                             s.allocations[allocation.value].(status := InUse, installedAt := Some(at))])
  }

  predicate ArchivedSite(s: State, v: VehicleId)
    requires v < |s.vehicles|
  {
    || s.vehicles[v].status == ArchivedVehicle
    || (s.vehicles[v].customer in s.customers && s.customers[s.vehicles[v].customer].status == ArchivedCustomer)
  }

  function Install(s: State, a: Actor, d: DeviceId, v: VehicleId, at: Time): Outcome {
    var e := VehicleMutation(s, a, v);
    if e.Some? then Rejected(e.value)
    else if ArchivedSite(s, v) then Rejected(BadRequest)
    else if d >= |s.devices| then Rejected(NotFound)
    else
      var customer := s.vehicles[v].customer;
      var dealer := ManagingDealer(s, customer);
      match ResolveAllocation(s, a, d, dealer)
      case Refused(e) => Rejected(e)
      case UseAllocation(row) =>
        if !Installable(s, d, v, None) then Rejected(Conflict)
        else Accepted(PutIn(s, d, v, customer, dealer, row, at))
  }

  /** removeWithinTransaction. */
  function TakeOut(s: State, i: nat, dealer: Option<DealerId>, allocation: Option<nat>, reason: EndReason,
                   removal: RemovalReason, now: Time): Outcome
    requires i < |s.assignments| && s.assignments[i].device < |s.devices|
    requires s.assignments[i].installation.Some? ==> s.assignments[i].installation.value < |s.installations|
    requires allocation.Some? ==> allocation.value < |s.allocations|
  {
    var row := s.assignments[i];
    var d := row.device;
    var ended := s.(
      assignments := s.assignments[i := row.(status := Ended, endedAt := Some(now), endReason := Some(reason))],
      installations := if row.installation.None? then s.installations
                       else s.installations[row.installation.value :=
                              s.installations[row.installation.value].(
                                status := Removed, removedAt := Some(now), removalReason := Some(removal))]);
    if dealer.Some? && allocation.Some? then
      Accepted(ended.(
        custody := Rotate(s.custody, d, Dealer(dealer.value), Removal, now),
        allocations := s.allocations[allocation.value :=
                         s.allocations[allocation.value].(status := Available, availableAt := Some(now))],
        devices := SetLifecycle(s.devices, d, Allocated)))
    else if !s.platformOrganization then Rejected(NotFound)
    else
      Accepted(ended.(
        custody := Rotate(s.custody, d, Platform, Removal, now),
        devices := SetLifecycle(s.devices, d, InStock)))
  }

  function Remove(s: State, a: Actor, d: DeviceId, reason: EndReason, removal: RemovalReason, now: Time): Outcome
    requires Linked(s)
  {
    var active := FindActive(s.assignments, d);
    if active.None? then Rejected(NotFound)
    else
      var v := s.assignments[active.value].vehicle;
      var e := VehicleMutation(s, a, v);
      if e.Some? then Rejected(e.value)
      else TakeOut(s, active.value, ManagingDealer(s, s.vehicles[v].customer), FindHeld(s.allocations, d),
                   reason, removal, now)
  }

  function Replace(s: State, a: Actor, current: DeviceId, next: DeviceId, removal: RemovalReason, now: Time, at: Time): Outcome
    requires Linked(s)
  {
    if current == next then Rejected(BadRequest)
    else
      var active := FindPrimary(s.assignments, current);
      if active.None? then Rejected(NotFound)
      else
        var v := s.assignments[active.value].vehicle;
        var e := VehicleMutation(s, a, v);
        if e.Some? then Rejected(e.value)
        else if next >= |s.devices| then Rejected(NotFound)
        else
          var customer := s.vehicles[v].customer;
          var dealer := ManagingDealer(s, customer);
          match ResolveAllocation(s, a, next, dealer)
          case Refused(e) => Rejected(e)
          case UseAllocation(row) =>
            if !Installable(s, next, v, active) then Rejected(Conflict)
            else
              match TakeOut(s, active.value, dealer, FindHeld(s.allocations, current), EndedByReplacement, removal, now)
              case Rejected(e) => Rejected(e)
              case Accepted(taken) => Accepted(PutIn(taken, next, v, customer, dealer, row, at))
  }

  // ----- Vehicle operations (vehicles.service.ts) -----

  predicate VehicleIdentityKnown(s: State, registration: Option<string>, chassis: Option<string>, engine: Option<string>,
                                 excluded: Option<VehicleId>) {
    exists i :: 0 <= i < |s.vehicles| && excluded != Some(i) &&
                (SameIdentity(registration, s.vehicles[i].registration) || SameIdentity(chassis, s.vehicles[i].chassis)
                 || SameIdentity(engine, s.vehicles[i].engine))
  }

  function CreateVehicle(s: State, a: Actor, customer: CustomerId, registration: Option<string>, chassis: Option<string>,
                         engine: Option<string>): Outcome {
    var e := CustomerMutation(s, a, customer);
    var r, c, n := NormalizeRegistration(registration), OptionalUpper(chassis), OptionalUpper(engine);
    if e.Some? then Rejected(e.value)
    else if s.customers[customer].status !in {PendingCustomer, ActiveCustomer} then Rejected(BadRequest)
    else if VehicleIdentityKnown(s, r, c, n, None) then Rejected(Conflict)
    else Accepted(s.(vehicles := s.vehicles + [Vehicle(customer, PendingVehicle, None, r, c, n)]))
  }

  /** What an update carries: an absent field is left alone. */
  datatype VehicleChange = VehicleChange(status: Option<VehicleStatus>, registration: Option<string>,
                                         chassis: Option<string>, engine: Option<string>)

  function UpdateVehicle(s: State, a: Actor, v: VehicleId, change: VehicleChange, subscribed: bool, now: Time): Outcome {
    var e := VehicleMutation(s, a, v);
    if e.Some? then Rejected(e.value)
    else if change.status == Some(ArchivedVehicle) && (VehicleInUse(s.assignments, v) || subscribed) then Rejected(Conflict)
    else
      var r := NormalizeRegistration(change.registration);
      var c, n := OptionalUpper(change.chassis), OptionalUpper(change.engine);
      if VehicleIdentityKnown(s, r, c, n, Some(v)) then Rejected(Conflict)
      else
        var row := s.vehicles[v];
        Accepted(s.(vehicles := s.vehicles[v := Vehicle(
          row.customer,
          if change.status.Some? then change.status.value else row.status,
          if change.status == Some(ArchivedVehicle) then Some(now) else if change.status.Some? then None else row.archivedAt,
          if change.registration.Some? then r else row.registration,
          if change.chassis.Some? then c else row.chassis,
          if change.engine.Some? then n else row.engine)]))
  }
}
