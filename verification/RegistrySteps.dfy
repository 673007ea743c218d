/** One step of the registry: a request to the device or vehicle service, or a change made by code
    outside the registry.  Every accepted step keeps the invariant. */
module RegistrySteps {
  import opened Options
  import opened RegistryTables
  import opened Registry
  import opened RegistryInvariant
  import opened RegistryEffects

  /** An install without a time of its own happens at the time of the step. */
  datatype Op =
    | RegisterOp(model: nat, imei: Option<string>, serial: Option<string>)
    | UpdateOp(device: DeviceId, lifecycle: Option<Lifecycle>, retiredAt: Option<Time>)
    | TransferOp(devices: seq<DeviceId>, target: Target)
    | AllocateOp(device: DeviceId, dealer: DealerId)
    | ReturnOp(device: DeviceId)
    | InstallOp(device: DeviceId, vehicle: VehicleId, at: Option<Time>)
    | RemoveOp(device: DeviceId, reason: EndReason, removal: RemovalReason)
    | ReplaceOp(device: DeviceId, next: DeviceId, removal: RemovalReason, at: Option<Time>)
    | CreateVehicleOp(customer: CustomerId, registration: Option<string>, chassis: Option<string>, engine: Option<string>)
    | UpdateVehicleOp(vehicle: VehicleId, change: VehicleChange, subscribed: bool)
    | SetCustomerOp(customer: CustomerId, row: CustomerRow)
    | SetDealerOp(dealer: DealerId, active: bool)
    | SetModelsOp(models: set<nat>)

  function Or(at: Option<Time>, now: Time): (r: Time)
    ensures at == Some(r) || (at == None && r == now)
  {
    if at.Some? then at.value else now
  }

  function Apply(s: State, a: Actor, op: Op, now: Time): Outcome
    requires Linked(s)
  {
    match op
    case RegisterOp(model, imei, serial) => Register(s, a, model, imei, serial, now)
    case UpdateOp(d, lifecycle, retiredAt) => Update(s, a, d, lifecycle, retiredAt)
    case TransferOp(ids, target) => TransferDevices(s, a, ids, target, now)
    case AllocateOp(d, dealer) => Allocate(s, a, d, dealer, now)
    case ReturnOp(d) => ReturnToPlatform(s, a, d, now)
    case InstallOp(d, v, at) => Install(s, a, d, v, Or(at, now))
    case RemoveOp(d, reason, removal) => Remove(s, a, d, reason, removal, now)
    case ReplaceOp(d, next, removal, at) => Replace(s, a, d, next, removal, now, Or(at, now))
    case CreateVehicleOp(c, r, h, n) => CreateVehicle(s, a, c, r, h, n)
    case UpdateVehicleOp(v, change, subscribed) => UpdateVehicle(s, a, v, change, subscribed, now)
    case SetCustomerOp(c, row) => Accepted(s.(customers := s.customers[c := row]))
    case SetDealerOp(dealer, active) => Accepted(s.(dealers := s.dealers[dealer := active]))
    case SetModelsOp(models) => Accepted(s.(activeModels := models))
  }

  // ----- Transfers -----

  function Moved(to: Party, dealer: Option<DealerId>): Situation {
    Situation(Allocated, Some(to), Some(to), if dealer.Some? then Some(Holding(dealer.value, Available)) else None, None)
  }

  /** A transfer leaves every listed device ALLOCATED, owned and held by the target with the
      prescribed allocation, and no other device changes. */
  lemma {:induction false} MoveAllKeeps(s: State, ids: seq<DeviceId>, to: Party, dealer: Option<DealerId>, now: Time)
    requires Inv(s) && Distinct(ids)
    requires forall k :: 0 <= k < |ids| ==> ids[k] < |s.devices| && Movable(s, ids[k])
    ensures var t := MoveAll(s, ids, to, dealer, now);
            && Inv(t) && |t.devices| == |s.devices|
            && t == s.(devices := t.devices, ownership := t.ownership, custody := t.custody, allocations := t.allocations)
            && (forall d :: 0 <= d < |s.devices| ==>
                  Current(t, d) == if d in ids then Moved(to, dealer) else Current(s, d))
            && (forall d :: 0 <= d < |s.devices| && d !in ids ==> t.devices[d] == s.devices[d])
    decreases |ids|
  {
    hide Current, FindActive;
    if ids != [] {
      var init, last := ids[..|ids| - 1], ids[|ids| - 1];
      MoveAllKeeps(s, init, to, dealer, now);
      var m := MoveAll(s, init, to, dealer, now);
      assert last !in init;
      assert ids == init + [last];
      assert Movable(m, last);
      hide Inv, Movable;
      MoveKeeps(m, last, to, dealer, now);
    }
  }

  // ----- Installs and removals -----

  lemma InstallReady(s: State, a: Actor, d: DeviceId, v: VehicleId, at: Time)
    requires Install(s, a, d, v, at).Accepted?
    ensures d < |s.devices| && v < |s.vehicles|
    ensures var dealer := ManagingDealer(s, s.vehicles[v].customer);
            var stock := if dealer.Some? then FindStock(s.allocations, d) else None;
            && Ready(s, d, v, stock, dealer)
            && ResolveAllocation(s, a, d, dealer) == UseAllocation(stock)
            && Install(s, a, d, v, at) == Accepted(PutIn(s, d, v, s.vehicles[v].customer, dealer, stock, at))
  {
    hide FindActive, PutIn, VehicleTaken;
  }

  lemma InstallKeeps(s: State, a: Actor, d: DeviceId, v: VehicleId, at: Time)
    requires Inv(s) && Install(s, a, d, v, at).Accepted?
    ensures d < |s.devices| && v < |s.vehicles|
    ensures var t := Install(s, a, d, v, at).state; var dealer := ManagingDealer(s, s.vehicles[v].customer);
            && Inv(t)
            && Becomes(s, t, d, Situation(Installed, Current(s, d).owner, Some(Customer(s.vehicles[v].customer)),
                 if dealer.Some? then Some(Holding(dealer.value, InUse)) else Current(s, d).allocation, Some(v)))
            && (dealer.None? ==> FindStock(s.allocations, d).None?)
  {
    hide Linked, PutIn, Becomes, FindStock, FindActive, Installable;
    InstallReady(s, a, d, v, at);
    var dealer := ManagingDealer(s, s.vehicles[v].customer);
    var stock := if dealer.Some? then FindStock(s.allocations, d) else None;
    hide Inv, Install;
    PutInKeeps(s, d, v, s.vehicles[v].customer, dealer, stock, at);
  }

  lemma ActiveLinked(s: State, d: DeviceId)
    requires Linked(s) && FindActive(s.assignments, d).Some?
    ensures var i := FindActive(s.assignments, d).value;
            && d < |s.devices| && s.assignments[i].vehicle < |s.vehicles|
            && s.vehicles[s.assignments[i].vehicle].customer in s.customers
            && (s.assignments[i].installation.Some? ==> s.assignments[i].installation.value < |s.installations|)
  {
  }

  /** The situation after a removal: back to the managing dealer when the device is allocated,
      to the platform otherwise. */
  function TakenOut(c: Situation, dealer: Option<DealerId>): Situation {
    if dealer.Some? && c.allocation.Some? then
      Situation(Allocated, c.owner, Some(Dealer(dealer.value)), Some(Holding(c.allocation.value.dealer, Available)), None)
    else
      Situation(InStock, c.owner, Some(Platform), c.allocation, None)
  }

  lemma RemoveKeeps(s: State, a: Actor, d: DeviceId, reason: EndReason, removal: RemovalReason, now: Time)
    requires Inv(s) && Remove(s, a, d, reason, removal, now).Accepted?
    ensures d < |s.devices| && Current(s, d).vehicle.Some? && Current(s, d).vehicle.value < |s.vehicles|
    ensures var t := Remove(s, a, d, reason, removal, now).state;
            && Inv(t) && t.vehicles == s.vehicles && t.customers == s.customers
            && Becomes(s, t, d, TakenOut(Current(s, d),
                                         ManagingDealer(s, s.vehicles[Current(s, d).vehicle.value].customer)))
  {
    ActiveLinked(s, d);
    hide Linked, TakeOut, FindActive, FindHeld;
    var i := FindActive(s.assignments, d).value;
    TakeOutKeeps(s, i, ManagingDealer(s, s.vehicles[s.assignments[i].vehicle].customer), FindHeld(s.allocations, d),
                 reason, removal, now);
  }
}
