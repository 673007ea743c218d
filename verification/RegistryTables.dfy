/** The tables behind the device registry and the reads and writes that the services make on them.

    A table is the sequence of its rows and the id of a row is its position, so ids are fresh by
    construction and rows are never deleted. */
module RegistryTables {
  import opened Options

  type Time = int
  type DeviceId = nat
  type VehicleId = nat
  type DealerId = nat
  type CustomerId = nat

  datatype Lifecycle =
    | Received | InStock | Reserved | Allocated | Installed | UnderRepair | Lost | Damaged | Retired

  datatype Device = Device(imei: Option<string>, serial: Option<string>, lifecycle: Lifecycle, retiredAt: Option<Time>)

  datatype Party = Platform | Dealer(dealer: DealerId) | Customer(customer: CustomerId)

  datatype Reason = InitialStock | Reception | Transfer | Allocation | Return | Installation | Removal

  /** A row of the ownership history or of the custody history. */
  datatype Tenure = Tenure(device: DeviceId, holder: Party, reason: Reason, startedAt: Time, endedAt: Option<Time>)

  datatype AllocationStatus = Pending | Available | InUse | Returned | Cancelled

  /** A dealer allocation; Pending and InUse are the statuses ALLOCATED and INSTALLED of the schema. */
  datatype DealerAllocation = DealerAllocation(dealer: DealerId, device: DeviceId, status: AllocationStatus,
                                               availableAt: Option<Time>, installedAt: Option<Time>,
                                               returnedAt: Option<Time>)

  datatype InstallationStatus = Completed | Removed | OtherInstallation

  datatype RemovalReason =
    | ByCustomerRequest | VehicleSold | DeviceFailure | WarrantyReplacement | SubscriptionCancelled
    | ToAnotherVehicle | DeviceLost | OtherRemoval

  datatype DeviceInstallation = DeviceInstallation(device: DeviceId, vehicle: VehicleId, dealer: Option<DealerId>,
                                                   status: InstallationStatus, installedAt: Time,
                                                   removedAt: Option<Time>, removalReason: Option<RemovalReason>)

  datatype AssignmentKind = Primary | Secondary | Backup

  datatype AssignmentStatus = Active | Ended | CancelledAssignment

  datatype EndReason =
    | EndedByFailure | EndedByReplacement | EndedByVehicleTransfer | EndedBySale | EndedByCustomer
    | EndedBySubscription | EndedByMove | EndedByLoss | EndedOtherwise

  datatype Assignment = Assignment(vehicle: VehicleId, device: DeviceId, installation: Option<nat>,
                                   kind: AssignmentKind, status: AssignmentStatus, startedAt: Time,
                                   endedAt: Option<Time>, endReason: Option<EndReason>)

  datatype VehicleStatus = PendingVehicle | ActiveVehicle | InactiveVehicle | SuspendedVehicle | ArchivedVehicle

  datatype Vehicle = Vehicle(customer: CustomerId, status: VehicleStatus, archivedAt: Option<Time>,
                             registration: Option<string>, chassis: Option<string>, engine: Option<string>)

  datatype CustomerStatus = PendingCustomer | ActiveCustomer | SuspendedCustomer | InactiveCustomer | ArchivedCustomer

  datatype CustomerRow = CustomerRow(managingDealer: Option<DealerId>, status: CustomerStatus)

  /** dealers maps a dealer organization to whether it is ACTIVE. */
  datatype State = State(
    devices: seq<Device>,
    ownership: seq<Tenure>,
    custody: seq<Tenure>,
    allocations: seq<DealerAllocation>,
    installations: seq<DeviceInstallation>,
    assignments: seq<Assignment>,
    vehicles: seq<Vehicle>,
    customers: map<CustomerId, CustomerRow>,
    dealers: map<DealerId, bool>,
    activeModels: set<nat>,
    platformOrganization: bool)

  // ----- Reads -----

  /** Position of the first row that satisfies a condition. */
  function First<T>(rows: seq<T>, p: T -> bool): (r: Option<nat>)
    ensures r.Some? ==> r.value < |rows| && p(rows[r.value])
    ensures r.Some? ==> forall i :: 0 <= i < r.value ==> !p(rows[i])
    ensures r.None? ==> forall i :: 0 <= i < |rows| ==> !p(rows[i])
  {
    if rows == [] then None
    else if p(rows[0]) then Some(0)
    else
      match First(rows[1..], p)
      case None =>
        assert forall i :: 0 < i < |rows| ==> rows[i] == rows[1..][i - 1];
        None
      case Some(i) =>
        assert forall j :: 0 < j < |rows| ==> rows[j] == rows[1..][j - 1];
        Some(i + 1)
  }

  predicate OpenFor(r: Tenure, d: DeviceId) { r.device == d && r.endedAt.None? }

  /** The open row of a device. */
  function FindOpen(rows: seq<Tenure>, d: DeviceId): (r: Option<nat>)
    ensures r.Some? ==> r.value < |rows| && OpenFor(rows[r.value], d)
    ensures r.Some? ==> forall i :: 0 <= i < r.value ==> !OpenFor(rows[i], d)
    ensures r.None? ==> forall i :: 0 <= i < |rows| ==> !OpenFor(rows[i], d)
  {
    First(rows, (r: Tenure) => OpenFor(r, d))
  }

  predicate Held(status: AllocationStatus) { status in {Pending, Available, InUse} }

  predicate HeldFor(a: DealerAllocation, d: DeviceId) { a.device == d && Held(a.status) }

  /** The active allocation of a device (ALLOCATED, AVAILABLE or INSTALLED). */
  function FindHeld(rows: seq<DealerAllocation>, d: DeviceId): (r: Option<nat>)
    ensures r.Some? ==> r.value < |rows| && HeldFor(rows[r.value], d)
    ensures r.Some? ==> forall i :: 0 <= i < r.value ==> !HeldFor(rows[i], d)
    ensures r.None? ==> forall i :: 0 <= i < |rows| ==> !HeldFor(rows[i], d)
  {
    First(rows, (a: DealerAllocation) => HeldFor(a, d))
  }

  predicate StockFor(a: DealerAllocation, d: DeviceId) { a.device == d && a.status in {Pending, Available} }

  /** The allocation of a device that is in stock (ALLOCATED or AVAILABLE). */
  function FindStock(rows: seq<DealerAllocation>, d: DeviceId): (r: Option<nat>)
    ensures r.Some? ==> r.value < |rows| && StockFor(rows[r.value], d)
    ensures r.Some? ==> forall i :: 0 <= i < r.value ==> !StockFor(rows[i], d)
    ensures r.None? ==> forall i :: 0 <= i < |rows| ==> !StockFor(rows[i], d)
  {
    First(rows, (a: DealerAllocation) => StockFor(a, d))
  }

  predicate ActiveFor(a: Assignment, d: DeviceId) { a.device == d && a.status == Active }

  /** The active vehicle assignment of a device. */
  function FindActive(rows: seq<Assignment>, d: DeviceId): (r: Option<nat>)
    ensures r.Some? ==> r.value < |rows| && ActiveFor(rows[r.value], d)
    ensures r.Some? ==> forall i :: 0 <= i < r.value ==> !ActiveFor(rows[i], d)
    ensures r.None? ==> forall i :: 0 <= i < |rows| ==> !ActiveFor(rows[i], d)
  {
    First(rows, (a: Assignment) => ActiveFor(a, d))
  }

  predicate PrimaryFor(a: Assignment, d: DeviceId) { ActiveFor(a, d) && a.kind == Primary }

  /** The active primary assignment of a device. */
  function FindPrimary(rows: seq<Assignment>, d: DeviceId): (r: Option<nat>)
    ensures r.Some? ==> r.value < |rows| && PrimaryFor(rows[r.value], d)
    ensures r.Some? ==> forall i :: 0 <= i < r.value ==> !PrimaryFor(rows[i], d)
    ensures r.None? ==> forall i :: 0 <= i < |rows| ==> !PrimaryFor(rows[i], d)
  {
    First(rows, (a: Assignment) => PrimaryFor(a, d))
  }

  predicate PrimaryOn(a: Assignment, v: VehicleId) { a.vehicle == v && a.kind == Primary && a.status == Active }

  /** Whether a vehicle has an active primary assignment other than the ignored one. */
  predicate VehicleTaken(rows: seq<Assignment>, v: VehicleId, ignored: Option<nat>) {
    exists i :: 0 <= i < |rows| && ignored != Some(i) && PrimaryOn(rows[i], v)
  }

  /** Whether a vehicle has any active assignment. */
  predicate VehicleInUse(rows: seq<Assignment>, v: VehicleId) {
    exists i :: 0 <= i < |rows| && rows[i].vehicle == v && rows[i].status == Active
  }

  // ----- Writes -----

  /** updateMany on the open rows of one device. */
  function EndCurrent(rows: seq<Tenure>, d: DeviceId, at: Time): (r: seq<Tenure>)
    ensures |r| == |rows|
    ensures forall i :: 0 <= i < |r| ==> r[i] == if OpenFor(rows[i], d) then rows[i].(endedAt := Some(at)) else rows[i]
  {
    seq(|rows|, i requires 0 <= i < |rows| => if OpenFor(rows[i], d) then rows[i].(endedAt := Some(at)) else rows[i])
  }

  /** Ends the open rows of a device and opens a new one at the same instant. */
  function Rotate(rows: seq<Tenure>, d: DeviceId, holder: Party, reason: Reason, at: Time): seq<Tenure> {
    EndCurrent(rows, d, at) + [Tenure(d, holder, reason, at, None)]
  }

  /** updateMany on the active allocations of one device. */
  function ReturnHeld(rows: seq<DealerAllocation>, d: DeviceId, at: Time): (r: seq<DealerAllocation>)
    ensures |r| == |rows|
    ensures forall i :: 0 <= i < |r| ==>
              r[i] == if HeldFor(rows[i], d) then rows[i].(status := Returned, returnedAt := Some(at)) else rows[i]
  {
    seq(|rows|, i requires 0 <= i < |rows| =>
      if HeldFor(rows[i], d) then rows[i].(status := Returned, returnedAt := Some(at)) else rows[i])
  }

  function NewAllocation(dealer: DealerId, d: DeviceId, at: Time): DealerAllocation {
    DealerAllocation(dealer, d, Available, Some(at), None, None)
  }

  function SetLifecycle(devices: seq<Device>, d: DeviceId, l: Lifecycle): seq<Device>
    requires d < |devices|
  {
    devices[d := devices[d].(lifecycle := l)]
  }
}
