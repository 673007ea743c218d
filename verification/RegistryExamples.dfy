/** Concrete runs after which a rule that one might expect does not hold. */
module RegistryExamples {
  import opened Options
  import opened RegistryTables
  import opened Registry
  import opened RegistryInvariant
  import opened RegistrySteps
  import opened RegistryAgreement
  import opened RegistryConstraints
  import opened RegistryRuns
  import opened RegistryHistory

  const STAFF: Actor := Actor([PlatformScope], [])

  const OPENING: State := State([], [], [], [], [], [], [], map[0 := CustomerRow(Some(1), ActiveCustomer)], map[1 := true], {7}, true)

  const FIRST_IMEI: string := "356938035643809"

  const SECOND_IMEI: string := "490154203237518"

  /** Two devices are registered and allocated to dealer 1, and the first is installed in the first of
      two vehicles of customer 0, whose managing dealer that is. */
  const FLEET_STEPS: seq<Step> := [
    Step(STAFF, RegisterOp(7, Some(FIRST_IMEI), None), 0),
    Step(STAFF, RegisterOp(7, Some(SECOND_IMEI), None), 0),
    Step(STAFF, CreateVehicleOp(0, Some("-"), None, None), 1),
    Step(STAFF, CreateVehicleOp(0, None, None, None), 1),
    Step(STAFF, AllocateOp(0, 1), 5),
    Step(STAFF, AllocateOp(1, 1), 10),
    Step(STAFF, InstallOp(0, 0, None), 10)]

  /** The state that these steps reach. */
  const FLEET: State := State(
    [Device(Some(FIRST_IMEI), None, Installed, None), Device(Some(SECOND_IMEI), None, Allocated, None)],
    [Tenure(0, Platform, InitialStock, 0, None), Tenure(1, Platform, InitialStock, 0, None)],
    [Tenure(0, Platform, Reception, 0, Some(5)), Tenure(1, Platform, Reception, 0, Some(10)),
     Tenure(0, Dealer(1), Allocation, 5, Some(10)), Tenure(1, Dealer(1), Allocation, 10, None),
     Tenure(0, Customer(0), Installation, 10, None)],
    [DealerAllocation(1, 0, InUse, Some(5), Some(10), None), DealerAllocation(1, 1, Available, Some(10), None, None)],
    [DeviceInstallation(0, 0, Some(1), Completed, 10, None, None)],
    [Assignment(0, 0, Some(0), Primary, Active, 10, None, None)],
    [Vehicle(0, ActiveVehicle, None, Some(""), None, None), Vehicle(0, PendingVehicle, None, None, None, None)],
    OPENING.customers, OPENING.dealers, OPENING.activeModels, true)

  const ONE_DEVICE: State := OPENING.(
    devices := [Device(Some(FIRST_IMEI), None, InStock, None)],
    ownership := [Tenure(0, Platform, InitialStock, 0, None)],
    custody := [Tenure(0, Platform, Reception, 0, None)])

  const TWO_DEVICES: State := OPENING.(
    devices := [Device(Some(FIRST_IMEI), None, InStock, None), Device(Some(SECOND_IMEI), None, InStock, None)],
    ownership := FLEET.ownership,
    custody := [Tenure(0, Platform, Reception, 0, None), Tenure(1, Platform, Reception, 0, None)])

  const ONE_VEHICLE: State := TWO_DEVICES.(vehicles := [Vehicle(0, PendingVehicle, None, Some(""), None, None)])

  const TWO_VEHICLES: State := TWO_DEVICES.(
    vehicles := [Vehicle(0, PendingVehicle, None, Some(""), None, None), Vehicle(0, PendingVehicle, None, None, None, None)])

  const ONE_ALLOCATED: State := TWO_VEHICLES.(
    devices := [Device(Some(FIRST_IMEI), None, Allocated, None), Device(Some(SECOND_IMEI), None, InStock, None)],
    custody := [Tenure(0, Platform, Reception, 0, Some(5)), Tenure(1, Platform, Reception, 0, None),
                Tenure(0, Dealer(1), Allocation, 5, None)],
    allocations := [DealerAllocation(1, 0, Available, Some(5), None, None)])

  const TWO_ALLOCATED: State := TWO_VEHICLES.(
    devices := [Device(Some(FIRST_IMEI), None, Allocated, None), Device(Some(SECOND_IMEI), None, Allocated, None)],
    custody := [Tenure(0, Platform, Reception, 0, Some(5)), Tenure(1, Platform, Reception, 0, Some(10)),
                Tenure(0, Dealer(1), Allocation, 5, None), Tenure(1, Dealer(1), Allocation, 10, None)],
    allocations := [DealerAllocation(1, 0, Available, Some(5), None, None), DealerAllocation(1, 1, Available, Some(10), None, None)])

  // ----- One step at a time -----

  /** An accepted step that the database takes reaches the state of its outcome. */
  lemma RunTo(s: State, steps: seq<Step>, last: Step, t: State)
    requires Good(s) && Linked(Run(s, steps))
    requires Apply(Run(s, steps), last.actor, last.op, last.now) == Accepted(t) && !RefusedByDatabase(Run(s, steps), last.op)
    ensures Run(s, steps + [last]) == t && Good(t)
  {
    hide Good, Run, Apply, RefusedByDatabase, Linked;
    RunThen(s, steps, last);
    CommitIsApply(Run(s, steps), last);
  }

  lemma Imeis()
    ensures Optional(Some(FIRST_IMEI)) == Some(FIRST_IMEI) && Optional(Some(SECOND_IMEI)) == Some(SECOND_IMEI)
    ensures FIRST_IMEI != "" && SECOND_IMEI != "" && FIRST_IMEI != SECOND_IMEI
    ensures OptionalUpper(None).None?
  {
    assert FIRST_IMEI[0] == '3' && SECOND_IMEI[0] == '4';
  }

  lemma Registrations()
    ensures Register(OPENING, STAFF, 7, Some(FIRST_IMEI), None, 0) == Accepted(ONE_DEVICE)
    ensures Register(ONE_DEVICE, STAFF, 7, Some(SECOND_IMEI), None, 0) == Accepted(TWO_DEVICES)
  {
    Imeis();
    hide Optional, OptionalUpper;
  }

  lemma Separators(text: string)
    requires text == "-" || text == "--"
    ensures NormalizeRegistration(Some(text)) == Some("")
  {
    assert Trim(text) == text;
    assert Upper(text) == text;
    assert "--"[1..] == "-" && "-"[1..] == "";
    assert DropSeparators("-") == "";
    assert DropSeparators(text) == "";
  }

  lemma FirstVehicle()
    ensures CreateVehicle(TWO_DEVICES, STAFF, 0, Some("-"), None, None) == Accepted(ONE_VEHICLE)
  {
    hide NormalizeRegistration;
    Separators("-");
  }

  lemma NoNumbers()
    ensures NormalizeRegistration(None).None? && OptionalUpper(None).None?
  {
  }

  lemma SecondVehicle()
    ensures CreateVehicle(ONE_VEHICLE, STAFF, 0, None, None, None) == Accepted(TWO_VEHICLES)
  {
    hide NormalizeRegistration, OptionalUpper;
    NoNumbers();
  }

  lemma Allocations()
    ensures Allocate(TWO_VEHICLES, STAFF, 0, 1, 5) == Accepted(ONE_ALLOCATED)
    ensures Allocate(ONE_ALLOCATED, STAFF, 1, 1, 10) == Accepted(TWO_ALLOCATED)
  {
    hide First;
    assert Rotate(TWO_VEHICLES.custody, 0, Dealer(1), Allocation, 5) == ONE_ALLOCATED.custody;
    assert Rotate(ONE_ALLOCATED.custody, 1, Dealer(1), Allocation, 10) == TWO_ALLOCATED.custody;
    hide Rotate;
  }

  lemma FirstInstall()
    ensures Install(TWO_ALLOCATED, STAFF, 0, 0, 10) == Accepted(FLEET)
  {
    hide First;
    assert StockFor(TWO_ALLOCATED.allocations[0], 0);
    assert FindStock(TWO_ALLOCATED.allocations, 0) == Some(0);
    assert Rotate(TWO_ALLOCATED.custody, 0, Customer(0), Installation, 10) == FLEET.custody;
    assert !VehicleTaken(TWO_ALLOCATED.assignments, 0, None);
    hide Rotate, FindStock, VehicleTaken;
  }

  /** One step of the fleet. */
  lemma FleetStep(k: nat, s: State, t: State)
    requires k < |FLEET_STEPS| && Good(OPENING) && Run(OPENING, FLEET_STEPS[..k]) == s && Linked(s)
    requires var step := FLEET_STEPS[k]; Apply(s, step.actor, step.op, step.now) == Accepted(t) && !RefusedByDatabase(s, step.op)
    ensures Run(OPENING, FLEET_STEPS[..k + 1]) == t && Good(t) && Linked(t)
  {
    hide Good, Run, Apply, RefusedByDatabase, Linked;
    assert FLEET_STEPS[..k + 1] == FLEET_STEPS[..k] + [FLEET_STEPS[k]];
    RunTo(OPENING, FLEET_STEPS[..k], FLEET_STEPS[k], t);
    GoodIsLinked(t);
  }

  lemma NotRefused(s: State)
    requires s.vehicles == []
    ensures !EmptyTwice(s, Some("-"), None)
  {
  }

  lemma NothingSeparate(s: State)
    ensures !EmptyTwice(s, None, None)
  {
  }

  lemma FleetOpens()
    ensures Fresh(OPENING) && Good(OPENING) && Linked(OPENING) && Run(OPENING, FLEET_STEPS[..0]) == OPENING
  {
    FreshIsGood(OPENING);
    hide Good, Linked;
    GoodIsLinked(OPENING);
    assert FLEET_STEPS[..0] == [];
  }

  lemma FleetDevices()
    ensures Good(OPENING) && Run(OPENING, FLEET_STEPS[..2]) == TWO_DEVICES && Linked(TWO_DEVICES)
  {
    hide Good, Linked, Register, Run;
    FleetOpens();
    Registrations();
    FleetStep(0, OPENING, ONE_DEVICE);
    FleetStep(1, ONE_DEVICE, TWO_DEVICES);
  }

  lemma FleetHalf()
    ensures Good(OPENING) && Run(OPENING, FLEET_STEPS[..4]) == TWO_VEHICLES && Linked(TWO_VEHICLES)
  {
    hide Good, Linked, CreateVehicle, EmptyTwice, Run;
    FleetDevices();
    FirstVehicle();
    SecondVehicle();
    NotRefused(TWO_DEVICES);
    NothingSeparate(ONE_VEHICLE);
    FleetStep(2, TWO_DEVICES, ONE_VEHICLE);
    FleetStep(3, ONE_VEHICLE, TWO_VEHICLES);
  }

  /** The fleet is a state that a run from an empty registry reaches. */
  lemma FleetIsReached()
    ensures Fresh(OPENING) && Good(OPENING) && Run(OPENING, FLEET_STEPS) == FLEET && Good(FLEET)
  {
    hide Good, Linked, Allocate, Install, Run;
    FleetOpens();
    FleetHalf();
    Allocations();
    FirstInstall();
    FleetStep(4, TWO_VEHICLES, ONE_ALLOCATED);
    FleetStep(5, ONE_ALLOCATED, TWO_ALLOCATED);
    FleetStep(6, TWO_ALLOCATED, FLEET);
    assert FLEET_STEPS[..7] == FLEET_STEPS;
  }

  // ----- The fleet -----

  lemma FleetRows(s: State)
    requires s.custody == FLEET.custody && s.ownership == FLEET.ownership
    requires s.allocations == FLEET.allocations && s.assignments == FLEET.assignments
    ensures FindOpen(s.ownership, 0) == Some(0) && FindOpen(s.ownership, 1) == Some(1)
    ensures FindOpen(s.custody, 0) == Some(4) && FindOpen(s.custody, 1) == Some(3)
    ensures FindHeld(s.allocations, 0) == Some(0) && FindHeld(s.allocations, 1) == Some(1)
    ensures FindStock(s.allocations, 1) == Some(1)
    ensures FindActive(s.assignments, 0) == Some(0) && FindActive(s.assignments, 1).None?
    ensures FindPrimary(s.assignments, 0) == Some(0)
  {
    hide First;
    assert OpenFor(s.ownership[0], 0) && OpenFor(s.ownership[1], 1);
    assert OpenFor(s.custody[4], 0) && OpenFor(s.custody[3], 1);
    assert HeldFor(s.allocations[0], 0) && HeldFor(s.allocations[1], 1) && StockFor(s.allocations[1], 1);
    assert ActiveFor(s.assignments[0], 0) && PrimaryFor(s.assignments[0], 0);
  }

  lemma FleetSituations()
    ensures Current(FLEET, 0) == Situation(Installed, Some(Platform), Some(Customer(0)), Some(Holding(1, InUse)), Some(0))
    ensures Current(FLEET, 1) == Situation(Allocated, Some(Platform), Some(Dealer(1)), Some(Holding(1, Available)), None)
  {
    FleetRows(FLEET);
    hide First, FindOpen, FindHeld, FindActive;
  }

  lemma FleetStories()
    ensures Agrees(FLEET, Situation(Installed, Some(Platform), Some(Customer(0)), Some(Holding(1, InUse)), Some(0)))
    ensures Agrees(FLEET, Situation(Allocated, Some(Platform), Some(Dealer(1)), Some(Holding(1, Available)), None))
  {
  }

  lemma FleetAgrees()
    ensures Agreement(FLEET)
  {
    FleetSituations();
    FleetStories();
    hide Current, Agrees;
  }

  // ----- Runs that go on from the fleet -----

  /** One more step after the fleet. */
  lemma FleetThen(last: Step, t: State)
    requires Linked(FLEET) && Apply(FLEET, last.actor, last.op, last.now) == Accepted(t) && !RefusedByDatabase(FLEET, last.op)
    ensures Fresh(OPENING) && Good(OPENING) && Run(OPENING, FLEET_STEPS + [last]) == t && Good(t) && Linked(t)
  {
    hide Good, Run, Apply, RefusedByDatabase, Linked;
    FleetIsReached();
    RunTo(OPENING, FLEET_STEPS, last, t);
    GoodIsLinked(t);
  }

  /** Moving a customer with an installed device to another dealer breaks the agreement. */
  lemma ManagerChangeBreaksAgreement()
    ensures Fresh(OPENING) && Good(OPENING) && Agreement(Run(OPENING, FLEET_STEPS))
    ensures !Agreement(Run(OPENING, FLEET_STEPS + [Step(STAFF, SetCustomerOp(0, CustomerRow(Some(2), ActiveCustomer)), 20)]))
  {
    hide Inv, Agreement, Run, Linked, Good, CustomerInstalled;
    var row := CustomerRow(Some(2), ActiveCustomer);
    FleetIsReached();
    FleetAgrees();
    FleetInstalled();
    GoodIsLinked(FLEET);
    GoodParts(FLEET);
    ManagerChange(FLEET, 0, row);
    FleetThen(Step(STAFF, SetCustomerOp(0, row), 20), FLEET.(customers := FLEET.customers[0 := row]));
  }

  lemma FleetInstalled()
    ensures CustomerInstalled(FLEET, 0) && ManagingDealer(FLEET, 0) == Some(1)
  {
    assert FLEET.assignments[0].status == Active;
  }

  const RETIRED: State := FLEET.(devices := FLEET.devices[1 := Device(Some(SECOND_IMEI), None, Retired, Some(20))])

  const RETIREMENT: Step := Step(STAFF, UpdateOp(1, Some(Retired), Some(20)), 20)

  /** A device that was retired while allocated can be returned, and then breaks the retirement
      constraint. */
  lemma RetiredReturnRefused()
    ensures Fresh(OPENING) && Good(OPENING) && Linked(Run(OPENING, FLEET_STEPS + [RETIREMENT]))
    ensures var o := ReturnToPlatform(Run(OPENING, FLEET_STEPS + [RETIREMENT]), STAFF, 1, 30);
            o.Accepted? && !Constraints(o.state)
  {
    hide Inv, Linked, Run, ReturnToPlatform;
    FleetIsReached();
    GoodIsLinked(FLEET);
    Retirement();
    FleetThen(RETIREMENT, RETIRED);
    RetiredReturn();
    hide Good;
    StepConstrained(RETIRED, STAFF, ReturnOp(1), 30) by {
      assert Good(RETIRED);
      GoodParts(RETIRED);
    }
  }

  lemma GoodParts(s: State)
    requires Good(s)
    ensures Inv(s) && Constraints(s) && Tidy(s)
  {
  }

  lemma Retirement()
    ensures Update(FLEET, STAFF, 1, Some(Retired), Some(20)) == Accepted(RETIRED)
  {
    FleetRows(FLEET);
    hide First, FindActive;
  }

  lemma RetiredReturn()
    requires Linked(RETIRED)
    ensures ReturnToPlatform(RETIRED, STAFF, 1, 30).Accepted? && RefusedByDatabase(RETIRED, ReturnOp(1))
  {
    FleetRows(RETIRED);
    hide First, FindActive, FindHeld, Rotate;
  }

  /** Two vehicles whose registrations are separators only pass the lookup for duplicates. */
  lemma SeparatorsRegisteredTwice()
    ensures Fresh(OPENING) && Good(OPENING)
    ensures var o := CreateVehicle(Run(OPENING, FLEET_STEPS), STAFF, 0, Some("--"), None, None);
            o.Accepted? && !Constraints(o.state)
  {
    hide Good, Run, CreateVehicle, Constraints;
    FleetIsReached();
    SeparatorsClash();
  }

  lemma SeparatorsClash()
    ensures var o := CreateVehicle(FLEET, STAFF, 0, Some("--"), None, None); o.Accepted? && !Constraints(o.state)
  {
    Separators("--");
    hide NormalizeRegistration;
    var o := CreateVehicle(FLEET, STAFF, 0, Some("--"), None, None);
    assert VehiclesClash(o.state.vehicles[0], o.state.vehicles[2]);
  }

  lemma SecondGuards()
    ensures ResolveAllocation(FLEET, STAFF, 1, Some(1)) == UseAllocation(Some(1))
    ensures Installable(FLEET, 1, 1, None)
  {
    hide First, FindStock, FindActive;
    FleetRows(FLEET);
    assert !VehicleTaken(FLEET.assignments, 1, None);
  }

  lemma SecondInstall(at: Time)
    ensures Install(FLEET, STAFF, 1, 1, at).Accepted?
  {
    hide First, FindStock, FindActive, PutIn, ResolveAllocation, Installable;
    SecondGuards();
  }

  /** Device 1 has one custodian at every instant: the platform until 10, its dealer since. */
  lemma FleetPartition()
    ensures Partition(FLEET.custody, 1, 0)
  {
    var rows := FLEET.custody;
    assert forall x :: CoversFor(rows[1], 1, x) <==> 0 <= x < 10;
    assert forall x :: CoversFor(rows[3], 1, x) <==> 10 <= x;
    assert forall i, x :: 0 <= i < |rows| && i != 1 && i != 3 ==> !CoversFor(rows[i], 1, x);
    hide CoversFor;
    forall x: Time
      ensures Covered(rows, 1, x) <==> 0 <= x
    {
      if 0 <= x {
        assert CoversFor(rows[1], 1, x) || CoversFor(rows[3], 1, x);
      }
    }
  }

  /** An install dated before the device came into its dealer's custody leaves two custodians at once. */
  lemma BackdatedInstall()
    ensures Fresh(OPENING) && Good(OPENING)
    ensures var s := Run(OPENING, FLEET_STEPS);
            && Install(s, STAFF, 1, 1, 5).Accepted?
            && Partition(s.custody, 1, 0) && !Partition(Install(s, STAFF, 1, 1, 5).state.custody, 1, 0)
  {
    FleetIsReached();
    FleetRows(FLEET);
    FleetPartition();
    SecondInstall(5);
    GoodParts(FLEET);
    hide FindOpen, Inv, Good, Run, Partition, Install;
    InstallTime(FLEET, STAFF, 1, 1, 5, 0);
  }

  const ARCHIVED_CUSTOMER: State := FLEET.(customers := FLEET.customers[0 := CustomerRow(Some(1), ArchivedCustomer)])

  const ARCHIVING: Step := Step(STAFF, SetCustomerOp(0, CustomerRow(Some(1), ArchivedCustomer)), 20)

  lemma ArchivedGuards()
    ensures ResolveAllocation(ARCHIVED_CUSTOMER, STAFF, 1, Some(1)) == UseAllocation(Some(1))
    ensures Installable(ARCHIVED_CUSTOMER, 1, 0, Some(0))
  {
    FleetRows(ARCHIVED_CUSTOMER);
    hide First, FindStock, FindActive;
    assert !VehicleTaken(ARCHIVED_CUSTOMER.assignments, 0, Some(0));
    hide VehicleTaken;
  }

  lemma ArchivedReplace()
    requires Linked(ARCHIVED_CUSTOMER)
    ensures Replace(ARCHIVED_CUSTOMER, STAFF, 0, 1, ByCustomerRequest, 30, 30).Accepted?
  {
    hide FindActive, FindPrimary, FindHeld, Rotate, Linked, PutIn, SetLifecycle, Installable, ResolveAllocation;
    FleetRows(ARCHIVED_CUSTOMER);
    ArchivedGuards();
  }

  /** A vehicle of an archived customer can have its device replaced but cannot receive one. */
  lemma ReplaceForArchivedCustomer()
    ensures Fresh(OPENING) && Good(OPENING) && Linked(Run(OPENING, FLEET_STEPS + [ARCHIVING]))
    ensures var s := Run(OPENING, FLEET_STEPS + [ARCHIVING]);
            && Replace(s, STAFF, 0, 1, ByCustomerRequest, 30, 30).Accepted?
            && Install(s, STAFF, 1, 1, 30) == Rejected(BadRequest)
  {
    hide Good, Linked, Run, Replace;
    FleetIsReached();
    GoodIsLinked(FLEET);
    FleetThen(ARCHIVING, ARCHIVED_CUSTOMER);
    ArchivedReplace();
  }
}
