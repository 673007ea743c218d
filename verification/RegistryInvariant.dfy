/** What every accepted operation keeps, and what it does to the current situation of each device. */
module RegistryInvariant {
  import opened Options
  import opened RegistryTables
  import opened Registry

  // ----- The invariant -----

  /** No device has two open rows. */
  ghost predicate OpenOnce(rows: seq<Tenure>) {
    forall i, j :: 0 <= i < j < |rows| && rows[i].endedAt.None? && rows[j].endedAt.None? ==>
                     rows[i].device != rows[j].device
  }

  /** No device has two active allocations. */
  ghost predicate HeldOnce(rows: seq<DealerAllocation>) {
    forall i, j :: 0 <= i < j < |rows| && Held(rows[i].status) && Held(rows[j].status) ==>
                     rows[i].device != rows[j].device
  }

  /** No device has two active assignments and no vehicle two active primary ones. */
  ghost predicate ActiveOnce(rows: seq<Assignment>) {
    forall i, j :: 0 <= i < j < |rows| && rows[i].status == Active && rows[j].status == Active ==>
                     && rows[i].device != rows[j].device
                     && (rows[i].kind == Primary && rows[j].kind == Primary ==> rows[i].vehicle != rows[j].vehicle)
  }

  /** Active assignments and completed installations correspond one to one. */
  ghost predicate Fitted(assignments: seq<Assignment>, installations: seq<DeviceInstallation>) {
    && (forall i :: 0 <= i < |assignments| && assignments[i].status == Active ==>
          FitsInstallation(assignments[i], installations))
    && (forall k :: 0 <= k < |installations| && installations[k].status == Completed ==>
          var f := FindActive(assignments, installations[k].device);
          f.Some? && assignments[f.value].installation == Some(k))
    && (forall i, j :: 0 <= i < j < |assignments| && assignments[i].installation.Some? ==>
          assignments[i].installation != assignments[j].installation)
  }

  ghost predicate FitsInstallation(a: Assignment, installations: seq<DeviceInstallation>) {
    && a.installation.Some? && a.installation.value < |installations|
    && var k := installations[a.installation.value];
       k.status == Completed && k.device == a.device && k.vehicle == a.vehicle
  }

  /** No archived vehicle carries a device. */
  ghost predicate ArchivedEmpty(s: State) {
    forall i :: 0 <= i < |s.assignments| && s.assignments[i].status == Active && s.assignments[i].vehicle < |s.vehicles| ==>
                  s.vehicles[s.assignments[i].vehicle].status != ArchivedVehicle
  }

  datatype Holding = Holding(dealer: DealerId, status: AllocationStatus)

  /** The current situation of one device, read from the tables. */
  datatype Situation = Situation(lifecycle: Lifecycle, owner: Option<Party>, custodian: Option<Party>,
                                 allocation: Option<Holding>, vehicle: Option<VehicleId>)

  function Holder(rows: seq<Tenure>, d: DeviceId): Option<Party> {
    var i := FindOpen(rows, d);
    if i.Some? then Some(rows[i.value].holder) else None
  }

  function HoldingOf(rows: seq<DealerAllocation>, d: DeviceId): Option<Holding> {
    var i := FindHeld(rows, d);
    if i.Some? then Some(Holding(rows[i.value].dealer, rows[i.value].status)) else None
  }

  function VehicleOf(rows: seq<Assignment>, d: DeviceId): Option<VehicleId> {
    var i := FindActive(rows, d);
    if i.Some? then Some(rows[i.value].vehicle) else None
  }

  function Current(s: State, d: DeviceId): Situation
    requires d < |s.devices|
  {
    Situation(s.devices[d].lifecycle, Holder(s.ownership, d), Holder(s.custody, d), HoldingOf(s.allocations, d),
              VehicleOf(s.assignments, d))
  }

  /** A device has an owner and a custodian, and is INSTALLED exactly when a vehicle carries it. */
  ghost predicate Settled(c: Situation) {
    c.owner.Some? && c.custodian.Some? && (c.lifecycle == Installed <==> c.vehicle.Some?)
  }

  ghost predicate Inv(s: State) {
    && Linked(s)
    && OpenOnce(s.ownership) && OpenOnce(s.custody) && HeldOnce(s.allocations) && ActiveOnce(s.assignments)
    && Fitted(s.assignments, s.installations)
    && ArchivedEmpty(s)
    && forall d :: 0 <= d < |s.devices| ==> Settled(Current(s, d))
  }

  /** Only device d changes, to situation c. */
  ghost predicate Becomes(s: State, t: State, d: DeviceId, c: Situation)
    requires d < |s.devices|
  {
    && |t.devices| == |s.devices|
    && Current(t, d) == c
    && forall e :: 0 <= e < |s.devices| && e != d ==> Current(t, e) == Current(s, e)
  }

  /** The invariant from its parts, when one device changes. */
  lemma InvAfter(s: State, t: State, d: DeviceId, c: Situation)
    requires Inv(s) && d < |s.devices| && Becomes(s, t, d, c) && Settled(c)
    requires Linked(t) && OpenOnce(t.ownership) && OpenOnce(t.custody) && HeldOnce(t.allocations)
    requires ActiveOnce(t.assignments) && Fitted(t.assignments, t.installations) && ArchivedEmpty(t)
    ensures Inv(t)
  {
    hide Current, Settled, Linked, OpenOnce, HeldOnce, ActiveOnce, Fitted, ArchivedEmpty;
    forall e | 0 <= e < |t.devices|
      ensures Settled(Current(t, e))
    {
      assert Settled(Current(s, e));
    }
  }

  // ----- One table at a time -----

  lemma RotateHolder(rows: seq<Tenure>, d: DeviceId, holder: Party, reason: Reason, at: Time)
    requires OpenOnce(rows)
    ensures var r := Rotate(rows, d, holder, reason, at);
            && OpenOnce(r) && |r| == |rows| + 1
            && Holder(r, d) == Some(holder)
            && forall e :: e != d ==> Holder(r, e) == Holder(rows, e)
  {
    hide First;
    var r := Rotate(rows, d, holder, reason, at);
    assert forall i :: 0 <= i < |rows| ==> r[i] == EndCurrent(rows, d, at)[i];
    forall e: DeviceId | e != d
      ensures FindOpen(r, e) == FindOpen(rows, e)
    {
      assert forall i :: 0 <= i < |rows| ==> OpenFor(r[i], e) == OpenFor(rows[i], e);
      assert !OpenFor(r[|rows|], e);
    }
    assert OpenFor(r[|rows|], d);
  }

  lemma AppendHolder(rows: seq<Tenure>, row: Tenure)
    requires OpenOnce(rows) && row.endedAt.None? && FindOpen(rows, row.device).None?
    ensures OpenOnce(rows + [row]) && Holder(rows + [row], row.device) == Some(row.holder)
    ensures forall e :: e != row.device ==> Holder(rows + [row], e) == Holder(rows, e)
  {
    hide First;
    var r := rows + [row];
    assert forall i :: 0 <= i < |rows| ==> r[i] == rows[i];
    assert forall i :: 0 <= i < |rows| && rows[i].endedAt.None? ==> !OpenFor(rows[i], row.device);
    forall e: DeviceId | e != row.device
      ensures FindOpen(r, e) == FindOpen(rows, e)
    {
      assert !OpenFor(r[|rows|], e);
      assert forall i :: 0 <= i < |rows| ==> OpenFor(r[i], e) == OpenFor(rows[i], e);
    }
    assert OpenFor(r[|rows|], row.device);
  }

  lemma AppendHeld(rows: seq<DealerAllocation>, a: DealerAllocation)
    requires HeldOnce(rows) && Held(a.status) && FindHeld(rows, a.device).None?
    ensures HeldOnce(rows + [a])
    ensures HoldingOf(rows + [a], a.device) == Some(Holding(a.dealer, a.status))
    ensures forall e :: e != a.device ==> HoldingOf(rows + [a], e) == HoldingOf(rows, e)
  {
    hide First;
    var r := rows + [a];
    assert forall i :: 0 <= i < |rows| ==> r[i] == rows[i];
    assert forall i :: 0 <= i < |rows| && Held(rows[i].status) ==> !HeldFor(rows[i], a.device);
    forall e: DeviceId | e != a.device
      ensures FindHeld(r, e) == FindHeld(rows, e)
    {
      assert !HeldFor(r[|rows|], e);
      assert forall i :: 0 <= i < |rows| ==> HeldFor(r[i], e) == HeldFor(rows[i], e);
    }
    assert HeldFor(r[|rows|], a.device);
  }

  lemma ReturnHeldEffect(rows: seq<DealerAllocation>, d: DeviceId, at: Time)
    requires HeldOnce(rows)
    ensures HeldOnce(ReturnHeld(rows, d, at)) && FindHeld(ReturnHeld(rows, d, at), d).None?
    ensures forall e :: e != d ==> HoldingOf(ReturnHeld(rows, d, at), e) == HoldingOf(rows, e)
  {
    hide First;
    var r := ReturnHeld(rows, d, at);
    forall e: DeviceId | e != d
      ensures FindHeld(r, e) == FindHeld(rows, e)
    {
      assert forall i :: 0 <= i < |rows| ==> HeldFor(r[i], e) == HeldFor(rows[i], e);
    }
    assert forall i :: 0 <= i < |rows| ==> !HeldFor(r[i], d);
  }

  /** Rewriting the active allocation of a device. */
  lemma RewriteHeld(rows: seq<DealerAllocation>, i: nat, a: DealerAllocation)
    requires HeldOnce(rows) && i < |rows| && Held(rows[i].status) && a.device == rows[i].device
    ensures var r := rows[i := a];
            && HeldOnce(r)
            && HoldingOf(r, a.device) == (if Held(a.status) then Some(Holding(a.dealer, a.status)) else None)
            && forall e :: e != a.device ==> HoldingOf(r, e) == HoldingOf(rows, e)
  {
    hide First;
    var r := rows[i := a];
    assert HeldFor(rows[i], a.device);
    assert forall j :: 0 <= j < |rows| && j != i ==> !HeldFor(r[j], a.device);
    forall e: DeviceId | e != a.device
      ensures FindHeld(r, e) == FindHeld(rows, e)
    {
      assert forall j :: 0 <= j < |rows| ==> HeldFor(r[j], e) == HeldFor(rows[j], e);
    }
    assert HeldFor(r[i], a.device) <==> Held(a.status);
  }

  /** The only active allocation is the one in stock, when there is one in stock. */
  lemma StockIsHeld(rows: seq<DealerAllocation>, d: DeviceId)
    requires HeldOnce(rows)
    ensures FindStock(rows, d).Some? ==> FindHeld(rows, d) == FindStock(rows, d)
    ensures FindStock(rows, d).None? ==> HoldingOf(rows, d).None? || HoldingOf(rows, d).value.status == InUse
  {
    hide First;
    var i, h := FindStock(rows, d), FindHeld(rows, d);
    if i.Some? {
      assert HeldFor(rows[i.value], d);
      assert h.Some? && h.value <= i.value;
    } else if h.Some? {
      assert !StockFor(rows[h.value], d);
    }
  }

  lemma AppendActive(rows: seq<Assignment>, a: Assignment)
    requires ActiveOnce(rows) && a.status == Active && FindActive(rows, a.device).None?
    requires a.kind == Primary ==> !VehicleTaken(rows, a.vehicle, None)
    ensures ActiveOnce(rows + [a]) && FindActive(rows + [a], a.device) == Some(|rows|)
    ensures forall e :: e != a.device ==> FindActive(rows + [a], e) == FindActive(rows, e)
    ensures VehicleOf(rows + [a], a.device) == Some(a.vehicle)
    ensures forall e :: e != a.device ==> VehicleOf(rows + [a], e) == VehicleOf(rows, e)
  {
    hide First;
    var r := rows + [a];
    assert forall i :: 0 <= i < |rows| ==> r[i] == rows[i];
    assert forall i :: 0 <= i < |rows| && rows[i].status == Active ==> !ActiveFor(rows[i], a.device);
    assert a.kind == Primary ==> forall i :: 0 <= i < |rows| ==> !PrimaryOn(rows[i], a.vehicle);
    forall e: DeviceId | e != a.device
      ensures FindActive(r, e) == FindActive(rows, e)
    {
      assert !ActiveFor(r[|rows|], e);
      assert forall i :: 0 <= i < |rows| ==> ActiveFor(r[i], e) == ActiveFor(rows[i], e);
    }
    assert ActiveFor(r[|rows|], a.device);
  }

  lemma EndActive(rows: seq<Assignment>, i: nat, a: Assignment)
    requires ActiveOnce(rows) && i < |rows| && rows[i].status == Active
    requires a.device == rows[i].device && a.status != Active
    ensures var r := rows[i := a];
            && ActiveOnce(r) && VehicleOf(r, a.device).None?
            && (forall e :: e != a.device ==> FindActive(r, e) == FindActive(rows, e))
            && (forall e :: e != a.device ==> VehicleOf(r, e) == VehicleOf(rows, e))
  {
    hide First;
    var r := rows[i := a];
    assert forall j :: 0 <= j < |rows| && j != i && rows[j].status == Active ==> rows[j].device != a.device;
    assert forall j :: 0 <= j < |rows| ==> !ActiveFor(r[j], a.device);
    forall e: DeviceId | e != a.device
      ensures FindActive(r, e) == FindActive(rows, e)
    {
      assert forall j :: 0 <= j < |rows| ==> ActiveFor(r[j], e) == ActiveFor(rows[j], e);
    }
  }

  lemma FitAppend(rows: seq<Assignment>, ins: seq<DeviceInstallation>, a: Assignment, k: DeviceInstallation)
    requires Fitted(rows, ins) && FindActive(rows, a.device).None?
    requires forall i :: 0 <= i < |rows| && rows[i].installation.Some? ==> rows[i].installation.value < |ins|
    requires a.status == Active && a.installation == Some(|ins|)
    requires k.status == Completed && k.device == a.device && k.vehicle == a.vehicle
    requires FindActive(rows + [a], a.device) == Some(|rows|)
    requires forall e :: e != a.device ==> FindActive(rows + [a], e) == FindActive(rows, e)
    ensures Fitted(rows + [a], ins + [k])
  {
    hide FindActive;
    var r, m := rows + [a], ins + [k];
    forall i | 0 <= i < |r| && r[i].status == Active
      ensures FitsInstallation(r[i], m)
    {
      if i < |rows| {
        assert FitsInstallation(rows[i], ins);
      }
    }
    forall j | 0 <= j < |m| && m[j].status == Completed
      ensures FindActive(r, m[j].device).Some? && r[FindActive(r, m[j].device).value].installation == Some(j)
    {
      if j < |ins| {
        assert ins[j].status == Completed;
      }
    }
  }

  lemma FitEnd(rows: seq<Assignment>, ins: seq<DeviceInstallation>, i: nat, a: Assignment, k: DeviceInstallation)
    requires Fitted(rows, ins) && ActiveOnce(rows)
    requires i < |rows| && rows[i].status == Active && a.status != Active
    requires a.device == rows[i].device && a.installation == rows[i].installation
    requires k.status != Completed
    requires forall e :: e != a.device ==> FindActive(rows[i := a], e) == FindActive(rows, e)
    ensures rows[i].installation.Some? && rows[i].installation.value < |ins|
    ensures Fitted(rows[i := a], ins[rows[i].installation.value := k])
  {
    hide FindActive;
    assert FitsInstallation(rows[i], ins);
    var n := rows[i].installation.value;
    var r, m := rows[i := a], ins[n := k];
    forall j | 0 <= j < |r| && r[j].status == Active
      ensures FitsInstallation(r[j], m)
    {
      assert FitsInstallation(rows[j], ins);
      assert rows[j].installation != rows[i].installation;
    }
    forall j | 0 <= j < |m| && m[j].status == Completed
      ensures FindActive(r, m[j].device).Some? && r[FindActive(r, m[j].device).value].installation == Some(j)
    {
      var f := FindActive(rows, ins[j].device);
      assert f.Some? && rows[f.value].installation == Some(j);
      assert ins[j].device != a.device by {
        if ins[j].device == a.device {
          SoleActive(rows, i);
        }
      }
    }
  }

  lemma SoleActive(rows: seq<Assignment>, i: nat)
    requires ActiveOnce(rows) && i < |rows| && rows[i].status == Active
    ensures FindActive(rows, rows[i].device) == Some(i)
  {
    hide First;
    var f := FindActive(rows, rows[i].device);
    assert ActiveFor(rows[i], rows[i].device);
    assert f.Some?;
    assert ActiveFor(rows[f.value], rows[i].device);
  }
}
