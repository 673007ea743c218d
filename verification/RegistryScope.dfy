/** Who may change what: a request changes the rows of the devices it names and of no other device,
    and an actor without platform scope only changes devices and vehicles of its own. */
module RegistryScope {
  import opened Options
  import opened RegistryTables
  import opened Registry
  import opened RegistryInvariant
  import opened RegistrySteps
  import opened RegistryReplacement

  /** No row of device e is added, removed or changed. */
  ghost predicate SameRows<T>(was: seq<T>, now: seq<T>, of: T -> DeviceId, e: DeviceId) {
    && |was| <= |now|
    && (forall i :: 0 <= i < |was| && (of(was[i]) == e || of(now[i]) == e) ==> now[i] == was[i])
    && (forall i :: |was| <= i < |now| ==> of(now[i]) != e)
  }

  ghost predicate SameTenures(was: seq<Tenure>, now: seq<Tenure>, e: DeviceId) {
    SameRows(was, now, (r: Tenure) => r.device, e)
  }

  ghost predicate SameAllocations(was: seq<DealerAllocation>, now: seq<DealerAllocation>, e: DeviceId) {
    SameRows(was, now, (r: DealerAllocation) => r.device, e)
  }

  ghost predicate SameInstallations(was: seq<DeviceInstallation>, now: seq<DeviceInstallation>, e: DeviceId) {
    SameRows(was, now, (r: DeviceInstallation) => r.device, e)
  }

  ghost predicate SameAssignments(was: seq<Assignment>, now: seq<Assignment>, e: DeviceId) {
    SameRows(was, now, (r: Assignment) => r.device, e)
  }

  /** A step leaves device e alone in every table. */
  ghost predicate Untouched(s: State, t: State, e: DeviceId) {
    && (e < |s.devices| ==> e < |t.devices| && t.devices[e] == s.devices[e])
    && (e >= |s.devices| ==> e >= |t.devices|)
    && SameTenures(s.ownership, t.ownership, e) && SameTenures(s.custody, t.custody, e)
    && SameAllocations(s.allocations, t.allocations, e)
    && SameInstallations(s.installations, t.installations, e)
    && SameAssignments(s.assignments, t.assignments, e)
  }

  /** The devices that an operation names. */
  function Named(s: State, op: Op): set<DeviceId> {
    match op
    case RegisterOp(_, _, _) => {|s.devices|}
    case UpdateOp(d, _, _) => {d}
    case TransferOp(ids, _) => set d | d in ids
    case AllocateOp(d, _) => {d}
    case ReturnOp(d) => {d}
    case InstallOp(d, _, _) => {d}
    case RemoveOp(d, _, _) => {d}
    case ReplaceOp(d, next, _, _) => {d, next}
    case _ => {}
  }

  lemma RotateLeaves(rows: seq<Tenure>, d: DeviceId, holder: Party, reason: Reason, at: Time, e: DeviceId)
    requires e != d
    ensures SameTenures(rows, Rotate(rows, d, holder, reason, at), e)
  {
  }

  lemma UntouchedTwice(s: State, m: State, t: State, e: DeviceId)
    requires Untouched(s, m, e) && Untouched(m, t, e)
    ensures Untouched(s, t, e)
  {
    SameTwice(s.ownership, m.ownership, t.ownership, (r: Tenure) => r.device, e);
    SameTwice(s.custody, m.custody, t.custody, (r: Tenure) => r.device, e);
    SameTwice(s.allocations, m.allocations, t.allocations, (r: DealerAllocation) => r.device, e);
    SameTwice(s.installations, m.installations, t.installations, (r: DeviceInstallation) => r.device, e);
    SameTwice(s.assignments, m.assignments, t.assignments, (r: Assignment) => r.device, e);
    hide SameRows;
  }

  lemma SameTwice<T>(a: seq<T>, b: seq<T>, c: seq<T>, of: T -> DeviceId, e: DeviceId)
    requires SameRows(a, b, of, e) && SameRows(b, c, of, e)
    ensures SameRows(a, c, of, e)
  {
  }

  lemma MoveLeaves(s: State, d: DeviceId, to: Party, dealer: Option<DealerId>, now: Time, e: DeviceId)
    requires d < |s.devices| && e != d
    ensures Untouched(s, Move(s, d, to, dealer, now), e)
  {
    RotateLeaves(s.ownership, d, to, Transfer, now, e);
    RotateLeaves(s.custody, d, to, Transfer, now, e);
    hide Rotate;
  }

  lemma {:induction false} MoveAllLeaves(s: State, ids: seq<DeviceId>, to: Party, dealer: Option<DealerId>, now: Time, e: DeviceId)
    requires (forall k :: 0 <= k < |ids| ==> ids[k] < |s.devices|) && e !in ids
    ensures Untouched(s, MoveAll(s, ids, to, dealer, now), e)
    decreases |ids|
  {
    hide Move, Untouched;
    if ids == [] {
      Unchanged(s, e);
    } else {
      var init := ids[..|ids| - 1];
      MoveAllLeaves(s, init, to, dealer, now, e);
      MoveLeaves(MoveAll(s, init, to, dealer, now), ids[|ids| - 1], to, dealer, now, e);
      UntouchedTwice(s, MoveAll(s, init, to, dealer, now), MoveAll(s, ids, to, dealer, now), e);
    }
  }

  lemma Unchanged(s: State, e: DeviceId)
    ensures Untouched(s, s, e)
  {
  }

  lemma PutInLeaves(s: State, d: DeviceId, v: VehicleId, customer: CustomerId, dealer: Option<DealerId>,
                    allocation: Option<nat>, at: Time, e: DeviceId)
    requires d < |s.devices| && v < |s.vehicles| && e != d
    requires allocation.Some? ==> allocation.value < |s.allocations| && s.allocations[allocation.value].device == d
    ensures Untouched(s, PutIn(s, d, v, customer, dealer, allocation, at), e)
  {
    RotateLeaves(s.custody, d, Customer(customer), Installation, at, e);
    hide Rotate;
  }

  lemma TakeOutLeavesOthers(s: State, i: nat, dealer: Option<DealerId>, allocation: Option<nat>, reason: EndReason,
                            removal: RemovalReason, now: Time, e: DeviceId)
    requires i < |s.assignments| && s.assignments[i].device < |s.devices| && e != s.assignments[i].device
    requires s.assignments[i].installation.Some? ==>
               && s.assignments[i].installation.value < |s.installations|
               && s.installations[s.assignments[i].installation.value].device == s.assignments[i].device
    requires allocation.Some? ==>
               && allocation.value < |s.allocations|
               && s.allocations[allocation.value].device == s.assignments[i].device
    requires TakeOut(s, i, dealer, allocation, reason, removal, now).Accepted?
    ensures Untouched(s, TakeOut(s, i, dealer, allocation, reason, removal, now).state, e)
  {
    var d := s.assignments[i].device;
    RotateLeaves(s.custody, d, Platform, Removal, now, e);
    if dealer.Some? {
      RotateLeaves(s.custody, d, Dealer(dealer.value), Removal, now, e);
    }
    hide Rotate;
  }

  lemma InstallLeaves(s: State, a: Actor, d: DeviceId, v: VehicleId, at: Time, e: DeviceId)
    requires Install(s, a, d, v, at).Accepted? && e != d
    ensures Untouched(s, Install(s, a, d, v, at).state, e)
  {
    hide First, FindActive, PutIn, Installable, Untouched, ResolveAllocation, VehicleMutation;
    InstallReady(s, a, d, v, at);
    var dealer := ManagingDealer(s, s.vehicles[v].customer);
    var stock := if dealer.Some? then FindStock(s.allocations, d) else None;
    hide Install;
    PutInLeaves(s, d, v, s.vehicles[v].customer, dealer, stock, at, e);
  }

  lemma RemoveLeaves(s: State, a: Actor, d: DeviceId, reason: EndReason, removal: RemovalReason, now: Time, e: DeviceId)
    requires Inv(s) && Remove(s, a, d, reason, removal, now).Accepted? && e != d
    ensures Untouched(s, Remove(s, a, d, reason, removal, now).state, e)
  {
    ActiveLinked(s, d);
    hide First, FindActive, FindHeld, Linked, TakeOut, Untouched, VehicleMutation;
    var i := FindActive(s.assignments, d).value;
    assert FitsInstallation(s.assignments[i], s.installations);
    TakeOutLeavesOthers(s, i, ManagingDealer(s, s.vehicles[s.assignments[i].vehicle].customer),
                        FindHeld(s.allocations, d), reason, removal, now, e);
  }

  lemma ReplaceLeaves(s: State, a: Actor, current: DeviceId, next: DeviceId, removal: RemovalReason, now: Time, at: Time,
                      e: DeviceId)
    requires Inv(s) && Replace(s, a, current, next, removal, now, at).Accepted? && e != current && e != next
    ensures Untouched(s, Replace(s, a, current, next, removal, now, at).state, e)
  {
    ReplaceParts(s, a, current, next, removal, now, at);
    hide First, FindActive, FindPrimary, FindHeld, Linked, TakeOut, PutIn, Untouched, Installable, Replace;
    hide OpenOnce, HeldOnce, ActiveOnce, ArchivedEmpty, Current, Settled;
    var i := FindActive(s.assignments, current).value;
    assert FitsInstallation(s.assignments[i], s.installations);
    hide Fitted;
    var v := s.assignments[i].vehicle;
    var dealer := ManagingDealer(s, s.vehicles[v].customer);
    var row := ResolveAllocation(s, a, next, dealer).row;
    var held := FindHeld(s.allocations, current);
    TakeOutLeavesOthers(s, i, dealer, held, EndedByReplacement, removal, now, e);
    TakeOutLeaves(s, i, dealer, held, EndedByReplacement, removal, now);
    var m := TakeOut(s, i, dealer, held, EndedByReplacement, removal, now).state;
    assert row.Some? ==> m.allocations[row.value].device == next;
    hide Inv;
    PutInLeaves(m, next, v, s.vehicles[v].customer, dealer, row, at, e);
    UntouchedTwice(s, m, PutIn(m, next, v, s.vehicles[v].customer, dealer, row, at), e);
  }

  lemma StockLeaves(s: State, a: Actor, op: Op, now: Time, e: DeviceId)
    requires Linked(s) && Apply(s, a, op, now).Accepted? && (op.AllocateOp? || op.ReturnOp?) && e !in Named(s, op)
    ensures Untouched(s, Apply(s, a, op, now).state, e)
  {
    hide First, FindActive, FindOpen;
    match op
    case AllocateOp(d, dealer) =>
      RotateLeaves(s.custody, d, Dealer(dealer), Allocation, now, e);
      hide Rotate;
    case ReturnOp(d) =>
      RotateLeaves(s.custody, d, Platform, Return, now, e);
      hide Rotate;
  }

  lemma DataLeaves(s: State, a: Actor, op: Op, now: Time, e: DeviceId)
    requires Linked(s) && Apply(s, a, op, now).Accepted? && e !in Named(s, op)
    requires !op.TransferOp? && !op.AllocateOp? && !op.ReturnOp? && !op.InstallOp? && !op.RemoveOp? && !op.ReplaceOp?
    ensures Untouched(s, Apply(s, a, op, now).state, e)
  {
    hide First, FindActive, IdentityKnown, VehicleIdentityKnown, Optional, OptionalUpper, NormalizeRegistration, Linked;
  }

  /** A step leaves every device alone that it does not name. */
  lemma StepLeaves(s: State, a: Actor, op: Op, now: Time, e: DeviceId)
    requires Inv(s) && Apply(s, a, op, now).Accepted? && e !in Named(s, op)
    ensures Untouched(s, Apply(s, a, op, now).state, e)
  {
    hide Untouched, Linked, OpenOnce, HeldOnce, ActiveOnce, Fitted, ArchivedEmpty, Current, DeviceWhere, Movable, MoveAll;
    hide Register, Update, Allocate, ReturnToPlatform, Install, Remove, Replace, CreateVehicle, UpdateVehicle;
    match op
    case TransferOp(ids, target) =>
      assert forall k :: 0 <= k < |ids| ==> ids[k] in ids;
      MoveAllLeaves(s, ids, TargetParty(target), TargetDealer(s, target), now, e);
    case AllocateOp(d, dealer) => StockLeaves(s, a, op, now, e);
    case ReturnOp(d) => StockLeaves(s, a, op, now, e);
    case InstallOp(d, v, at) => InstallLeaves(s, a, d, v, Or(at, now), e);
    case RemoveOp(d, reason, removal) => RemoveLeaves(s, a, d, reason, removal, now, e);
    case ReplaceOp(d, next, removal, at) => ReplaceLeaves(s, a, d, next, removal, now, Or(at, now), e);
    case _ => DataLeaves(s, a, op, now, e);
  }

  // ----- Scope -----

  /** A request of a user, not a change made elsewhere. */
  predicate Request(op: Op) { !op.SetCustomerOp? && !op.SetDealerOp? && !op.SetModelsOp? }

  /** A dealer that installs a device must have it in stock. */
  lemma StockInScope(s: State, a: Actor, d: DeviceId, dealer: Option<DealerId>)
    requires !IsPlatform(a) && ResolveAllocation(s, a, d, dealer).UseAllocation?
    ensures DeviceWhere(s, a, d)
  {
    hide First;
    var i := FindStock(s.allocations, d);
    assert HeldFor(s.allocations[i.value], d);
  }

  lemma InstalledInScope(s: State, a: Actor, d: DeviceId)
    requires Linked(s) && !IsPlatform(a) && FindActive(s.assignments, d).Some?
    requires var v := s.assignments[FindActive(s.assignments, d).value].vehicle; VehicleMutation(s, a, v).None?
    ensures DeviceWhere(s, a, d)
  {
    hide First;
    ActiveLinked(s, d);
    var i := FindActive(s.assignments, d).value;
    assert ActiveFor(s.assignments[i], d) && ActsForManager(s, a, s.vehicles[s.assignments[i].vehicle].customer);
  }

  lemma NamedInScope(s: State, a: Actor, op: Op, now: Time, d: DeviceId)
    requires Linked(s) && ActiveOnce(s.assignments) && Apply(s, a, op, now).Accepted?
    requires !IsPlatform(a) && d in Named(s, op)
    ensures d < |s.devices| && DeviceWhere(s, a, d)
  {
    match op
    case TransferOp(ids, target) =>
      hide DeviceWhere, Movable, MoveAll, Linked;
    case ReturnOp(e) =>
      var i := FindHeld(s.allocations, e).value;
      hide First, FindActive, Rotate;
    case InstallOp(e, v, at) =>
      hide DeviceWhere, PutIn, Installable, Linked, ResolveAllocation;
      StockInScope(s, a, e, ManagingDealer(s, s.vehicles[v].customer));
    case RemoveOp(e, reason, removal) =>
      ActiveLinked(s, e);
      hide DeviceWhere, TakeOut, FindActive, Linked;
      InstalledInScope(s, a, e);
    case ReplaceOp(e, next, removal, at) =>
      ReplaceInScope(s, a, e, next, removal, now, Or(at, now));
    case _ =>
  }

  lemma ReplaceInScope(s: State, a: Actor, current: DeviceId, next: DeviceId, removal: RemovalReason, now: Time, at: Time)
    requires Linked(s) && ActiveOnce(s.assignments) && Replace(s, a, current, next, removal, now, at).Accepted?
    requires !IsPlatform(a)
    ensures current < |s.devices| && next < |s.devices| && DeviceWhere(s, a, current) && DeviceWhere(s, a, next)
  {
    ReplaceParts(s, a, current, next, removal, now, at);
    hide DeviceWhere, TakeOut, FindActive, FindPrimary, FindHeld, PutIn, Installable, ResolveAllocation, Linked, ActiveOnce;
    InstalledInScope(s, a, current);
    StockInScope(s, a, next, ManagingDealer(s, s.vehicles[s.assignments[FindActive(s.assignments, current).value].vehicle].customer));
  }

  /** Main theorem.  An accepted request of an actor without platform scope leaves every device
      alone that the actor could not see before the request. */
  lemma ChangesStayInScope(s: State, a: Actor, op: Op, now: Time, d: DeviceId)
    requires Inv(s) && Apply(s, a, op, now).Accepted? && Request(op) && !IsPlatform(a)
    requires d < |s.devices| && !DeviceWhere(s, a, d)
    ensures Untouched(s, Apply(s, a, op, now).state, d)
  {
    hide Untouched, DeviceWhere, Apply, Named, Linked, Fitted;
    if d in Named(s, op) {
      NamedInScope(s, a, op, now, d);
    }
    StepLeaves(s, a, op, now, d);
  }

  /** The vehicles that exist are changed only by actors that see them. */
  lemma VehiclesStayInScope(s: State, a: Actor, op: Op, now: Time, v: VehicleId)
    requires Linked(s) && Apply(s, a, op, now).Accepted? && Request(op)
    requires v < |s.vehicles| && !VehicleWhere(s, a, v)
    ensures var t := Apply(s, a, op, now).state; v < |t.vehicles| && t.vehicles[v] == s.vehicles[v]
  {
    VehicleFrame(s, a, op, now, v);
  }

  lemma {:induction false} MoveAllVehicles(s: State, ids: seq<DeviceId>, to: Party, dealer: Option<DealerId>, now: Time)
    requires forall k :: 0 <= k < |ids| ==> ids[k] < |s.devices|
    ensures MoveAll(s, ids, to, dealer, now).vehicles == s.vehicles
    decreases |ids|
  {
    if ids != [] {
      MoveAllVehicles(s, ids[..|ids| - 1], to, dealer, now);
    }
  }

  lemma VehicleFrame(s: State, a: Actor, op: Op, now: Time, v: VehicleId)
    requires Linked(s) && Apply(s, a, op, now).Accepted? && Request(op)
    requires v < |s.vehicles| && VehicleMutation(s, a, v).Some?
    ensures var t := Apply(s, a, op, now).state; v < |t.vehicles| && t.vehicles[v] == s.vehicles[v]
  {
    hide FindActive, FindHeld, FindStock, FindPrimary, First, Rotate, ReturnHeld, SetLifecycle, Installable;
    if op.TransferOp? {
      assert forall k :: 0 <= k < |op.devices| ==> op.devices[k] in op.devices;
      MoveAllVehicles(s, op.devices, TargetParty(op.target), TargetDealer(s, op.target), now);
    }
  }
}
