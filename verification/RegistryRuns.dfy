/** Runs of the registry: any sequence of requests by any actors and of changes made elsewhere, with
    rejected and refused requests leaving the tables as they were. */
module RegistryRuns {
  import opened RegistryTables
  import opened Registry
  import opened RegistryInvariant
  import opened RegistrySteps
  import opened RegistryAgreement
  import opened RegistryTransfer
  import opened RegistryConstraints

  datatype Step = Step(actor: Actor, op: Op, now: Time)

  ghost predicate Good(s: State) { Inv(s) && Constraints(s) && Tidy(s) }

  /** A rejected request changes nothing; an accepted one is rolled back if a constraint fails. */
  ghost function Commit(s: State, step: Step): State
    requires Linked(s)
  {
    match Apply(s, step.actor, step.op, step.now)
    case Rejected(_) => s
    case Accepted(t) => if Constraints(t) then t else s
  }

  lemma CommitGood(s: State, step: Step)
    requires Good(s)
    ensures Good(Commit(s, step))
  {
    hide Inv, Constraints, Tidy, Apply;
    assert Linked(s) by { GoodLinked(s); }
    hide Linked;
    if Apply(s, step.actor, step.op, step.now).Accepted? {
      StepSound(s, step.actor, step.op, step.now);
      StepConstrained(s, step.actor, step.op, step.now);
    }
  }

  /** The roll-back of the database is needed only for the refused requests: every other accepted
      request is committed as it is. */
  lemma CommitIsApply(s: State, step: Step)
    requires Good(s)
    ensures Linked(s)
    ensures Commit(s, step) == (match Apply(s, step.actor, step.op, step.now)
                                case Rejected(_) => s
                                case Accepted(t) => if RefusedByDatabase(s, step.op) then s else t)
  {
    GoodLinked(s);
    hide Inv, Constraints, Tidy, Apply, Linked, RefusedByDatabase;
    if Apply(s, step.actor, step.op, step.now).Accepted? {
      StepConstrained(s, step.actor, step.op, step.now);
    }
  }

  lemma GoodLinked(s: State)
    requires Inv(s)
    ensures Linked(s)
  {
  }

  ghost function Run(s: State, steps: seq<Step>): (t: State)
    requires Good(s)
    ensures Good(t)
    decreases |steps|
  {
    if steps == [] then s
    else
      hide Good, Commit;
      CommitGood(s, steps[0]);
      GoodIsLinked(s);
      Run(Commit(s, steps[0]), steps[1..])
  }

  /** A run with one more step at its end. */
  lemma {:induction false} RunThen(s: State, steps: seq<Step>, last: Step)
    requires Good(s)
    ensures Linked(Run(s, steps)) && Run(s, steps + [last]) == Commit(Run(s, steps), last)
    decreases |steps|
  {
    hide Good, Commit;
    GoodIsLinked(Run(s, steps));
    GoodIsLinked(s);
    if steps == [] {
      assert [] + [last] == [last];
      CommitGood(s, last);
    } else {
      CommitGood(s, steps[0]);
      assert (steps + [last])[1..] == steps[1..] + [last];
      RunThen(Commit(s, steps[0]), steps[1..], last);
    }
  }

  /** A registry without rows. */
  predicate Fresh(s: State) {
    && s.devices == [] && s.ownership == [] && s.custody == [] && s.allocations == []
    && s.installations == [] && s.assignments == [] && s.vehicles == []
  }

  lemma FreshIsGood(s: State)
    requires Fresh(s)
    ensures Good(s) && Agreement(s)
  {
  }

  ghost predicate OnlyOpen(rows: seq<Tenure>, i: nat, d: DeviceId) {
    forall j :: 0 <= j < |rows| ==> (OpenFor(rows[j], d) <==> j == i)
  }

  /** A device has exactly one open ownership row and one open custody row, and is INSTALLED exactly
      when it has an active assignment. */
  ghost predicate InOrder(s: State, d: DeviceId)
    requires d < |s.devices|
  {
    && (exists i :: 0 <= i < |s.ownership| && OnlyOpen(s.ownership, i, d))
    && (exists i :: 0 <= i < |s.custody| && OnlyOpen(s.custody, i, d))
    && (s.devices[d].lifecycle == Installed <==> exists i :: 0 <= i < |s.assignments| && ActiveFor(s.assignments[i], d))
  }

  lemma DeviceInOrder(s: State, d: DeviceId)
    requires Inv(s) && d < |s.devices|
    ensures InOrder(s, d)
  {
    hide First, Fitted, HeldOnce, ArchivedEmpty, Linked, ActiveOnce, FindHeld;
    assert Settled(Current(s, d));
    OpenExactlyOnce(s.ownership, d);
    OpenExactlyOnce(s.custody, d);
  }

  /** Main theorem.  In every state that any run from an empty registry reaches, every device is in
      order; no device has two active allocations or two active assignments and no vehicle two
      active primary assignments; active assignments and completed installations correspond one
      to one; no archived vehicle has an active assignment; and the constraints of the database
      hold. */
  lemma RunInvariant(s: State, steps: seq<Step>)
    requires Fresh(s)
    ensures Good(s)
    ensures var t := Run(s, steps);
            && (forall d :: 0 <= d < |t.devices| ==> InOrder(t, d))
            && HeldOnce(t.allocations) && ActiveOnce(t.assignments)
            && Fitted(t.assignments, t.installations) && ArchivedEmpty(t) && Constraints(t)
  {
    FreshIsGood(s);
    hide Constraints, Tidy, Run, Fitted, HeldOnce, ActiveOnce, ArchivedEmpty, Linked, OpenOnce, Settled, Current, InOrder;
    var t := Run(s, steps);
    forall d | 0 <= d < |t.devices|
      ensures InOrder(t, d)
    {
      DeviceInOrder(t, d);
    }
  }

  lemma OpenExactlyOnce(rows: seq<Tenure>, d: DeviceId)
    requires OpenOnce(rows) && Holder(rows, d).Some?
    ensures exists i :: 0 <= i < |rows| && OnlyOpen(rows, i, d)
  {
    hide First;
    var i := FindOpen(rows, d).value;
    assert OpenFor(rows[i], d);
    assert OnlyOpen(rows, i, d);
  }

  // ----- Agreement over runs -----

  ghost predicate CustomerInstalled(s: State, c: CustomerId) {
    exists i :: 0 <= i < |s.assignments| && s.assignments[i].status == Active
                && s.assignments[i].vehicle < |s.vehicles| && s.vehicles[s.assignments[i].vehicle].customer == c
  }

  /** The step does not change the managing dealer of a customer that has an installed device. */
  ghost predicate KeepsManagers(s: State, op: Op) {
    op.SetCustomerOp? ==> op.row.managingDealer == ManagingDealer(s, op.customer) || !CustomerInstalled(s, op.customer)
  }

  /** Main theorem.  Changing a customer keeps the agreement of custody and allocation exactly when
      the managing dealer stays or the customer has no installed device. */
  lemma ManagerChange(s: State, c: CustomerId, row: CustomerRow)
    requires Inv(s) && Agreement(s)
    ensures Agreement(s.(customers := s.customers[c := row])) <==> KeepsManagers(s, SetCustomerOp(c, row))
  {
    hide First, FindOpen, FindHeld, Linked, OpenOnce, HeldOnce, Fitted, ArchivedEmpty, Settled;
    var t := s.(customers := s.customers[c := row]);
    SameSituations(s, t);
    hide FindActive;
    if row.managingDealer != ManagingDealer(s, c) && CustomerInstalled(s, c) {
      var i :| 0 <= i < |s.assignments| && s.assignments[i].status == Active
               && s.assignments[i].vehicle < |s.vehicles| && s.vehicles[s.assignments[i].vehicle].customer == c;
      var d := s.assignments[i].device;
      AssignmentDevice(s, i);
      SoleActive(s.assignments, i);
      assert Agrees(s, Current(s, d)) && !Agrees(t, Current(t, d));
    } else {
      forall d | 0 <= d < |s.devices|
        ensures Agrees(t, Current(t, d))
      {
        assert Agrees(s, Current(s, d));
        if VehicleOf(s.assignments, d).Some? {
          VehicleIsInstalled(s, d);
        }
      }
    }
  }

  lemma AssignmentDevice(s: State, i: nat)
    requires Linked(s) && i < |s.assignments|
    ensures s.assignments[i].device < |s.devices|
  {
  }

  lemma VehicleIsInstalled(s: State, d: DeviceId)
    requires VehicleOf(s.assignments, d).Some? && VehicleOf(s.assignments, d).value < |s.vehicles|
    ensures CustomerInstalled(s, s.vehicles[VehicleOf(s.assignments, d).value].customer)
  {
    hide First;
    var i := FindActive(s.assignments, d).value;
    assert s.assignments[i].status == Active;
  }

  lemma ReplaceKeepsManagers(s: State, a: Actor, current: DeviceId, next: DeviceId, removal: RemovalReason, now: Time, at: Time)
    requires Linked(s) && Replace(s, a, current, next, removal, now, at).Accepted?
    ensures SameManagers(s, Replace(s, a, current, next, removal, now, at).state)
  {
    hide FindActive, FindHeld, FindStock, FindPrimary, Rotate, SetLifecycle, Installable, Linked, ResolveAllocation;
  }

  lemma FittingKeepsManagers(s: State, a: Actor, op: Op, now: Time)
    requires Linked(s) && Apply(s, a, op, now).Accepted? && (op.InstallOp? || op.RemoveOp?)
    ensures SameManagers(s, Apply(s, a, op, now).state)
  {
    hide FindActive, FindHeld, FindStock, Rotate, SetLifecycle, Installable, Linked;
  }

  lemma OthersKeepManagers(s: State, a: Actor, op: Op, now: Time)
    requires Linked(s) && Apply(s, a, op, now).Accepted? && !op.SetCustomerOp?
    ensures SameManagers(s, Apply(s, a, op, now).state)
  {
    hide Replace, Install, Remove, TransferDevices, Linked;
    match op
    case TransferOp(ids, target) => TransferForm(s, a, ids, target, now);
    case ReplaceOp(d, next, removal, at) => ReplaceKeepsManagers(s, a, d, next, removal, now, Or(at, now));
    case InstallOp(_, _, _) => FittingKeepsManagers(s, a, op, now);
    case RemoveOp(_, _, _) => FittingKeepsManagers(s, a, op, now);
    case _ =>
      hide FindActive, FindHeld, FindStock, Rotate, SetLifecycle, UpdateRow;
      hide OptionalUpper, NormalizeRegistration, Optional, IdentityKnown, VehicleIdentityKnown;
  }

  ghost predicate ManagersKept(s: State, steps: seq<Step>)
    requires Good(s)
    decreases |steps|
  {
    steps == [] ||
    (hide Good, Commit; CommitGood(s, steps[0]); GoodIsLinked(s);
     KeepsManagers(s, steps[0].op) && ManagersKept(Commit(s, steps[0]), steps[1..]))
  }

  lemma CommitAgreement(s: State, step: Step)
    requires Good(s) && Agreement(s) && KeepsManagers(s, step.op)
    ensures Linked(s) && Agreement(Commit(s, step))
  {
    GoodLinked(s);
    hide Inv, Constraints, Tidy, Linked, Agreement, KeepsManagers, SameManagers;
    if step.op.SetCustomerOp? {
      ManagerChange(s, step.op.customer, step.op.row);
    } else {
      hide Apply;
      if Apply(s, step.actor, step.op, step.now).Accepted? {
        OthersKeepManagers(s, step.actor, step.op, step.now);
        StepSound(s, step.actor, step.op, step.now);
      }
    }
  }

  /** Main theorem.  Over any run that never changes the managing dealer of a customer with an
      installed device, custody, allocations and installations agree. */
  lemma {:induction false} RunAgreement(s: State, steps: seq<Step>)
    requires Good(s) && Agreement(s) && ManagersKept(s, steps)
    ensures Agreement(Run(s, steps))
    decreases |steps|
  {
    hide Good, Agreement, Commit;
    if steps != [] {
      assert Linked(s) by { GoodIsLinked(s); }
      CommitGood(s, steps[0]);
      CommitAgreement(s, steps[0]);
      RunAgreement(Commit(s, steps[0]), steps[1..]);
    }
  }

  lemma GoodIsLinked(s: State)
    requires Good(s)
    ensures Linked(s)
  {
  }
}
