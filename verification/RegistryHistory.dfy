/** The ownership and custody histories are append-only and divide time among their rows. */
module RegistryHistory {
  import opened Options
  import opened RegistryTables
  import opened Registry
  import opened RegistryInvariant
  import opened RegistrySteps
  import opened RegistryReplacement
  import opened RegistryScope
  import opened RegistryTransfer
  import opened RegistryConstraints
  import opened RegistryRuns

  // ----- Division of time -----

  predicate Covers(r: Tenure, x: Time) { r.startedAt <= x && (r.endedAt.None? || x < r.endedAt.value) }

  predicate CoversFor(r: Tenure, d: DeviceId, x: Time) { r.device == d && Covers(r, x) }

  ghost predicate Covered(rows: seq<Tenure>, d: DeviceId, x: Time) {
    exists i :: 0 <= i < |rows| && CoversFor(rows[i], d, x)
  }

  ghost predicate NeverTwice(rows: seq<Tenure>, d: DeviceId) {
    forall i, j, x :: 0 <= i < j < |rows| ==> !(CoversFor(rows[i], d, x) && CoversFor(rows[j], d, x))
  }

  /** From its birth on, and not before, a device has exactly one row at every instant. */
  ghost predicate Partition(rows: seq<Tenure>, d: DeviceId, birth: Time) {
    NeverTwice(rows, d) && forall x: Time :: Covered(rows, d, x) <==> birth <= x
  }

  // ----- What a step does to the rows of one device -----

  /** The open row of d ends at an instant and row n opens at the same instant; every other row of d
      stays. */
  ghost predicate Turned(was: seq<Tenure>, now: seq<Tenure>, d: DeviceId, at: Time, n: nat) {
    && |was| <= n < |now| && now[n].device == d && now[n].startedAt == at && now[n].endedAt.None?
    && (forall i :: 0 <= i < |was| ==>
          && (now[i].device == d ==> was[i].device == d)
          && (was[i].device == d ==>
                now[i] == if was[i].endedAt.None? then was[i].(endedAt := Some(at)) else was[i]))
    && (forall i :: |was| <= i < |now| && i != n ==> now[i].device != d)
  }

  /** The rows of d turn at an instant, or stay. */
  ghost predicate Evolves(was: seq<Tenure>, now: seq<Tenure>, d: DeviceId, at: Option<Time>) {
    if at.None? then SameTenures(was, now, d) else exists n :: Turned(was, now, d, at.value, n)
  }

  /** The open row of d, if any, does not start after the instant. */
  predicate InTime(rows: seq<Tenure>, d: DeviceId, at: Option<Time>) {
    var i := FindOpen(rows, d);
    at.Some? && i.Some? ==> rows[i.value].startedAt <= at.value
  }

  lemma SameCovered(was: seq<Tenure>, now: seq<Tenure>, d: DeviceId, x: Time)
    requires SameTenures(was, now, d)
    ensures Covered(now, d, x) <==> Covered(was, d, x)
  {
    if i :| 0 <= i < |was| && CoversFor(was[i], d, x) {
      assert CoversFor(now[i], d, x);
    }
    if i :| 0 <= i < |now| && CoversFor(now[i], d, x) {
      assert CoversFor(was[i], d, x);
    }
  }

  lemma SamePartition(was: seq<Tenure>, now: seq<Tenure>, d: DeviceId, birth: Time)
    requires SameTenures(was, now, d) && Partition(was, d, birth)
    ensures Partition(now, d, birth)
  {
    forall x: Time
      ensures Covered(now, d, x) <==> birth <= x
    {
      SameCovered(was, now, d, x);
    }
    forall i, j, x | 0 <= i < j < |now| && CoversFor(now[i], d, x) && CoversFor(now[j], d, x)
      ensures false
    {
    }
  }

  lemma TurnedCovered(was: seq<Tenure>, now: seq<Tenure>, d: DeviceId, at: Time, n: nat, o: nat, x: Time)
    requires OpenOnce(was) && o < |was| && OpenFor(was[o], d) && Turned(was, now, d, at, n) && was[o].startedAt <= at
    ensures Covered(now, d, x) <==> Covered(was, d, x)
  {
    if i :| 0 <= i < |was| && CoversFor(was[i], d, x) {
      assert CoversFor(now[i], d, x) || CoversFor(now[n], d, x);
    }
    if i :| 0 <= i < |now| && CoversFor(now[i], d, x) {
      assert if i < |was| then CoversFor(was[i], d, x) else CoversFor(was[o], d, x);
    }
  }

  lemma TurnedInTime(was: seq<Tenure>, now: seq<Tenure>, d: DeviceId, birth: Time, at: Time, n: nat, o: nat)
    requires OpenOnce(was) && o < |was| && OpenFor(was[o], d) && Turned(was, now, d, at, n)
    requires Partition(was, d, birth) && was[o].startedAt <= at
    ensures Partition(now, d, birth)
  {
    forall x: Time
      ensures Covered(now, d, x) <==> birth <= x
    {
      TurnedCovered(was, now, d, at, n, o, x);
    }
    forall i, j, x | 0 <= i < j < |now| && CoversFor(now[i], d, x) && CoversFor(now[j], d, x)
      ensures false
    {
      assert i < |was| && CoversFor(was[i], d, x);
      assert CoversFor(was[if j < |was| then j else o], d, x);
    }
  }

  // ----- Histories that can no longer divide time -----

  predicate ClosedCovers(r: Tenure, d: DeviceId, x: Time) { r.endedAt.Some? && CoversFor(r, d, x) }

  /** Ended rows overlap or reach before the birth, or the open row starts before the birth or inside
      or before an ended row. */
  ghost predicate Broken(rows: seq<Tenure>, d: DeviceId, birth: Time) {
    || (exists i, j, x: Time :: 0 <= i < j < |rows| && ClosedCovers(rows[i], d, x) && ClosedCovers(rows[j], d, x))
    || (exists i, x: Time :: 0 <= i < |rows| && ClosedCovers(rows[i], d, x) && x < birth)
    || (exists o :: 0 <= o < |rows| && OpenFor(rows[o], d) && rows[o].startedAt < birth)
    || (exists o, i, x: Time :: 0 <= o < |rows| && 0 <= i < |rows| && OpenFor(rows[o], d) && ClosedCovers(rows[i], d, x)
                               && rows[o].startedAt <= x)
  }

  lemma BrokenIsNoPartition(rows: seq<Tenure>, d: DeviceId, birth: Time)
    requires Broken(rows, d, birth)
    ensures !Partition(rows, d, birth)
  {
    if i, j, x: Time :| 0 <= i < j < |rows| && ClosedCovers(rows[i], d, x) && ClosedCovers(rows[j], d, x) {
      assert CoversFor(rows[i], d, x) && CoversFor(rows[j], d, x);
    } else if i, x: Time :| 0 <= i < |rows| && ClosedCovers(rows[i], d, x) && x < birth {
      assert CoversFor(rows[i], d, x) && Covered(rows, d, x);
    } else if o :| 0 <= o < |rows| && OpenFor(rows[o], d) && rows[o].startedAt < birth {
      assert CoversFor(rows[o], d, rows[o].startedAt) && Covered(rows, d, rows[o].startedAt);
    } else {
      var o, i, x: Time :| 0 <= o < |rows| && 0 <= i < |rows| && OpenFor(rows[o], d) && ClosedCovers(rows[i], d, x)
                           && rows[o].startedAt <= x;
      assert CoversFor(rows[o], d, x) && CoversFor(rows[i], d, x);
    }
  }

  /** Turning before the start of the open row breaks the history. */
  lemma TurnedTooEarly(was: seq<Tenure>, now: seq<Tenure>, d: DeviceId, birth: Time, at: Time, n: nat, o: nat)
    requires OpenOnce(was) && o < |was| && OpenFor(was[o], d) && Turned(was, now, d, at, n)
    requires Partition(was, d, birth) && at < was[o].startedAt
    ensures Broken(now, d, birth)
  {
    assert OpenFor(now[n], d);
    if birth <= at {
      assert Covered(was, d, at);
      var i :| 0 <= i < |was| && CoversFor(was[i], d, at);
      assert was[i].endedAt.Some?;
      assert ClosedCovers(now[i], d, at);
    }
  }

  /** A broken history stays broken. */
  lemma BrokenStaysTurned(was: seq<Tenure>, now: seq<Tenure>, d: DeviceId, birth: Time, at: Time, n: nat, o: nat)
    requires OpenOnce(was) && o < |was| && OpenFor(was[o], d) && Turned(was, now, d, at, n)
    requires Broken(was, d, birth)
    ensures Broken(now, d, birth)
  {
    var s := was[o].startedAt;
    assert forall i, x :: 0 <= i < |was| && ClosedCovers(was[i], d, x) ==> ClosedCovers(now[i], d, x);
    assert forall p :: 0 <= p < |was| && OpenFor(was[p], d) ==> p == o;
    assert OpenFor(now[n], d);
    if s < at {
      assert ClosedCovers(now[o], d, s);
    }
    if i, j, x: Time :| 0 <= i < j < |was| && ClosedCovers(was[i], d, x) && ClosedCovers(was[j], d, x) {
      assert ClosedCovers(now[i], d, x) && ClosedCovers(now[j], d, x);
    } else if i, x: Time :| 0 <= i < |was| && ClosedCovers(was[i], d, x) && x < birth {
      assert ClosedCovers(now[i], d, x);
    } else if s < birth {
    } else {
      var i, x: Time :| 0 <= i < |was| && ClosedCovers(was[i], d, x) && s <= x;
      assert ClosedCovers(now[i], d, x) && i != o;
      if x < at {
        assert ClosedCovers(now[o], d, x);
        assert i < o || o < i;
      }
    }
  }

  lemma BrokenStaysSame(was: seq<Tenure>, now: seq<Tenure>, d: DeviceId, birth: Time)
    requires SameTenures(was, now, d) && Broken(was, d, birth)
    ensures Broken(now, d, birth)
  {
    assert forall i, x :: 0 <= i < |was| && ClosedCovers(was[i], d, x) ==> ClosedCovers(now[i], d, x);
    assert forall i :: 0 <= i < |was| && OpenFor(was[i], d) ==> now[i] == was[i];
    if i, j, x: Time :| 0 <= i < j < |was| && ClosedCovers(was[i], d, x) && ClosedCovers(was[j], d, x) {
      assert ClosedCovers(now[i], d, x) && ClosedCovers(now[j], d, x);
    } else if i, x: Time :| 0 <= i < |was| && ClosedCovers(was[i], d, x) && x < birth {
      assert ClosedCovers(now[i], d, x);
    } else if o :| 0 <= o < |was| && OpenFor(was[o], d) && was[o].startedAt < birth {
      assert OpenFor(now[o], d);
    } else {
      var o, i, x: Time :| 0 <= o < |was| && 0 <= i < |was| && OpenFor(was[o], d) && ClosedCovers(was[i], d, x)
                           && was[o].startedAt <= x;
      assert OpenFor(now[o], d) && ClosedCovers(now[i], d, x);
    }
  }

  /** One device, one table, one step: the division of time survives exactly when the step is in time
      for the device, and once lost it is lost for good. */
  lemma EvolvesPartition(was: seq<Tenure>, now: seq<Tenure>, d: DeviceId, birth: Time, at: Option<Time>)
    requires OpenOnce(was) && FindOpen(was, d).Some? && Evolves(was, now, d, at)
    ensures Partition(was, d, birth) && InTime(was, d, at) ==> Partition(now, d, birth)
    ensures Partition(was, d, birth) && !InTime(was, d, at) ==> Broken(now, d, birth)
    ensures Broken(was, d, birth) ==> Broken(now, d, birth)
  {
    hide First, Partition, Broken, Turned;
    var o := FindOpen(was, d).value;
    if at.None? {
      if Partition(was, d, birth) {
        SamePartition(was, now, d, birth);
      }
      if Broken(was, d, birth) {
        BrokenStaysSame(was, now, d, birth);
      }
    } else {
      var n :| Turned(was, now, d, at.value, n);
      if Partition(was, d, birth) && InTime(was, d, at) {
        TurnedInTime(was, now, d, birth, at.value, n, o);
      } else if Partition(was, d, birth) {
        TurnedTooEarly(was, now, d, birth, at.value, n, o);
      }
      if Broken(was, d, birth) {
        BrokenStaysTurned(was, now, d, birth, at.value, n, o);
      }
    }
  }

  lemma RotateTurns(rows: seq<Tenure>, d: DeviceId, holder: Party, reason: Reason, at: Time)
    ensures Turned(rows, Rotate(rows, d, holder, reason, at), d, at, |rows|)
  {
  }

  /** Main theorem.  Ending the open row of a device and opening the next one at the same instant
      keeps the division of time exactly when that instant is not before the start of the open
      row. */
  lemma RotatePartition(rows: seq<Tenure>, d: DeviceId, birth: Time, holder: Party, reason: Reason, at: Time)
    requires OpenOnce(rows) && FindOpen(rows, d).Some? && Partition(rows, d, birth)
    ensures Partition(Rotate(rows, d, holder, reason, at), d, birth) <==> rows[FindOpen(rows, d).value].startedAt <= at
  {
    hide Partition, Broken, Turned, Rotate, FindOpen;
    var now := Rotate(rows, d, holder, reason, at);
    RotateTurns(rows, d, holder, reason, at);
    EvolvesPartition(rows, now, d, birth, Some(at));
    if Broken(now, d, birth) {
      BrokenIsNoPartition(now, d, birth);
    }
  }

  // ----- Steps -----

  /** When a step turns the ownership rows of a device. */
  function OwnershipTime(step: Step, d: DeviceId): Option<Time> {
    if step.op.TransferOp? && d in step.op.devices then Some(step.now) else None
  }

  /** When a step turns the custody rows of a device. */
  function CustodyTime(step: Step, d: DeviceId): Option<Time> {
    match step.op
    case TransferOp(ids, _) => if d in ids then Some(step.now) else None
    case AllocateOp(e, _) => if d == e then Some(step.now) else None
    case ReturnOp(e) => if d == e then Some(step.now) else None
    case InstallOp(e, _, at) => if d == e then Some(Or(at, step.now)) else None
    case RemoveOp(e, _, _) => if d == e then Some(step.now) else None
    case ReplaceOp(e, next, _, at) =>
      if d == next then Some(Or(at, step.now)) else if d == e then Some(step.now) else None
    case _ => None
  }

  lemma RotateEvolves(rows: seq<Tenure>, e: DeviceId, holder: Party, reason: Reason, at: Time, d: DeviceId)
    ensures Evolves(rows, Rotate(rows, e, holder, reason, at), d, if d == e then Some(at) else None)
  {
    hide Rotate, Turned;
    if d == e {
      RotateTurns(rows, d, holder, reason, at);
    } else {
      RotateLeaves(rows, e, holder, reason, at, d);
    }
  }

  lemma StayEvolves(rows: seq<Tenure>, d: DeviceId)
    ensures Evolves(rows, rows, d, None)
  {
  }

  lemma TransferEvolves(rows: seq<Tenure>, ids: seq<DeviceId>, to: Party, at: Time, d: DeviceId)
    requires Distinct(ids)
    ensures Evolves(rows, EndAll(rows, ids, at) + Opened(ids, to, at), d, if d in ids then Some(at) else None)
  {
    var now := EndAll(rows, ids, at) + Opened(ids, to, at);
    if d in ids {
      var k :| 0 <= k < |ids| && ids[k] == d;
      assert now[|rows| + k].device == d;
      assert Turned(rows, now, d, at, |rows| + k);
    }
  }

  /** Two turns of different devices. */
  lemma EvolvesTwice(a: seq<Tenure>, b: seq<Tenure>, c: seq<Tenure>, d: DeviceId, first: Option<Time>, second: Option<Time>)
    requires Evolves(a, b, d, first) && Evolves(b, c, d, second) && (first.None? || second.None?)
    ensures Evolves(a, c, d, if first.Some? then first else second)
  {
    if first.None? && second.None? {
      SameTwice(a, b, c, (r: Tenure) => r.device, d);
    } else if first.Some? {
      var n :| Turned(a, b, d, first.value, n);
      assert Turned(a, c, d, first.value, n);
    } else {
      var n :| Turned(b, c, d, second.value, n);
      assert Turned(a, c, d, second.value, n);
    }
  }

  /** What a step does to the rows of a device in both histories. */
  ghost predicate StepEvolves(s: State, t: State, step: Step, d: DeviceId) {
    && Evolves(s.ownership, t.ownership, d, OwnershipTime(step, d))
    && Evolves(s.custody, t.custody, d, CustodyTime(step, d))
  }

  lemma TransferStep(s: State, step: Step, d: DeviceId)
    requires Linked(s) && step.op.TransferOp? && Apply(s, step.actor, step.op, step.now).Accepted?
    ensures StepEvolves(s, Apply(s, step.actor, step.op, step.now).state, step, d)
  {
    hide Evolves, TransferDevices, EndAll, Opened, Linked;
    var ids, target := step.op.devices, step.op.target;
    TransferForm(s, step.actor, ids, target, step.now);
    TransferDistinct(s, step.actor, ids, target, step.now);
    TransferEvolves(s.ownership, ids, TargetParty(target), step.now, d);
    TransferEvolves(s.custody, ids, TargetParty(target), step.now, d);
  }

  lemma TransferDistinct(s: State, a: Actor, ids: seq<DeviceId>, target: Target, now: Time)
    requires TransferDevices(s, a, ids, target, now).Accepted?
    ensures Distinct(ids)
  {
  }

  lemma StockStep(s: State, step: Step, d: DeviceId)
    requires Linked(s) && (step.op.AllocateOp? || step.op.ReturnOp?) && Apply(s, step.actor, step.op, step.now).Accepted?
    ensures StepEvolves(s, Apply(s, step.actor, step.op, step.now).state, step, d)
  {
    hide Evolves, Rotate, FindHeld, FindActive, Linked;
    StayEvolves(s.ownership, d);
    match step.op
    case AllocateOp(e, dealer) => RotateEvolves(s.custody, e, Dealer(dealer), Allocation, step.now, d);
    case ReturnOp(e) => RotateEvolves(s.custody, e, Platform, Return, step.now, d);
  }

  lemma InstallStep(s: State, step: Step, d: DeviceId)
    requires Linked(s) && step.op.InstallOp? && Apply(s, step.actor, step.op, step.now).Accepted?
    ensures StepEvolves(s, Apply(s, step.actor, step.op, step.now).state, step, d)
  {
    hide Evolves, Rotate, FindStock, FindActive, Linked, Installable, VehicleMutation;
    var e, v, at := step.op.device, step.op.vehicle, Or(step.op.at, step.now);
    InstallReady(s, step.actor, e, v, at);
    hide Install;
    StayEvolves(s.ownership, d);
    RotateEvolves(s.custody, e, Customer(s.vehicles[v].customer), Installation, at, d);
  }

  lemma TakeOutCustody(s: State, i: nat, dealer: Option<DealerId>, allocation: Option<nat>, reason: EndReason,
                       removal: RemovalReason, now: Time, d: DeviceId)
    requires i < |s.assignments| && s.assignments[i].device < |s.devices|
    requires s.assignments[i].installation.Some? ==> s.assignments[i].installation.value < |s.installations|
    requires allocation.Some? ==> allocation.value < |s.allocations|
    requires TakeOut(s, i, dealer, allocation, reason, removal, now).Accepted?
    ensures var t := TakeOut(s, i, dealer, allocation, reason, removal, now).state;
            && t.ownership == s.ownership
            && Evolves(s.custody, t.custody, d, if d == s.assignments[i].device then Some(now) else None)
  {
    hide Evolves, Rotate;
    var e := s.assignments[i].device;
    RotateEvolves(s.custody, e, Platform, Removal, now, d);
    if dealer.Some? {
      RotateEvolves(s.custody, e, Dealer(dealer.value), Removal, now, d);
    }
  }

  lemma RemoveStep(s: State, step: Step, d: DeviceId)
    requires Linked(s) && step.op.RemoveOp? && Apply(s, step.actor, step.op, step.now).Accepted?
    ensures StepEvolves(s, Apply(s, step.actor, step.op, step.now).state, step, d)
  {
    var e := step.op.device;
    ActiveLinked(s, e);
    hide Evolves, Linked, FindActive, FindHeld, TakeOut, VehicleMutation;
    var i := FindActive(s.assignments, e).value;
    StayEvolves(s.ownership, d);
    TakeOutCustody(s, i, ManagingDealer(s, s.vehicles[s.assignments[i].vehicle].customer), FindHeld(s.allocations, e),
                   step.op.reason, step.op.removal, step.now, d);
  }

  lemma ReplaceStep(s: State, step: Step, d: DeviceId)
    requires Inv(s) && step.op.ReplaceOp? && Apply(s, step.actor, step.op, step.now).Accepted?
    ensures StepEvolves(s, Apply(s, step.actor, step.op, step.now).state, step, d)
  {
    var current, next, removal, now := step.op.device, step.op.next, step.op.removal, step.now;
    var at := Or(step.op.at, now);
    ReplaceParts(s, step.actor, current, next, removal, now, at);
    hide Evolves, Linked, OpenOnce, HeldOnce, ActiveOnce, ArchivedEmpty, Current, ResolveAllocation, Fitted, Rotate;
    hide First, FindActive, FindPrimary, FindHeld, FindStock, TakeOut, VehicleTaken, Replace, Installable, Inv;
    var i := FindActive(s.assignments, current).value;
    var v := s.assignments[i].vehicle;
    var dealer, held := ManagingDealer(s, s.vehicles[v].customer), FindHeld(s.allocations, current);
    TakeOutCustody(s, i, dealer, held, EndedByReplacement, removal, now, d);
    var m := TakeOut(s, i, dealer, held, EndedByReplacement, removal, now).state;
    StayEvolves(s.ownership, d);
    RotateEvolves(m.custody, next, Customer(s.vehicles[v].customer), Installation, at, d);
    EvolvesTwice(s.custody, m.custody, Rotate(m.custody, next, Customer(s.vehicles[v].customer), Installation, at), d,
                 if d == current then Some(now) else None, if d == next then Some(at) else None);
  }

  lemma DataStep(s: State, step: Step, d: DeviceId)
    requires Linked(s) && Apply(s, step.actor, step.op, step.now).Accepted? && d < |s.devices|
    requires !step.op.TransferOp? && !step.op.AllocateOp? && !step.op.ReturnOp? && !step.op.InstallOp?
    requires !step.op.RemoveOp? && !step.op.ReplaceOp?
    ensures StepEvolves(s, Apply(s, step.actor, step.op, step.now).state, step, d)
  {
    hide FindActive, IdentityKnown, VehicleIdentityKnown, Optional, OptionalUpper, NormalizeRegistration, Linked;
  }

  lemma EveryStepEvolves(s: State, step: Step, d: DeviceId)
    requires Inv(s) && Apply(s, step.actor, step.op, step.now).Accepted? && d < |s.devices|
    ensures StepEvolves(s, Apply(s, step.actor, step.op, step.now).state, step, d)
  {
    hide StepEvolves, Apply, Linked, OpenOnce, HeldOnce, ActiveOnce, Fitted, ArchivedEmpty, Current;
    if step.op.TransferOp? {
      TransferStep(s, step, d);
    } else if step.op.AllocateOp? || step.op.ReturnOp? {
      StockStep(s, step, d);
    } else if step.op.InstallOp? {
      InstallStep(s, step, d);
    } else if step.op.RemoveOp? {
      RemoveStep(s, step, d);
    } else if step.op.ReplaceOp? {
      ReplaceStep(s, step, d);
    } else {
      DataStep(s, step, d);
    }
  }

  lemma OpenRows(s: State, d: DeviceId)
    requires Inv(s) && d < |s.devices|
    ensures OpenOnce(s.ownership) && FindOpen(s.ownership, d).Some?
    ensures OpenOnce(s.custody) && FindOpen(s.custody, d).Some?
  {
    hide First, Fitted, HeldOnce, ArchivedEmpty, Linked, ActiveOnce, OpenOnce, FindHeld, FindActive;
    assert Settled(Current(s, d));
  }

  /** Main theorem.  Every accepted step keeps the division of time of a device's custody exactly when
      it is in time for it: the instant at which it turns the device's custody, its own installation
      time included, is not before the start of the open row.  The same holds for ownership. */
  lemma StepTime(s: State, step: Step, d: DeviceId, birth: Time)
    requires Inv(s) && Apply(s, step.actor, step.op, step.now).Accepted? && d < |s.devices|
    ensures var t := Apply(s, step.actor, step.op, step.now).state;
            && (Partition(s.custody, d, birth) ==>
                  (Partition(t.custody, d, birth) <==> InTime(s.custody, d, CustodyTime(step, d))))
            && (Partition(s.ownership, d, birth) ==>
                  (Partition(t.ownership, d, birth) <==> InTime(s.ownership, d, OwnershipTime(step, d))))
  {
    hide Apply, Partition, Broken, Evolves, InTime, CustodyTime, OwnershipTime;
    var t := Apply(s, step.actor, step.op, step.now).state;
    EveryStepEvolves(s, step, d);
    OpenRows(s, d);
    hide Inv;
    EvolvesPartition(s.custody, t.custody, d, birth, CustodyTime(step, d));
    EvolvesPartition(s.ownership, t.ownership, d, birth, OwnershipTime(step, d));
    if Broken(t.custody, d, birth) {
      BrokenIsNoPartition(t.custody, d, birth);
    }
    if Broken(t.ownership, d, birth) {
      BrokenIsNoPartition(t.ownership, d, birth);
    }
  }

  /** An accepted install keeps the custody history of its device divided exactly when its time is not
      before the start of the device's open custody row: the service does not check it. */
  lemma InstallTime(s: State, a: Actor, d: DeviceId, v: VehicleId, at: Time, birth: Time)
    requires Inv(s) && Install(s, a, d, v, at).Accepted? && FindOpen(s.custody, d).Some?
    requires Partition(s.custody, d, birth)
    ensures Partition(Install(s, a, d, v, at).state.custody, d, birth)
            <==> s.custody[FindOpen(s.custody, d).value].startedAt <= at
  {
    hide First, FindActive, FindStock, Partition, Install, Inv, FindOpen;
    InstallBound(s, a, d, v, at);
    assert Linked(s) by { GoodLinked(s); }
    StepTime(s, Step(a, InstallOp(d, v, Some(at)), at), d, birth);
  }

  lemma InstallBound(s: State, a: Actor, d: DeviceId, v: VehicleId, at: Time)
    requires Install(s, a, d, v, at).Accepted?
    ensures d < |s.devices|
  {
    hide FindActive, FindStock, PutIn;
  }

  /** An accepted replace keeps both custody histories divided exactly when its time is not before the
      open row of the removed device and its installation time not before that of the replacement. */
  lemma ReplaceTime(s: State, a: Actor, current: DeviceId, next: DeviceId, removal: RemovalReason, now: Time, at: Time,
                    birth: Time, other: Time)
    requires Inv(s) && Replace(s, a, current, next, removal, now, at).Accepted?
    requires FindOpen(s.custody, current).Some? && FindOpen(s.custody, next).Some?
    requires Partition(s.custody, current, birth) && Partition(s.custody, next, other)
    ensures var t := Replace(s, a, current, next, removal, now, at).state;
            && (Partition(t.custody, current, birth) <==> s.custody[FindOpen(s.custody, current).value].startedAt <= now)
            && (Partition(t.custody, next, other) <==> s.custody[FindOpen(s.custody, next).value].startedAt <= at)
  {
    hide First, Partition, Replace, Inv, FindOpen;
    ReplaceTimeFor(s, a, current, next, removal, now, at, current, birth);
    ReplaceTimeFor(s, a, current, next, removal, now, at, next, other);
  }

  lemma ReplaceTimeFor(s: State, a: Actor, current: DeviceId, next: DeviceId, removal: RemovalReason, now: Time, at: Time,
                       d: DeviceId, birth: Time)
    requires Inv(s) && Replace(s, a, current, next, removal, now, at).Accepted?
    requires (d == current || d == next) && Partition(s.custody, d, birth)
    ensures current != next && (Partition(Replace(s, a, current, next, removal, now, at).state.custody, d, birth)
                                <==> InTime(s.custody, d, Some(if d == next then at else now)))
  {
    hide Partition, Replace, Inv, InTime, Linked, ActiveOnce;
    InvLinks(s);
    ReplaceBounds(s, a, current, next, removal, now, at);
    var step := Step(a, ReplaceOp(current, next, removal, Some(at)), now);
    StepTime(s, step, d, birth);
  }

  lemma InvLinks(s: State)
    requires Inv(s)
    ensures Linked(s) && ActiveOnce(s.assignments)
  {
  }

  lemma ReplaceBounds(s: State, a: Actor, current: DeviceId, next: DeviceId, removal: RemovalReason, now: Time, at: Time)
    requires Linked(s) && ActiveOnce(s.assignments) && Replace(s, a, current, next, removal, now, at).Accepted?
    ensures current != next && current < |s.devices| && next < |s.devices|
  {
    hide Linked, ActiveOnce, Replace, FindActive, FindPrimary, FindHeld, TakeOut, PutIn, Installable, ResolveAllocation;
    ReplaceParts(s, a, current, next, removal, now, at);
  }

  // ----- Whole histories -----

  /** births[d] is when device d was registered; from then on, and not before, every device has exactly
      one owner and exactly one custodian at every instant. */
  ghost predicate Divided(s: State, births: seq<Time>) {
    && |births| == |s.devices|
    && forall d :: 0 <= d < |births| ==> Partition(s.ownership, d, births[d]) && Partition(s.custody, d, births[d])
  }

  /** Some history is broken. */
  ghost predicate Lost(s: State, births: seq<Time>) {
    && |births| == |s.devices|
    && exists d :: 0 <= d < |births| && (Broken(s.ownership, d, births[d]) || Broken(s.custody, d, births[d]))
  }

  /** The step turns no row before its start. */
  ghost predicate StepInTime(s: State, step: Step) {
    forall d :: 0 <= d < |s.devices| ==>
      InTime(s.ownership, d, OwnershipTime(step, d)) && InTime(s.custody, d, CustodyTime(step, d))
  }

  function Births(births: seq<Time>, step: Step): seq<Time> {
    if step.op.RegisterOp? then births + [step.now] else births
  }

  lemma ReplaceCount(s: State, a: Actor, current: DeviceId, next: DeviceId, removal: RemovalReason, now: Time, at: Time)
    requires Linked(s) && Replace(s, a, current, next, removal, now, at).Accepted?
    ensures |Replace(s, a, current, next, removal, now, at).state.devices| == |s.devices|
  {
    hide FindActive, FindHeld, FindStock, FindPrimary, Rotate, Installable, ResolveAllocation;
  }

  lemma DeviceCount(s: State, step: Step, births: seq<Time>)
    requires Linked(s) && Apply(s, step.actor, step.op, step.now).Accepted? && |births| == |s.devices|
    ensures |Apply(s, step.actor, step.op, step.now).state.devices| == |Births(births, step)|
  {
    hide Replace, TransferDevices;
    match step.op
    case TransferOp(ids, target) => TransferForm(s, step.actor, ids, target, step.now);
    case ReplaceOp(d, next, removal, at) => ReplaceCount(s, step.actor, d, next, removal, step.now, Or(at, step.now));
    case _ =>
      hide FindActive, FindHeld, FindStock, Rotate, Installable;
      hide OptionalUpper, NormalizeRegistration, Optional, IdentityKnown, VehicleIdentityKnown;
  }

  /** The single row of a new device. */
  lemma NewPartition(rows: seq<Tenure>, row: Tenure)
    requires row.endedAt.None? && forall i :: 0 <= i < |rows| ==> rows[i].device != row.device
    ensures Partition(rows + [row], row.device, row.startedAt)
  {
    var r := rows + [row];
    forall x: Time
      ensures Covered(r, row.device, x) <==> row.startedAt <= x
    {
      if row.startedAt <= x {
        assert CoversFor(r[|rows|], row.device, x);
      }
    }
  }

  lemma RegisterDivides(s: State, step: Step)
    requires Linked(s) && step.op.RegisterOp? && Apply(s, step.actor, step.op, step.now).Accepted?
    ensures var t := Apply(s, step.actor, step.op, step.now).state;
            Partition(t.ownership, |s.devices|, step.now) && Partition(t.custody, |s.devices|, step.now)
  {
    hide IdentityKnown, Optional, OptionalUpper, Partition;
    NewPartition(s.ownership, Tenure(|s.devices|, Platform, InitialStock, step.now, None));
    NewPartition(s.custody, Tenure(|s.devices|, Platform, Reception, step.now, None));
  }

  /** Main theorem.  An accepted step keeps all histories divided exactly when it is in time, and a step
      never repairs a broken history. */
  lemma StepDivides(s: State, step: Step, births: seq<Time>)
    requires Inv(s) && Apply(s, step.actor, step.op, step.now).Accepted? && |births| == |s.devices|
    ensures var t := Apply(s, step.actor, step.op, step.now).state;
            && (Divided(s, births) && StepInTime(s, step) ==> Divided(t, Births(births, step)))
            && (Divided(s, births) && !StepInTime(s, step) ==> Lost(t, Births(births, step)))
            && (Lost(s, births) ==> Lost(t, Births(births, step)))
  {
    var t, next := Apply(s, step.actor, step.op, step.now).state, Births(births, step);
    GoodLinked(s);
    DeviceCount(s, step, births);
    hide Apply, Partition, Broken, InTime, CustodyTime, OwnershipTime, Inv, Linked;
    forall d | 0 <= d < |births|
      ensures DeviceDivides(s, t, step, d, births[d])
    {
      DeviceStep(s, step, d, births[d]);
    }
    if step.op.RegisterOp? {
      RegisterDivides(s, step);
    }
    hide DeviceDivides;
    if Divided(s, births) && StepInTime(s, step) {
      forall d | 0 <= d < |next|
        ensures Partition(t.ownership, d, next[d]) && Partition(t.custody, d, next[d])
      {
        if d < |births| {
          StillDivided(s, t, step, d, births[d]);
        }
      }
    } else if Divided(s, births) {
      var d :| 0 <= d < |s.devices| && !(InTime(s.ownership, d, OwnershipTime(step, d)) && InTime(s.custody, d, CustodyTime(step, d)));
      NowBroken(s, t, step, d, births[d]);
      assert next[d] == births[d];
    }
    if Lost(s, births) {
      var d :| 0 <= d < |births| && (Broken(s.ownership, d, births[d]) || Broken(s.custody, d, births[d]));
      StillBroken(s, t, step, d, births[d]);
      assert next[d] == births[d];
    }
  }

  /** What EvolvesPartition says of both histories of one device. */
  ghost predicate DeviceDivides(s: State, t: State, step: Step, d: DeviceId, birth: Time) {
    && TableDivides(s.ownership, t.ownership, d, birth, OwnershipTime(step, d))
    && TableDivides(s.custody, t.custody, d, birth, CustodyTime(step, d))
  }

  ghost predicate TableDivides(was: seq<Tenure>, now: seq<Tenure>, d: DeviceId, birth: Time, at: Option<Time>) {
    && (Partition(was, d, birth) && InTime(was, d, at) ==> Partition(now, d, birth))
    && (Partition(was, d, birth) && !InTime(was, d, at) ==> Broken(now, d, birth))
    && (Broken(was, d, birth) ==> Broken(now, d, birth))
  }

  lemma DeviceStep(s: State, step: Step, d: DeviceId, birth: Time)
    requires Inv(s) && Apply(s, step.actor, step.op, step.now).Accepted? && d < |s.devices|
    ensures DeviceDivides(s, Apply(s, step.actor, step.op, step.now).state, step, d, birth)
  {
    hide Apply, Partition, Broken, Evolves, InTime, CustodyTime, OwnershipTime;
    var t := Apply(s, step.actor, step.op, step.now).state;
    EveryStepEvolves(s, step, d);
    OpenRows(s, d);
    hide Inv;
    EvolvesPartition(s.custody, t.custody, d, birth, CustodyTime(step, d));
    EvolvesPartition(s.ownership, t.ownership, d, birth, OwnershipTime(step, d));
  }

  lemma StillDivided(s: State, t: State, step: Step, d: DeviceId, birth: Time)
    requires DeviceDivides(s, t, step, d, birth)
    requires Partition(s.ownership, d, birth) && Partition(s.custody, d, birth)
    requires InTime(s.ownership, d, OwnershipTime(step, d)) && InTime(s.custody, d, CustodyTime(step, d))
    ensures Partition(t.ownership, d, birth) && Partition(t.custody, d, birth)
  {
    hide Partition, Broken, InTime;
  }

  lemma NowBroken(s: State, t: State, step: Step, d: DeviceId, birth: Time)
    requires DeviceDivides(s, t, step, d, birth)
    requires Partition(s.ownership, d, birth) && Partition(s.custody, d, birth)
    requires !(InTime(s.ownership, d, OwnershipTime(step, d)) && InTime(s.custody, d, CustodyTime(step, d)))
    ensures Broken(t.ownership, d, birth) || Broken(t.custody, d, birth)
  {
    hide Partition, Broken, InTime;
  }

  lemma StillBroken(s: State, t: State, step: Step, d: DeviceId, birth: Time)
    requires DeviceDivides(s, t, step, d, birth)
    requires Broken(s.ownership, d, birth) || Broken(s.custody, d, birth)
    ensures Broken(t.ownership, d, birth) || Broken(t.custody, d, birth)
  {
    hide Partition, Broken, InTime;
  }

  lemma LostIsNotDivided(s: State, births: seq<Time>)
    requires Lost(s, births)
    ensures !Divided(s, births)
  {
    hide Partition, Broken;
    var d :| 0 <= d < |births| && (Broken(s.ownership, d, births[d]) || Broken(s.custody, d, births[d]));
    if Broken(s.ownership, d, births[d]) {
      BrokenIsNoPartition(s.ownership, d, births[d]);
    } else {
      BrokenIsNoPartition(s.custody, d, births[d]);
    }
  }

  // ----- Runs -----

  /** The step is accepted and the database takes it. */
  ghost predicate Committed(s: State, step: Step)
    requires Linked(s)
  {
    var o := Apply(s, step.actor, step.op, step.now);
    o.Accepted? && Constraints(o.state)
  }

  /** Every committed step of the run is in time. */
  ghost predicate RunInTime(s: State, steps: seq<Step>)
    requires Good(s)
    decreases |steps|
  {
    steps == [] ||
    (hide Good, Commit; CommitGood(s, steps[0]); GoodIsLinked(s);
     (Committed(s, steps[0]) ==> StepInTime(s, steps[0])) && RunInTime(Commit(s, steps[0]), steps[1..]))
  }

  /** When the devices were registered. */
  ghost function RunBirths(s: State, steps: seq<Step>, births: seq<Time>): seq<Time>
    requires Good(s)
    decreases |steps|
  {
    if steps == [] then births
    else
      hide Good, Commit;
      CommitGood(s, steps[0]);
      GoodIsLinked(s);
      RunBirths(Commit(s, steps[0]), steps[1..], if Committed(s, steps[0]) then Births(births, steps[0]) else births)
  }

  lemma CommitDivides(s: State, step: Step, births: seq<Time>)
    requires Good(s) && |births| == |s.devices|
    ensures Linked(s)
    ensures var t := Commit(s, step); var next := if Committed(s, step) then Births(births, step) else births;
            && |next| == |t.devices|
            && (Divided(s, births) && (Committed(s, step) ==> StepInTime(s, step)) ==> Divided(t, next))
            && (Divided(s, births) && Committed(s, step) && !StepInTime(s, step) ==> Lost(t, next))
            && (Lost(s, births) ==> Lost(t, next))
  {
    GoodIsLinked(s);
    hide Inv, Constraints, Tidy, Apply, Linked, Divided, Lost, StepInTime;
    if Committed(s, step) {
      DeviceCount(s, step, births);
      StepDivides(s, step, births);
    }
  }

  /** Main theorem.  Over any run, every device has exactly one owner and exactly one custodian at every
      instant since its registration if and only if every committed step is in time: no step turns a
      device's rows at an instant before the start of its open row, whatever clock or installation
      time the step has. */
  lemma {:induction false} RunHistory(s: State, steps: seq<Step>, births: seq<Time>)
    requires Good(s) && |births| == |s.devices|
    ensures Divided(s, births) ==> (Divided(Run(s, steps), RunBirths(s, steps, births)) <==> RunInTime(s, steps))
    ensures Lost(s, births) ==> !Divided(Run(s, steps), RunBirths(s, steps, births))
    decreases |steps|
  {
    hide Good, Divided, Lost, Commit, Committed, StepInTime;
    if steps == [] {
      if Lost(s, births) {
        LostIsNotDivided(s, births);
      }
    } else {
      assert Linked(s) by { GoodIsLinked(s); }
      CommitGood(s, steps[0]);
      CommitDivides(s, steps[0], births);
      var next := if Committed(s, steps[0]) then Births(births, steps[0]) else births;
      RunHistory(Commit(s, steps[0]), steps[1..], next);
    }
  }

  lemma FreshHistory(s: State)
    requires Fresh(s)
    ensures Good(s) && Divided(s, [])
  {
    FreshIsGood(s);
  }

  /** From an empty registry. */
  lemma RunHistoryFromEmpty(s: State, steps: seq<Step>)
    requires Fresh(s)
    ensures Good(s) && (Divided(Run(s, steps), RunBirths(s, steps, [])) <==> RunInTime(s, steps))
  {
    FreshHistory(s);
    hide Good, Divided, Run, RunBirths, RunInTime;
    RunHistory(s, steps, []);
  }

  // ----- Append-only -----

  /** Row i stays, and all that can happen to it is that it ends. */
  ghost predicate RowKept(was: seq<Tenure>, now: seq<Tenure>, i: nat)
    requires i < |was|
  {
    && i < |now|
    && (now[i] == was[i] || (was[i].endedAt.None? && now[i] == was[i].(endedAt := now[i].endedAt)))
  }

  ghost predicate Continues(was: seq<Tenure>, now: seq<Tenure>) {
    |was| <= |now| && forall i :: 0 <= i < |was| ==> RowKept(was, now, i)
  }

  /** No row of the histories is lost or rewritten. */
  ghost predicate AppendOnly(s: State, t: State) {
    Continues(s.ownership, t.ownership) && Continues(s.custody, t.custody)
  }

  lemma ContinuesTwice(a: seq<Tenure>, b: seq<Tenure>, c: seq<Tenure>)
    requires Continues(a, b) && Continues(b, c)
    ensures Continues(a, c)
  {
    forall i | 0 <= i < |a|
      ensures RowKept(a, c, i)
    {
      assert RowKept(a, b, i) && RowKept(b, c, i);
    }
  }

  lemma RowContinues(was: seq<Tenure>, now: seq<Tenure>, i: nat, at: Option<Time>)
    requires i < |was| && Evolves(was, now, was[i].device, at)
    ensures RowKept(was, now, i)
  {
  }

  lemma StepAppendOnly(s: State, step: Step)
    requires Inv(s) && Apply(s, step.actor, step.op, step.now).Accepted?
    ensures AppendOnly(s, Apply(s, step.actor, step.op, step.now).state)
  {
    assert Linked(s) by { GoodLinked(s); }
    hide Apply, Inv, Evolves, OwnershipTime, CustodyTime, Continues;
    var t := Apply(s, step.actor, step.op, step.now).state;
    forall i | 0 <= i < |s.ownership|
      ensures RowKept(s.ownership, t.ownership, i)
    {
      EveryStepEvolves(s, step, s.ownership[i].device);
      RowContinues(s.ownership, t.ownership, i, OwnershipTime(step, s.ownership[i].device));
    }
    forall i | 0 <= i < |s.custody|
      ensures RowKept(s.custody, t.custody, i)
    {
      EveryStepEvolves(s, step, s.custody[i].device);
      RowContinues(s.custody, t.custody, i, CustodyTime(step, s.custody[i].device));
    }
    RowsContinue(s.ownership, t.ownership);
    RowsContinue(s.custody, t.custody);
  }

  lemma RowsContinue(was: seq<Tenure>, now: seq<Tenure>)
    requires forall i :: 0 <= i < |was| ==> RowKept(was, now, i)
    ensures Continues(was, now)
  {
    assert was != [] ==> RowKept(was, now, |was| - 1);
  }

  lemma SameAppendOnly(s: State)
    ensures AppendOnly(s, s)
  {
  }

  lemma CommitAppendOnly(s: State, step: Step)
    requires Good(s)
    ensures Linked(s) && AppendOnly(s, Commit(s, step))
  {
    GoodIsLinked(s);
    SameAppendOnly(s);
    hide Inv, Constraints, Tidy, Apply, Linked, AppendOnly;
    if Apply(s, step.actor, step.op, step.now).Accepted? {
      StepAppendOnly(s, step);
    }
  }

  /** Main theorem.  Over any run at all, no history row is lost and all that happens to one is that
      it ends. */
  lemma {:induction false} RunAppendOnly(s: State, steps: seq<Step>)
    requires Good(s)
    ensures AppendOnly(s, Run(s, steps))
    decreases |steps|
  {
    hide Good, Commit, Continues;
    if steps == [] {
      SameAppendOnly(s);
    } else {
      assert Linked(s) by { GoodIsLinked(s); }
      CommitGood(s, steps[0]);
      CommitAppendOnly(s, steps[0]);
      RunAppendOnly(Commit(s, steps[0]), steps[1..]);
      var m, t := Commit(s, steps[0]), Run(s, steps);
      ContinuesTwice(s.ownership, m.ownership, t.ownership);
      ContinuesTwice(s.custody, m.custody, t.custody);
    }
  }
}
