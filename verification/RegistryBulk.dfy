/** Registering a list of IMEIs line by line. */
module RegistryBulk {
  import opened Options
  import opened RegistryTables
  import opened Registry
  import opened RegistryInvariant
  import opened RegistrySteps
  import opened RegistryAgreement
  import opened RegistryConstraints
  import opened RegistryRuns

  datatype LineStatus = Created | BadImei | RepeatedLine | Failed(error: Error)

  datatype LineResult = LineResult(imei: string, status: LineStatus)

  datatype Bulk = Bulk(state: State, seen: set<string>, results: seq<LineResult>)

  predicate Digits(t: string) { forall i :: 0 <= i < |t| ==> '0' <= t[i] <= '9' }

  predicate ValidImei(t: string) { 14 <= |t| <= 17 && Digits(t) }

  function BulkLine(b: Bulk, a: Actor, model: nat, line: string, now: Time): Bulk {
    var imei := Trim(line);
    if !ValidImei(imei) then b.(results := b.results + [LineResult(imei, BadImei)])
    else if imei in b.seen then b.(results := b.results + [LineResult(imei, RepeatedLine)])
    else
      match Register(b.state, a, model, Some(imei), None, now)
      case Rejected(e) => Bulk(b.state, b.seen + {imei}, b.results + [LineResult(imei, Failed(e))])
      case Accepted(t) => Bulk(t, b.seen + {imei}, b.results + [LineResult(imei, Created)])
  }

  /** bulkRegister, after its check of the actor. */
  function BulkRegister(s: State, a: Actor, model: nat, lines: seq<string>, now: Time): Bulk {
    if lines == [] then Bulk(s, {}, [])
    else BulkLine(BulkRegister(s, a, model, lines[..|lines| - 1], now), a, model, lines[|lines| - 1], now)
  }

  function CountCreated(results: seq<LineResult>): nat {
    if results == [] then 0
    else CountCreated(results[..|results| - 1]) + (if results[|results| - 1].status == Created then 1 else 0)
  }

  // ----- What one line does -----

  ghost predicate Registered(s: State, imei: string) {
    exists d :: 0 <= d < |s.devices| && s.devices[d].imei == Some(imei)
  }

  predicate CanRegister(s: State, a: Actor, model: nat) {
    IsPlatform(a) && model in s.activeModels && s.platformOrganization
  }

  lemma TrimDigits(t: string)
    requires Digits(t)
    ensures Trim(t) == t
  {
  }

  lemma RegisterImei(s: State, a: Actor, model: nat, imei: string, now: Time)
    requires ValidImei(imei)
    ensures var r := Register(s, a, model, Some(imei), None, now);
            && (r.Accepted? <==> CanRegister(s, a, model) && !Registered(s, imei))
            && (r.Accepted? ==> r.state == RegisterDevice(s, Some(imei), None, now))
  {
    TrimDigits(imei);
    hide Trim, Digits;
  }

  // ----- What a list does -----

  /** The list holds a valid line for this IMEI. */
  ghost predicate Lists(lines: seq<string>, imei: string) {
    ValidImei(imei) && exists j :: 0 <= j < |lines| && Trim(lines[j]) == imei
  }

  lemma ListsMore(lines: seq<string>, line: string, imei: string)
    ensures Lists(lines + [line], imei) <==> Lists(lines, imei) || (ValidImei(imei) && Trim(line) == imei)
  {
    hide Trim, ValidImei;
    var more := lines + [line];
    if j :| 0 <= j < |lines| && Trim(lines[j]) == imei {
      assert more[j] == lines[j];
    }
    assert more[|lines|] == line;
  }

  lemma RegisteredMore(s: State, x: string, now: Time, imei: string)
    ensures Registered(RegisterDevice(s, Some(x), None, now), imei) <==> Registered(s, imei) || imei == x
  {
    var t := RegisterDevice(s, Some(x), None, now);
    assert t.devices[|s.devices|].imei == Some(x);
    if d :| 0 <= d < |s.devices| && s.devices[d].imei == Some(imei) {
      assert t.devices[d] == s.devices[d];
    }
  }

  /** The set of seen lines, the registered devices and the conditions of the list after some lines. */
  lemma {:induction false} BulkState(s: State, a: Actor, model: nat, lines: seq<string>, now: Time, imei: string)
    ensures var b := BulkRegister(s, a, model, lines, now);
            && |b.results| == |lines|
            && (imei in b.seen <==> Lists(lines, imei))
            && CanRegister(b.state, a, model) == CanRegister(s, a, model)
            && (Registered(b.state, imei) <==> Registered(s, imei) || (CanRegister(s, a, model) && Lists(lines, imei)))
            && (!CanRegister(s, a, model) ==> b.state == s)
    decreases |lines|
  {
    hide ValidImei, Trim, Registered, Register, RegisterDevice, Lists;
    if lines == [] {
      hide CanRegister;
      EmptyList(imei);
    } else {
      var init, line := lines[..|lines| - 1], lines[|lines| - 1];
      assert lines == init + [line];
      var b, x := BulkRegister(s, a, model, init, now), Trim(line);
      BulkState(s, a, model, init, now, imei);
      BulkState(s, a, model, init, now, x);
      ListsMore(init, line, imei);
      if ValidImei(x) && x !in b.seen {
        RegisterImei(b.state, a, model, x, now);
        RegisteredMore(b.state, x, now, imei);
        SameConditions(b.state, a, model, x, now);
        hide CanRegister;
      }
    }
  }

  lemma SameConditions(s: State, a: Actor, model: nat, x: string, now: Time)
    ensures CanRegister(RegisterDevice(s, Some(x), None, now), a, model) == CanRegister(s, a, model)
  {
  }

  lemma EmptyList(imei: string)
    ensures !Lists([], imei)
  {
  }

  /** Main theorem.  With an active model, a line is CREATED exactly when its trimmed IMEI is valid,
      occurs in no earlier line and was not registered before; every line has one result, and
      created and failed lines add up. */
  lemma {:induction false} BulkCreates(s: State, a: Actor, model: nat, lines: seq<string>, now: Time, k: nat)
    requires k < |lines|
    ensures var b := BulkRegister(s, a, model, lines, now); var imei := Trim(lines[k]);
            && |b.results| == |lines|
            && b.results[k].imei == imei
            && (b.results[k].status == Created <==>
                  && CanRegister(s, a, model) && ValidImei(imei) && !Registered(s, imei)
                  && forall j :: 0 <= j < k ==> Trim(lines[j]) != imei)
    decreases |lines|
  {
    hide ValidImei, Trim, Registered, Register;
    var init, line := lines[..|lines| - 1], lines[|lines| - 1];
    var b, x := BulkRegister(s, a, model, init, now), Trim(line);
    BulkState(s, a, model, init, now, x);
    if k < |init| {
      BulkCreates(s, a, model, init, now, k);
      assert forall j :: 0 <= j < k ==> init[j] == lines[j];
    } else {
      assert forall j :: 0 <= j < k ==> init[j] == lines[j];
      if ValidImei(x) && x !in b.seen {
        RegisterImei(b.state, a, model, x, now);
      }
    }
  }

  /** A list whose valid lines are all registered, or that cannot be registered at all, changes nothing. */
  lemma {:induction false} BulkInert(s: State, a: Actor, model: nat, lines: seq<string>, now: Time)
    requires forall imei :: CanRegister(s, a, model) && Lists(lines, imei) ==> Registered(s, imei)
    ensures BulkRegister(s, a, model, lines, now).state == s
    decreases |lines|
  {
    if lines != [] {
      var init, line := lines[..|lines| - 1], lines[|lines| - 1];
      assert lines == init + [line];
      hide ValidImei, Trim, Registered, Register, Lists, CanRegister;
      forall imei | CanRegister(s, a, model) && Lists(init, imei)
        ensures Registered(s, imei)
      {
        ListsMore(init, line, imei);
      }
      BulkInert(s, a, model, init, now);
      var x := Trim(line);
      if ValidImei(x) {
        ListsMore(init, line, x);
        RegisterImei(s, a, model, x, now);
      }
    }
  }

  /** Main theorem.  Repeating a batch creates nothing. */
  lemma BulkRepeated(s: State, a: Actor, model: nat, lines: seq<string>, now: Time, later: Time)
    ensures var t := BulkRegister(s, a, model, lines, now).state; BulkRegister(t, a, model, lines, later).state == t
    ensures var t := BulkRegister(s, a, model, lines, now).state;
            forall k :: 0 <= k < |BulkRegister(t, a, model, lines, later).results| ==>
              BulkRegister(t, a, model, lines, later).results[k].status != Created
  {
    hide ValidImei, Trim, Registered, Register, CanRegister;
    var t := BulkRegister(s, a, model, lines, now).state;
    var again := BulkRegister(t, a, model, lines, later);
    forall imei | CanRegister(t, a, model) && Lists(lines, imei)
      ensures Registered(t, imei)
    {
      BulkState(s, a, model, lines, now, imei);
    }
    BulkInert(t, a, model, lines, later);
    BulkState(t, a, model, lines, later, "");
    forall k | 0 <= k < |again.results|
      ensures again.results[k].status != Created
    {
      BulkCreates(t, a, model, lines, later, k);
      BulkState(s, a, model, lines, now, Trim(lines[k]));
    }
  }

  /** created counts the CREATED lines, so created and failed add up to the number of lines. */
  lemma {:induction false} CountIsSize(results: seq<LineResult>)
    ensures CountCreated(results) == |set k | 0 <= k < |results| && results[k].status == Created| <= |results|
  {
    if results != [] {
      var init := results[..|results| - 1];
      CountIsSize(init);
      var before := set k | 0 <= k < |init| && init[k].status == Created;
      var after := set k | 0 <= k < |results| && results[k].status == Created;
      assert after == before + (if results[|init|].status == Created then {|init|} else {});
    }
  }

  /** The registrations of a batch: one for each valid line whose IMEI is not in an earlier line. */
  function BulkSteps(a: Actor, model: nat, lines: seq<string>, now: Time): seq<Step> {
    if lines == [] then []
    else
      var init, x := lines[..|lines| - 1], Trim(lines[|lines| - 1]);
      var steps := BulkSteps(a, model, init, now);
      if ValidImei(x) && forall j :: 0 <= j < |init| ==> Trim(init[j]) != x then
        steps + [Step(a, RegisterOp(model, Some(x), None), now)]
      else steps
  }

  lemma SeenIsListed(s: State, a: Actor, model: nat, lines: seq<string>, now: Time, x: string)
    requires ValidImei(x)
    ensures x in BulkRegister(s, a, model, lines, now).seen <==> !(forall j :: 0 <= j < |lines| ==> Trim(lines[j]) != x)
  {
    hide ValidImei, Trim, BulkRegister;
    BulkState(s, a, model, lines, now, x);
  }

  /** Main theorem.  A batch is a run of its registrations, so what holds over every run - the invariant,
      the constraints, the histories, the agreement - holds over batches. */
  lemma {:induction false} BulkIsRun(s: State, a: Actor, model: nat, lines: seq<string>, now: Time)
    requires Good(s)
    ensures BulkRegister(s, a, model, lines, now).state == Run(s, BulkSteps(a, model, lines, now))
    decreases |lines|
  {
    hide ValidImei, Trim, Good, Commit, Register;
    if lines != [] {
      var init, x := lines[..|lines| - 1], Trim(lines[|lines| - 1]);
      BulkIsRun(s, a, model, init, now);
      if ValidImei(x) {
        SeenIsListed(s, a, model, init, now, x);
        var step := Step(a, RegisterOp(model, Some(x), None), now);
        RunThen(s, BulkSteps(a, model, init, now), step);
        CommitIsApply(Run(s, BulkSteps(a, model, init, now)), step);
      }
    }
  }

  /** A batch keeps the invariant and the constraints, so IMEIs and serial numbers stay unique, and the
      agreement of custody and allocation. */
  lemma BulkSound(s: State, a: Actor, model: nat, lines: seq<string>, now: Time)
    requires Good(s)
    ensures var t := BulkRegister(s, a, model, lines, now).state;
            Good(t) && UniqueDevices(t.devices) && (Agreement(s) ==> Agreement(t))
  {
    hide Inv, Agreement, UniqueDevices, Tidy, BulkRegister, Run, KeepsManagers;
    BulkIsRun(s, a, model, lines, now);
    if Agreement(s) {
      RegistrationsKeepManagers(s, BulkSteps(a, model, lines, now)) by {
        OnlyRegistrations(a, model, lines, now);
      }
      RunAgreement(s, BulkSteps(a, model, lines, now));
    }
  }

  lemma {:induction false} OnlyRegistrations(a: Actor, model: nat, lines: seq<string>, now: Time)
    ensures forall k :: 0 <= k < |BulkSteps(a, model, lines, now)| ==> BulkSteps(a, model, lines, now)[k].op.RegisterOp?
    decreases |lines|
  {
    hide ValidImei, Trim;
    if lines != [] {
      OnlyRegistrations(a, model, lines[..|lines| - 1], now);
    }
  }

  lemma {:induction false} RegistrationsKeepManagers(s: State, steps: seq<Step>)
    requires Good(s) && forall k :: 0 <= k < |steps| ==> steps[k].op.RegisterOp?
    ensures ManagersKept(s, steps)
    decreases |steps|
  {
    hide Good, Commit;
    if steps != [] {
      CommitGood(s, steps[0]);
      GoodIsLinked(s);
      RegistrationsKeepManagers(Commit(s, steps[0]), steps[1..]);
    }
  }

  /** A batch keeps the invariant whatever the constraints say. */
  lemma {:induction false} BulkKeeps(s: State, a: Actor, model: nat, lines: seq<string>, now: Time)
    requires Inv(s)
    ensures Inv(BulkRegister(s, a, model, lines, now).state)
    decreases |lines|
  {
    hide ValidImei, Trim, Register, Inv, Agreement;
    if lines != [] {
      var init, x := lines[..|lines| - 1], Trim(lines[|lines| - 1]);
      BulkKeeps(s, a, model, init, now);
      var b := BulkRegister(s, a, model, init, now);
      GoodLinked(b.state);
      hide Linked;
      if Register(b.state, a, model, Some(x), None, now).Accepted? {
        StepSound(b.state, a, RegisterOp(model, Some(x), None), now);
      }
    }
  }
}
