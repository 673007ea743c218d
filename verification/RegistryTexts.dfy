/** What the normalisations of texts keep, and how register and the vehicle operations answer. */
module RegistryTexts {
  import opened Options
  import opened RegistryTables
  import opened Registry
  import opened RegistryConstraints
  import opened RegistryBulk
  import opened RegistryAnswers

  // ----- Trimming -----

  predicate White(t: string) { forall i :: 0 <= i < |t| ==> IsSpace(t[i]) }

  /** x is what is left of t without the white space at its ends. */
  ghost predicate Trimmed(t: string, x: string) {
    exists i, j :: 0 <= i <= j <= |t| && Inner(t, x, i, j)
  }

  ghost predicate Inner(t: string, x: string, i: nat, j: nat)
    requires i <= j <= |t|
  {
    && x == t[i..j] && White(t[..i]) && White(t[j..])
    && (x != "" ==> !IsSpace(x[0]) && !IsSpace(x[|x| - 1]))
  }

  lemma {:induction false} TrimStartMeans(t: string) returns (i: nat)
    ensures i <= |t| && TrimStart(t) == t[i..] && White(t[..i])
    ensures TrimStart(t) != "" ==> !IsSpace(TrimStart(t)[0])
  {
    hide IsSpace;
    i := 0;
    if t != [] && IsSpace(t[0]) {
      var k := TrimStartMeans(t[1..]);
      i := k + 1;
      assert forall m :: 0 < m < i ==> t[..i][m] == t[1..][..k][m - 1];
    }
  }

  lemma {:induction false} TrimEndMeans(t: string) returns (j: nat)
    ensures j <= |t| && TrimEnd(t) == t[..j] && White(t[j..])
    ensures TrimEnd(t) != "" ==> !IsSpace(TrimEnd(t)[|TrimEnd(t)| - 1])
    decreases |t|
  {
    hide IsSpace;
    j := |t|;
    if t != [] && IsSpace(t[|t| - 1]) {
      j := TrimEndMeans(t[..|t| - 1]);
      assert forall m :: 0 <= m < |t| - 1 - j ==> t[j..][m] == t[..|t| - 1][j..][m];
    }
  }

  /** Trimming takes the white space off both ends and nothing else. */
  lemma TrimMeans(t: string)
    ensures Trimmed(t, Trim(t))
    ensures Trim(t) == "" <==> White(t)
  {
    hide IsSpace;
    var i := TrimStartMeans(t);
    var u := TrimStart(t);
    var j := TrimEndMeans(u);
    var x := Trim(t);
    assert x == t[i..i + j];
    assert forall m :: 0 <= m < |t| - i - j ==> t[i + j..][m] == u[j..][m];
    if x != "" {
      assert x[0] == u[0] && x[0] == t[i];
    } else {
      assert i == |t|;
      assert t[..i] == t;
    }
    assert Inner(t, x, i, i + j);
  }

  /** y is x with its small letters a to z made capital. */
  predicate Capital(x: string, y: string) {
    && |y| == |x|
    && forall i :: 0 <= i < |x| ==>
         (if 'a' <= x[i] <= 'z' then y[i] as int == x[i] as int - 32 else y[i] == x[i])
  }

  lemma UpperMeans(x: string)
    ensures Capital(x, Upper(x))
  {
  }

  /** What is stored of an optional text: nothing if it is missing or white, else the trimmed text. */
  ghost predicate StoredText(text: Option<string>, stored: Option<string>) {
    if text.None? || White(text.value) then stored.None?
    else stored.Some? && stored.value != "" && Trimmed(text.value, stored.value)
  }

  /** The same in capitals. */
  ghost predicate StoredCapital(text: Option<string>, stored: Option<string>) {
    if text.None? || White(text.value) then stored.None?
    else stored.Some? && exists x :: Trimmed(text.value, x) && x != "" && Capital(x, stored.value)
  }

  lemma OptionalMeans(text: Option<string>)
    ensures StoredText(text, Optional(text)) && StoredCapital(text, OptionalUpper(text))
  {
    hide Trim, White, Trimmed, Capital, Upper;
    if text.Some? {
      TrimMeans(text.value);
      UpperMeans(Trim(text.value));
    }
  }

  /** Dropping separators goes character by character, so it keeps the others in their order. */
  lemma {:induction false} DropsSeparators(a: string, b: string)
    ensures DropSeparators(a + b) == DropSeparators(a) + DropSeparators(b)
    ensures |a| == 1 ==> DropSeparators(a) == if IsSpace(a[0]) || a[0] == '-' then "" else a
  {
    hide IsSpace;
    if a == "" {
      assert a + b == b;
    } else {
      assert (a + b)[1..] == a[1..] + b;
      DropsSeparators(a[1..], b);
    }
  }

  /** What is stored of a registration: nothing if it is missing or white, else the capitals of the
      trimmed text without separators. */
  ghost predicate StoredRegistration(text: Option<string>, stored: Option<string>) {
    if text.None? || White(text.value) then stored.None?
    else stored.Some? && exists x, y :: Trimmed(text.value, x) && Capital(x, y) && stored.value == DropSeparators(y)
  }

  lemma RegistrationMeans(text: Option<string>)
    ensures StoredRegistration(text, NormalizeRegistration(text))
  {
    hide Trim, White, Trimmed, Capital, Upper, DropSeparators;
    if text.Some? {
      TrimMeans(text.value);
      UpperMeans(Trim(text.value));
    }
  }

  // ----- register -----

  /** A device with this IMEI or this serial number is known. */
  ghost predicate Known(s: State, imei: Option<string>, serial: Option<string>) {
    exists i :: 0 <= i < |s.devices| && ((imei.Some? && s.devices[i].imei == imei) || (serial.Some? && s.devices[i].serial == serial))
  }

  ghost function RegisterError(s: State, a: Actor, model: nat, imei: Option<string>, serial: Option<string>): Option<Error> {
    if !OfPlatform(a) then Some(Forbidden)
    else if model !in s.activeModels then Some(BadRequest)
    else if imei.None? && serial.None? then Some(BadRequest)
    else if Known(s, imei, serial) then Some(Conflict)
    else if !s.platformOrganization then Some(NotFound)
    else None
  }

  lemma KnownIdentity(s: State, imei: Option<string>, serial: Option<string>)
    requires imei != Some("") && serial != Some("")
    ensures IdentityKnown(s, imei, serial) <==> Known(s, imei, serial)
  {
  }

  /** Main theorem.  register stores the trimmed IMEI and the trimmed serial number in capitals, in a new
      IN_STOCK device that the platform owns and holds; it is rejected with exactly the first reason that
      holds and accepted when none does. */
  lemma RegisterAnswer(s: State, a: Actor, model: nat, imeiText: Option<string>, serialText: Option<string>, now: Time)
    ensures exists imei, serial :: StoredText(imeiText, imei) && StoredCapital(serialText, serial)
              && RegisterMeets(s, a, model, imei, serial, now, Register(s, a, model, imeiText, serialText, now))
  {
    hide Optional, OptionalUpper, OfPlatform, IsPlatform, IdentityKnown, Known, StoredText, StoredCapital;
    var imei, serial := Optional(imeiText), OptionalUpper(serialText);
    OptionalMeans(imeiText);
    OptionalMeans(serialText);
    OptionalNonempty(imeiText);
    OptionalNonempty(serialText);
    KnownIdentity(s, imei, serial);
    Roles(a, 0);
  }

  ghost predicate RegisterMeets(s: State, a: Actor, model: nat, imei: Option<string>, serial: Option<string>, now: Time, o: Outcome) {
    var e := RegisterError(s, a, model, imei, serial);
    if e.Some? then o == Rejected(e.value)
    else
      && o.Accepted?
      && o.state == s.(devices := s.devices + [Device(imei, serial, InStock, None)],
                       ownership := s.ownership + [Tenure(|s.devices|, Platform, InitialStock, now, None)],
                       custody := s.custody + [Tenure(|s.devices|, Platform, Reception, now, None)])
  }

  // ----- bulkRegister -----

  /** 14 to 17 digits. */
  ghost predicate Imei(x: string) { 14 <= |x| <= 17 && forall i :: 0 <= i < |x| ==> '0' <= x[i] <= '9' }

  ghost predicate Stored(s: State, x: string) { exists d :: 0 <= d < |s.devices| && s.devices[d].imei == Some(x) }

  /** What a line gets, given whether an earlier line has the same IMEI. */
  ghost function LineAnswer(s: State, a: Actor, model: nat, x: string, repeated: bool): LineStatus {
    if !Imei(x) then BadImei
    else if repeated then RepeatedLine
    else if !OfPlatform(a) then Failed(Forbidden)
    else if model !in s.activeModels then Failed(BadRequest)
    else if Stored(s, x) then Failed(Conflict)
    else if !s.platformOrganization then Failed(NotFound)
    else Created
  }

  lemma RegisterImeiAnswer(s: State, a: Actor, model: nat, x: string, now: Time)
    requires ValidImei(x)
    ensures var r := Register(s, a, model, Some(x), None, now); var e := LineAnswer(s, a, model, x, false);
            Imei(x) && (r.Accepted? ==> e == Created) && (r.Rejected? ==> e == Failed(r.error))
  {
    TrimDigits(x);
    Roles(a, 0);
    hide Trim, OfPlatform, IsPlatform, Digits;
    RegisterImei(s, a, model, x, now);
  }

  /** Main theorem.  Every line of a batch gets one result, with its trimmed text: the reason that register
      or the list itself refuses it, judged on the tables before the batch, or CREATED. */
  lemma {:induction false} BulkAnswer(s: State, a: Actor, model: nat, lines: seq<string>, now: Time, k: nat)
    requires k < |lines|
    ensures var r := BulkRegister(s, a, model, lines, now).results; var x := Trim(lines[k]);
            && |r| == |lines| && r[k].imei == x && Trimmed(lines[k], x)
            && r[k].status == LineAnswer(s, a, model, x, exists j :: 0 <= j < k && Trim(lines[j]) == x)
    decreases |lines|
  {
    hide Trim, Trimmed, OfPlatform, IsPlatform, ValidImei, Register, Imei, Stored, Registered;
    var init, line := lines[..|lines| - 1], lines[|lines| - 1];
    var b, x := BulkRegister(s, a, model, init, now), Trim(line);
    BulkState(s, a, model, init, now, x);
    TrimMeans(lines[k]);
    if k < |init| {
      BulkAnswer(s, a, model, init, now, k);
      assert forall j :: 0 <= j <= k ==> init[j] == lines[j];
    } else {
      assert forall j :: 0 <= j < k ==> init[j] == lines[j];
      ValidIsImei(x);
      if ValidImei(x) && x !in b.seen {
        RegisterImeiAnswer(b.state, a, model, x, now);
        SameAnswer(s, b.state, a, model, x);
      }
    }
  }

  lemma ValidIsImei(x: string)
    ensures ValidImei(x) <==> Imei(x)
  {
  }

  /** Registering earlier lines does not change what a new IMEI gets. */
  lemma SameAnswer(s: State, t: State, a: Actor, model: nat, x: string)
    requires CanRegister(t, a, model) == CanRegister(s, a, model) && (!CanRegister(s, a, model) ==> t == s)
    requires Registered(t, x) <==> Registered(s, x)
    ensures LineAnswer(t, a, model, x, false) == LineAnswer(s, a, model, x, false)
  {
    Roles(a, 0);
    hide OfPlatform, IsPlatform, Imei;
    assert Stored(s, x) <==> Registered(s, x);
    assert Stored(t, x) <==> Registered(t, x);
  }

  // ----- Vehicles -----

  /** Another vehicle has one of the identities; an empty registration is not looked up. */
  ghost predicate VehicleKnown(s: State, r: Option<string>, c: Option<string>, n: Option<string>, except: Option<VehicleId>) {
    exists i :: 0 <= i < |s.vehicles| && except != Some(i) &&
      ((r.Some? && r.value != "" && s.vehicles[i].registration == r) || (c.Some? && s.vehicles[i].chassis == c)
       || (n.Some? && s.vehicles[i].engine == n))
  }

  lemma KnownVehicle(s: State, r: Option<string>, c: Option<string>, n: Option<string>, except: Option<VehicleId>)
    requires c != Some("") && n != Some("")
    ensures VehicleIdentityKnown(s, r, c, n, except) <==> VehicleKnown(s, r, c, n, except)
  {
  }

  ghost function CreateVehicleError(s: State, a: Actor, customer: CustomerId, r: Option<string>, c: Option<string>,
                                    n: Option<string>): Option<Error> {
    if customer !in s.customers then Some(NotFound)
    else if !Administers(s, a, customer) then Some(Forbidden)
    else if s.customers[customer].status != PendingCustomer && s.customers[customer].status != ActiveCustomer then Some(BadRequest)
    else if VehicleKnown(s, r, c, n, None) then Some(Conflict)
    else None
  }

  ghost predicate CreateVehicleMeets(s: State, a: Actor, customer: CustomerId, r: Option<string>, c: Option<string>,
                                     n: Option<string>, o: Outcome) {
    var e := CreateVehicleError(s, a, customer, r, c, n);
    if e.Some? then o == Rejected(e.value)
    else o == Accepted(s.(vehicles := s.vehicles + [Vehicle(customer, PendingVehicle, None, r, c, n)]))
  }

  /** Main theorem.  create stores the normalised identities in a new PENDING vehicle of the customer; it is
      rejected with exactly the first reason that holds and accepted when none does. */
  lemma CreateVehicleAnswer(s: State, a: Actor, customer: CustomerId, registration: Option<string>, chassis: Option<string>,
                            engine: Option<string>)
    ensures exists r, c, n :: StoredRegistration(registration, r) && StoredCapital(chassis, c) && StoredCapital(engine, n)
              && CreateVehicleMeets(s, a, customer, r, c, n, CreateVehicle(s, a, customer, registration, chassis, engine))
  {
    hide NormalizeRegistration, OptionalUpper, Administers, ActsForManager, IsPlatform, VehicleKnown, VehicleIdentityKnown;
    hide StoredRegistration, StoredCapital;
    var r, c, n := NormalizeRegistration(registration), OptionalUpper(chassis), OptionalUpper(engine);
    RegistrationMeans(registration);
    OptionalMeans(chassis);
    OptionalMeans(engine);
    OptionalNonempty(chassis);
    OptionalNonempty(engine);
    KnownVehicle(s, r, c, n, None);
    Administration(s, a, customer);
    assert CreateVehicleMeets(s, a, customer, r, c, n, CreateVehicle(s, a, customer, registration, chassis, engine));
  }

  ghost function UpdateVehicleError(s: State, a: Actor, v: VehicleId, archive: bool, subscribed: bool, r: Option<string>,
                                    c: Option<string>, n: Option<string>): Option<Error> {
    if v >= |s.vehicles| then Some(NotFound)
    else if !Administers(s, a, s.vehicles[v].customer) then Some(Forbidden)
    else if archive && (subscribed || exists i :: 0 <= i < |s.assignments| && s.assignments[i].vehicle == v && s.assignments[i].status == Active) then
      Some(Conflict)
    else if VehicleKnown(s, r, c, n, Some(v)) then Some(Conflict)
    else None
  }

  /** The row after an update: what is given is stored, what is not is left; a status given sets or clears
      the archiving time. */
  ghost predicate UpdatedVehicle(was: Vehicle, now: Vehicle, change: VehicleChange, r: Option<string>, c: Option<string>,
                                 n: Option<string>, at: Time) {
    && now.customer == was.customer
    && (if change.status.None? then now.status == was.status && now.archivedAt == was.archivedAt
        else now.status == change.status.value && now.archivedAt == if now.status == ArchivedVehicle then Some(at) else None)
    && now.registration == (if change.registration.None? then was.registration else r)
    && now.chassis == (if change.chassis.None? then was.chassis else c)
    && now.engine == (if change.engine.None? then was.engine else n)
  }

  ghost predicate UpdateVehicleMeets(s: State, a: Actor, v: VehicleId, change: VehicleChange, subscribed: bool, r: Option<string>,
                                     c: Option<string>, n: Option<string>, at: Time, o: Outcome) {
    var e := UpdateVehicleError(s, a, v, change.status == Some(ArchivedVehicle), subscribed, r, c, n);
    if e.Some? then o == Rejected(e.value)
    else
      && o.Accepted? && o.state == s.(vehicles := o.state.vehicles) && |o.state.vehicles| == |s.vehicles| && v < |s.vehicles|
      && (forall w :: 0 <= w < |s.vehicles| && w != v ==> o.state.vehicles[w] == s.vehicles[w])
      && UpdatedVehicle(s.vehicles[v], o.state.vehicles[v], change, r, c, n, at)
  }

  /** Main theorem.  update is rejected with exactly the first reason that holds and otherwise changes one
      vehicle in what the request gives. */
  lemma UpdateVehicleAnswer(s: State, a: Actor, v: VehicleId, change: VehicleChange, subscribed: bool, now: Time)
    ensures exists r, c, n :: StoredRegistration(change.registration, r) && StoredCapital(change.chassis, c)
              && StoredCapital(change.engine, n)
              && UpdateVehicleMeets(s, a, v, change, subscribed, r, c, n, now, UpdateVehicle(s, a, v, change, subscribed, now))
  {
    hide NormalizeRegistration, OptionalUpper, Administers, ActsForManager, IsPlatform, VehicleKnown, VehicleIdentityKnown;
    hide StoredRegistration, StoredCapital;
    var r, c, n := NormalizeRegistration(change.registration), OptionalUpper(change.chassis), OptionalUpper(change.engine);
    RegistrationMeans(change.registration);
    OptionalMeans(change.chassis);
    OptionalMeans(change.engine);
    OptionalNonempty(change.chassis);
    OptionalNonempty(change.engine);
    KnownVehicle(s, r, c, n, Some(v));
    if v < |s.vehicles| {
      Administration(s, a, s.vehicles[v].customer);
    }
    assert UpdateVehicleMeets(s, a, v, change, subscribed, r, c, n, now, UpdateVehicle(s, a, v, change, subscribed, now));
  }
}
