/**
 * The country views of the backend: a country creating front offices, a
 * front office creating huissiers and keeping its zone registry, and a
 * huissier requesting one-time codes and registering loans with them.
 */
module Offices {
  import opened Wrappers
  import opened Schema
  import Permissions
  import Lists

  const CountryStaff := [Permissions.IsCountry, Permissions.IsPasswordChanged]
  const OfficeStaff := [Permissions.IsFrontOffice, Permissions.IsPasswordChanged]
  const HuissierOnly := [Permissions.IsHuissier]

  /** A user with exactly this username and this email: the views' `filter(username=..., email=...)`. */
  predicate SameUser(db: Db, username: string, email: string) {
    Exists(db.accounts, (a: Account) => a.username == username && a.email == email)
  }

  /** `ScoreUser.objects.create` breaks the unique username or the unique email column. */
  predicate AccountClash(db: Db, username: string, email: string) {
    Exists(db.accounts, (a: Account) => a.username == username || a.email == email)
  }

  /** The new user row `ScoreUser.objects.create` adds. */
  function NewAccount(db: Db, username: string, email: string, role: string, password: string): (a: Account)
    ensures forall i :: 0 <= i < |db.accounts| ==> db.accounts[i].id != a.id
    ensures a.username == username && a.email == email && a.role == role && !a.passwordChanged
    ensures a.password == password
  {
    Account(NextId(db.accounts, (a: Account) => a.id), username, email, role, password, false)
  }

  /** Adding a user whose username and email are both unused keeps the user keys unique. */
  lemma AddAccountKeepsKeys(db: Db, a: Account)
    requires !AccountClash(db, a.username, a.email)
    requires forall i :: 0 <= i < |db.accounts| ==> db.accounts[i].id != a.id
    ensures Keys(db) ==> Keys(db.(accounts := db.accounts + [a]))
  {
    assert forall i :: 0 <= i < |db.accounts| ==> db.accounts[i].username != a.username && db.accounts[i].email != a.email;
    UniqueAppend(db.accounts, (x: Account) => x.email, a);
    UniqueAppend(db.accounts, (x: Account) => x.username, a);
    UniqueAppend(db.accounts, (x: Account) => x.id, a);
  }

  // ---------------------------------------------------------------------------
  // CreateFrontOffice
  // ---------------------------------------------------------------------------

  datatype OfficeForm = OfficeForm(
    name: Option<string>, username: Option<string>, npi: Option<string>,
    phone: Option<string>, email: Option<string>)

  predicate OfficeFormGiven(f: OfficeForm) {
    Truthy(f.name) && Truthy(f.username) && Truthy(f.npi) && Truthy(f.phone) && Truthy(f.email)
  }

  /** An office of this country with the same name, NPI and phone. */
  predicate OfficeExists(db: Db, f: OfficeForm, country: nat)
    requires OfficeFormGiven(f)
  {
    Exists(db.frontOffices, (o: FrontOffice) =>
      o.name == f.name.value && o.npi == f.npi.value && o.phone == f.phone.value && o.countryId == country)
  }

  const OfficeFieldsRequired := "Tous les champs (front_office_name, username, npi, phone, email) sont requis."
  const OfficeCreated := "Front-office créé avec succès."

  /** `CreateFrontOffice.post` for a caller whose country row has id country. */
  function CreateFrontOfficeStep(db: Db, u: Account, country: nat, f: OfficeForm, password: string): (r: Step)
    ensures Refusal(CountryStaff, u).Some? ==> r.reply.status == 403 && r.db == db
    ensures Refusal(CountryStaff, u).None? && !OfficeFormGiven(f) ==> r == Step(db, BadRequest(OfficeFieldsRequired))
    ensures (Refusal(CountryStaff, u).None? && OfficeFormGiven(f) && SameUser(db, f.username.value, f.email.value))
      ==> r == Step(db, BadRequest("Un utilisateur avec ce NPI existe déjà."))
    ensures (Refusal(CountryStaff, u).None? && OfficeFormGiven(f) && !SameUser(db, f.username.value, f.email.value)
      && OfficeExists(db, f, country)) ==> r == Step(db, BadRequest("Ce front office existe déjà"))
    ensures (Refusal(CountryStaff, u).None? && OfficeFormGiven(f) && !SameUser(db, f.username.value, f.email.value)
      && !OfficeExists(db, f, country) && AccountClash(db, f.username.value, f.email.value)) ==> r == Step(db, Crash)
    ensures r.reply.status == 201 <==>
      Refusal(CountryStaff, u).None? && OfficeFormGiven(f)
      && !SameUser(db, f.username.value, f.email.value) && !OfficeExists(db, f, country)
      && !AccountClash(db, f.username.value, f.email.value)
    ensures r.reply.status != 201 ==> r.db == db
    ensures r.reply.status == 201 ==>
      r.reply.body == Created(OfficeCreated, password)
      && |r.db.accounts| == |db.accounts| + 1 && |r.db.frontOffices| == |db.frontOffices| + 1
      && r.db == db.(accounts := r.db.accounts, frontOffices := r.db.frontOffices)
      && r.db.accounts[..|db.accounts|] == db.accounts && r.db.frontOffices[..|db.frontOffices|] == db.frontOffices
      && r.db.accounts[|db.accounts|].role == "front office"
      && r.db.accounts[|db.accounts|] == NewAccount(db, f.username.value, f.email.value, "front office", password)
      && r.db.frontOffices[|db.frontOffices|].userId == r.db.accounts[|db.accounts|].id
      && r.db.frontOffices[|db.frontOffices|].countryId == country
      && r.db.frontOffices[|db.frontOffices|].name == f.name.value
      && r.db.frontOffices[|db.frontOffices|].npi == f.npi.value
      && r.db.frontOffices[|db.frontOffices|].phone == f.phone.value
    ensures Keys(db) ==> Keys(r.db)
  {
    var refusal := Refusal(CountryStaff, u);
    if refusal.Some? then Step(db, refusal.value)
    else if !OfficeFormGiven(f) then Step(db, BadRequest(OfficeFieldsRequired))
    else if SameUser(db, f.username.value, f.email.value) then Step(db, BadRequest("Un utilisateur avec ce NPI existe déjà."))
    else if OfficeExists(db, f, country) then Step(db, BadRequest("Ce front office existe déjà"))
    else if AccountClash(db, f.username.value, f.email.value) then Step(db, Crash)
    else
      var user := NewAccount(db, f.username.value, f.email.value, "front office", password);
      AddAccountKeepsKeys(db, user);
      var office := FrontOffice(
        NextId(db.frontOffices, (o: FrontOffice) => o.id), f.name.value, f.npi.value, f.phone.value, user.id, country);
      assert (db.accounts + [user])[..|db.accounts|] == db.accounts;
      assert (db.frontOffices + [office])[..|db.frontOffices|] == db.frontOffices;
      Step(db.(accounts := db.accounts + [user], frontOffices := db.frontOffices + [office]),
        Reply(201, Created(OfficeCreated, password)))
  }

  /**
   * The existence check asks for a user with this username AND this email, so
   * a username already used with another email passes it and the insert fails.
   */
  lemma UsernameClashIsServerError(db: Db, u: Account, country: nat, f: OfficeForm, password: string, i: nat)
    requires Refusal(CountryStaff, u).None? && OfficeFormGiven(f) && !OfficeExists(db, f, country)
    requires i < |db.accounts| && db.accounts[i].username == f.username.value
    requires Unique(db.accounts, (a: Account) => a.username)
    requires db.accounts[i].email != f.email.value
    ensures CreateFrontOfficeStep(db, u, country, f, password) == Step(db, Crash)
  {
    assert !SameUser(db, f.username.value, f.email.value);
    assert AccountClash(db, f.username.value, f.email.value) by {
      var p := (a: Account) => a.username == f.username.value || a.email == f.email.value;
      assert p(db.accounts[i]);
    }
  }

  /** `CreateFrontOffice.post` on the tables in place. */
  method CreateFrontOffice(store: Store, u: Account, country: nat, f: OfficeForm, password: string) returns (reply: Reply)
    modifies store
    ensures store.Tables() == CreateFrontOfficeStep(old(store.Tables()), u, country, f, password).db
    ensures reply == CreateFrontOfficeStep(old(store.Tables()), u, country, f, password).reply
  {
    var refusal := Refusal(CountryStaff, u);
    if refusal.Some? {
      return refusal.value;
    }
    if !OfficeFormGiven(f) {
      return BadRequest(OfficeFieldsRequired);
    }
    if SameUser(store.Tables(), f.username.value, f.email.value) {
      return BadRequest("Un utilisateur avec ce NPI existe déjà.");
    }
    if OfficeExists(store.Tables(), f, country) {
      return BadRequest("Ce front office existe déjà");
    }
    if AccountClash(store.Tables(), f.username.value, f.email.value) {
      return Crash;
    }
    var user := NewAccount(store.Tables(), f.username.value, f.email.value, "front office", password);
    store.accounts := store.accounts + [user];
    var id := NextId(store.frontOffices, (o: FrontOffice) => o.id);
    store.frontOffices := store.frontOffices + [FrontOffice(id, f.name.value, f.npi.value, f.phone.value, user.id, country)];
    return Reply(201, Created(OfficeCreated, password));
  }

  // ---------------------------------------------------------------------------
  // CreateHuissier
  // ---------------------------------------------------------------------------

  datatype HuissierForm = HuissierForm(
    username: Option<string>, npi: Option<string>, phone: Option<string>,
    email: Option<string>, zone: Option<string>)

  /** `all([username, npi, phone, email, password, zone])`. */
  predicate HuissierFormGiven(f: HuissierForm, password: string) {
    Truthy(f.username) && Truthy(f.npi) && Truthy(f.phone) && Truthy(f.email) && password != "" && Truthy(f.zone)
  }

  const HuissierFieldsRequired := "Tous les champs (username, npi, phone, email, zone) sont requis."
  const HuissierCreated := "Huissier créé avec succès."

  /** The first failing guard of `CreateHuissier.post`, in the order the view tests them. */
  function HuissierGuard(db: Db, office: nat, f: HuissierForm, password: string): (r: Option<Reply>)
    ensures r.None? <==>
      HuissierFormGiven(f, password) && !SameUser(db, f.username.value, f.email.value)
      && Zone(f.zone.value, office) in db.zones
      && !Exists(db.huissiers, (h: Huissier) => h.npi == f.npi.value)
      && !AccountClash(db, f.username.value, f.email.value)
    ensures !HuissierFormGiven(f, password) ==> r == Some(BadRequest(HuissierFieldsRequired))
    ensures (HuissierFormGiven(f, password) && !SameUser(db, f.username.value, f.email.value)
      && Zone(f.zone.value, office) !in db.zones) ==> r == Some(BadRequest("Invalid zone"))
    ensures (HuissierFormGiven(f, password) && SameUser(db, f.username.value, f.email.value))
      ==> r == Some(BadRequest("Ce utilisateur existe déjà."))
    ensures (HuissierFormGiven(f, password) && !SameUser(db, f.username.value, f.email.value)
      && Zone(f.zone.value, office) in db.zones && Exists(db.huissiers, (h: Huissier) => h.npi == f.npi.value))
      ==> r == Some(BadRequest("Un utilisateur avec cet npi existe déjà."))
    ensures (HuissierFormGiven(f, password) && !SameUser(db, f.username.value, f.email.value)
      && Zone(f.zone.value, office) in db.zones && !Exists(db.huissiers, (h: Huissier) => h.npi == f.npi.value)
      && AccountClash(db, f.username.value, f.email.value)) ==> r == Some(Crash)
  {
    if !HuissierFormGiven(f, password) then Some(BadRequest(HuissierFieldsRequired))
    else if SameUser(db, f.username.value, f.email.value) then Some(BadRequest("Ce utilisateur existe déjà."))
    else if Zone(f.zone.value, office) !in db.zones then Some(BadRequest("Invalid zone"))
    else if Exists(db.huissiers, (h: Huissier) => h.npi == f.npi.value) then
      Some(BadRequest("Un utilisateur avec cet npi existe déjà."))
    else if AccountClash(db, f.username.value, f.email.value) then Some(Crash)
    else None
  }

  /** `CreateHuissier.post` for a caller whose front office row has id office. */
  function CreateHuissierStep(db: Db, u: Account, office: nat, f: HuissierForm, password: string): (r: Step)
    ensures Refusal(OfficeStaff, u).Some? ==> r.reply.status == 403 && r.db == db
    ensures r.reply.status == 201 <==> Refusal(OfficeStaff, u).None? && HuissierGuard(db, office, f, password).None?
    ensures (Refusal(OfficeStaff, u).None? && HuissierGuard(db, office, f, password).Some?)
      ==> r == Step(db, HuissierGuard(db, office, f, password).value)
    ensures r.reply.status != 201 ==> r.db == db
    ensures r.reply.status == 201 ==>
      r.reply.body == Created(HuissierCreated, password)
      && |r.db.accounts| == |db.accounts| + 1 && |r.db.huissiers| == |db.huissiers| + 1
      && r.db.accounts[|db.accounts|] == NewAccount(db, f.username.value, f.email.value, "huissier", password)
      && r.db == db.(accounts := r.db.accounts, huissiers := r.db.huissiers)
      && r.db.accounts[..|db.accounts|] == db.accounts && r.db.huissiers[..|db.huissiers|] == db.huissiers
      && r.db.accounts[|db.accounts|].role == "huissier"
      && var h := r.db.huissiers[|db.huissiers|];
      h.userId == r.db.accounts[|db.accounts|].id && h.frontOfficeId == office
      && h.npi == f.npi.value && h.phone == f.phone.value
      && h.zone == ""
    ensures Keys(db) ==> Keys(r.db)
  {
    var refusal := Refusal(OfficeStaff, u);
    if refusal.Some? then Step(db, refusal.value)
    else
      var guard := HuissierGuard(db, office, f, password);
      if guard.Some? then Step(db, guard.value)
      else
        var user := NewAccount(db, f.username.value, f.email.value, "huissier", password);
        AddAccountKeepsKeys(db, user);
        var h := Huissier(NextId(db.huissiers, (h: Huissier) => h.id), user.id, office, f.npi.value, f.phone.value, "");
        assert (db.accounts + [user])[..|db.accounts|] == db.accounts;
        assert (db.huissiers + [h])[..|db.huissiers|] == db.huissiers;
        Step(db.(accounts := db.accounts + [user], huissiers := db.huissiers + [h]),
          Reply(201, Created(HuissierCreated, password)))
  }

  /** `CreateHuissier.post` on the tables in place. */
  method CreateHuissier(store: Store, u: Account, office: nat, f: HuissierForm, password: string) returns (reply: Reply)
    modifies store
    ensures store.Tables() == CreateHuissierStep(old(store.Tables()), u, office, f, password).db
    ensures reply == CreateHuissierStep(old(store.Tables()), u, office, f, password).reply
  {
    var refusal := Refusal(OfficeStaff, u);
    if refusal.Some? {
      return refusal.value;
    }
    var guard := HuissierGuard(store.Tables(), office, f, password);
    if guard.Some? {
      return guard.value;
    }
    var user := NewAccount(store.Tables(), f.username.value, f.email.value, "huissier", password);
    store.accounts := store.accounts + [user];
    var id := NextId(store.huissiers, (h: Huissier) => h.id);
    store.huissiers := store.huissiers + [Huissier(id, user.id, office, f.npi.value, f.phone.value, "")];
    return Reply(201, Created(HuissierCreated, password));
  }

  // ---------------------------------------------------------------------------
  // The zone registry
  // ---------------------------------------------------------------------------

  /** No (name, front office) pair is registered twice. */
  ghost predicate ZonesDistinct(db: Db) {
    forall i, j :: 0 <= i < j < |db.zones| ==> db.zones[i] != db.zones[j]
  }

  /** `AddZone.post` for a caller whose front office row has id office. */
  function AddZoneStep(db: Db, u: Account, office: nat, name: Option<string>): (r: Step)
    ensures Refusal(OfficeStaff, u).None? && !Truthy(name) ==>
      r == Step(db, BadRequest("Les champs name & localisation sont requis"))
    ensures Refusal(OfficeStaff, u).None? && Truthy(name) && Zone(name.value, office) in db.zones ==>
      r == Step(db, BadRequest("This zone already exists"))
    ensures r.reply.status == 200 <==>
      Refusal(OfficeStaff, u).None? && Truthy(name) && Zone(name.value, office) !in db.zones
    ensures r.reply.status != 200 ==> r.db == db
    ensures r.reply.status == 200 ==> r.db == db.(zones := db.zones + [Zone(name.value, office)])
    ensures ZonesDistinct(db) ==> ZonesDistinct(r.db)
  {
    var refusal := Refusal(OfficeStaff, u);
    if refusal.Some? then Step(db, refusal.value)
    else if !Truthy(name) then Step(db, BadRequest("Les champs name & localisation sont requis"))
    else if Zone(name.value, office) in db.zones then Step(db, BadRequest("This zone already exists"))
    else
      var zones := db.zones + [Zone(name.value, office)];
      assert forall i :: 0 <= i < |db.zones| ==> zones[i] == db.zones[i];
      Step(db.(zones := zones), Reply(200, Message("Zone added")))
  }

  /** Adding a zone twice: the second request is refused and the registry keeps one copy. */
  lemma AddZoneTwice(db: Db, u: Account, office: nat, name: string)
    requires Refusal(OfficeStaff, u).None? && name != "" && Zone(name, office) !in db.zones
    ensures var once := AddZoneStep(db, u, office, Some(name)).db;
      AddZoneStep(once, u, office, Some(name)) == Step(once, BadRequest("This zone already exists"))
  {
    var once := AddZoneStep(db, u, office, Some(name)).db;
    assert once.zones[|db.zones|] == Zone(name, office);
  }

  /** `AddZone.post` on the tables in place. */
  method AddZone(store: Store, u: Account, office: nat, name: Option<string>) returns (reply: Reply)
    modifies store
    ensures store.Tables() == AddZoneStep(old(store.Tables()), u, office, name).db
    ensures reply == AddZoneStep(old(store.Tables()), u, office, name).reply
  {
    var refusal := Refusal(OfficeStaff, u);
    if refusal.Some? {
      return refusal.value;
    }
    if !Truthy(name) {
      return BadRequest("Les champs name & localisation sont requis");
    }
    if Zone(name.value, office) in store.zones {
      return BadRequest("This zone already exists");
    }
    store.zones := store.zones + [Zone(name.value, office)];
    return Reply(200, Message("Zone added"));
  }

  /** `Zones.get`: the zones of the caller's front office, in table order. */
  function ZonesView(db: Db, u: Account, office: nat): (r: Reply)
    ensures Refusal(OfficeStaff, u).Some? ==> r.status == 403
    ensures Refusal(OfficeStaff, u).None? ==> r.status == 200 && r.body.ZoneList?
    ensures r.body.ZoneList? ==>
      (forall z :: z in r.body.zones <==> z in db.zones && z.frontOfficeId == office)
      && Lists.Subsequence(r.body.zones, db.zones)
  {
    var refusal := Refusal(OfficeStaff, u);
    if refusal.Some? then refusal.value
    else
      var mine := (z: Zone) => z.frontOfficeId == office;
      Lists.FilterIsSubsequence(db.zones, mine);
      assert forall z :: z in Lists.Filter(db.zones, mine) <==> z in db.zones && z.frontOfficeId == office by {
        forall z { Lists.FilterMembership(db.zones, mine, z); }
      }
      Reply(200, ZoneList(Lists.Filter(db.zones, mine)))
  }

  /** `RemoveZone.post` for a caller whose front office row has id office. */
  function RemoveZoneStep(db: Db, u: Account, office: nat, name: Option<string>): (r: Step)
    ensures Refusal(OfficeStaff, u).None? && !Truthy(name) ==> r == Step(db, BadRequest("Le champs name est requis"))
    ensures Refusal(OfficeStaff, u).None? && Truthy(name) && Zone(name.value, office) !in db.zones ==>
      r == Step(db, Reply(404, Error("Zone not found")))
    ensures r.reply.status == 200 ==> Truthy(name) && Zone(name.value, office) in db.zones
    ensures ZonesDistinct(db) && Refusal(OfficeStaff, u).None? && Truthy(name) && Zone(name.value, office) in db.zones ==>
      r.reply.status == 200
    ensures r.reply.status != 200 ==> r.db == db
    ensures r.reply.status == 200 ==>
      r.db == db.(zones := r.db.zones) && |r.db.zones| == |db.zones| - 1
      && Zone(name.value, office) !in r.db.zones
      && forall z :: z != Zone(name.value, office) ==> (z in r.db.zones <==> z in db.zones)
    ensures ZonesDistinct(db) ==> ZonesDistinct(r.db)
  {
    var refusal := Refusal(OfficeStaff, u);
    if refusal.Some? then Step(db, refusal.value)
    else if !Truthy(name) then Step(db, BadRequest("Le champs name est requis"))
    else
      var target := Zone(name.value, office);
      match GetOne(db.zones, (z: Zone) => z == target)
      case NoRow => Step(db, Reply(404, Error("Zone not found")))
      case ManyRows => Step(db, Crash)
      case OneRow(k, _) =>
        var zones := Lists.RemoveAt(db.zones, k);
        assert forall z :: z in zones <==> z in db.zones && z != target by {
          forall z { Lists.RemoveAtMembership(db.zones, k, z); }
        }
        assert ZonesDistinct(db) ==> ZonesDistinct(db.(zones := zones)) by {
          if ZonesDistinct(db) {
            forall i, j | 0 <= i < j < |zones| ensures zones[i] != zones[j] {
              var i', j' := if i < k then i else i + 1, if j < k then j else j + 1;
              assert zones[i] == db.zones[i'] && zones[j] == db.zones[j'];
            }
          }
        }
        Step(db.(zones := zones), Reply(200, Message("Successfully deleted")))
  }

  /** Adding a new zone and then removing it restores the registry. */
  lemma RemoveUndoesAdd(db: Db, u: Account, office: nat, name: string)
    requires Refusal(OfficeStaff, u).None? && name != "" && Zone(name, office) !in db.zones
    ensures var added := AddZoneStep(db, u, office, Some(name)).db;
      RemoveZoneStep(added, u, office, Some(name)).db == db
  {
    var added := AddZoneStep(db, u, office, Some(name)).db;
    var target := Zone(name, office);
    var k := |db.zones|;
    assert added.zones[k] == target;
    var found := GetOne(added.zones, (z: Zone) => z == target);
    assert found.OneRow? && found.index == k by {
      assert forall j :: 0 <= j < k ==> added.zones[j] == db.zones[j];
    }
    assert Lists.RemoveAt(added.zones, k) == db.zones;
  }

  /** `RemoveZone.post` on the tables in place: `get` the zone, then delete it. */
  method RemoveZone(store: Store, u: Account, office: nat, name: Option<string>) returns (reply: Reply)
    modifies store
    ensures store.Tables() == RemoveZoneStep(old(store.Tables()), u, office, name).db
    ensures reply == RemoveZoneStep(old(store.Tables()), u, office, name).reply
  {
    var refusal := Refusal(OfficeStaff, u);
    if refusal.Some? {
      return refusal.value;
    }
    if !Truthy(name) {
      return BadRequest("Le champs name est requis");
    }
    var target := Zone(name.value, office);
    var found := GetOne(store.zones, (z: Zone) => z == target);
    if found.NoRow? {
      return Reply(404, Error("Zone not found"));
    }
    if found.ManyRows? {
      return Crash;
    }
    store.zones := Lists.RemoveAt(store.zones, found.index);
    return Reply(200, Message("Successfully deleted"));
  }

  // ---------------------------------------------------------------------------
  // One-time codes
  // ---------------------------------------------------------------------------

  /**
   * How a loop tests that a code is in use: `cache.get(code) != None` in the
   * consultation view, the value's truthiness in the loan-code view.
   */
  datatype Probe = NotNone | TruthyValue

  predicate InUse(cache: map<string, string>, code: string, probe: Probe) {
    code in cache && (probe.NotNone? || cache[code] != "")
  }

  /** Some draw is free, so the regeneration loop ends. */
  predicate SomeDrawFree(cache: map<string, string>, draws: seq<string>, probe: Probe) {
    exists i :: 0 <= i < |draws| && !InUse(cache, draws[i], probe)
  }

  /** The position of the first free draw: the loop's stopping point. */
  function FirstFree(cache: map<string, string>, draws: seq<string>, probe: Probe): (k: nat)
    requires SomeDrawFree(cache, draws, probe)
    ensures k < |draws| && !InUse(cache, draws[k], probe)
    ensures forall j :: 0 <= j < k ==> InUse(cache, draws[j], probe)
  {
    if !InUse(cache, draws[0], probe) then 0
    else
      assert SomeDrawFree(cache, draws[1..], probe) by {
        var i :| 0 <= i < |draws| && !InUse(cache, draws[i], probe);
        assert draws[1..][i - 1] == draws[i];
      }
      1 + FirstFree(cache, draws[1..], probe)
  }

  /**
   * The code loop: take the first draw of `generate_random_code`, and draw
   * again while the cache holds the code. The successive draws are `draws`.
   */
  method FreshCode(cache: map<string, string>, draws: seq<string>, probe: Probe) returns (code: string)
    requires SomeDrawFree(cache, draws, probe)
    ensures code == draws[FirstFree(cache, draws, probe)]
    ensures !InUse(cache, code, probe)
  {
    var i := 0;
    code := draws[0];
    while InUse(cache, code, probe)
      invariant 0 <= i <= FirstFree(cache, draws, probe)
      invariant code == draws[i]
      decreases FirstFree(cache, draws, probe) - i
    {
      i := i + 1;
      code := draws[i];
    }
  }

  /** The code handed out was free, and the cache now sends it to the NPI while other codes keep theirs. */
  lemma IssuedCodeIsFresh(cache: map<string, string>, draws: seq<string>, probe: Probe, npi: string, other: string)
    requires SomeDrawFree(cache, draws, probe)
    ensures var code := draws[FirstFree(cache, draws, probe)];
      var after := cache[code := npi];
      !InUse(cache, code, probe) && after[code] == npi
      && (other != code ==> (other in after <==> other in cache) && (other in cache ==> after[other] == cache[other]))
  {
  }

  /** For the consultation loop "free" means absent; the loan-code loop also reuses a code mapped to "". */
  lemma ProbesDiffer(cache: map<string, string>, code: string)
    ensures !InUse(cache, code, NotNone) <==> code !in cache
    ensures !InUse(cache, code, TruthyValue) <==> code !in cache || cache[code] == ""
  {
  }

  /** `ConsultCustomerAccount.post` and `RegisterLoanCode.post` share this ending: store the code for the NPI. */
  function IssueCode(db: Db, npi: string, draws: seq<string>, probe: Probe): (r: Db)
    requires SomeDrawFree(db.cache, draws, probe)
    ensures r == db.(cache := r.cache)
    ensures r.cache == db.cache[draws[FirstFree(db.cache, draws, probe)] := npi]
    ensures exists k ::
              && 0 <= k < |draws| && !InUse(db.cache, draws[k], probe)
              && (forall j :: 0 <= j < k ==> InUse(db.cache, draws[j], probe))
              && r.cache == db.cache[draws[k] := npi]
  {
    db.(cache := db.cache[draws[FirstFree(db.cache, draws, probe)] := npi])
  }

  const CodeGenerated := "Code successfully generated"

  /** `ConsultCustomerAccount.post`; draws are the successive random codes. */
  function ConsultStep(db: Db, u: Account, npi: Option<string>, documentNumber: Option<string>, draws: seq<string>): (r: Step)
    requires SomeDrawFree(db.cache, draws, NotNone)
    ensures Refusal(HuissierOnly, u).None? && (!Truthy(npi) || !Truthy(documentNumber)) ==>
      r == Step(db, BadRequest("Fields 'npi' and 'document_number' are required."))
    ensures r.reply.status == 200 <==>
      Refusal(HuissierOnly, u).None? && Truthy(npi) && Truthy(documentNumber) && CustomerWithNpi(db, npi.value).OneRow?
    ensures (Refusal(HuissierOnly, u).None? && Truthy(npi) && Truthy(documentNumber)
      && CustomerWithNpi(db, npi.value).NoRow?) ==> r == Step(db, Reply(404, Error("No customer found with the given NPI.")))
    ensures (Refusal(HuissierOnly, u).None? && Truthy(npi) && Truthy(documentNumber)
      && CustomerWithNpi(db, npi.value).ManyRows?) ==> r == Step(db, Crash)
    ensures r.reply.status != 200 ==> r.db == db
    ensures r.reply.status == 200 ==>
      r.reply == Reply(200, Message(CodeGenerated)) && r.db == IssueCode(db, npi.value, draws, NotNone)
  {
    var refusal := Refusal(HuissierOnly, u);
    if refusal.Some? then Step(db, refusal.value)
    else if !Truthy(npi) || !Truthy(documentNumber) then
      Step(db, BadRequest("Fields 'npi' and 'document_number' are required."))
    else
      match CustomerWithNpi(db, npi.value)
      case NoRow => Step(db, Reply(404, Error("No customer found with the given NPI.")))
      case ManyRows => Step(db, Crash)
      case OneRow(_, _) => Step(IssueCode(db, npi.value, draws, NotNone), Reply(200, Message(CodeGenerated)))
  }

  /** `ConsultCustomerAccount.post` on the tables in place. */
  method ConsultCustomerAccount(store: Store, u: Account, npi: Option<string>, documentNumber: Option<string>, draws: seq<string>)
    returns (reply: Reply)
    requires SomeDrawFree(store.cache, draws, NotNone)
    modifies store
    ensures store.Tables() == ConsultStep(old(store.Tables()), u, npi, documentNumber, draws).db
    ensures reply == ConsultStep(old(store.Tables()), u, npi, documentNumber, draws).reply
  {
    var refusal := Refusal(HuissierOnly, u);
    if refusal.Some? {
      return refusal.value;
    }
    if !Truthy(npi) || !Truthy(documentNumber) {
      return BadRequest("Fields 'npi' and 'document_number' are required.");
    }
    var customer := CustomerWithNpi(store.Tables(), npi.value);
    if customer.NoRow? {
      return Reply(404, Error("No customer found with the given NPI."));
    }
    if customer.ManyRows? {
      return Crash;
    }
    var code := FreshCode(store.cache, draws, NotNone);
    store.cache := store.cache[code := npi.value];
    return Reply(200, Message(CodeGenerated));
  }

  /** `RegisterLoanCode.post`; draws are the successive random codes. */
  function LoanCodeStep(db: Db, u: Account, npi: Option<string>, draws: seq<string>): (r: Step)
    requires SomeDrawFree(db.cache, draws, TruthyValue)
    ensures Refusal(HuissierOnly, u).None? && !Truthy(npi) ==> r == Step(db, BadRequest("npi required"))
    ensures r.reply.status == 200 <==>
      Refusal(HuissierOnly, u).None? && Truthy(npi) && CustomerWithNpi(db, npi.value).OneRow?
    ensures (Refusal(HuissierOnly, u).None? && Truthy(npi) && CustomerWithNpi(db, npi.value).NoRow?)
      ==> r == Step(db, Reply(404, Error("customer not found")))
    ensures (Refusal(HuissierOnly, u).None? && Truthy(npi) && CustomerWithNpi(db, npi.value).ManyRows?)
      ==> r == Step(db, Crash)
    ensures r.reply.status != 200 ==> r.db == db
    ensures r.reply.status == 200 ==>
      r.reply == Reply(200, Message(CodeGenerated)) && r.db == IssueCode(db, npi.value, draws, TruthyValue)
  {
    var refusal := Refusal(HuissierOnly, u);
    if refusal.Some? then Step(db, refusal.value)
    else if !Truthy(npi) then Step(db, BadRequest("npi required"))
    else
      match CustomerWithNpi(db, npi.value)
      case NoRow => Step(db, Reply(404, Error("customer not found")))
      case ManyRows => Step(db, Crash)
      case OneRow(_, _) => Step(IssueCode(db, npi.value, draws, TruthyValue), Reply(200, Message(CodeGenerated)))
  }

  /** `RegisterLoanCode.post` on the tables in place. */
  method RegisterLoanCode(store: Store, u: Account, npi: Option<string>, draws: seq<string>) returns (reply: Reply)
    requires SomeDrawFree(store.cache, draws, TruthyValue)
    modifies store
    ensures store.Tables() == LoanCodeStep(old(store.Tables()), u, npi, draws).db
    ensures reply == LoanCodeStep(old(store.Tables()), u, npi, draws).reply
  {
    var refusal := Refusal(HuissierOnly, u);
    if refusal.Some? {
      return refusal.value;
    }
    if !Truthy(npi) {
      return BadRequest("npi required");
    }
    var customer := CustomerWithNpi(store.Tables(), npi.value);
    if customer.NoRow? {
      return Reply(404, Error("customer not found"));
    }
    if customer.ManyRows? {
      return Crash;
    }
    var code := FreshCode(store.cache, draws, TruthyValue);
    store.cache := store.cache[code := npi.value];
    return Reply(200, Message(CodeGenerated));
  }

  /** `CheckConsultationCode.get`: both a missing code and an unknown one make `.decode()` fail. */
  function CheckCodeView(db: Db, u: Account, code: Option<string>): (r: Reply)
    ensures Refusal(HuissierOnly, u).None? && (code.None? || code.value !in db.cache) ==> r == Crash
    ensures r == BadRequest("Invalid code") ==> code.Some? && code.value in db.cache
    ensures (Refusal(HuissierOnly, u).None? && code.Some? && code.value in db.cache
      && (db.cache[code.value] == "" || CustomerWithNpi(db, db.cache[code.value]).NoRow?))
      ==> r == BadRequest("Invalid code")
    ensures (Refusal(HuissierOnly, u).None? && code.Some? && code.value in db.cache && db.cache[code.value] != ""
      && CustomerWithNpi(db, db.cache[code.value]).ManyRows?) ==> r == Crash
    ensures r.status == 200 <==>
      Refusal(HuissierOnly, u).None? && code.Some? && code.value in db.cache && db.cache[code.value] != ""
      && CustomerWithNpi(db, db.cache[code.value]).OneRow?
    ensures r.status == 200 ==>
      r.body.CustomerFile? && r.body.record.npi == db.cache[code.value]
      && forall l :: l in r.body.receivables <==> l in db.loans && l.creditorNpi == Some(r.body.record.npi)
  {
    var refusal := Refusal(HuissierOnly, u);
    if refusal.Some? then refusal.value
    else if code.None? || code.value !in db.cache then Crash
    else
      var npi := db.cache[code.value];
      if npi == "" then BadRequest("Invalid code")
      else
        match CustomerWithNpi(db, npi)
        case NoRow => BadRequest("Invalid code")
        case ManyRows => Crash
        case OneRow(_, c) =>
          var owed := (l: Loan) => l.creditorNpi == Some(c.npi);
          assert forall l :: l in Lists.Filter(db.loans, owed) <==> l in db.loans && l.creditorNpi == Some(c.npi) by {
            forall l { Lists.FilterMembership(db.loans, owed, l); }
          }
          Reply(200, CustomerFile(c, Lists.Filter(db.loans, owed)))
  }

  // ---------------------------------------------------------------------------
  // RegisterLoan
  // ---------------------------------------------------------------------------

  const Periodicities := ["daily", "weekly", "monthly", "quarterly", "biannual", "annual"]

  datatype LoanForm = LoanForm(
    code: Option<string>, amount: Option<string>, periodicity: Option<string>,
    deadlineAmount: Option<string>, deadline: Option<string>, creditorNpi: Option<string>)

  predicate LoanFormGiven(f: LoanForm) {
    Truthy(f.code) && Truthy(f.amount) && Truthy(f.periodicity) && Truthy(f.deadlineAmount)
    && Truthy(f.deadline) && Truthy(f.creditorNpi)
  }

  const LoanFieldsRequired := "Fields required (code, amount, periodicity, deadline_amount, deadline)"
  const InvalidCreditor := "Invalid creditor npi"

  /** Every guard of `RegisterLoan.post` passes: the debtor (from the code) and the creditor it names. */
  predicate LoanAccepted(db: Db, f: LoanForm, day: string -> Option<int>) {
    LoanFormGiven(f) && f.periodicity.value in Periodicities
    && CustomerWithNpi(db, f.creditorNpi.value).OneRow?
    && f.code.value in db.cache && db.cache[f.code.value] != ""
    && CustomerWithNpi(db, db.cache[f.code.value]).OneRow?
    && CustomerWithNpi(db, db.cache[f.code.value]).row.id != CustomerWithNpi(db, f.creditorNpi.value).row.id
    && day(f.deadline.value).Some?
  }

  /**
   * `RegisterLoan.post`; day parses the deadline text into a day number
   * (None when the date field would reject it).
   */
  function RegisterLoanStep(db: Db, u: Account, f: LoanForm, day: string -> Option<int>): (r: Step)
    ensures Refusal(HuissierOnly, u).None? && !LoanFormGiven(f) ==> r == Step(db, BadRequest(LoanFieldsRequired))
    ensures Refusal(HuissierOnly, u).None? && LoanFormGiven(f) && f.periodicity.value !in Periodicities ==>
      r == Step(db, BadRequest("Invalid periodicity field"))
    ensures (Refusal(HuissierOnly, u).None? && LoanFormGiven(f) && f.periodicity.value in Periodicities
      && CustomerWithNpi(db, f.creditorNpi.value).NoRow?) ==> r == Step(db, BadRequest(InvalidCreditor))
    ensures (Refusal(HuissierOnly, u).None? && LoanFormGiven(f) && f.periodicity.value in Periodicities
      && CustomerWithNpi(db, f.creditorNpi.value).OneRow? && f.code.value !in db.cache) ==> r == Step(db, Crash)
    ensures var coded := Refusal(HuissierOnly, u).None? && LoanFormGiven(f) && f.periodicity.value in Periodicities
      && CustomerWithNpi(db, f.creditorNpi.value).OneRow? && f.code.value in db.cache;
      && (coded && db.cache[f.code.value] == "" ==> r == Step(db, BadRequest("code expired")))
      && ((coded && db.cache[f.code.value] != "" && CustomerWithNpi(db, db.cache[f.code.value]).NoRow?)
           ==> r == Step(db, Reply(404, Error("customer not found"))))
      && ((coded && db.cache[f.code.value] != "" && CustomerWithNpi(db, db.cache[f.code.value]).OneRow?
           && CustomerWithNpi(db, db.cache[f.code.value]).row.id == CustomerWithNpi(db, f.creditorNpi.value).row.id)
           ==> r == Step(db, BadRequest(InvalidCreditor)))
    ensures r.reply.status == 200 <==> Refusal(HuissierOnly, u).None? && LoanAccepted(db, f, day)
    ensures r.reply.status != 200 ==> r.db == db
    ensures r.reply.status == 200 ==>
      |r.db.loans| == |db.loans| + 1 && r.db == db.(loans := r.db.loans)
      && r.db.loans[..|db.loans|] == db.loans
      && var l := r.db.loans[|db.loans|];
      var debtor := CustomerWithNpi(db, db.cache[f.code.value]).row;
      l.customerId == debtor.id && l.creditorNpi == f.creditorNpi
      && debtor.npi != f.creditorNpi.value
      && l.amount == f.amount.value && l.deadlineAmount == f.deadlineAmount.value
      && l.periodicity == f.periodicity.value && l.periodicity in Periodicities && l.deadline == day(f.deadline.value).value
      && !l.verified && l.solvability && l.status == "pending"
  {
    var refusal := Refusal(HuissierOnly, u);
    if refusal.Some? then Step(db, refusal.value)
    else if !LoanFormGiven(f) then Step(db, BadRequest(LoanFieldsRequired))
    else if f.periodicity.value !in Periodicities then Step(db, BadRequest("Invalid periodicity field"))
    else
      match CustomerWithNpi(db, f.creditorNpi.value)
      case NoRow => Step(db, BadRequest(InvalidCreditor))
      case ManyRows => Step(db, Crash)
      case OneRow(_, creditor) =>
        if f.code.value !in db.cache then Step(db, Crash)
        else
          var npi := db.cache[f.code.value];
          if npi == "" then Step(db, BadRequest("code expired"))
          else
            match CustomerWithNpi(db, npi)
            case NoRow => Step(db, Reply(404, Error("customer not found")))
            case ManyRows => Step(db, Crash)
            case OneRow(_, customer) =>
              if customer.id == creditor.id then Step(db, BadRequest(InvalidCreditor))
              else if day(f.deadline.value).None? then Step(db, Crash)
              else
                var loan := Loan(
                  NextId(db.loans, (l: Loan) => l.id), customer.id, f.creditorNpi, f.amount.value,
                  f.periodicity.value, f.deadlineAmount.value, day(f.deadline.value).value, false, true, "pending");
                assert (db.loans + [loan])[..|db.loans|] == db.loans;
                Step(db.(loans := db.loans + [loan]), Reply(200, Message("loan successfully registered")))
  }

  /** A code that was never issued makes the view fail with 500, before any "code expired" answer. */
  lemma UnknownCodeCrashes(db: Db, u: Account, f: LoanForm, day: string -> Option<int>)
    requires Refusal(HuissierOnly, u).None? && LoanFormGiven(f) && f.periodicity.value in Periodicities
    requires CustomerWithNpi(db, f.creditorNpi.value).OneRow? && f.code.value !in db.cache
    ensures RegisterLoanStep(db, u, f, day).reply == Crash
    ensures RegisterLoanStep(db, u, f, day).reply != BadRequest("code expired")
  {
  }

  /** `RegisterLoan.post` on the tables in place. */
  method RegisterLoan(store: Store, u: Account, f: LoanForm, day: string -> Option<int>) returns (reply: Reply)
    modifies store
    ensures store.Tables() == RegisterLoanStep(old(store.Tables()), u, f, day).db
    ensures reply == RegisterLoanStep(old(store.Tables()), u, f, day).reply
  {
    var refusal := Refusal(HuissierOnly, u);
    if refusal.Some? {
      return refusal.value;
    }
    if !LoanFormGiven(f) {
      return BadRequest(LoanFieldsRequired);
    }
    if f.periodicity.value !in Periodicities {
      return BadRequest("Invalid periodicity field");
    }
    var creditor := CustomerWithNpi(store.Tables(), f.creditorNpi.value);
    if creditor.NoRow? {
      return BadRequest(InvalidCreditor);
    }
    if creditor.ManyRows? {
      return Crash;
    }
    if f.code.value !in store.cache {
      return Crash;
    }
    var npi := store.cache[f.code.value];
    if npi == "" {
      return BadRequest("code expired");
    }
    var customer := CustomerWithNpi(store.Tables(), npi);
    if customer.NoRow? {
      return Reply(404, Error("customer not found"));
    }
    if customer.ManyRows? {
      return Crash;
    }
    if customer.row.id == creditor.row.id {
      return BadRequest(InvalidCreditor);
    }
    var deadline := day(f.deadline.value);
    if deadline.None? {
      return Crash;
    }
    var id := NextId(store.loans, (l: Loan) => l.id);
    store.loans := store.loans + [Loan(
      id, customer.row.id, f.creditorNpi, f.amount.value, f.periodicity.value, f.deadlineAmount.value,
      deadline.value, false, true, "pending")];
    return Reply(200, Message("loan successfully registered"));
  }
}
