/**
 * The user views of the backend: signing in, creating a country with its
 * account, subscribing a country to a plan, changing one's password, and the
 * overdue-loan alerts of a huissier.
 */
module Accounts {
  import opened Wrappers
  import opened Schema
  import Calendar
  import Permissions
  import Lists

  // ---------------------------------------------------------------------------
  // Login
  // ---------------------------------------------------------------------------

  /** The user `get_object_or_404(ScoreUser, email=...)` finds, if exactly one. */
  function AccountWithEmail(db: Db, email: string): (r: Lookup<Account>)
    ensures r.OneRow? ==> r.row in db.accounts && r.row.email == email
    ensures r.NoRow? <==> forall i :: 0 <= i < |db.accounts| ==> db.accounts[i].email != email
    ensures Unique(db.accounts, (a: Account) => a.email) ==> !r.ManyRows?
  {
    GetOne(db.accounts, (a: Account) => a.email == email)
  }

  /** `Login.post`; access and refresh are the tokens issued for the user. */
  function LoginView(db: Db, email: Option<string>, password: Option<string>, access: string, refresh: string): (r: Reply)
    ensures !Truthy(email) || !Truthy(password) ==> r == Reply(400, Failure("incorrect email or password"))
    ensures Truthy(email) && Truthy(password) && AccountWithEmail(db, email.value).NoRow? ==> r.status == 404
    ensures Truthy(email) && Truthy(password) && AccountWithEmail(db, email.value).NoRow?
      ==> r == Reply(404, Detail("Not found."))
    ensures Truthy(email) && Truthy(password) && AccountWithEmail(db, email.value).OneRow?
      && AccountWithEmail(db, email.value).row.password != password.value
      ==> r == Reply(400, Failure("Bad password"))
    ensures r.status == 200 <==>
      Truthy(email) && Truthy(password) && AccountWithEmail(db, email.value).OneRow?
      && AccountWithEmail(db, email.value).row.password == password.value
    ensures r.status == 200 ==> r.body == Tokens(access, refresh, AccountWithEmail(db, email.value).row.role)
  {
    if !Truthy(email) || !Truthy(password) then Reply(400, Failure("incorrect email or password"))
    else
      match AccountWithEmail(db, email.value)
      case NoRow => Reply(404, Detail("Not found."))
      case ManyRows => Crash
      case OneRow(_, u) =>
        if u.password != password.value then Reply(400, Failure("Bad password"))
        else Reply(200, Tokens(access, refresh, u.role))
  }

  /** A wrong password is refused whatever the tokens, and a right one yields the user's role. */
  lemma LoginChecksPassword(db: Db, u: Account, password: string, access: string, refresh: string)
    requires Unique(db.accounts, (a: Account) => a.email)
    requires u in db.accounts && u.email != "" && password != ""
    ensures LoginView(db, Some(u.email), Some(password), access, refresh).status == 200 <==> password == u.password
    ensures password == u.password ==>
      LoginView(db, Some(u.email), Some(password), access, refresh).body == Tokens(access, refresh, u.role)
  {
    var found := AccountWithEmail(db, u.email);
    var k :| 0 <= k < |db.accounts| && db.accounts[k] == u;
    assert !found.NoRow?;
    assert found.OneRow?;
    assert found.index == k;
  }

  // ---------------------------------------------------------------------------
  // NewCountry
  // ---------------------------------------------------------------------------

  /** The request fields of `NewCountry`. */
  datatype CountryForm = CountryForm(
    name: Option<string>, countryCode: Option<string>, phoneCode: Option<string>, email: Option<string>)

  predicate CountryFormGiven(f: CountryForm) {
    Truthy(f.countryCode) && Truthy(f.phoneCode) && Truthy(f.email) && Truthy(f.name)
  }

  const AdminOnly := [Permissions.IsScoreAdmin]
  const CountryFieldsRequired := "Tous les champs (country_code, phone_code, email, name) sont requis."
  const CountryCreated := "Pays créé avec succès."

  /** Some user already has that email / username. */
  predicate EmailTaken(db: Db, email: string) {
    Exists(db.accounts, (a: Account) => a.email == email)
  }

  predicate UsernameTaken(db: Db, username: string) {
    Exists(db.accounts, (a: Account) => a.username == username)
  }

  /** The country insert would break the unique code or the unique name column. */
  predicate CountryClash(db: Db, code: string, name: string) {
    Exists(db.countries, (c: Country) => c.countryCode == code || c.name == Some(name))
  }

  /**
   * `NewCountry.post`; password is the generated one. The user row is saved
   * before the country row, so a country whose code or name is already taken
   * fails after the user exists.
   */
  function NewCountryStep(db: Db, u: Account, f: CountryForm, password: string): (r: Step)
    ensures Refusal(AdminOnly, u).Some? ==> r.reply.status == 403 && r.db == db
    ensures Refusal(AdminOnly, u).None? && !CountryFormGiven(f) ==> r == Step(db, BadRequest(CountryFieldsRequired))
    ensures Refusal(AdminOnly, u).None? && CountryFormGiven(f)
      && Exists(db.countries, (c: Country) => c.countryCode == f.countryCode.value && c.name == f.name)
      ==> r == Step(db, BadRequest("Le pays avec le code '" + f.countryCode.value + "' existe déjà."))
    ensures Refusal(AdminOnly, u).None? && CountryFormGiven(f) && EmailTaken(db, f.email.value)
      ==> r.reply.status == 400 && r.db == db
    ensures Refusal(AdminOnly, u).None? && CountryFormGiven(f)
      && !Exists(db.countries, (c: Country) => c.countryCode == f.countryCode.value && c.name == f.name)
      && EmailTaken(db, f.email.value)
      ==> r == Step(db, BadRequest("Email already taken"))
    ensures r.reply.status == 201 <==>
      Refusal(AdminOnly, u).None? && CountryFormGiven(f)
      && !Exists(db.countries, (c: Country) => c.countryCode == f.countryCode.value && c.name == f.name)
      && !EmailTaken(db, f.email.value) && !UsernameTaken(db, f.name.value)
      && !CountryClash(db, f.countryCode.value, f.name.value)
    ensures r.reply.status == 201 ==>
      r.reply.body == Created(CountryCreated, password)
      && |r.db.accounts| == |db.accounts| + 1 && |r.db.countries| == |db.countries| + 1
      && r.db == db.(accounts := r.db.accounts, countries := r.db.countries)
      && r.db.accounts[..|db.accounts|] == db.accounts && r.db.countries[..|db.countries|] == db.countries
      && r.db.accounts[|db.accounts|].role == "country"
      && r.db.accounts[|db.accounts|].username == f.name.value
      && r.db.accounts[|db.accounts|].email == f.email.value
      && r.db.countries[|db.countries|].userId == r.db.accounts[|db.accounts|].id
      && r.db.countries[|db.countries|].name == f.name
    ensures r.reply.status != 201 ==> r.db.countries == db.countries
    ensures r.reply.status != 201 && r.db != db ==>
      r.reply == Crash && CountryClash(db, f.countryCode.value, f.name.value) && |r.db.accounts| == |db.accounts| + 1
    ensures Keys(db) ==> Keys(r.db)
  {
    var refusal := Refusal(AdminOnly, u);
    if refusal.Some? then Step(db, refusal.value)
    else if !CountryFormGiven(f) then Step(db, BadRequest(CountryFieldsRequired))
    else if Exists(db.countries, (c: Country) => c.countryCode == f.countryCode.value && c.name == f.name) then
      Step(db, BadRequest("Le pays avec le code '" + f.countryCode.value + "' existe déjà."))
    else if EmailTaken(db, f.email.value) then Step(db, BadRequest("Email already taken"))
    else if UsernameTaken(db, f.name.value) then Step(db, Crash)
    else
      var user := Account(NextId(db.accounts, (a: Account) => a.id), f.name.value, f.email.value, "country", password, false);
      UniqueAppend(db.accounts, (a: Account) => a.email, user);
      UniqueAppend(db.accounts, (a: Account) => a.username, user);
      UniqueAppend(db.accounts, (a: Account) => a.id, user);
      assert (db.accounts + [user])[..|db.accounts|] == db.accounts;
      var saved := db.(accounts := db.accounts + [user]);
      if CountryClash(db, f.countryCode.value, f.name.value) then Step(saved, Crash)
      else
        var country := Country(
          NextId(db.countries, (c: Country) => c.id), f.name, f.countryCode.value, f.phoneCode.value, user.id);
        UniqueAppend(db.countries, (c: Country) => c.countryCode, country);
        assert (db.countries + [country])[..|db.countries|] == db.countries;
        Step(saved.(countries := db.countries + [country]), Reply(201, Created(CountryCreated, password)))
  }

  /** A country code already in use under another name leaves a saved "country" user without a country. */
  lemma CodeClashOrphansTheUser(db: Db, u: Account, f: CountryForm, password: string)
    requires Refusal(AdminOnly, u).None? && CountryFormGiven(f)
    requires !Exists(db.countries, (c: Country) => c.countryCode == f.countryCode.value && c.name == f.name)
    requires !EmailTaken(db, f.email.value) && !UsernameTaken(db, f.name.value)
    requires exists i :: 0 <= i < |db.countries| && db.countries[i].countryCode == f.countryCode.value
    ensures NewCountryStep(db, u, f, password).reply == Crash
    ensures |NewCountryStep(db, u, f, password).db.accounts| == |db.accounts| + 1
    ensures NewCountryStep(db, u, f, password).db.countries == db.countries
  {
    var i :| 0 <= i < |db.countries| && db.countries[i].countryCode == f.countryCode.value;
    var clash := Lists.FindFirst(db.countries, (c: Country) => c.countryCode == f.countryCode.value || c.name == Some(f.name.value));
    assert clash.Some?;
  }

  /** `NewCountry.post` on the tables in place: the user is saved, then the country is created. */
  method NewCountry(store: Store, u: Account, f: CountryForm, password: string) returns (reply: Reply)
    modifies store
    ensures store.Tables() == NewCountryStep(old(store.Tables()), u, f, password).db
    ensures reply == NewCountryStep(old(store.Tables()), u, f, password).reply
  {
    var refusal := Refusal(AdminOnly, u);
    if refusal.Some? {
      return refusal.value;
    }
    if !CountryFormGiven(f) {
      return BadRequest(CountryFieldsRequired);
    }
    if Exists(store.countries, (c: Country) => c.countryCode == f.countryCode.value && c.name == f.name) {
      return BadRequest("Le pays avec le code '" + f.countryCode.value + "' existe déjà.");
    }
    if EmailTaken(store.Tables(), f.email.value) {
      return BadRequest("Email already taken");
    }
    if UsernameTaken(store.Tables(), f.name.value) {
      return Crash;
    }
    var user := Account(NextId(store.accounts, (a: Account) => a.id), f.name.value, f.email.value, "country", password, false);
    var clash := CountryClash(store.Tables(), f.countryCode.value, f.name.value);
    store.accounts := store.accounts + [user];
    if clash {
      return Crash;
    }
    var country := Country(
      NextId(store.countries, (c: Country) => c.id), f.name, f.countryCode.value, f.phoneCode.value, user.id);
    store.countries := store.countries + [country];
    return Reply(201, Created(CountryCreated, password));
  }

  // ---------------------------------------------------------------------------
  // CountrySubscribe
  // ---------------------------------------------------------------------------

  /** A subscription of country c still running at now: its expiry is after now. */
  predicate ActiveFor(s: Subscription, c: nat, now: Calendar.Instant) {
    s.countryId == c && Calendar.Earlier(now, s.expiresIn)
  }

  /** Every stored instant is a real one. */
  ghost predicate Timely(db: Db) {
    forall i :: 0 <= i < |db.subscriptions| ==> Calendar.Valid(db.subscriptions[i].expiresIn)
  }

  /** The latest expiry among the country's active subscriptions: `order_by("-expires_in").first()`. */
  function LatestActive(subs: seq<Subscription>, c: nat, now: Calendar.Instant): (r: Option<Calendar.Instant>)
    ensures r.None? <==> forall i :: 0 <= i < |subs| ==> !ActiveFor(subs[i], c, now)
    ensures r.Some? ==> exists i :: 0 <= i < |subs| && ActiveFor(subs[i], c, now) && subs[i].expiresIn == r.value
    ensures r.Some? ==> forall i :: 0 <= i < |subs| && ActiveFor(subs[i], c, now) ==>
      !Calendar.Earlier(r.value, subs[i].expiresIn)
  {
    if subs == [] then None
    else
      var rest := LatestActive(subs[1..], c, now);
      var head := subs[0];
      assert forall i :: 1 <= i < |subs| ==> subs[i] == subs[1..][i - 1];
      if !ActiveFor(head, c, now) then rest
      else if rest.None? || !Calendar.Earlier(head.expiresIn, rest.value) then
        Calendar.EarlierIsStrictTotalOrder(head.expiresIn, head.expiresIn, head.expiresIn);
        assert forall i :: 0 <= i < |subs| && ActiveFor(subs[i], c, now) ==>
          !Calendar.Earlier(head.expiresIn, subs[i].expiresIn) by {
          forall i | 0 <= i < |subs| && ActiveFor(subs[i], c, now)
            ensures !Calendar.Earlier(head.expiresIn, subs[i].expiresIn)
          {
            if i > 0 {
              Calendar.EarlierIsStrictTotalOrder(head.expiresIn, rest.value, subs[i].expiresIn);
            }
          }
        }
        Some(head.expiresIn)
      else
        assert forall i :: 0 <= i < |subs| && ActiveFor(subs[i], c, now) ==>
          !Calendar.Earlier(rest.value, subs[i].expiresIn) by {
          forall i | 0 <= i < |subs| && ActiveFor(subs[i], c, now)
            ensures !Calendar.Earlier(rest.value, subs[i].expiresIn)
          {
            if i == 0 {
              Calendar.EarlierIsStrictTotalOrder(head.expiresIn, rest.value, head.expiresIn);
            }
          }
        }
        rest
  }

  /** The instant the new period starts from: the latest active expiry, or now. */
  function Target(db: Db, c: nat, now: Calendar.Instant): (t: Calendar.Instant)
    requires Timely(db) && Calendar.Valid(now)
    ensures Calendar.Valid(t)
    ensures t == now || Calendar.Earlier(now, t)
  {
    var latest := LatestActive(db.subscriptions, c, now);
    if latest.Some? then latest.value else now
  }

  const InvalidPlan := "Invalid plan"

  /** The first country whose name column equals `name`; a missing name matches the null names. */
  function CountryNamed(db: Db, name: Option<string>): (r: Option<Country>)
    ensures r.None? <==> forall i :: 0 <= i < |db.countries| ==> db.countries[i].name != name
    ensures r.Some? ==> r.value in db.countries && r.value.name == name
  {
    var k := Lists.FindFirst(db.countries, (c: Country) => c.name == name);
    if k.Some? then Some(db.countries[k.value]) else None
  }

  /** `CountrySubscribe.post` at instant now. */
  function SubscribeStep(db: Db, u: Account, plan: Option<string>, name: Option<string>, now: Calendar.Instant): (r: Step)
    requires Timely(db) && Calendar.Valid(now)
    ensures Refusal(AdminOnly, u).None? && CountryNamed(db, name).None? ==>
      r == Step(db, Reply(404, Error("Country not found")))
    ensures (Refusal(AdminOnly, u).None? && CountryNamed(db, name).Some?
      && (plan.None? || Calendar.PlanNamed(plan.value).None?)) ==> r == Step(db, BadRequest(InvalidPlan))
    ensures r.reply.status == 201 <==>
      Refusal(AdminOnly, u).None? && CountryNamed(db, name).Some? && plan.Some? && Calendar.PlanNamed(plan.value).Some?
    ensures r.reply.status != 201 ==> r.db == db
    ensures r.reply.status == 201 ==>
      |r.db.subscriptions| == |db.subscriptions| + 1
      && r.db == db.(subscriptions := db.subscriptions + [r.db.subscriptions[|db.subscriptions|]])
      && var s := r.db.subscriptions[|db.subscriptions|];
      var c := CountryNamed(db, name).value.id;
      s.countryId == c && s.createdAt == now
      && s.expiresIn == Calendar.AddPeriod(Target(db, c, now), Calendar.PlanNamed(plan.value).value)
    ensures Timely(r.db)
  {
    var refusal := Refusal(AdminOnly, u);
    if refusal.Some? then Step(db, refusal.value)
    else
      var country := CountryNamed(db, name);
      if country.None? then Step(db, Reply(404, Error("Country not found")))
      else if plan.None? || Calendar.PlanNamed(plan.value).None? then Step(db, BadRequest(InvalidPlan))
      else
        var c := country.value.id;
        var s := Subscription(c, now, Calendar.AddPeriod(Target(db, c, now), Calendar.PlanNamed(plan.value).value));
        var after := db.(subscriptions := db.subscriptions + [s]);
        assert after.subscriptions[|db.subscriptions|] == s;
        Step(after, Reply(201, Message("Subscription added")))
  }

  /** The new expiry is later than now and than every active subscription of the country. */
  lemma {:induction false} SubscriptionOutlastsActiveOnes(
    db: Db, u: Account, plan: Option<string>, name: Option<string>, now: Calendar.Instant)
    requires Timely(db) && Calendar.Valid(now)
    requires SubscribeStep(db, u, plan, name, now).reply.status == 201
    ensures var r := SubscribeStep(db, u, plan, name, now);
      var e := r.db.subscriptions[|db.subscriptions|].expiresIn;
      Calendar.Earlier(now, e)
      && forall i :: 0 <= i < |db.subscriptions| && ActiveFor(db.subscriptions[i], CountryNamed(db, name).value.id, now) ==>
        Calendar.Earlier(db.subscriptions[i].expiresIn, e)
  {
    var r := SubscribeStep(db, u, plan, name, now);
    var c := CountryNamed(db, name).value.id;
    var t := Target(db, c, now);
    var e := r.db.subscriptions[|db.subscriptions|].expiresIn;
    assert Calendar.Earlier(t, e);
    Calendar.EarlierIsStrictTotalOrder(now, t, e);
    forall i | 0 <= i < |db.subscriptions| && ActiveFor(db.subscriptions[i], c, now)
      ensures Calendar.Earlier(db.subscriptions[i].expiresIn, e)
    {
      var x := db.subscriptions[i].expiresIn;
      var latest := LatestActive(db.subscriptions, c, now);
      assert latest.Some? && t == latest.value;
      assert !Calendar.Earlier(t, x);
      Calendar.EarlierIsStrictTotalOrder(x, t, e);
    }
  }

  /** The page's "yearly" option is not a plan the backend accepts. */
  lemma YearlyIsRejected(db: Db, u: Account, name: Option<string>, now: Calendar.Instant)
    requires Timely(db) && Calendar.Valid(now)
    requires Refusal(AdminOnly, u).None? && CountryNamed(db, name).Some?
    ensures SubscribeStep(db, u, Some("yearly"), name, now) == Step(db, BadRequest(InvalidPlan))
  {
  }

  /** With no active subscription, the period starts now. */
  lemma FirstSubscriptionStartsNow(db: Db, u: Account, plan: Option<string>, name: Option<string>, now: Calendar.Instant)
    requires Timely(db) && Calendar.Valid(now)
    requires SubscribeStep(db, u, plan, name, now).reply.status == 201
    requires forall i :: 0 <= i < |db.subscriptions| ==> !ActiveFor(db.subscriptions[i], CountryNamed(db, name).value.id, now)
    ensures SubscribeStep(db, u, plan, name, now).db.subscriptions[|db.subscriptions|].expiresIn
      == Calendar.AddPeriod(now, Calendar.PlanNamed(plan.value).value)
  {
  }

  /** `CountrySubscribe.post` on the tables in place. */
  method CountrySubscribe(store: Store, u: Account, plan: Option<string>, name: Option<string>, now: Calendar.Instant)
    returns (reply: Reply)
    requires Timely(store.Tables()) && Calendar.Valid(now)
    modifies store
    ensures store.Tables() == SubscribeStep(old(store.Tables()), u, plan, name, now).db
    ensures reply == SubscribeStep(old(store.Tables()), u, plan, name, now).reply
  {
    var refusal := Refusal(AdminOnly, u);
    if refusal.Some? {
      return refusal.value;
    }
    var country := CountryNamed(store.Tables(), name);
    if country.None? {
      return Reply(404, Error("Country not found"));
    }
    if plan.None? || Calendar.PlanNamed(plan.value).None? {
      return BadRequest(InvalidPlan);
    }
    var latest := LatestActive(store.subscriptions, country.value.id, now);
    var target := now;
    if latest.Some? {
      target := latest.value;
    }
    var endDate := Calendar.AddPeriod(target, Calendar.PlanNamed(plan.value).value);
    store.subscriptions := store.subscriptions + [Subscription(country.value.id, now, endDate)];
    return Reply(201, Message("Subscription added"));
  }

  // ---------------------------------------------------------------------------
  // ChangePassword
  // ---------------------------------------------------------------------------

  const PasswordsRequired := "Ancien et nouveau mot de passe requis."
  const WrongOldPassword := "Ancien mot de passe incorrect."

  /** The caller's row after `set_password` and `password_changed = True`. */
  function Changed(u: Account, newPassword: string): Account {
    u.(password := newPassword, passwordChanged := true)
  }

  /** `ChangePassword.post` for caller u: `user.save()` writes u's row back. */
  function ChangePasswordStep(db: Db, u: Account, oldPassword: Option<string>, newPassword: Option<string>): (r: Step)
    ensures !Truthy(oldPassword) || !Truthy(newPassword) ==> r == Step(db, BadRequest(PasswordsRequired))
    ensures Truthy(oldPassword) && Truthy(newPassword) && oldPassword.value != u.password ==>
      r == Step(db, BadRequest(WrongOldPassword))
    ensures r.reply.status == 200 <==> Truthy(oldPassword) && Truthy(newPassword) && oldPassword.value == u.password
    ensures r.reply.status != 200 ==> r.db == db
    ensures r.reply.status == 200 ==>
      r.db == db.(accounts := r.db.accounts) && |r.db.accounts| == |db.accounts|
      && forall i :: 0 <= i < |db.accounts| ==>
        r.db.accounts[i] == if db.accounts[i].id == u.id then Changed(u, newPassword.value) else db.accounts[i]
  {
    if !Truthy(oldPassword) || !Truthy(newPassword) then Step(db, BadRequest(PasswordsRequired))
    else if oldPassword.value != u.password then Step(db, BadRequest(WrongOldPassword))
    else
      var accounts := Lists.MapWhere(db.accounts, (a: Account) => a.id == u.id, (a: Account) => Changed(u, newPassword.value));
      assert forall i :: 0 <= i < |db.accounts| ==>
        accounts[i] == if db.accounts[i].id == u.id then Changed(u, newPassword.value) else db.accounts[i] by {
        forall i | 0 <= i < |db.accounts| {
          Lists.MapWhereAt(db.accounts, (a: Account) => a.id == u.id, (a: Account) => Changed(u, newPassword.value), i);
        }
      }
      Step(db.(accounts := accounts), Reply(200, Message("Mot de passe modifié avec succès.")))
  }

  /** After a change the caller passes `IsPasswordChanged`, and signs in with the new password only. */
  lemma ChangedPasswordUnlocksViews(u: Account, newPassword: string)
    ensures Permissions.HasPermission(Permissions.IsPasswordChanged, CallerOf(Changed(u, newPassword)))
    ensures Changed(u, newPassword).password == newPassword
    ensures CallerOf(Changed(u, newPassword)).role == u.role
  {
  }

  /** `ChangePassword.post` on the tables in place. */
  method ChangePassword(store: Store, u: Account, oldPassword: Option<string>, newPassword: Option<string>)
    returns (reply: Reply)
    modifies store
    ensures store.Tables() == ChangePasswordStep(old(store.Tables()), u, oldPassword, newPassword).db
    ensures reply == ChangePasswordStep(old(store.Tables()), u, oldPassword, newPassword).reply
  {
    if !Truthy(oldPassword) || !Truthy(newPassword) {
      return BadRequest(PasswordsRequired);
    }
    if oldPassword.value != u.password {
      return BadRequest(WrongOldPassword);
    }
    var saved := Changed(u, newPassword.value);
    store.accounts := Lists.MapWhere(store.accounts, (a: Account) => a.id == u.id, (a: Account) => saved);
    return Reply(200, Message("Mot de passe modifié avec succès."));
  }

  // ---------------------------------------------------------------------------
  // HuissierAlertsView
  // ---------------------------------------------------------------------------

  /** The customer row a loan belongs to. */
  function CustomerOf(db: Db, l: Loan): Option<Customer> {
    var k := Lists.FindFirst(db.customers, (c: Customer) => c.id == l.customerId);
    if k.Some? then Some(db.customers[k.value]) else None
  }

  /** `customer__huissier=huissier`, `deadline__lt=today`, `.exclude(status="done")`. */
  predicate Overdue(db: Db, huissier: Option<nat>, today: int, l: Loan) {
    CustomerOf(db, l).Some? && CustomerOf(db, l).value.huissierId == huissier
    && l.deadline < today && l.status != "done"
  }

  const HuissierOnly := [Permissions.IsHuissier]

  /** `HuissierAlertsView.get`; huissier is the caller's huissier row id, absent when it has none. */
  function AlertsView(db: Db, u: Account, huissier: Option<nat>, today: int): (r: Reply)
    ensures Refusal(HuissierOnly, u).Some? ==> r.status == 403
    ensures Refusal(HuissierOnly, u).None? ==> r.status == 200 && r.body.AlertList?
    ensures r.body.AlertList? ==>
      r.body.total_alerts == |r.body.alerts|
      && (forall l :: l in r.body.alerts <==> l in db.loans && Overdue(db, huissier, today, l))
      && Lists.Subsequence(r.body.alerts, db.loans)
  {
    var refusal := Refusal(HuissierOnly, u);
    if refusal.Some? then refusal.value
    else
      var keep := (l: Loan) => Overdue(db, huissier, today, l);
      var alerts := Lists.Filter(db.loans, keep);
      Lists.FilterIsSubsequence(db.loans, keep);
      assert forall l :: l in alerts <==> l in db.loans && Overdue(db, huissier, today, l) by {
        forall l { Lists.FilterMembership(db.loans, keep, l); }
      }
      Reply(200, AlertList(alerts, |alerts|))
  }

  /** A completed loan, or one not yet due, is never an alert. */
  lemma DoneOrDueLoansRaiseNoAlert(db: Db, u: Account, huissier: Option<nat>, today: int, l: Loan)
    requires l.status == "done" || l.deadline >= today
    requires Refusal(HuissierOnly, u).None?
    ensures l !in AlertsView(db, u, huissier, today).body.alerts
  {
  }
}
