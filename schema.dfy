/**
 * The backend's tables, held in memory: one sequence of rows per model, the
 * code cache as a map, the replies the views send, and the unique constraints
 * the database enforces on inserts.
 */
module Schema {
  import opened Wrappers
  import Calendar
  import Permissions
  import Lists

  /** `ScoreUser`; `password` stands for the stored credential `check_password` compares against. */
  datatype Account = Account(
    id: nat, username: string, email: string, role: string,
    password: string, passwordChanged: bool)

  /** `Country`; the name column is nullable. */
  datatype Country = Country(
    id: nat, name: Option<string>, countryCode: string, phoneCode: string, userId: nat)

  datatype Subscription = Subscription(
    countryId: nat, createdAt: Calendar.Instant, expiresIn: Calendar.Instant)

  datatype FrontOffice = FrontOffice(
    id: nat, name: string, npi: string, phone: string, userId: nat, countryId: nat)

  /** `AvailableZone`: a zone name registered by one front office. */
  datatype Zone = Zone(name: string, frontOfficeId: nat)

  datatype Huissier = Huissier(
    id: nat, userId: nat, frontOfficeId: nat, npi: string, phone: string, zone: string)

  /** `Customer`; front office and huissier are nullable foreign keys. */
  datatype Customer = Customer(
    id: nat, uuid: string, firstName: string, lastName: string, email: string,
    npi: string, phoneNumber: string, frontOfficeId: Option<nat>, zone: string,
    huissierId: Option<nat>, countryId: nat)

  /** `Loan`; amounts are kept as the text the request carried, the deadline as a day number. */
  datatype Loan = Loan(
    id: nat, customerId: nat, creditorNpi: Option<string>, amount: string,
    periodicity: string, deadlineAmount: string, deadline: int,
    verified: bool, solvability: bool, status: string)

  /** Every table, and the code cache (code to NPI). */
  datatype Db = Db(
    accounts: seq<Account>,
    countries: seq<Country>,
    subscriptions: seq<Subscription>,
    frontOffices: seq<FrontOffice>,
    zones: seq<Zone>,
    huissiers: seq<Huissier>,
    customers: seq<Customer>,
    loans: seq<Loan>,
    cache: map<string, string>)

  /** The JSON bodies the views send. */
  datatype Body =
    | Error(error: string)
    | Failure(Error_message: string)
    | Detail(detail: string)
    | Message(message: string)
    | Created(message: string, password: string)
    | Tokens(access_token: string, refresh_token: string, type_user: string)
    | CustomerName(customer: string)
    | ZoneList(zones: seq<Zone>)
    | AlertList(alerts: seq<Loan>, total_alerts: nat)
    | CustomerFile(record: Customer, receivables: seq<Loan>)
    | ServerError

  datatype Reply = Reply(status: int, body: Body)

  /** A view's effect: the tables after it, and its reply. */
  datatype Step = Step(db: Db, reply: Reply)

  /** An uncaught exception in a view: Django answers 500. */
  const Crash := Reply(500, ServerError)

  function BadRequest(error: string): Reply {
    Reply(400, Error(error))
  }

  /** A strictly larger id than any in the table, as an auto-increment key is. */
  function NextId<T>(s: seq<T>, id: T -> nat): (n: nat)
    ensures forall i :: 0 <= i < |s| ==> id(s[i]) < n
  {
    if s == [] then 1
    else
      var rest := NextId(s[1..], id);
      if id(s[0]) < rest then rest else id(s[0]) + 1
  }

  /** Whether any row satisfies p: a `filter(...).exists()`. */
  predicate Exists<T>(s: seq<T>, p: T -> bool) {
    Lists.FindFirst(s, p).Some?
  }

  /** No two rows share a key. */
  ghost predicate Unique<T, K>(s: seq<T>, key: T -> K) {
    forall i, j :: 0 <= i < j < |s| ==> key(s[i]) != key(s[j])
  }

  /** Appending a row whose key is new keeps the keys distinct. */
  lemma {:induction false} UniqueAppend<T, K>(s: seq<T>, key: T -> K, x: T)
    requires forall i :: 0 <= i < |s| ==> key(s[i]) != key(x)
    ensures Unique(s, key) ==> Unique(s + [x], key)
  {
    forall i, j | 0 <= i < j < |s + [x]| && Unique(s, key)
      ensures key((s + [x])[i]) != key((s + [x])[j])
    {
      if j == |s| {
        assert (s + [x])[j] == x;
        assert (s + [x])[i] == s[i];
      } else {
        assert (s + [x])[j] == s[j];
        assert (s + [x])[i] == s[i];
      }
    }
  }

  /** The unique columns of the models that the views rely on: user email, username and id, customer NPI, country code. */
  ghost predicate Keys(db: Db) {
    Unique(db.accounts, (a: Account) => a.email)
    && Unique(db.accounts, (a: Account) => a.username)
    && Unique(db.accounts, (a: Account) => a.id)
    && Unique(db.customers, (c: Customer) => c.npi)
    && Unique(db.countries, (c: Country) => c.countryCode)
  }

  /** The permission-relevant fields of `request.user`. */
  function CallerOf(a: Account): Permissions.Caller {
    Permissions.Caller(a.role, a.passwordChanged)
  }

  /** The 403 DRF answers when one of the view's permission classes refuses the caller. */
  function Refusal(perms: seq<Permissions.Permission>, a: Account): (r: Option<Reply>)
    ensures r.None? <==> forall i :: 0 <= i < |perms| ==> Permissions.HasPermission(perms[i], CallerOf(a))
    ensures r.Some? ==> r.value.status == 403
  {
    var d := Permissions.FirstDenial(perms, CallerOf(a));
    if d.Some? then Some(Reply(403, Detail(Permissions.Message(d.value)))) else None
  }

  /** What `objects.get(...)` finds: no row (DoesNotExist), one row, or several (MultipleObjectsReturned). */
  datatype Lookup<T> = NoRow | OneRow(index: nat, row: T) | ManyRows

  /** `objects.get(...)` on the rows satisfying p. */
  function GetOne<T>(s: seq<T>, p: T -> bool): (r: Lookup<T>)
    ensures r.NoRow? <==> forall i :: 0 <= i < |s| ==> !p(s[i])
    ensures r.OneRow? ==> r.index < |s| && s[r.index] == r.row && p(r.row)
    ensures r.OneRow? ==> forall j :: 0 <= j < |s| && j != r.index ==> !p(s[j])
    ensures r.ManyRows? ==> exists i, j :: 0 <= i < j < |s| && p(s[i]) && p(s[j])
  {
    var first := Lists.FindFirst(s, p);
    if first.None? then NoRow
    else
      var k := first.value;
      var second := Lists.FindFirst(s[k + 1..], p);
      if second.None? then
        assert forall j :: k < j < |s| ==> s[j] == s[k + 1..][j - k - 1];
        OneRow(k, s[k])
      else
        assert p(s[k + 1 + second.value]);
        ManyRows
  }

  /** A row found by NPI: several rows sharing an NPI cannot happen while NPIs are unique. */
  function CustomerWithNpi(db: Db, npi: string): (r: Lookup<Customer>)
    ensures r.OneRow? ==> r.row in db.customers && r.row.npi == npi
    ensures r.NoRow? <==> forall i :: 0 <= i < |db.customers| ==> db.customers[i].npi != npi
    ensures Unique(db.customers, (c: Customer) => c.npi) ==> !r.ManyRows?
  {
    GetOne(db.customers, (c: Customer) => c.npi == npi)
  }

  /** The tables as a mutable object, which the views update in place. */
  class Store {
    var accounts: seq<Account>
    var countries: seq<Country>
    var subscriptions: seq<Subscription>
    var frontOffices: seq<FrontOffice>
    var zones: seq<Zone>
    var huissiers: seq<Huissier>
    var customers: seq<Customer>
    var loans: seq<Loan>
    var cache: map<string, string>

    function Tables(): Db
      reads this
    {
      Db(accounts, countries, subscriptions, frontOffices, zones, huissiers, customers, loans, cache)
    }

    constructor (db: Db)
      ensures Tables() == db
    {
      accounts, countries, subscriptions := db.accounts, db.countries, db.subscriptions;
      frontOffices, zones, huissiers := db.frontOffices, db.zones, db.huissiers;
      customers, loans, cache := db.customers, db.loans, db.cache;
    }
  }
}
