/**
 * The customer views of the backend: registering a customer (presence check,
 * the per-field validation loop, the duplicate check, the insert) and looking
 * a customer's name up by NPI.
 */
module Customers {
  import opened Wrappers
  import opened Validators
  import opened Schema
  import Permissions
  import Lists

  /** The rules for npi, last_name and first_name. */
  const NameRules := Validator(
    Some("Missing field"),
    Some(LengthRule(Some(2), Some("This field must have at least 2 characters"))),
    Some("Invalid format"), None, None)

  /** The rules for phone_number. */
  const NumberRules := Validator(
    Some("Missing field"),
    Some(LengthRule(Some(6), Some("This field must have at least 6 characters"))),
    None, Some("Phone must be number"), None)

  /** The rules for email; the `email` entry is carried but no check reads it. */
  const EmailRules := Validator(
    Some("Missing field"),
    Some(LengthRule(Some(5), Some("Email must be valid"))),
    None, None, Some("Invalid email format"))

  const MissingFields := "Fields first_name, last_name, npi, phone_number, email are required"
  const AlreadyExists := "Customer already exists"
  const CustomerCreated := "Customer successfully created"

  /** The request fields, each possibly absent. */
  datatype CustomerForm = CustomerForm(
    firstName: Option<string>, lastName: Option<string>, npi: Option<string>,
    phoneNumber: Option<string>, email: Option<string>)

  /** `all([first_name, last_name, npi, phone_number, email])`. */
  predicate AllGiven(f: CustomerForm) {
    Truthy(f.firstName) && Truthy(f.lastName) && Truthy(f.npi) && Truthy(f.phoneNumber) && Truthy(f.email)
  }

  /** One entry of the validation list: a field's name, its value and its rules. */
  datatype Field = Field(name: string, value: string, rules: Validator)

  /** The validation list, in the order the view walks it. */
  function Fields(f: CustomerForm): (fs: seq<Field>)
    requires AllGiven(f)
    ensures |fs| == 5
    ensures fs[0] == Field("npi", f.npi.value, NameRules)
    ensures fs[1] == Field("last_name", f.lastName.value, NameRules)
    ensures fs[2] == Field("first_name", f.firstName.value, NameRules)
    ensures fs[3] == Field("phone_number", f.phoneNumber.value, NumberRules)
    ensures fs[4] == Field("email", f.email.value, EmailRules)
  {
    [Field("npi", f.npi.value, NameRules),
     Field("last_name", f.lastName.value, NameRules),
     Field("first_name", f.firstName.value, NameRules),
     Field("phone_number", f.phoneNumber.value, NumberRules),
     Field("email", f.email.value, EmailRules)]
  }

  /** The message validation gives a field; a string value never raises. */
  function Problem(f: Field): string {
    var v := ValidateString(Some(f.value), f.rules);
    if v.Returns? then v.message else ""
  }

  predicate HasProblem(f: Field) {
    Problem(f) != ""
  }

  /** The first field with a problem, as "name: message"; None when every field passes. */
  function FieldError(fs: seq<Field>): (r: Option<string>)
    ensures r.None? <==> forall i :: 0 <= i < |fs| ==> Problem(fs[i]) == ""
    ensures var k := Lists.FindFirst(fs, HasProblem);
      r == if k.None? then None else Some(fs[k.value].name + ": " + Problem(fs[k.value]))
  {
    if fs == [] then None
    else if Problem(fs[0]) != "" then Some(fs[0].name + ": " + Problem(fs[0]))
    else FieldError(fs[1..])
  }

  /** The email rules ignore the format entry: an email passes exactly when it has five characters. */
  lemma EmailNeedsOnlyFiveCharacters(e: string)
    ensures ValidateString(Some(e), EmailRules) == Returns("") <==> |e| >= 5
    ensures e != "" && |e| < 5 ==> ValidateString(Some(e), EmailRules) == Returns("Email must be valid")
  {
  }

  /** The name rules: at least two characters, all from [a-zA-Z0-9._-] (one final newline tolerated). */
  lemma NameRulesAccept(s: string)
    ensures ValidateString(Some(s), NameRules) == Returns("") <==> |s| >= 2 && MatchesName(s)
  {
  }

  /** The number rules: at least six characters, all digits (one final newline tolerated). */
  lemma NumberRulesAccept(s: string)
    ensures ValidateString(Some(s), NumberRules) == Returns("") <==> |s| >= 6 && MatchesNumber(s)
  {
  }

  /** Another customer with the same NPI, phone number and country. */
  predicate Duplicate(db: Db, npi: string, phone: string, country: nat) {
    Exists(db.customers, (c: Customer) => c.npi == npi && c.phoneNumber == phone && c.countryId == country)
  }

  /** The row the insert adds: the fields of the form, the rest taken from the calling huissier. */
  predicate TakenFromCaller(c: Customer, h: Huissier, fo: FrontOffice, f: CustomerForm, uuid: string) {
    AllGiven(f)
    && c.firstName == f.firstName.value && c.lastName == f.lastName.value && c.npi == f.npi.value
    && c.phoneNumber == f.phoneNumber.value && c.email == f.email.value && c.uuid == uuid
    && c.huissierId == Some(h.id) && c.zone == h.zone
    && c.frontOfficeId == Some(fo.id) && c.countryId == fo.countryId
  }

  const CustomerPermissions := [Permissions.IsHuissier, Permissions.IsPasswordChanged]

  /**
   * `CreateCustomer.post`, for caller u whose huissier row is h and whose
   * front office is fo; uuid is the freshly generated identifier.
   */
  function CreateCustomerStep(db: Db, u: Account, h: Huissier, fo: FrontOffice, f: CustomerForm, uuid: string): (r: Step)
    ensures Refusal(CustomerPermissions, u).Some? ==> r == Step(db, Refusal(CustomerPermissions, u).value)
    ensures Refusal(CustomerPermissions, u).None? && !AllGiven(f) ==> r == Step(db, BadRequest(MissingFields))
    ensures Refusal(CustomerPermissions, u).None? && AllGiven(f) && FieldError(Fields(f)).Some? ==>
      r == Step(db, BadRequest(FieldError(Fields(f)).value))
    ensures r.reply.status == 201 <==>
      Refusal(CustomerPermissions, u).None? && AllGiven(f) && FieldError(Fields(f)).None?
      && !Duplicate(db, f.npi.value, f.phoneNumber.value, fo.countryId)
      && CustomerWithNpi(db, f.npi.value).NoRow?
    ensures r.reply.status != 201 ==> r.db == db
    ensures r.reply.status == 201 ==>
      |r.db.customers| == |db.customers| + 1 && r.db == db.(customers := r.db.customers)
      && r.db.customers[..|db.customers|] == db.customers
      && TakenFromCaller(r.db.customers[|db.customers|], h, fo, f, uuid)
    ensures Keys(db) ==> Keys(r.db)
  {
    var refusal := Refusal(CustomerPermissions, u);
    if refusal.Some? then Step(db, refusal.value)
    else if !AllGiven(f) then Step(db, BadRequest(MissingFields))
    else if FieldError(Fields(f)).Some? then Step(db, BadRequest(FieldError(Fields(f)).value))
    else if Duplicate(db, f.npi.value, f.phoneNumber.value, fo.countryId) then Step(db, BadRequest(AlreadyExists))
    else if !CustomerWithNpi(db, f.npi.value).NoRow? then Step(db, Crash)
    else
      var c := Customer(
        NextId(db.customers, (c: Customer) => c.id), uuid,
        f.firstName.value, f.lastName.value, f.email.value, f.npi.value, f.phoneNumber.value,
        Some(fo.id), h.zone, Some(h.id), fo.countryId);
      UniqueAppend(db.customers, (c: Customer) => c.npi, c);
      assert (db.customers + [c])[..|db.customers|] == db.customers;
      Step(db.(customers := db.customers + [c]), Reply(201, Message(CustomerCreated)))
  }

  /** An existing (npi, phone, country) triple is refused with 400 and nothing is inserted. */
  lemma DuplicateIsRefused(db: Db, u: Account, h: Huissier, fo: FrontOffice, f: CustomerForm, uuid: string)
    requires Refusal(CustomerPermissions, u).None? && AllGiven(f) && FieldError(Fields(f)).None?
    requires Duplicate(db, f.npi.value, f.phoneNumber.value, fo.countryId)
    ensures CreateCustomerStep(db, u, h, fo, f, uuid) == Step(db, BadRequest(AlreadyExists))
  {
  }

  /** The same NPI with another phone or country passes the duplicate check and breaks the unique NPI column. */
  lemma NpiClashIsServerError(db: Db, u: Account, h: Huissier, fo: FrontOffice, f: CustomerForm, uuid: string)
    requires Refusal(CustomerPermissions, u).None? && AllGiven(f) && FieldError(Fields(f)).None?
    requires !Duplicate(db, f.npi.value, f.phoneNumber.value, fo.countryId)
    requires exists i :: 0 <= i < |db.customers| && db.customers[i].npi == f.npi.value
    ensures CreateCustomerStep(db, u, h, fo, f, uuid) == Step(db, Crash)
  {
  }

  /** The view's validation loop: walks the list in order and returns at the first message. */
  method FirstFieldError(fields: seq<Field>) returns (error: Option<string>)
    ensures error == FieldError(fields)
  {
    for i := 0 to |fields|
      invariant forall j :: 0 <= j < i ==> Problem(fields[j]) == ""
      invariant FieldError(fields) == FieldError(fields[i..])
    {
      var verdict := ValidateString(Some(fields[i].value), fields[i].rules);
      if verdict.Returns? && verdict.message != "" {
        return Some(fields[i].name + ": " + verdict.message);
      }
      assert fields[i..][1..] == fields[i + 1..];
    }
    return None;
  }

  /** `CreateCustomer.post` on the tables in place; the validation loop returns at the first error. */
  method CreateCustomer(store: Store, u: Account, h: Huissier, fo: FrontOffice, f: CustomerForm, uuid: string)
    returns (reply: Reply)
    modifies store
    ensures store.Tables() == CreateCustomerStep(old(store.Tables()), u, h, fo, f, uuid).db
    ensures reply == CreateCustomerStep(old(store.Tables()), u, h, fo, f, uuid).reply
  {
    var refusal := Refusal(CustomerPermissions, u);
    if refusal.Some? {
      return refusal.value;
    }
    if !AllGiven(f) {
      return BadRequest(MissingFields);
    }
    var error := FirstFieldError(Fields(f));
    if error.Some? {
      return BadRequest(error.value);
    }
    if Duplicate(store.Tables(), f.npi.value, f.phoneNumber.value, fo.countryId) {
      return BadRequest(AlreadyExists);
    }
    if !CustomerWithNpi(store.Tables(), f.npi.value).NoRow? {
      return Crash;
    }
    var id := NextId(store.customers, (c: Customer) => c.id);
    store.customers := store.customers + [Customer(
      id, uuid, f.firstName.value, f.lastName.value, f.email.value, f.npi.value, f.phoneNumber.value,
      Some(fo.id), h.zone, Some(h.id), fo.countryId)];
    return Reply(201, Message(CustomerCreated));
  }

  /** `CustomerByNPI.get`: 400 without an NPI, 404 for an unknown one, else the customer's full name. */
  function CustomerByNpi(db: Db, u: Account, npi: Option<string>): (r: Reply)
    ensures Refusal(CustomerPermissions, u).Some? ==> r.status == 403
    ensures Refusal(CustomerPermissions, u).None? ==>
      (r.status == 400 <==> !Truthy(npi))
      && (r.status == 404 <==> Truthy(npi) && CustomerWithNpi(db, npi.value).NoRow?)
    ensures r.status == 200 ==> Truthy(npi) && exists i :: (0 <= i < |db.customers| && db.customers[i].npi == npi.value
      && r.body == CustomerName(db.customers[i].firstName + " " + db.customers[i].lastName))
    ensures Unique(db.customers, (c: Customer) => c.npi) && Refusal(CustomerPermissions, u).None? && Truthy(npi) ==>
      r.status == 200 || r.status == 404
  {
    var refusal := Refusal(CustomerPermissions, u);
    if refusal.Some? then refusal.value
    else if !Truthy(npi) then BadRequest("npi required")
    else
      match CustomerWithNpi(db, npi.value)
      case NoRow => Reply(404, Error("customer not found"))
      case ManyRows => Crash
      case OneRow(i, c) =>
        assert db.customers[i] == c;
        Reply(200, CustomerName(c.firstName + " " + c.lastName))
  }
}
