/**
 * The login page: an empty-field guard, the session manager's login, then a
 * redirect chosen from the stored profile. Also how a backend login reply
 * flows through the session manager into that redirect.
 */
module LoginPage {
  import opened Wrappers
  import Text
  import Session
  import Schema
  import Accounts
  import Offices
  import Permissions

  const FillEveryField := "Veuillez remplir tous les champs"
  const LoginFailed := "Erreur de connexion"

  /** The redirect chain: a forced password change first, then by role, with the dashboard as default. */
  function Route(mustChangePassword: bool, role: Option<string>): (r: string)
    ensures mustChangePassword ==> r == "/change-password"
    ensures !mustChangePassword && role == Some("financial_advisor") ==> r == "/advisor"
    ensures !mustChangePassword && role == Some("bailiff") ==> r == "/bailiff"
    ensures !mustChangePassword && role != Some("financial_advisor") && role != Some("bailiff") ==> r == "/dashboard"
  {
    if mustChangePassword then "/change-password"
    else if role == Some("admin") then "/dashboard"
    else if role == Some("financial_advisor") then "/advisor"
    else if role == Some("bailiff") then "/bailiff"
    else "/dashboard"
  }

  /** The stored profile carries no `must_change_password`, so only its role matters. */
  function RouteFor(stored: Option<Session.User>): string {
    Route(false, if stored.Some? then Some(stored.value.role) else None)
  }

  /** Every role the backend assigns lands on the dashboard: the advisor and bailiff branches are unreachable. */
  lemma BackendRolesLandOnDashboard(role: string)
    requires role in Permissions.Roles
    ensures Route(false, Some(role)) == "/dashboard"
  {
  }

  /** The message shown when the login throws. */
  function FailureText(e: string): (r: string)
    ensures r != ""
    ensures e != "" ==> r == e
  {
    if e != "" then e else LoginFailed
  }

  class LoginForm {
    const auth: Session.SessionManager
    var email: string
    var password: string
    var loading: bool
    var error: string
    /** Where the page navigated, once it has. */
    var navigatedTo: Option<string>

    constructor (auth: Session.SessionManager)
      ensures this.auth == auth && email == "" && password == "" && !loading && error == "" && navigatedTo.None?
    {
      this.auth := auth;
      email, password, loading, error, navigatedTo := "", "", false, "", None;
    }

    /** `handleSubmit`; reply is what the login request produces. */
    method HandleSubmit(reply: Session.Reply<Session.LoginBody>)
      modifies this, auth
      ensures email == old(email) && password == old(password)
      ensures (old(email) == "" || old(password) == "") ==>
        error == FillEveryField && auth.Snap() == old(auth.Snap()) && navigatedTo == old(navigatedTo)
        && loading == old(loading)
      ensures var login := Session.LoginStep(old(auth.Snap()), old(email), old(password), reply);
        (old(email) != "" && old(password) != "") ==>
          auth.Snap() == login.after && !loading
          && (login.result.Pass? ==> error == "" && navigatedTo == Some(RouteFor(login.after.user)))
          && (login.result.Fail? ==> error == FailureText(login.result.error) && navigatedTo == old(navigatedTo))
      ensures old(auth.Valid()) ==> auth.Valid()
    {
      if email == "" || password == "" {
        error := FillEveryField;
        return;
      }
      loading := true;
      error := "";
      var outcome := auth.Login(email, password, reply);
      if outcome.Fail? {
        error := FailureText(outcome.error);
        loading := false;
        return;
      }
      Session.UserRoundTrip(auth.user.value);
      var stored := Get(auth.storage, Session.UserKey);
      var user := if stored.Some? then Session.DecodeUser(stored.value) else None;
      navigatedTo := Some(RouteFor(user));
      loading := false;
    }
  }

  /** Every user row carries one of the roles the user model allows. */
  ghost predicate RolesValid(db: Schema.Db) {
    forall i :: 0 <= i < |db.accounts| ==> db.accounts[i].role in Permissions.Roles
  }

  /** The three views that create users give them "country", "front office" or "huissier", so the roles stay valid. */
  lemma NewCountryKeepsRoles(db: Schema.Db, u: Schema.Account, f: Accounts.CountryForm, password: string)
    requires RolesValid(db)
    ensures RolesValid(Accounts.NewCountryStep(db, u, f, password).db)
  {
  }

  lemma CreateFrontOfficeKeepsRoles(db: Schema.Db, u: Schema.Account, country: nat, f: Offices.OfficeForm, password: string)
    requires RolesValid(db)
    ensures RolesValid(Offices.CreateFrontOfficeStep(db, u, country, f, password).db)
  {
  }

  lemma CreateHuissierKeepsRoles(db: Schema.Db, u: Schema.Account, office: nat, f: Offices.HuissierForm, password: string)
    requires RolesValid(db)
    ensures RolesValid(Offices.CreateHuissierStep(db, u, office, f, password).db)
  {
  }

  /** The session's view of a backend login reply: only the two tokens and the role are sent. */
  function ClientReply(r: Schema.Reply): Session.Reply<Session.LoginBody>
    requires r.body.Tokens?
  {
    Session.Response(r.status, "", Session.LoginBody(
      Some(r.body.access_token), Some(r.body.refresh_token), Some(r.body.type_user), None, None))
  }

  /** A successful backend login answers with the two tokens and the role of a row the user model allows. */
  lemma BackendLoginBody(db: Schema.Db, email: string, password: string, access: string, refresh: string)
    requires RolesValid(db)
    requires Accounts.LoginView(db, Some(email), Some(password), access, refresh).status == 200
    ensures var answer := Accounts.LoginView(db, Some(email), Some(password), access, refresh);
      answer.body.Tokens? && answer.body.access_token == access && answer.body.refresh_token == refresh
      && answer.body.type_user in Permissions.Roles
  {
    var row := Accounts.AccountWithEmail(db, email).row;
    assert row in db.accounts;
  }

  /** The session manager accepts a reply carrying two tokens and a backend role, and keeps the defaults for the rest. */
  lemma SessionAcceptsBackendRole(s: Session.Snapshot, email: string, password: string, access: string, refresh: string, role: string)
    requires role in Permissions.Roles && access != "" && refresh != ""
    ensures var login := Session.LoginStep(s, email, password,
        Session.Response(200, "", Session.LoginBody(Some(access), Some(refresh), Some(role), None, None)));
      && login.result.Pass?
      && login.after.user == Some(Session.User("1", Text.Before(email, '@'), email, role))
  {
    assert role != "";
  }

  /**
   * A successful backend login is accepted by the session manager, which,
   * having no user id or username in the reply, stores id "1" and the text of
   * the email before '@'; the page then opens the dashboard.
   */
  lemma BackendLoginLandsOnDashboard(
    db: Schema.Db, email: string, password: string, access: string, refresh: string, s: Session.Snapshot)
    requires RolesValid(db) && access != "" && refresh != ""
    requires Accounts.LoginView(db, Some(email), Some(password), access, refresh).status == 200
    ensures var answer := Accounts.LoginView(db, Some(email), Some(password), access, refresh);
      var login := Session.LoginStep(s, email, password, ClientReply(answer));
      && login.result.Pass?
      && login.after.user.Some?
      && login.after.user.value.id == "1"
      && login.after.user.value.username == Text.Before(email, '@')
      && login.after.user.value.role in Permissions.Roles
      && RouteFor(login.after.user) == "/dashboard"
  {
    BackendLoginBody(db, email, password, access, refresh);
    var answer := Accounts.LoginView(db, Some(email), Some(password), access, refresh);
    var role := answer.body.type_user;
    assert ClientReply(answer) == Session.Response(200, "", Session.LoginBody(Some(access), Some(refresh), Some(role), None, None));
    SessionAcceptsBackendRole(s, email, password, access, refresh, role);
    BackendRolesLandOnDashboard(role);
  }
}
