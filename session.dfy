/**
 * The client session manager of the dashboard: four state cells (user,
 * isAuthenticated, accessToken, refreshToken) mirrored into three browser
 * storage keys, with restore-on-start, login, silent refresh of an expired
 * access token, logout and password change.
 *
 * Network replies, the clock and the token decoder are inputs. Every request
 * the manager sends is appended to an outbox, so "no request is issued" is a
 * statement about the outbox.
 */
module Session {
  import opened Wrappers
  import opened Text

  const UserKey := "scoreUser"
  const AccessKey := "accessToken"
  const RefreshKey := "refreshToken"

  /** The profile kept in the `user` cell; `role` is the backend's `type_user`. */
  datatype User = User(id: string, username: string, email: string, role: string)

  /** The JSON body of a login reply; every member may be missing. */
  datatype LoginBody = LoginBody(
    access_token: Option<string>,
    refresh_token: Option<string>,
    type_user: Option<string>,
    user_id: Option<string>,
    username: Option<string>)

  /**
   * What `fetch` produced: a response (status, raw text, parsed JSON body) or
   * a thrown exception with its message. An ok response whose body does not
   * parse is a `Thrown` reply carrying the parse error's message.
   */
  datatype Reply<P> = Response(status: int, text: string, body: P) | Thrown(message: string)

  /** `response.ok`. */
  predicate Ok(status: int) {
    200 <= status <= 299
  }

  /** The requests the manager sends to the backend. */
  datatype Request =
    | LoginRequest(email: string, password: string)
    | RefreshRequest(refreshToken: string)
    | ChangePasswordRequest(bearer: string, oldPassword: string, newPassword: string)

  /**
   * What decoding the middle segment of an access token yields: nothing usable
   * (the decoder throws), or a claims object whose `exp` may be missing or
   * not a number.
   */
  datatype Decoded = Malformed | Claims(exp: Option<int>)

  /** The whole observable state: the four cells, the storage and the requests sent so far. */
  datatype Snapshot = Snapshot(
    user: Option<User>,
    isAuthenticated: bool,
    accessToken: Option<string>,
    refreshToken: Option<string>,
    storage: map<string, string>,
    outbox: seq<Request>)

  /** A state after an operation, with the operation's result. */
  datatype Step<R> = Step(after: Snapshot, result: R)

  /** The state before the restore effect runs: empty cells over whatever storage holds. */
  function Initial(saved: map<string, string>): (s: Snapshot)
    ensures !s.isAuthenticated && s.user.None? && s.accessToken.None? && s.refreshToken.None?
    ensures s.storage == saved && s.outbox == []
  {
    Snapshot(None, false, None, None, saved, [])
  }

  // ---------------------------------------------------------------------------
  // The stored profile: JSON.stringify / JSON.parse of the user record,
  // abstracted as a length-prefixed encoding of its four members.
  // ---------------------------------------------------------------------------

  function EncodeField(s: string): string {
    Decimal(|s|) + ":" + s
  }

  /** Reads one encoded member off the front of t, returning it and the rest. */
  function DecodeField(t: string): Option<(string, string)> {
    var k := LeadingDigits(t);
    if k == 0 || k == |t| || t[k] != ':' then None
    else
      var n := ValueOf(t[..k]);
      if k + 1 + n <= |t| then Some((t[k + 1..k + 1 + n], t[k + 1 + n..])) else None
  }

  function EncodeUser(u: User): string {
    EncodeField(u.id) + EncodeField(u.username) + EncodeField(u.email) + EncodeField(u.role)
  }

  function DecodeUser(t: string): Option<User> {
    match DecodeField(t)
    case None => None
    case Some((id, t1)) =>
      match DecodeField(t1)
      case None => None
      case Some((username, t2)) =>
        match DecodeField(t2)
        case None => None
        case Some((email, t3)) =>
          match DecodeField(t3)
          case None => None
          case Some((role, t4)) => if t4 == "" then Some(User(id, username, email, role)) else None
  }

  lemma {:induction false} FieldRoundTrip(s: string, rest: string)
    ensures DecodeField(EncodeField(s) + rest) == Some((s, rest))
  {
    var d := Decimal(|s|);
    var t := EncodeField(s) + rest;
    assert t == d + (":" + s + rest);
    LeadingDigitsOfNumeral(d, ":" + s + rest);
    assert t[..|d|] == d;
    DecimalRoundTrip(|s|);
    assert t[|d| + 1..|d| + 1 + |s|] == s;
    assert t[|d| + 1 + |s|..] == rest;
  }

  /** Four members read off one after the other, with nothing left, make the profile. */
  lemma DecodeUserOfFields(t: string, t1: string, t2: string, t3: string, id: string, username: string, email: string, role: string)
    requires DecodeField(t) == Some((id, t1)) && DecodeField(t1) == Some((username, t2))
    requires DecodeField(t2) == Some((email, t3)) && DecodeField(t3) == Some((role, ""))
    ensures DecodeUser(t) == Some(User(id, username, email, role))
  {
  }

  lemma EncodeUserSplits(u: User)
    ensures EncodeUser(u) == EncodeField(u.id) + (EncodeField(u.username) + (EncodeField(u.email) + EncodeField(u.role)))
  {
  }

  /** Parsing the stored profile gives back the profile that was stored. */
  lemma {:induction false} UserRoundTrip(u: User)
    ensures DecodeUser(EncodeUser(u)) == Some(u)
  {
    var e1, e2, e3, e4 := EncodeField(u.id), EncodeField(u.username), EncodeField(u.email), EncodeField(u.role);
    EncodeUserSplits(u);
    FieldRoundTrip(u.id, e2 + (e3 + e4));
    FieldRoundTrip(u.username, e3 + e4);
    FieldRoundTrip(u.email, e4);
    FieldRoundTrip(u.role, "");
    assert e4 + "" == e4;
    DecodeUserOfFields(EncodeUser(u), e2 + (e3 + e4), e3 + e4, e4, u.id, u.username, u.email, u.role);
  }

  // ---------------------------------------------------------------------------
  // The invariant the operations keep
  // ---------------------------------------------------------------------------

  /** Every cell that holds a value is also held, with the same value, in storage. */
  ghost predicate Mirrored(s: Snapshot) {
    && (s.user.Some? ==> UserKey in s.storage && DecodeUser(s.storage[UserKey]) == s.user)
    && (s.accessToken.Some? ==> AccessKey in s.storage && s.storage[AccessKey] == s.accessToken.value)
    && (s.refreshToken.Some? ==> RefreshKey in s.storage && s.storage[RefreshKey] == s.refreshToken.value)
  }

  /**
   * Authenticated exactly when a profile and an access token are held; a
   * refresh token is only held, non-empty, inside an authenticated session.
   */
  ghost predicate Consistent(s: Snapshot) {
    && (s.isAuthenticated <==> s.user.Some? && s.accessToken.Some?)
    && (s.refreshToken.Some? ==> s.isAuthenticated && s.refreshToken.value != "")
    && Mirrored(s)
  }

  lemma InitialIsConsistent(saved: map<string, string>)
    ensures Consistent(Initial(saved))
  {
  }

  // ---------------------------------------------------------------------------
  // The operations, as functions of the state before them
  // ---------------------------------------------------------------------------

  /** The restore effect run once on start: reads the three keys, sends nothing. */
  function RestoreStep(s: Snapshot): (r: Snapshot)
    ensures r.storage == s.storage && r.outbox == s.outbox
    ensures var savedUser, savedAccess := Get(s.storage, UserKey), Get(s.storage, AccessKey);
      if Truthy(savedUser) && Truthy(savedAccess) && DecodeUser(savedUser.value).Some? then
        && r.isAuthenticated
        && r.user == DecodeUser(savedUser.value)
        && r.accessToken == savedAccess
        && r.refreshToken == (if Truthy(Get(s.storage, RefreshKey)) then Get(s.storage, RefreshKey) else s.refreshToken)
      else r == s
    ensures Consistent(s) ==> Consistent(r)
  {
    var savedUser := Get(s.storage, UserKey);
    var savedAccess := Get(s.storage, AccessKey);
    var savedRefresh := Get(s.storage, RefreshKey);
    if Truthy(savedUser) && Truthy(savedAccess) then
      match DecodeUser(savedUser.value)
      // JSON.parse throws before any cell is set
      case None => s
      case Some(u) =>
        s.(user := Some(u),
           accessToken := savedAccess,
           refreshToken := if Truthy(savedRefresh) then savedRefresh else s.refreshToken,
           isAuthenticated := true)
    else s
  }

  /** Every cell emptied, the three keys removed, other keys and the outbox kept. */
  function LogoutStep(s: Snapshot): (r: Snapshot)
    ensures !r.isAuthenticated && r.user.None? && r.accessToken.None? && r.refreshToken.None?
    ensures UserKey !in r.storage && AccessKey !in r.storage && RefreshKey !in r.storage
    ensures forall k :: k in s.storage && k != UserKey && k != AccessKey && k != RefreshKey ==>
      k in r.storage && r.storage[k] == s.storage[k]
    ensures r.storage.Keys <= s.storage.Keys
    ensures r.outbox == s.outbox
    ensures Consistent(r)
  {
    s.(user := None, accessToken := None, refreshToken := None, isAuthenticated := false,
       storage := s.storage - {UserKey, AccessKey, RefreshKey})
  }

  /** The reply a refresh request gets: status 401 ends the session, other failures are soft. */
  function RefreshStep(s: Snapshot, reply: Reply<string>): (r: Step<Option<string>>)
    ensures !Truthy(s.refreshToken) ==> r == Step(s, None)
    ensures Truthy(s.refreshToken) ==> r.after.outbox == s.outbox + [RefreshRequest(s.refreshToken.value)]
    ensures Truthy(s.refreshToken) && reply.Response? && reply.status == 401 ==>
      r.result.None? && r.after == LogoutStep(s).(outbox := r.after.outbox)
    ensures Truthy(s.refreshToken) && (reply.Thrown? || (!Ok(reply.status) && reply.status != 401)) ==>
      r.result.None? && r.after == s.(outbox := r.after.outbox)
    ensures Truthy(s.refreshToken) && reply.Response? && Ok(reply.status) ==>
      && r.result == Some(reply.body)
      && r.after == s.(accessToken := Some(reply.body),
                       storage := s.storage[AccessKey := reply.body],
                       outbox := r.after.outbox)
    ensures Consistent(s) ==> Consistent(r.after)
  {
    if !Truthy(s.refreshToken) then Step(s, None)
    else
      var sent := s.(outbox := s.outbox + [RefreshRequest(s.refreshToken.value)]);
      match reply
      case Thrown(_) => Step(sent, None)
      case Response(status, _, token) =>
        if !Ok(status) then
          if status == 401 then Step(LogoutStep(sent), None) else Step(sent, None)
        else
          Step(sent.(accessToken := Some(token), storage := sent.storage[AccessKey := token]), Some(token))
  }

  /** The held access token has expired (`Date.now() >= exp * 1000`) or does not decode. */
  predicate Stale(token: string, now: int, decode: string -> Decoded) {
    match decode(token)
    case Malformed => true
    // a missing or non-numeric exp compares false against the clock
    case Claims(exp) => exp.Some? && now >= exp.value * 1000
  }

  /**
   * The accessor every page calls: the held token while it is fresh, else the
   * result of one refresh attempt.
   */
  function GetAccessTokenStep(s: Snapshot, now: int, decode: string -> Decoded, reply: Reply<string>)
    : (r: Step<Option<string>>)
    ensures !Truthy(s.accessToken) ==> r == Step(s, None)
    ensures Truthy(s.accessToken) && !Stale(s.accessToken.value, now, decode) ==> r == Step(s, s.accessToken)
    ensures Truthy(s.accessToken) && Stale(s.accessToken.value, now, decode) ==> r == RefreshStep(s, reply)
    ensures Truthy(s.accessToken) ==>
      ((r.result == s.accessToken && r.after.outbox == s.outbox) <==> !Stale(s.accessToken.value, now, decode))
    ensures r.after.outbox == s.outbox || exists t :: r.after.outbox == s.outbox + [RefreshRequest(t)]
    ensures Consistent(s) ==> Consistent(r.after)
  {
    if !Truthy(s.accessToken) then Step(s, None)
    else if Stale(s.accessToken.value, now, decode) then RefreshStep(s, reply)
    else Step(s, s.accessToken)
  }

  /** The profile built from a successful login reply. */
  function ProfileOf(email: string, body: LoginBody): (u: User)
    requires Truthy(body.type_user)
    ensures u.id == OrElse(body.user_id, "1")
    ensures u.username == OrElse(body.username, Before(email, '@'))
    ensures u.email == email && u.role == body.type_user.value
  {
    User(OrElse(body.user_id, "1"), OrElse(body.username, Before(email, '@')), email, body.type_user.value)
  }

  /** A login reply the manager accepts: ok, with the two tokens and the role present. */
  predicate Accepted(reply: Reply<LoginBody>) {
    && reply.Response?
    && Ok(reply.status)
    && Truthy(reply.body.access_token) && Truthy(reply.body.refresh_token) && Truthy(reply.body.type_user)
  }

  /** Login: one request; on an accepted reply all four cells and all three keys are written, else nothing. */
  function LoginStep(s: Snapshot, email: string, password: string, reply: Reply<LoginBody>)
    : (r: Step<Outcome<string>>)
    ensures r.after.outbox == s.outbox + [LoginRequest(email, password)]
    ensures r.result.Pass? <==> Accepted(reply)
    ensures r.result.Fail? ==> r.after == s.(outbox := r.after.outbox)
    ensures reply.Thrown? ==> r.result == Fail(reply.message)
    ensures reply.Response? && !Ok(reply.status) ==> r.result == Fail(reply.text)
    ensures reply.Response? && Ok(reply.status) && !Accepted(reply) ==> r.result == Fail("Réponse invalide du serveur")
    ensures Accepted(reply) ==>
      var u := ProfileOf(email, reply.body);
      && r.after.isAuthenticated
      && r.after.user == Some(u)
      && r.after.accessToken == reply.body.access_token
      && r.after.refreshToken == reply.body.refresh_token
      && r.after.storage == s.storage[UserKey := EncodeUser(u)]
                                     [AccessKey := reply.body.access_token.value]
                                     [RefreshKey := reply.body.refresh_token.value]
    ensures Consistent(s) ==> Consistent(r.after)
  {
    var sent := s.(outbox := s.outbox + [LoginRequest(email, password)]);
    match reply
    case Thrown(m) => Step(sent, Fail(m))
    case Response(status, text, body) =>
      if !Ok(status) then Step(sent, Fail(text))
      else if !Truthy(body.access_token) || !Truthy(body.refresh_token) || !Truthy(body.type_user) then
        Step(sent, Fail("Réponse invalide du serveur"))
      else
        var u := ProfileOf(email, body);
        UserRoundTrip(u);
        Step(sent.(user := Some(u),
                   accessToken := body.access_token,
                   refreshToken := body.refresh_token,
                   isAuthenticated := true,
                   storage := s.storage[UserKey := EncodeUser(u)]
                                       [AccessKey := body.access_token.value]
                                       [RefreshKey := body.refresh_token.value]),
             Pass)
  }

  const NoTokenMessage := "Token d'accès non disponible"
  const ChangeFailedMessage := "Échec du changement de mot de passe"

  /**
   * Password change: a token from the accessor, then one request bearing it.
   * The body of a failed reply is its JSON `message` member.
   */
  function ChangePasswordStep(
    s: Snapshot, oldPassword: string, newPassword: string,
    now: int, decode: string -> Decoded, refreshReply: Reply<string>, reply: Reply<Option<string>>)
    : (r: Step<Outcome<string>>)
    ensures var t := GetAccessTokenStep(s, now, decode, refreshReply);
      && (!Truthy(t.result) ==> r == Step(t.after, Fail(NoTokenMessage)))
      && (Truthy(t.result) ==>
           && r.after == t.after.(outbox := t.after.outbox + [ChangePasswordRequest(t.result.value, oldPassword, newPassword)])
           && (r.result.Pass? <==> reply.Response? && Ok(reply.status))
           && (reply.Thrown? ==> r.result == Fail(reply.message))
           && (reply.Response? && !Ok(reply.status) ==>
                r.result == Fail(if Truthy(reply.body) then reply.body.value else ChangeFailedMessage)))
    ensures r.result.Fail? ==> (r.result.error != "" || (reply.Thrown? && r.result == Fail(reply.message)))
    ensures Consistent(s) ==> Consistent(r.after)
  {
    var t := GetAccessTokenStep(s, now, decode, refreshReply);
    if !Truthy(t.result) then Step(t.after, Fail(NoTokenMessage))
    else
      var sent := t.after.(outbox := t.after.outbox + [ChangePasswordRequest(t.result.value, oldPassword, newPassword)]);
      match reply
      case Thrown(m) => Step(sent, Fail(m))
      case Response(status, _, message) =>
        if Ok(status) then Step(sent, Pass) else Step(sent, Fail(OrElse(message, ChangeFailedMessage)))
  }

  // ---------------------------------------------------------------------------
  // Properties relating several operations
  // ---------------------------------------------------------------------------

  lemma LogoutIsIdempotent(s: Snapshot)
    ensures LogoutStep(LogoutStep(s)) == LogoutStep(s)
  {
  }

  /** A reload after logout finds nothing to restore. */
  lemma RestoreAfterLogoutIsUnauthenticated(s: Snapshot)
    ensures RestoreStep(LogoutStep(s)) == LogoutStep(s)
    ensures !RestoreStep(LogoutStep(s)).isAuthenticated
  {
  }

  /** A stale token is never handed out: the result is whatever the one refresh attempt returned. */
  lemma StaleTokenIsNeverReturned(s: Snapshot, now: int, decode: string -> Decoded, reply: Reply<string>)
    requires Truthy(s.accessToken) && Stale(s.accessToken.value, now, decode)
    ensures var r := GetAccessTokenStep(s, now, decode, reply);
      r.result == RefreshStep(s, reply).result
      && (r.result.Some? ==> reply.Response? && Ok(reply.status) && r.result == Some(reply.body))
  {
  }

  /** After a login, reloading restores the same session from storage. */
  lemma {:induction false} LoginThenReloadRestoresSession(saved: map<string, string>, email: string, password: string, reply: Reply<LoginBody>)
    requires Accepted(reply)
    ensures var a := LoginStep(Initial(saved), email, password, reply).after;
      var b := RestoreStep(Initial(a.storage));
      b.isAuthenticated && b.user == a.user && b.accessToken == a.accessToken && b.refreshToken == a.refreshToken
  {
    var u := ProfileOf(email, reply.body);
    UserRoundTrip(u);
  }

  /** Scenario: a fresh token is returned as is, with no refresh request. */
  lemma FreshLoginGivesTokenWithoutRefresh(saved: map<string, string>, now: int, decode: string -> Decoded, refreshReply: Reply<string>)
    requires decode("T1") == Claims(Some(now / 1000 + 3600))
    ensures var reply := Response(200, "", LoginBody(Some("T1"), Some("R1"), Some("admin"), None, None));
      var a := LoginStep(Initial(saved), "a@b.com", "secret", reply);
      var g := GetAccessTokenStep(a.after, now, decode, refreshReply);
      && a.result == Pass && a.after.isAuthenticated && a.after.user.value.role == "admin"
      && a.after.user.value.username == "a" && a.after.user.value.id == "1"
      && g.result == Some("T1") && g.after == a.after
  {
    var reply := Response(200, "", LoginBody(Some("T1"), Some("R1"), Some("admin"), None, None));
    assert Before("a@b.com", '@') == "a" by {
      assert "a@b.com"[1..] == "@b.com";
    }
  }

  /** Scenario: an expired token is replaced by the refreshed one; the refresh token stays. */
  lemma ExpiredTokenIsRefreshed(saved: map<string, string>, now: int, decode: string -> Decoded)
    requires decode("T1") == Claims(Some(now / 1000 - 1))
    ensures var reply := Response(200, "", LoginBody(Some("T1"), Some("R1"), Some("admin"), None, None));
      var a := LoginStep(Initial(saved), "a@b.com", "secret", reply);
      var g := GetAccessTokenStep(a.after, now, decode, Response(200, "", "T2"));
      && g.result == Some("T2") && g.after.accessToken == Some("T2")
      && g.after.storage[AccessKey] == "T2" && g.after.refreshToken == Some("R1")
      && g.after.storage[RefreshKey] == "R1"
  {
  }

  /** Scenario: a 401 from the refresh endpoint leaves no session and no stored key. */
  lemma RejectedRefreshEndsSession(s: Snapshot, now: int, decode: string -> Decoded, body: string)
    requires Truthy(s.accessToken) && Truthy(s.refreshToken) && Stale(s.accessToken.value, now, decode)
    ensures var g := GetAccessTokenStep(s, now, decode, Response(401, "", body));
      && g.result.None? && !g.after.isAuthenticated
      && UserKey !in g.after.storage && AccessKey !in g.after.storage && RefreshKey !in g.after.storage
  {
  }

  // ---------------------------------------------------------------------------
  // The manager itself: the cells as fields, each operation step by step
  // ---------------------------------------------------------------------------

  class SessionManager {
    var user: Option<User>
    var isAuthenticated: bool
    var accessToken: Option<string>
    var refreshToken: Option<string>
    var storage: map<string, string>
    var outbox: seq<Request>

    function Snap(): Snapshot
      reads this
    {
      Snapshot(user, isAuthenticated, accessToken, refreshToken, storage, outbox)
    }

    ghost predicate Valid()
      reads this
    {
      Consistent(Snap())
    }

    /** The provider as first rendered, before its restore effect. */
    constructor (saved: map<string, string>)
      ensures Snap() == Initial(saved) && Valid()
    {
      user, isAuthenticated, accessToken, refreshToken := None, false, None, None;
      storage, outbox := saved, [];
    }

    method Restore()
      modifies this
      ensures Snap() == RestoreStep(old(Snap()))
      ensures old(Valid()) ==> Valid()
    {
      var savedUser := Get(storage, UserKey);
      var savedAccess := Get(storage, AccessKey);
      var savedRefresh := Get(storage, RefreshKey);
      if Truthy(savedUser) && Truthy(savedAccess) {
        var parsed := DecodeUser(savedUser.value);
        if parsed.Some? {
          user := parsed;
          accessToken := savedAccess;
          if Truthy(savedRefresh) {
            refreshToken := savedRefresh;
          }
          isAuthenticated := true;
        }
      }
    }

    method Logout()
      modifies this
      ensures Snap() == LogoutStep(old(Snap()))
      ensures Valid()
    {
      user := None;
      accessToken := None;
      refreshToken := None;
      isAuthenticated := false;
      storage := storage - {UserKey};
      storage := storage - {AccessKey};
      storage := storage - {RefreshKey};
    }

    method RefreshAccessToken(reply: Reply<string>) returns (token: Option<string>)
      modifies this
      ensures Snap() == RefreshStep(old(Snap()), reply).after
      ensures token == RefreshStep(old(Snap()), reply).result
      ensures old(Valid()) ==> Valid()
    {
      if !Truthy(refreshToken) {
        return None;
      }
      outbox := outbox + [RefreshRequest(refreshToken.value)];
      if reply.Thrown? {
        return None;
      }
      if !Ok(reply.status) {
        if reply.status == 401 {
          Logout();
        }
        return None;
      }
      accessToken := Some(reply.body);
      storage := storage[AccessKey := reply.body];
      return Some(reply.body);
    }

    method GetAccessToken(now: int, decode: string -> Decoded, reply: Reply<string>) returns (token: Option<string>)
      modifies this
      ensures Snap() == GetAccessTokenStep(old(Snap()), now, decode, reply).after
      ensures token == GetAccessTokenStep(old(Snap()), now, decode, reply).result
      ensures old(Valid()) ==> Valid()
    {
      if !Truthy(accessToken) {
        return None;
      }
      var payload := decode(accessToken.value);
      if payload.Malformed? {
        token := RefreshAccessToken(reply);
        return;
      }
      var isExpired := payload.exp.Some? && now >= payload.exp.value * 1000;
      if isExpired {
        token := RefreshAccessToken(reply);
        return;
      }
      return accessToken;
    }

    method Login(email: string, password: string, reply: Reply<LoginBody>) returns (outcome: Outcome<string>)
      modifies this
      ensures Snap() == LoginStep(old(Snap()), email, password, reply).after
      ensures outcome == LoginStep(old(Snap()), email, password, reply).result
      ensures old(Valid()) ==> Valid()
    {
      outbox := outbox + [LoginRequest(email, password)];
      if reply.Thrown? {
        return Fail(reply.message);
      }
      if !Ok(reply.status) {
        return Fail(reply.text);
      }
      var data := reply.body;
      if !Truthy(data.access_token) || !Truthy(data.refresh_token) || !Truthy(data.type_user) {
        return Fail("Réponse invalide du serveur");
      }
      var userData := User(OrElse(data.user_id, "1"), OrElse(data.username, Before(email, '@')), email, data.type_user.value);
      user := Some(userData);
      accessToken := data.access_token;
      refreshToken := data.refresh_token;
      isAuthenticated := true;
      storage := storage[UserKey := EncodeUser(userData)];
      storage := storage[AccessKey := data.access_token.value];
      storage := storage[RefreshKey := data.refresh_token.value];
      return Pass;
    }

    method ChangePassword(
      oldPassword: string, newPassword: string,
      now: int, decode: string -> Decoded, refreshReply: Reply<string>, reply: Reply<Option<string>>)
      returns (outcome: Outcome<string>)
      modifies this
      ensures Snap() == ChangePasswordStep(old(Snap()), oldPassword, newPassword, now, decode, refreshReply, reply).after
      ensures outcome == ChangePasswordStep(old(Snap()), oldPassword, newPassword, now, decode, refreshReply, reply).result
      ensures old(Valid()) ==> Valid()
    {
      var token := GetAccessToken(now, decode, refreshReply);
      if !Truthy(token) {
        return Fail(NoTokenMessage);
      }
      outbox := outbox + [ChangePasswordRequest(token.value, oldPassword, newPassword)];
      if reply.Thrown? {
        return Fail(reply.message);
      }
      if !Ok(reply.status) {
        return Fail(OrElse(reply.body, ChangeFailedMessage));
      }
      return Pass;
    }
  }
}
