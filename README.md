# Score platform: a verified model of its session, registry and page logic

The Score platform is a credit-scoring service with a Django back end and a
React dashboard. Countries subscribe to it. Front offices, huissiers (bailiffs)
and financial advisers record customers and their loans. A consultation code
kept in a cache lets a creditor look up a debtor.

This project models three parts of it in Dafny and proves properties of each:

- **The dashboard's session manager** (`Session`). It has four state cells
  (`user`, `isAuthenticated`, `accessToken`, `refreshToken`), which it mirrors
  into three storage keys. Its operations are restore-on-start, login, the
  access-token accessor with its silent refresh, refresh itself, logout and
  password change. `Session.SessionManager` keeps these cells as fields and runs
  each operation step by step. Each method is proved equal to a pure step
  function over a `Snapshot`. The lemmas about those step functions give the
  properties, and every operation preserves the invariant
  "authenticated ⇔ profile and token held, every cell mirrored in storage".
  Every request sent goes into an `outbox`, so "no request is issued" can be
  stated.
- **The back end's validation and registry rules**, over in-memory tables
  (`Schema.Db`, updated in place through `Schema.Store`):
  - the string validator with its two patterns, and the file-extension check
    (`Validators`);
  - customer creation and lookup (`Customers`);
  - the permission classes (`Permissions`);
  - login, country creation, subscription with expiry stacking, password
    change and the huissier's overdue alerts (`Accounts`, `Calendar`);
  - front offices, huissiers, the zone registry, the consultation-code loops
    over the code cache and loan registration (`Offices`).

  Each view is a pure `…Step` or `…View` function that returns the new tables
  and the reply. A method on the `Store` performs the same change in place and
  is proved to agree with that function.
- **Front-end page logic**:
  - days remaining, the subscription label and badge, the search filter and
    the status switch (`Representatives`);
  - the client file's debt bookkeeping (`InfosClient`);
  - the demonstration credit-score page (`CreditScore`);
  - notification read state (`Notifications`);
  - the settings page's password form (`SettingsPage`);
  - the login page's guard and redirect (`LoginPage`).

  Each page is a class whose fields are its state cells. Its methods are proved
  against pure functions on those cells.

Modelling conventions:

- **Inputs from outside.** Network replies, the clock, the token decoder,
  random draws, lower-casing and date parsing are given as parameters.
- **JavaScript truthiness.** A truthy optional string is `Some(s)` with
  `s != ""`.
- **Crashes.** An exception the view does not catch becomes a 500 reply
  (`Schema.Crash`). Examples are `.decode()` on a missing cache entry and a
  unique-constraint violation.

## Model

| member | source | states |
|---|---|---|
| Session.Initial | score_front/src/context/AuthContext.tsx:30-34 | The provider starts unauthenticated with all four cells empty, over whatever storage holds, with no request sent. |
| Session.UserRoundTrip | score_front/src/context/AuthContext.tsx:120 | Parsing the stored profile gives back exactly the profile that was stored, so a reload restores the same user. |
| Session.InitialIsConsistent | score_front/src/context/AuthContext.tsx:30-34 | The starting state satisfies the session invariant. |
| Session.RestoreStep | score_front/src/context/AuthContext.tsx:36-47 | Restore sends nothing and keeps storage. It authenticates exactly when both the profile and the access token are stored, and loads the refresh token only when that key is present too. It preserves the invariant. |
| Session.LogoutStep | score_front/src/context/AuthContext.tsx:175-183 | After logout all four cells are empty and the three keys are gone. Other keys and the outbox are kept, and the result is consistent. |
| Session.RefreshStep | score_front/src/context/AuthContext.tsx:49-74 | With no refresh token: null, and no request. Otherwise exactly one refresh request is sent. A 401 is a full logout. Any other failure or a thrown error returns null and changes nothing else. Success overwrites only the access token, in its cell and its key. |
| Session.GetAccessTokenStep | score_front/src/context/AuthContext.tsx:76-90 | With no token: null, and no request. A token that is still fresh (now < exp·1000) comes back unchanged with no request. An expired or undecodable token gives exactly the result of one refresh attempt. At most one request is sent. |
| Session.ProfileOf | score_front/src/context/AuthContext.tsx:108-113 | The stored profile's id defaults to "1" and its username to the text of the email before '@'. The email and role come from the request and the reply. |
| Session.LoginStep | score_front/src/context/AuthContext.tsx:92-127 | Login sends one request. It succeeds exactly when the reply is ok and carries both tokens and the role. On failure nothing but the outbox changes, and the error is the thrown message, the response text, or the fixed invalid-reply text. On success the four cells and the three keys are set. |
| Session.ChangePasswordStep | score_front/src/context/AuthContext.tsx:147-173 | The token comes from the accessor, with its possible refresh. Then one change request bearing that token is sent. With no token it fails with "Token d'accès non disponible". A thrown request fails with its message. A non-ok reply fails with its `message` member, or "Échec du changement de mot de passe" when that is empty. The invariant is kept. |
| Session.LogoutIsIdempotent | score_front/src/context/AuthContext.tsx:175-183 | Logging out twice gives the same state as logging out once. |
| Session.RestoreAfterLogoutIsUnauthenticated | score_front/src/context/AuthContext.tsx:36-47 | A reload after logout restores nothing. |
| Session.StaleTokenIsNeverReturned | score_front/src/context/AuthContext.tsx:81-89 | An expired token is never handed out: the result is the refresh attempt's. |
| Session.LoginThenReloadRestoresSession | score_front/src/context/AuthContext.tsx:36-47 | A restore after a successful login reproduces the logged-in cells from storage. |
| Session.FreshLoginGivesTokenWithoutRefresh | score_front/src/context/AuthContext.tsx:77-85 | Scenario: just after login, the fresh token is returned with no refresh request. |
| Session.ExpiredTokenIsRefreshed | score_front/src/context/AuthContext.tsx:81-89 | Scenario: an expired token is replaced by the refreshed one, and the refresh token stays. |
| Session.RejectedRefreshEndsSession | score_front/src/context/AuthContext.tsx:61-64 | Scenario: a 401 from refresh leaves no session and no stored key. |
| Session.SessionManager.Restore | score_front/src/context/AuthContext.tsx:36-47 | The in-place restore equals RestoreStep and keeps the invariant. |
| Session.SessionManager.Logout | score_front/src/context/AuthContext.tsx:175-183 | The in-place logout equals LogoutStep. |
| Session.SessionManager.RefreshAccessToken | score_front/src/context/AuthContext.tsx:49-74 | The in-place refresh equals RefreshStep in state and result. |
| Session.SessionManager.GetAccessToken | score_front/src/context/AuthContext.tsx:76-90 | The in-place accessor equals GetAccessTokenStep in state and result. |
| Session.SessionManager.Login | score_front/src/context/AuthContext.tsx:92-127 | The in-place login equals LoginStep in state and outcome. |
| Session.SessionManager.ChangePassword | score_front/src/context/AuthContext.tsx:147-173 | The in-place change equals ChangePasswordStep in state and outcome. |
| Validators.ValidateString | score_backend/score/validators.py:7-23 | Only a missing string can raise the TypeError. "" is returned only when the required check is unset or the string is truthy. |
| Validators.ValidateIsFirstFailure | score_backend/score/validators.py:13-22 | On a string, the result is the message of the first failing configured check, in the order required → length → name → number. |
| Validators.EmptyExactlyWhenAllPass | score_backend/score/validators.py:23 | "" comes back exactly when every configured check passes. |
| Validators.RequiredFailsOnEmpty | score_backend/score/validators.py:13-14 | The required check fails exactly on None and "", and its message then wins. Otherwise the result is as if it were not configured. |
| Validators.LengthCheck | score_backend/score/validators.py:15-18 | The length check runs only when both the value and the message are set, and fails exactly when the string is shorter than the value. |
| Validators.Checks | score_backend/score/validators.py:4-5 | Every configured check carries a non-empty message. The name pattern admits only `[a-zA-Z0-9._-]` runs and the number pattern only digit runs, each allowing one trailing newline as Python's `$` does. |
| Validators.FirstFailure | score_backend/score/validators.py:13-23 | The result is "" exactly when no check fails. Otherwise it is the message of the earliest failing check. |
| Validators.Extension | score_backend/score/validators.py:25-29 | The extension `os.path.splitext` extracts: empty, or a suffix of the path after the last '/' that starts with its only '.' and follows a non-dot character. It is empty exactly when no '.' of the base name follows a non-dot character of it. |
| Validators.ExtensionOfStem | score_backend/score/validators.py:25-29 | For a name of the form stem.suffix whose stem does not start with a dot, the extension is ".suffix", and the file passes exactly when ".suffix" is allowed. |
| Validators.ValidateFile | score_backend/score/validators.py:25-29 | A file passes exactly when that extension is in the allowed list. |
| Customers.Fields | score_backend/customer/views.py:156-181 | The five fields are validated in the order npi, last_name, first_name, phone_number, email, each with its rule set. |
| Customers.FieldError | score_backend/customer/views.py:189-198 | None exactly when every field passes. Otherwise it is the first failing field's name and message. |
| Customers.FirstFieldError | score_backend/customer/views.py:189-198 | The field loop with early return computes FieldError. |
| Customers.EmailNeedsOnlyFiveCharacters | score_backend/customer/views.py:174-181 | The rule key for email is ignored, so an email passes exactly when it has at least 5 characters. |
| Customers.NameRulesAccept | score_backend/customer/views.py:156-163 | A name field passes exactly when it has at least 2 characters and matches the name pattern. |
| Customers.NumberRulesAccept | score_backend/customer/views.py:165-172 | The phone field passes exactly when it has at least 6 characters and matches the number pattern. |
| Customers.CreateCustomerStep | score_backend/customer/views.py:184-216 | The order is: 403 on refusal; 400 on a missing field, before any validation; then the first field error. 201 holds exactly when all pass and neither a duplicate (npi, phone, country) nor a taken npi exists. Nothing changes unless 201. The new customer takes its huissier, zone, front office and country from the caller. |
| Customers.DuplicateIsRefused | score_backend/customer/views.py:201-202 | A duplicate (npi, phone, country) gives 400 and nothing is created. |
| Customers.NpiClashIsServerError | score_backend/customer/views.py:205-216 | An npi used by another customer, with a different phone or country, violates the unique column: a 500. |
| Customers.CreateCustomer | score_backend/customer/views.py:146-216 | The in-place view equals CreateCustomerStep. |
| Customers.CustomerByNpi | score_backend/customer/views.py:222-240 | 403 on refusal, 400 for a missing npi, 404 for an unknown one. With unique npis, a known npi gives 200 with first name + " " + last name. |
| Permissions.RolePredicates | score_backend/score/permissions.py:3-35 | Each role predicate holds exactly when the role equals its string. IsPasswordChanged holds exactly when password_changed is set. |
| Permissions.RolesAreExclusive | score_backend/score/permissions.py:3-30 | At most one role predicate holds for any user. |
| Permissions.SupportPassesNoRole | score_backend/users/models.py:8-15 | A "support" user passes no role predicate. |
| Permissions.RoleOf | score_backend/score/permissions.py:3-30 | Each role predicate compares against a role the user model allows, and never "support". |
| Permissions.FirstDenial | score_backend/score/permissions.py:3-35 | None exactly when every listed permission holds. Otherwise it is a listed permission the caller fails. |
| Schema.Refusal | score_backend/score/permissions.py:3-35 | A view's permission list lets the caller through exactly when every permission holds. Otherwise the reply is a 403. |
| Schema.GetOne | score_backend/country/views.py:226 | `objects.get` finds no row exactly when none matches. One row means that row is the only match. Several means at least two rows match. |
| Accounts.AccountWithEmail | score_backend/users/views.py:45 | No row exactly when no account has the email. A single row has that email. Unique emails rule out several rows. |
| Accounts.LoginView | score_backend/users/views.py:37-58 | 400 "incorrect email or password" when the email or password is missing, 404 "Not found." for an unknown email, and 400 "Bad password" for a wrong password. 200 holds exactly when the stored password matches. The body then holds only the two tokens and the user's role. |
| Accounts.LoginChecksPassword | score_backend/users/views.py:45-58 | For a stored user, login succeeds exactly with the right password and returns that user's role. |
| Accounts.NewCountryStep | score_backend/users/views.py:63-107 | Missing fields give 400 with nothing changed. A country with the same code and name gives 400 "Le pays avec le code '<code>' existe déjà.", and a taken email then gives 400 "Email already taken", both with nothing changed. 201 holds exactly when no duplicate (code, name), email, username or country column clash exists. It creates a "country" user named after the country and one linked country. The keys stay unique. |
| Accounts.CodeClashOrphansTheUser | score_backend/users/views.py:88-102 | A country code already used under another name fails after the user was saved: a 500 that leaves a "country" user with no country. |
| Accounts.NewCountry | score_backend/users/views.py:63-107 | The in-place view equals NewCountryStep. |
| Accounts.LatestActive | score_backend/users/views.py:128-131 | The latest expiry among the country's subscriptions still running, or None exactly when none is running. |
| Accounts.Target | score_backend/users/views.py:128-133 | The period starts at that latest expiry or at now, and never before now. |
| Accounts.CountryNamed | score_backend/users/views.py:119-124 | The country with the given name, or None exactly when no row has it. |
| Accounts.SubscribeStep | score_backend/users/views.py:114-143 | 404 for an unknown country is checked before the plan. 201 holds exactly when the caller is admitted, the country exists and the plan is "monthly" or "annual". Success appends exactly one subscription and leaves the rest untouched. Nothing changes otherwise. |
| Accounts.SubscriptionOutlastsActiveOnes | score_backend/users/views.py:128-135 | A new expiry is later than now and than every running subscription of the country. |
| Accounts.YearlyIsRejected | score_front/src/pages/CountryRepresentativesPage.tsx:556-560 | The page's "yearly" option is refused with 400 by the back end. |
| Accounts.FirstSubscriptionStartsNow | score_backend/users/views.py:132-135 | With no running subscription, the new expiry is now plus the plan's period. |
| Accounts.CountrySubscribe | score_backend/users/views.py:114-143 | The in-place view equals SubscribeStep. |
| Accounts.ChangePasswordStep | score_backend/users/views.py:190-215 | A missing field or a wrong old password gives 400 with nothing changed. 200 holds exactly when both are given and the old one matches. The caller's row then gets the new password and password_changed = True. |
| Accounts.ChangedPasswordUnlocksViews | score_backend/users/views.py:208-210 | After a change the caller passes IsPasswordChanged and keeps its role. |
| Accounts.ChangePassword | score_backend/users/views.py:190-215 | The in-place view equals ChangePasswordStep. |
| Accounts.AlertsView | score_backend/users/views.py:277-290 | 403 for a non-huissier. Otherwise the alerts are exactly the loans of this huissier's customers with deadline < today and status ≠ "done", and total_alerts is their count. |
| Accounts.DoneOrDueLoansRaiseNoAlert | score_backend/users/views.py:281-286 | A loan that is done, or not yet due, is never an alert. |
| Calendar.EarlierIsStrictTotalOrder | score_backend/users/views.py:128-135 | Comparing datetimes is a strict total order. |
| Calendar.AddMonths | score_backend/users/views.py:132-135 | Adding n months (relativedelta) moves the month index by n and keeps the time of day. It keeps the day, or clips it to the month's last day. |
| Calendar.AddMonthsIsLater | score_backend/users/views.py:132-135 | Moving forward by at least one month gives a strictly later instant. |
| Calendar.PlanNamed | score_backend/users/views.py:126-127 | Only "monthly" and "annual" name a plan. |
| Calendar.AddPeriod | score_backend/users/views.py:132-135 | One month for the monthly plan and twelve for the annual one, always later. |
| Calendar.LeapDayPlusOneYear | score_backend/users/views.py:132-135 | One year after 29 February 2024 is 28 February 2025. |
| Offices.NewAccount | score_backend/country/views.py:50-56 | A created user gets an id above every existing one, the requested username, email, role and password, and password_changed false. |
| Offices.AddAccountKeepsKeys | score_backend/country/views.py:50-56 | Such an insert keeps every table's keys unique. |
| Offices.CreateFrontOfficeStep | score_backend/country/views.py:28-66 | 403 on refusal and 400 on a missing field. A user with the same username and email gives 400 "Un utilisateur avec ce NPI existe déjà."; then a front office with the same name, npi, phone and country gives 400 "Ce front office existe déjà"; then a username or email column clash gives 500. 201 holds exactly when none of these applies, with the created message and the password as body. It creates one "front office" user with the form's username and email and the generated password, and one front office with the form's name, npi and phone, linked to that user and to the caller's country. Nothing changes unless 201, and the keys stay unique. |
| Offices.UsernameClashIsServerError | score_backend/country/views.py:45-56 | A user with the same username but a different email passes the existence check and fails the unique column: a 500. |
| Offices.CreateFrontOffice | score_backend/country/views.py:28-66 | The in-place view equals CreateFrontOfficeStep. |
| Offices.HuissierGuard | score_backend/country/views.py:83-96 | The guards run in order, each with its reply: fields required; a user with the same username and email gives "Ce utilisateur existe déjà."; an unregistered zone gives "Invalid zone"; a used npi gives "Un utilisateur avec cet npi existe déjà."; a column clash after that is a 500. None holds exactly when all pass. |
| Offices.CreateHuissierStep | score_backend/country/views.py:73-113 | 201 holds exactly when the caller is admitted and every guard passes. Otherwise the reply is the first failing guard's. On 201 the body is the created message with the password, and it creates one "huissier" user with the form's username and email and the generated password, and one huissier whose zone is stored as "", not the validated zone. Nothing changes otherwise, and the keys stay unique. |
| Offices.CreateHuissier | score_backend/country/views.py:73-113 | The in-place view equals CreateHuissierStep. |
| Offices.AddZoneStep | score_backend/country/views.py:119-136 | 400 for a missing name or an existing (name, front office) pair. Otherwise exactly one zone is appended, and names stay distinct per front office. |
| Offices.AddZoneTwice | score_backend/country/views.py:127-131 | Adding the same zone a second time is refused and changes nothing. |
| Offices.AddZone | score_backend/country/views.py:119-136 | The in-place view equals AddZoneStep. |
| Offices.ZonesView | score_backend/country/views.py:141-146 | It lists exactly the zones of the caller's front office, in table order. |
| Offices.RemoveZoneStep | score_backend/country/views.py:153-169 | 400 for a missing name and 404 for an absent zone. When the zone exists, exactly that zone is deleted: one fewer row, every other zone kept, names still distinct. |
| Offices.RemoveUndoesAdd | score_backend/country/views.py:119-169 | Removing a zone just added restores the original registry. |
| Offices.RemoveZone | score_backend/country/views.py:153-169 | The in-place view equals RemoveZoneStep. |
| Offices.FirstFree | score_backend/country/views.py:233-236 | The index of the first draw that is free by the loop's test. Every earlier draw is in use. |
| Offices.FreshCode | score_backend/country/views.py:233-236 | The regenerate-until-fresh loop stops on the first draw that is free by the loop's test: absent from the cache here, absent or mapped to "" in the loan-code loop. |
| Offices.IssuedCodeIsFresh | score_backend/country/views.py:233-236 | The code that is issued was free by the loop's test, and afterwards it maps to the NPI while every other code keeps its entry. |
| Offices.IssueCode | score_backend/country/views.py:288-291 | The cache gains one code for the NPI: the first draw that is free, every earlier draw being in use, and no other code changes. |
| Offices.ProbesDiffer | score_backend/country/views.py:288-291 | The consultation loop treats a code as free exactly when it is absent from the cache. The loan-code loop also treats as free a code cached with an empty value. |
| Offices.ConsultStep | score_backend/country/views.py:215-245 | 400 for a missing npi or document number, 404 "No customer found with the given NPI." for an unknown npi, and 500 when several customers share it. 200 holds exactly when the npi names one customer. On 200 the reply is "Code successfully generated" and the cache gains the first fresh draw, mapped to the NPI. Otherwise nothing changes. |
| Offices.ConsultCustomerAccount | score_backend/country/views.py:215-245 | The in-place view, with its loop, equals ConsultStep. |
| Offices.LoanCodeStep | score_backend/country/views.py:275-300 | 400 for a missing npi, 404 "customer not found" for an unknown npi, and 500 when several customers share it. 200 holds exactly when the npi names one customer. On 200 the reply is "Code successfully generated" and the cache gains the first draw that is free by the truthiness test, mapped to the NPI. Otherwise nothing changes. |
| Offices.RegisterLoanCode | score_backend/country/views.py:275-300 | The in-place view, with its loop, equals LoanCodeStep. |
| Offices.CheckCodeView | score_backend/country/views.py:251-269 | A missing or unknown code crashes on `.decode()`. A cached code mapped to "" or to an npi no customer has gives 400 "Invalid code", exactly those cases do, and several customers give 500. 200 holds exactly when the cached npi names one customer, and the receivables are exactly that customer's creditor loans. |
| Offices.RegisterLoanStep | score_backend/country/views.py:306-352 | The order is: six fields, periodicity, creditor exists, code cached, code not expired (400 "code expired"), customer found (404 "customer not found"), customer ≠ creditor (400 "Invalid creditor npi"). Success appends exactly one pending loan, unverified and solvable, with the form's periodicity and amounts. Nothing changes otherwise. |
| Offices.UnknownCodeCrashes | score_backend/country/views.py:327-331 | A code missing from the cache crashes before the "code expired" branch. |
| Offices.RegisterLoan | score_backend/country/views.py:306-352 | The in-place view equals RegisterLoanStep. |
| Representatives.DaysRemaining | score_front/src/pages/CountryRepresentativesPage.tsx:44-50 | Never negative: 0 once the end is past. Otherwise it is the ceiling of the remaining milliseconds over one day. |
| Representatives.Enrich | score_front/src/pages/CountryRepresentativesPage.tsx:76-84 | A days count is added exactly to the rows with an end date. Other rows pass through unchanged, and length and order are kept. |
| Representatives.Countdown | score_front/src/pages/CountryRepresentativesPage.tsx:274-275 | "N jour(s) restant(s)" starts with N's digits and ends in 's' exactly when N > 1. |
| Representatives.Label | score_front/src/pages/CountryRepresentativesPage.tsx:273-286 | The countdown for N > 0. "Expiré" for 0 days with an end date. "Non abonné" with neither payment nor end date. Otherwise subscription_status, or "Actif". |
| Representatives.Badge | score_front/src/pages/CountryRepresentativesPage.tsx:289-304 | Each colour's exact condition: green for > 7 days, yellow for 1–7, red for ≤ 0 with an end date, blue when a payment or end date exists, gray otherwise. |
| Representatives.ExpiredExactlyWhenRed | score_front/src/pages/CountryRepresentativesPage.tsx:278-298 | With a count that is not negative and a status text other than "Expiré", the label is "Expiré" exactly when the badge is red. |
| Representatives.LabelAndBadgeCanDisagree | score_front/src/pages/CountryRepresentativesPage.tsx:278-298 | Each of those two conditions is needed: a row breaking either one makes the label and badge disagree. |
| Representatives.EnrichedRowsAgree | score_front/src/pages/CountryRepresentativesPage.tsx:76-84 | After enrichment, label and badge agree on every row with an end date. |
| Representatives.Search | score_front/src/pages/CountryRepresentativesPage.tsx:267-270 | A row is kept exactly when its lower-cased name or email contains the lower-cased term, and order is kept. |
| Representatives.EmptyTermKeepsAll | score_front/src/pages/CountryRepresentativesPage.tsx:267-270 | An empty term keeps every row. |
| Representatives.SetStatus | score_front/src/pages/CountryRepresentativesPage.tsx:254-256 | Only rows with the id take the new status. Everything else and the length are kept. |
| Representatives.ToggleStep | score_front/src/pages/CountryRepresentativesPage.tsx:227-265 | With no token, the "not connected" error and no request. A request is sent exactly when the id is found. An accepted answer flips active↔inactive for that id. Otherwise the list is unchanged, and the error carries the response text, or its status text when the text is empty, or the thrown message. |
| Representatives.UnknownIdChangesNothing | score_front/src/pages/CountryRepresentativesPage.tsx:238-239 | An unknown id sends no request and changes nothing. |
| Representatives.ToggleTwiceRestores | score_front/src/pages/CountryRepresentativesPage.tsx:238-256 | With distinct ids, two accepted switches of the same row restore the list. |
| Representatives.RepresentativesPage.Refresh | score_front/src/pages/CountryRepresentativesPage.tsx:53-92 | A fetched list is stored enriched. A failed fetch keeps the list and sets the error. |
| Representatives.RepresentativesPage.ToggleStatus | score_front/src/pages/CountryRepresentativesPage.tsx:227-265 | The in-place toggle equals ToggleStep. |
| InfosClient.InitialClient | score_front/src/pages/InfosClientPage.tsx:111-120 | The name is first + " " + last, creditScore defaults to 0, and the other fields are copied. |
| InfosClient.FirstNameLeadsTheName | score_front/src/pages/InfosClientPage.tsx:111-120 | A first name without a space is what precedes the displayed name's first space. |
| InfosClient.MarkRepaid | score_front/src/pages/InfosClientPage.tsx:289-291 | Only loans with the id become "Remboursé". Others and the count are kept. |
| InfosClient.PaidStep | score_front/src/pages/InfosClientPage.tsx:288-310 | An unknown id changes nothing. Otherwise exactly one receivable with the repaid debt's amount and status "Payé" is appended. The repaid loans lose their repay button, and the others are unchanged. |
| InfosClient.PayingTwiceRecordsTwice | score_front/src/pages/InfosClientPage.tsx:572-579 | Nothing but the hidden button stops a second payment, which appends a second receivable. |
| InfosClient.DebtFormProblem | score_front/src/pages/InfosClientPage.tsx:211-220 | Nothing is sent exactly when a field is blank after trimming or the code is empty. A blank field raises "Veuillez remplir tous les champs". With every field filled and no code, the alert is "Veuillez d'abord obtenir le code du prêt". |
| InfosClient.NewEntry | score_front/src/pages/InfosClientPage.tsx:246-257 | The appended loan is "En cours", unverified and insolvent, with the form's amount, creditor and periodicity. Its id is the reply's id when non-zero, else the clock. |
| InfosClient.CreditorLabel | score_front/src/pages/InfosClientPage.tsx:153-171 | The creditor's name on success. "Créancier introuvable (status)" on a failed status. The connection error on a thrown request. The fallback name exactly when no name came back. |
| InfosClient.InfosClientPage.FetchCreditorName | score_front/src/pages/InfosClientPage.tsx:126-175 | A blank NPI clears the name and sends no request. Otherwise exactly one lookup is sent and its label shown. |
| InfosClient.InfosClientPage.AddDebt | score_front/src/pages/InfosClientPage.tsx:209-286 | A guard failure raises its alert and sends nothing. Otherwise one request is sent. A registered answer appends exactly one entry and empties the form. An unreachable backend raises "Erreur de connexion lors de la création de la dette" and a refusal raises "Erreur lors de la création de la dette: " with its message or "Erreur inconnue". On every path but success the loans, the form, the creditor name, the loan code and the form's visibility are unchanged. |
| InfosClient.InfosClientPage.MarkAsPaid | score_front/src/pages/InfosClientPage.tsx:288-310 | The in-place update equals PaidStep, and the other cells are kept. |
| CreditScore.FindClient | score_front/src/pages/creditscore.tsx:78-91 | The client whose name equals the debtor parameter exactly. None, rendered "Client introuvable", exactly when no name matches or no parameter is given. |
| CreditScore.SampleLookups | score_front/src/pages/creditscore.tsx:8-91 | An exact name finds its client. A differently cased one or a missing parameter finds none. |
| CreditScore.AddDebtStep | score_front/src/pages/creditscore.tsx:95-107 | Exactly one "En cours" debt is appended without validation. The earlier debts and every other field are kept. |
| CreditScore.PaidStep | score_front/src/pages/creditscore.tsx:109-128 | An unknown id changes nothing. Otherwise only the matching debts become "Remboursé". One repayment is appended, numbered the previous count + 1, with the debt's amount. |
| CreditScore.PaidKeepsNumbering | score_front/src/pages/creditscore.tsx:118-127 | Repayments numbered 1, 2, … stay so, and the new id is never already taken. |
| CreditScore.SampleIsNumbered | score_front/src/pages/creditscore.tsx:8-72 | Every sample client's repayments are numbered 1, 2, …. |
| CreditScore.CreditScorePage.AddDebt | score_front/src/pages/creditscore.tsx:95-107 | The in-place update equals AddDebtStep and clears the form. |
| CreditScore.CreditScorePage.MarkAsPaid | score_front/src/pages/creditscore.tsx:109-128 | The in-place update equals PaidStep. |
| Notifications.Visible | score_front/src/pages/NotificationsPage.tsx:18-22 | The 'unread' tab shows exactly the unread notifications, in order. Every other tab shows them all. |
| Notifications.UnreadCount | score_front/src/pages/NotificationsPage.tsx:81 | The badge equals the number of notifications the 'unread' tab shows. |
| Notifications.MarkRead | score_front/src/pages/NotificationsPage.tsx:24-28 | Only notifications with the id become read, and length and order are kept. |
| Notifications.MarkAllRead | score_front/src/pages/NotificationsPage.tsx:30-32 | Every notification becomes read and nothing else changes. |
| Notifications.MarkReadIsIdempotent | score_front/src/pages/NotificationsPage.tsx:24-28 | Marking the same id twice is the same as once. |
| Notifications.MarkAllReadIsIdempotent | score_front/src/pages/NotificationsPage.tsx:30-32 | Marking all twice is the same as once. |
| Notifications.NoneUnreadAfterMarkAll | score_front/src/pages/NotificationsPage.tsx:30-32 | Afterwards the badge shows 0 and the 'unread' tab is empty. |
| Notifications.MarkReadLowersCount | score_front/src/pages/NotificationsPage.tsx:24-28 | For a unique id, the badge drops by one exactly when that notification was unread. |
| Notifications.MockHasTwoUnread | score_front/src/pages/NotificationsPage.tsx:6-12 | The sample list opens with two unread notifications. |
| Notifications.NotificationsPage.MarkAsRead | score_front/src/pages/NotificationsPage.tsx:24-28 | The in-place update equals MarkRead. |
| Notifications.NotificationsPage.MarkAllAsRead | score_front/src/pages/NotificationsPage.tsx:30-32 | The in-place update equals MarkAllRead and leaves the badge at 0. |
| Notifications.NotificationsPage.SelectTab | score_front/src/pages/NotificationsPage.tsx:62-72 | A tab button sets the active tab and leaves the notifications as they were. |
| SettingsPage.FormProblem | score_front/src/pages/SettingsPage.tsx:27-35 | The form passes exactly when the confirmation matches and the password has at least 8 characters. A mismatch is reported first. |
| SettingsPage.MismatchIsReportedFirst | score_front/src/pages/SettingsPage.tsx:27-30 | A mismatch wins even when the password is also too short. |
| SettingsPage.FailureText | score_front/src/pages/SettingsPage.tsx:44-46 | The error's own message when it has one, else the default text. |
| SettingsPage.PasswordTab.HandlePasswordChange | score_front/src/pages/SettingsPage.tsx:22-49 | A guard failure sets its message and leaves the session untouched. Otherwise the session's change runs. Success clears the three fields and sets the success text. Failure sets the error and keeps the fields. |
| LoginPage.Route | score_front/src/pages/LoginPage.tsx:35-48 | /change-password if forced. Then financial_advisor → /advisor and bailiff → /bailiff. Any other role, admin included, → /dashboard. |
| LoginPage.BackendRolesLandOnDashboard | score_front/src/pages/LoginPage.tsx:35-48 | No role the back end assigns reaches the advisor or bailiff branch. |
| LoginPage.FailureText | score_front/src/pages/LoginPage.tsx:49-50 | The error's own message when it has one, else "Erreur de connexion". |
| LoginPage.LoginForm.HandleSubmit | score_front/src/pages/LoginPage.tsx:18-57 | An empty email or password sets the error and calls no login. Otherwise the session's login runs. Success navigates by the stored profile's role, and failure shows the failure text. |
| LoginPage.NewCountryKeepsRoles | score_backend/users/views.py:88-94 | Creating a country keeps every user's role among those the user model allows. |
| LoginPage.CreateFrontOfficeKeepsRoles | score_backend/country/views.py:50-56 | Creating a front office keeps every user's role among those the user model allows. |
| LoginPage.CreateHuissierKeepsRoles | score_backend/country/views.py:97-103 | Creating a huissier keeps every user's role among those the user model allows. |
| LoginPage.BackendLoginBody | score_backend/users/views.py:52-58 | A successful back-end login answers with the two tokens and a role the user model allows. |
| LoginPage.SessionAcceptsBackendRole | score_front/src/context/AuthContext.tsx:100-113 | Such a reply is accepted. The stored user has id "1" and the email's local part as username. |
| LoginPage.BackendLoginLandsOnDashboard | score_front/src/pages/LoginPage.tsx:35-48 | End to end, a successful back-end login is accepted by the session manager and the page opens /dashboard. |

## Left out

- `register` in the session manager: it is a timer mock that authenticates with no token.
- The axios 401 interceptor and the change-password page also write the storage keys. They are outside the session manager.
- Concurrency: each operation is atomic. Concurrent accessors can each issue a refresh, and no deduplication is claimed.
- JWT decoding, `atob` and `JSON.parse` are a `decode` parameter yielding an optional `exp`.
- `JSON.stringify` and `JSON.parse` of the stored profile are a length-prefixed encoding with a proved round trip.
- A successful refresh reply without an `access_token` member is not modelled; in the source it would store `undefined`.
- Clocks are integer inputs and date parsing is a parameter. A date string JavaScript cannot parse (NaN) is not modelled.
- Session.RestoreStep: a stored profile that does not parse makes the effect throw before any cell is set. The exception itself is not modelled.
- Session.RestoreStep: stored profiles are read in the model's own field encoding, the one login writes. Text that is valid JSON but not a profile ("null", "{}") would make the page authenticated with an empty or partial user; the model treats it like unparsable text, so the invariant it proves holds only for storage that login wrote.
- Unicode `toLowerCase` is an opaque parameter. `trim` covers ASCII and Latin-1 white space only.
- SettingsPage.FormProblem: string length counts characters (code points), while JavaScript's `length` counts UTF-16 units. A password of fewer than 8 characters that includes characters outside the Basic Multilingual Plane (emoji) can pass the source's check but fails the model's.
- Floating point: `parseFloat`, the score gauge percentages and float `Math.ceil`. Days remaining uses integer milliseconds.
- Offices.RegisterLoanStep: an amount that does not parse (a Decimal error) is not modelled.
- The Django ORM, serializers and transactions. Tables are sequences of rows.
- Row ids are the next integer.
- The caller's linked rows (`user.huissier`, `user.frontoffice`, `user.country`) are given as parameters.
- The authentication check (`IsAuthenticated`, a 401) is not modelled. Callers are authenticated users.
- Redis keys do not expire, and sending email is not modelled.
- Random codes and passwords are inputs. Codes come as a sequence of draws.
- Offices.FreshCode: requires that some draw is absent from the cache, since the source loops until one is.
- Offices.ConsultCustomerAccount: requires that some draw is absent from the cache, since the source loops until one is.
- Offices.RegisterLoanCode: requires that some draw is absent from the cache, since the source loops until one is.
- Password hashing: a stored password is compared for equality.
- Representatives.ToggleStep: a `getAccessToken` that throws is not modelled; the token is an input.
- Representatives.ToggleStep: the reload triggered after a successful switch is a separate `Refresh` call.
- Rendering, styling, the map and the mock-only pages.
- Views outside the core: the conseiller creation, customer lists, loan details and country data endpoints.
