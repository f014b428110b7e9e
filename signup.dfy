/** `signup.php`, the POST handler: plan normalisation, form validation,
    log-in of an existing account, or creation of a new one. */
module Signup {
  import opened Common
  import opened Tokens
  import opened TierPolicy
  import opened Store
  import opened Sessions
  import opened Pages
  import opened Auth

  /** `strtolower($_GET['plan'] ?? 'free')`, kept only when it names a tier. */
  function NormalizePlan(plan: Option<string>): (r: string)
    ensures IsTier(r)
    ensures plan.Some? && IsTier(Lower(plan.value)) ==> r == Lower(plan.value)
    ensures plan.None? || !IsTier(Lower(plan.value)) ==> r == "free"
  {
    if plan.None? then "free"
    else if IsTier(Lower(plan.value)) then Lower(plan.value)
    else "free"
  }

  /** Case does not matter: `?plan=PRO` selects the pro tier. */
  lemma PlanCaseInsensitive()
    ensures NormalizePlan(Some("PRO")) == "pro"
    ensures NormalizePlan(Some("Starter")) == "starter"
    ensures NormalizePlan(Some("gold")) == "free"
  {
    assert Lower("PRO") == "pro";
    assert Lower("Starter") == "starter";
  }

  datatype FormError = InvalidEmail | PasswordTooShort | PasswordMismatch

  function Message(e: FormError): string {
    match e
    case InvalidEmail => "Please enter a valid email address."
    case PasswordTooShort => "Password must be at least 8 characters."
    case PasswordMismatch => "Passwords do not match."
  }

  /** The validation chain, first failure wins: e-mail, then length (`strlen`,
      counted here in characters), then confirmation. */
  function Validate(email: Option<string>, password: string, confirm: string): (r: Option<FormError>)
    ensures r == Some(InvalidEmail) <==> email.None?
    ensures r == Some(PasswordTooShort) <==> email.Some? && |password| < 8
    ensures r == Some(PasswordMismatch) <==> email.Some? && |password| >= 8 && password != confirm
    ensures r.None? <==> email.Some? && |password| >= 8 && password == confirm
  {
    if email.None? then Some(InvalidEmail)
    else if |password| < 8 then Some(PasswordTooShort)
    else if password != confirm then Some(PasswordMismatch)
    else None
  }

  /** A new account is active on the free plan and waits for payment otherwise. */
  function InitialStatus(plan: string): (r: string)
    ensures r == "active" <==> plan == "free"
    ensures r != "active" ==> r == "pending"
  {
    if plan == "free" then "active" else "pending"
  }

  /** The row the `INSERT` creates, as written: the raw token goes into `auth_token`. */
  function NewAccountRow(id: int, email: string, credential: string, token: string, plan: string): User {
    User(id, email, credential, Some(token), plan, InitialStatus(plan), 0, None, None)
  }

  /** The evidently intended row: the digest of the token, as
      `refreshAuthToken` stores it. */
  function HashedAccountRow(id: int, email: string, credential: string, token: string, plan: string,
                            hash: string -> string): User
  {
    User(id, email, credential, Some(hash(token)), plan, InitialStatus(plan), 0, None, None)
  }

  datatype SignupForm = SignupForm(email: Option<string>, password: Option<string>, confirm: Option<string>)

  /** A failed form is shown again with the message of its first error. */
  datatype Outcome = FormFailed(message: string) | Redirect(to: Location)

  /** The POST handler. `random` is what `random_bytes(32)` returned,
      `credential` what `password_hash` returned, `verify` is
      `password_verify` and `isValidEmail` the e-mail filter. As written, the
      new row stores the issued token itself (NewAccountRow); the intended
      row, with its digest, is HashedAccountRow. */
  method SignupPost(db: Database, session: Session, planParam: Option<string>, form: SignupForm,
                    random: seq<byte>, credential: string,
                    verify: (string, string) -> bool, isValidEmail: string -> bool)
    returns (outcome: Outcome, ghost existing: Option<User>)
    requires db.Valid() && |random| == 32
    modifies db`users, db`nextId, session`userId, session`userEmail, session`userTier, session`authToken
    ensures db.Valid()
    ensures
      var plan := NormalizePlan(planParam);
      var email := FilteredEmail(form.email, isValidEmail);
      var password := form.password.GetOr("");
      var confirm := form.confirm.GetOr("");
      && (Validate(email, password, confirm).Some? ==>
            && outcome == FormFailed(Message(Validate(email, password, confirm).value))
            && existing.None?
            && db.users == old(db.users) && db.nextId == old(db.nextId)
            && session.userId == old(session.userId) && session.userEmail == old(session.userEmail)
            && session.userTier == old(session.userTier) && session.authToken == old(session.authToken))
      && (Validate(email, password, confirm).None? ==>
            (existing.Some? <==> EmailMatches(old(db.users), email.value) != {}))
      && (existing.Some? ==>
            var row := existing.value;
            && row.id in old(db.users) && old(db.users)[row.id] == row && row.email == email.value
            && db.users == old(db.users) && db.nextId == old(db.nextId)
            && session.authToken == old(session.authToken)
            && (verify(password, row.passwordHash) ==>
                  && outcome == Redirect(AfterLogin(row.tier, row.subscriptionStatus, true))
                  && session.userId == Some(row.id) && session.userEmail == Some(row.email)
                  && session.userTier == Some(row.tier))
            && (!verify(password, row.passwordHash) ==>
                  && outcome == Redirect(LoginExisting(email.value))
                  && session.userId == old(session.userId) && session.userEmail == old(session.userEmail)
                  && session.userTier == old(session.userTier)))
      && (Validate(email, password, confirm).None? && existing.None? ==>
            var id := old(db.nextId);
            var token := GenerateAuthToken(random);
            && db.users == old(db.users)[id := NewAccountRow(id, email.value, credential, token, plan)]
            && db.nextId == old(db.nextId) + 1
            && session.userId == Some(id) && session.userEmail == email
            && session.userTier == Some(plan) && session.authToken == Some(token)
            && outcome == Redirect(if plan == "free" then Dashboard(false) else Payment(plan)))
  {
    existing := None;
    var plan := NormalizePlan(planParam);
    var email := FilteredEmail(form.email, isValidEmail);
    var password := form.password.GetOr("");
    var confirm := form.confirm.GetOr("");
    var invalid := Validate(email, password, confirm);
    if invalid.Some? {
      return FormFailed(Message(invalid.value)), existing;
    }
    var found := db.SelectByEmail(email.value);
    if found.Some? {
      existing := found;
      var row := found.value;
      if verify(password, row.passwordHash) {
        session.userId := Some(row.id);
        session.userEmail := Some(row.email);
        session.userTier := Some(row.tier);
        if row.subscriptionStatus == "pending" && row.tier != "free" {
          return Redirect(Payment(row.tier)), existing;
        }
        return Redirect(Dashboard(true)), existing;
      }
      return Redirect(LoginExisting(email.value)), existing;
    }
    var authToken := GenerateAuthToken(random);
    var status := if plan == "free" then "active" else "pending";
    var id := db.InsertUser(email.value, credential, authToken, plan, status);
    session.userId := Some(id);
    session.userEmail := Some(email.value);
    session.userTier := Some(plan);
    session.authToken := Some(authToken);
    if plan == "free" {
      return Redirect(Dashboard(false)), existing;
    }
    return Redirect(Payment(plan)), existing;
  }

  /** A new row's status follows its plan, and creating it keeps e-mail
      addresses unique. */
  lemma NewAccountKeepsTable(users: Users, id: int, email: string, credential: string, token: string, plan: string)
    requires WellFormed(users) && id !in users && EmailMatches(users, email) == {}
    ensures var r := users[id := NewAccountRow(id, email, credential, token, plan)];
      && WellFormed(r)
      && (r[id].subscriptionStatus == "active" <==> plan == "free")
      && r[id].messagesUsed == 0
  {
    var r := users[id := NewAccountRow(id, email, credential, token, plan)];
    forall a, b | a in r && b in r && a != b
      ensures r[a].email != r[b].email
    {
      if a != id && b != id {
        assert users[a].email != users[b].email;
      } else if a == id {
        assert b !in EmailMatches(users, email);
      } else {
        assert a !in EmailMatches(users, email);
      }
    }
  }

  /** As written, the token handed out at signup does not authenticate the
      new account: sent as `Authorization: Bearer <token>`, it is looked up by
      its digest, and the row holds the token itself. */
  lemma {:induction false} SignupTokenRejected(users: Users, id: int, email: string, credential: string,
                                               random: seq<byte>, plan: string, hash: string -> string)
    requires |random| == 32
    requires hash(GenerateAuthToken(random)) != GenerateAuthToken(random)
    ensures var token := GenerateAuthToken(random);
      var r := users[id := NewAccountRow(id, email, credential, token, plan)];
      var h: HeaderValue := "Bearer " + token;
      id !in Candidates(r, ApiRequest(Some(h), None), hash)
  {
    var token := GenerateAuthToken(random);
    PresentedIssuedToken(random);
    var r := users[id := NewAccountRow(id, email, credential, token, plan)];
    StoredValueDoesNotFindItsRow(r, id, token, hash);
  }

  /** The issued token, sent as a bearer header, is presented verbatim. */
  lemma PresentedIssuedToken(random: seq<byte>)
    requires |random| == 32
    ensures var token := GenerateAuthToken(random);
      var h: HeaderValue := "Bearer " + token;
      PresentedToken(ApiRequest(Some(h), None)) == Some(token)
  {
    var token := GenerateAuthToken(random);
    assert IsLowerHexChar(token[0]);
    assert forall i :: 0 <= i < |token| ==> token[i] != '\n';
    BearerRoundTrip(token);
    assert Truthy(token) by {
      assert |token| == 64;
    }
  }

  /** With the digest stored, the issued token authenticates the new account. */
  lemma {:induction false} HashedSignupTokenAccepted(users: Users, id: int, email: string, credential: string,
                                                     random: seq<byte>, plan: string, hash: string -> string)
    requires |random| == 32
    ensures var token := GenerateAuthToken(random);
      var r := users[id := HashedAccountRow(id, email, credential, token, plan, hash)];
      var h: HeaderValue := "Bearer " + token;
      id in Candidates(r, ApiRequest(Some(h), None), hash)
  {
    PresentedIssuedToken(random);
  }
}
