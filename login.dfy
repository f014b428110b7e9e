/** `login.php`: the notice shown after a signup with a known address, and
    the POST handler that logs a user in and makes sure the session holds an
    API token. */
module Login {
  import opened Common
  import opened Tokens
  import opened Store
  import opened Sessions
  import opened Pages
  import opened Auth

  const ExistingNotice: string :=
    "Welcome back! Looks like you already have an account. Just enter your password to continue."

  /** The info line and the pre-filled e-mail for `?existing=...&email=...`:
      shown only for `existing=1`. */
  function Notice(existing: Option<string>, email: Option<string>): (r: (string, string))
    ensures existing == Some("1") ==> r == (ExistingNotice, email.GetOr(""))
    ensures existing != Some("1") ==> r == ("", "")
  {
    if existing == Some("1") then (ExistingNotice, email.GetOr("")) else ("", "")
  }

  /** Signup's redirect for a wrong password lands on the login page with
      the notice and the address filled in. */
  lemma SignupRedirectShowsNotice(email: string)
    ensures Notice(Some("1"), Some(email)).1 == email
    ensures Notice(Some("1"), Some(email)).0 != ""
  {
  }

  const MissingFields: string := "Please enter your email and password."
  const BadCredentials: string := "Invalid email or password."

  datatype LoginForm = LoginForm(email: Option<string>, password: Option<string>)

  datatype Outcome = Failed(message: string) | Redirect(to: Location)

  /** The stored token is reused when it is truthy. */
  predicate HasToken(row: User) {
    row.authToken.Some? && Truthy(row.authToken.value)
  }

  /** The POST handler. `random` is what `random_bytes(32)` would return if a
      token has to be made, `verify` is `password_verify`, `isValidEmail` the
      e-mail filter and `hash` the token digest. `found` is the row the
      `SELECT` returned. */
  method LoginPost(db: Database, session: Session, form: LoginForm, random: seq<byte>,
                   verify: (string, string) -> bool, isValidEmail: string -> bool,
                   hash: string -> string)
    returns (outcome: Outcome, ghost found: Option<User>)
    requires db.Valid() && |random| == 32
    modifies db`users, session`userId, session`userEmail, session`userTier, session`authToken
    ensures db.Valid()
    ensures
      var email := FilteredEmail(form.email, isValidEmail);
      var password := form.password.GetOr("");
      && (email.None? || !Truthy(password) ==>
            && outcome == Failed(MissingFields) && found.None?
            && db.users == old(db.users) && session.userId == old(session.userId)
            && session.userEmail == old(session.userEmail) && session.userTier == old(session.userTier)
            && session.authToken == old(session.authToken))
      && (email.Some? && Truthy(password) ==>
            && (found.Some? <==> EmailMatches(old(db.users), email.value) != {})
            && (found.Some? ==> found.value.id in old(db.users) && old(db.users)[found.value.id] == found.value
                                && found.value.email == email.value)
            && (found.None? || !verify(password, found.value.passwordHash) ==>
                  && outcome == Failed(BadCredentials)
                  && db.users == old(db.users) && session.userId == old(session.userId)
                  && session.userEmail == old(session.userEmail) && session.userTier == old(session.userTier)
                  && session.authToken == old(session.authToken)))
      && (found.Some? && verify(password, found.value.passwordHash) ==>
            var row := found.value;
            && outcome == Redirect(AfterLogin(row.tier, row.subscriptionStatus, false))
            && session.userId == Some(row.id) && session.userEmail == Some(row.email)
            && session.userTier == Some(row.tier)
            && (HasToken(row) ==> session.authToken == row.authToken && db.users == old(db.users))
            && (!HasToken(row) ==>
                  && session.authToken == Some(GenerateAuthToken(random))
                  && db.users == SetAuthToken(old(db.users), row.id, hash(GenerateAuthToken(random)))))
  {
    found := None;
    var email := FilteredEmail(form.email, isValidEmail);
    var password := form.password.GetOr("");
    if email.None? || !Truthy(password) {
      return Failed(MissingFields), found;
    }
    var user := db.SelectByEmail(email.value);
    found := user;
    if user.Some? && verify(password, user.value.passwordHash) {
      var row := user.value;
      session.userId := Some(row.id);
      session.userEmail := Some(row.email);
      session.userTier := Some(row.tier);
      if HasToken(row) {
        session.authToken := row.authToken;
      } else {
        var token := RefreshAuthToken(db, row.id, random, hash);
        session.authToken := Some(token);
      }
      if row.subscriptionStatus == "pending" && row.tier != "free" {
        return Redirect(Payment(row.tier)), found;
      }
      return Redirect(Dashboard(false)), found;
    }
    return Failed(BadCredentials), found;
  }

  /** A user without a token leaves the login with one that authenticates
      them: the row now stores its digest. */
  lemma {:induction false} FirstLoginTokenWorks(users: Users, row: User, random: seq<byte>, hash: string -> string)
    requires row.id in users && |random| == 32
    ensures var token := GenerateAuthToken(random);
      var h: HeaderValue := "Bearer " + token;
      row.id in Candidates(SetAuthToken(users, row.id, hash(token)), ApiRequest(Some(h), None), hash)
  {
    var token := GenerateAuthToken(random);
    assert IsLowerHexChar(token[0]);
    assert forall i :: 0 <= i < |token| ==> token[i] != '\n';
    BearerRoundTrip(token);
    assert |token| == 64;
  }
}
