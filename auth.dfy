/** Token refresh (`refreshAuthToken`) and bearer-token authentication of
    API requests (`authenticateApiRequest`). The digest function
    (`hashAuthToken`, SHA-256 in the source) is the parameter `hash`. */
module Auth {
  import opened Common
  import opened Tokens
  import opened Store
  import opened Sessions
  import opened RateLimit

  /** `refreshAuthToken($userId)`: a fresh token whose digest replaces the
      row's `auth_token`; the raw token goes back to the caller. */
  method RefreshAuthToken(db: Database, userId: int, random: seq<byte>, hash: string -> string)
    returns (token: string)
    requires db.Valid() && |random| == 32
    modifies db`users
    ensures db.Valid()
    ensures token == GenerateAuthToken(random)
    ensures db.users == SetAuthToken(old(db.users), userId, hash(token))
  {
    token := GenerateAuthToken(random);
    var digest := hash(token);
    db.UpdateAuthToken(userId, digest);
  }

  /** After a refresh the row stores the digest of the returned token, and
      presenting that token finds the row. */
  lemma RefreshedTokenFindsRow(users: Users, userId: int, token: string, hash: string -> string)
    requires userId in users
    ensures userId in TokenMatches(SetAuthToken(users, userId, hash(token)), hash(token))
  {
  }

  /** The rows a request can authenticate as: those whose stored token is
      the digest of the presented token. */
  function Candidates(users: Users, req: ApiRequest, hash: string -> string): (r: set<int>)
    ensures PresentedToken(req).None? ==> r == {}
    ensures PresentedToken(req).Some? ==> r == TokenMatches(users, hash(PresentedToken(req).value))
  {
    match PresentedToken(req)
    case None => {}
    case Some(t) => TokenMatches(users, hash(t))
  }

  datatype AuthOutcome = Unauthenticated | RateLimited | Authenticated(user: User)

  /** `authenticateApiRequest()`: find the presented token, look the row up by
      its digest, and charge the rate limiter only when a row is found. A
      denial by the limiter ends the request with HTTP 429. */
  method AuthenticateApiRequest(db: Database, session: Session, req: ApiRequest, now: int,
                                hash: string -> string)
    returns (r: AuthOutcome)
    requires db.Valid()
    modifies session`apiRequests
    ensures r.Unauthenticated? <==> Candidates(db.users, req, hash) == {}
    ensures r.Unauthenticated? ==> session.apiRequests == old(session.apiRequests)
    ensures !r.Unauthenticated? ==>
      && (r.Authenticated? <==> Allows(old(session.apiRequests), now, DefaultLimit, DefaultPeriod))
      && session.apiRequests == Prune(old(session.apiRequests), now, DefaultPeriod)
                                + (if r.Authenticated? then [now] else [])
    ensures r.Authenticated? ==>
      r.user.id in Candidates(db.users, req, hash) && db.users[r.user.id] == r.user
  {
    var token := PresentedToken(req);
    if token.None? {
      return Unauthenticated;
    }
    var digest := hash(token.value);
    var row := db.SelectByToken(digest);
    if row.None? {
      return Unauthenticated;
    }
    var allowed := CheckRateLimit(session, row.value.id, now, DefaultLimit, DefaultPeriod);
    if !allowed {
      return RateLimited;
    }
    return Authenticated(row.value);
  }

  /** A stored value is never accepted for its own row unless it is a fixed
      point of the digest: authentication compares `hash(presented)` against
      the column, so presenting the column's own content finds some other row,
      or none. */
  lemma StoredValueDoesNotFindItsRow(users: Users, id: int, s: string, hash: string -> string)
    requires id in users && users[id].authToken == Some(s) && hash(s) != s
    ensures id !in TokenMatches(users, hash(s))
  {
  }
}
