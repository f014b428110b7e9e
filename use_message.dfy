/** `api/use-message.php`: authenticate, then count one message with a
    single conditional `UPDATE`, and report the new count. */
module UseMessage {
  import opened Common
  import opened Tokens
  import opened TierPolicy
  import opened Store
  import opened Sessions
  import opened RateLimit
  import opened Auth

  datatype Response =
    | Unauthorized                                    // HTTP 401
    | TooManyRequests                                 // HTTP 429
    | LimitExceeded(messagesUsed: int)                // success=false, messages_remaining=0
    | Counted(messagesUsed: int, messagesRemaining: int)

  /** The endpoint after the preflight check. The tier's message limit (with
      the `free` fall-back) bounds the conditional increment; the response
      reports either the row's new count or, on rejection, the count read
      during authentication. */
  method UseMessage(db: Database, session: Session, req: ApiRequest, now: int,
                    hash: string -> string)
    returns (resp: Response, ghost caller: Option<int>)
    requires db.Valid()
    modifies db`users, session`apiRequests
    ensures db.Valid()
    ensures resp.Unauthorized? <==> Candidates(old(db.users), req, hash) == {}
    ensures resp.Unauthorized? || resp.TooManyRequests? ==> db.users == old(db.users)
    ensures !resp.Unauthorized? ==>
      (resp.TooManyRequests? <==> !Allows(old(session.apiRequests), now, DefaultLimit, DefaultPeriod))
    ensures resp.Unauthorized? ==> session.apiRequests == old(session.apiRequests)
    ensures !resp.Unauthorized? ==>
      session.apiRequests == Prune(old(session.apiRequests), now, DefaultPeriod)
                             + (if resp.TooManyRequests? then [] else [now])
    ensures caller.Some? <==> resp.LimitExceeded? || resp.Counted?
    ensures caller.Some? ==> caller.value in old(db.users)
    ensures caller.Some? ==>
      var id := caller.value;
      var row := old(db.users)[id];
      var limit := MessageLimit(row.tier);
      && id in Candidates(old(db.users), req, hash)
      && db.users == IncrementIfBelow(old(db.users), id, limit)
      && (resp.Counted? <==> row.messagesUsed < limit)
      && (resp.LimitExceeded? ==> resp.messagesUsed == row.messagesUsed)
      && (resp.Counted? ==> resp.messagesUsed == row.messagesUsed + 1
                            && resp.messagesRemaining == Remaining(limit, resp.messagesUsed))
  {
    caller := None;
    var auth := AuthenticateApiRequest(db, session, req, now, hash);
    match auth {
      case Unauthenticated =>
        return Unauthorized, caller;
      case RateLimited =>
        return TooManyRequests, caller;
      case Authenticated(user) =>
        caller := Some(user.id);
        var messageLimit := LimitsOrFree(user.tier).messagesPerMonth;
        var affected := db.IncrementMessages(user.id, messageLimit);
        if !affected {
          return LimitExceeded(user.messagesUsed), caller;
        }
        var newCount := db.users[user.id].messagesUsed;
        return Counted(newCount, Max(0, messageLimit - newCount)), caller;
    }
  }

  /** The counter never overshoots through this endpoint: at or under the
      limit before, at or under it after. */
  lemma NeverOvershoots(users: Users, id: int, limit: int)
    requires id in users && users[id].messagesUsed <= limit
    ensures IncrementIfBelow(users, id, limit)[id].messagesUsed <= limit
  {
  }

  /** A limit of `-1` would not mean unlimited here: with a non-negative
      counter every increment is rejected. */
  lemma NegativeLimitRejectsAll(users: Users, id: int)
    requires id in users && users[id].messagesUsed >= 0
    ensures IncrementIfBelow(users, id, Unlimited) == users
  {
  }

  /** `n` requests in a row against one row: the final table and the number
      of requests that were counted. */
  function ConsumeMany(users: Users, id: int, limit: int, n: nat): (r: (Users, nat))
    decreases n
  {
    if n == 0 then (users, 0)
    else
      var counted := id in users && users[id].messagesUsed < limit;
      var next := IncrementIfBelow(users, id, limit);
      var rest := ConsumeMany(next, id, limit, n - 1);
      (rest.0, rest.1 + (if counted then 1 else 0))
  }

  /** Starting from `u` messages under limit `L`, `n` sequential requests
      succeed `min(n, L - u)` times and leave the counter at `min(u + n, L)`;
      no other row changes. */
  lemma {:induction false} ConsumeManyCounts(users: Users, id: int, limit: int, n: nat)
    requires id in users && 0 <= users[id].messagesUsed <= limit
    ensures var (final, successes) := ConsumeMany(users, id, limit, n);
      && final.Keys == users.Keys
      && final[id].messagesUsed == Min(users[id].messagesUsed + n, limit)
      && successes == Min(n, limit - users[id].messagesUsed)
      && (forall k :: k in users && k != id ==> final[k] == users[k])
    decreases n
  {
    if n > 0 {
      var next := IncrementIfBelow(users, id, limit);
      ConsumeManyCounts(next, id, limit, n - 1);
    }
  }

  /** The quota property in its usual form: from zero, `n` requests succeed
      `min(n, L)` times and the counter ends at `min(n, L)`. */
  lemma FromZero(users: Users, id: int, limit: int, n: nat)
    requires id in users && users[id].messagesUsed == 0 && limit >= 0
    ensures id in ConsumeMany(users, id, limit, n).0
    ensures ConsumeMany(users, id, limit, n).0[id].messagesUsed == Min(n, limit)
    ensures ConsumeMany(users, id, limit, n).1 == Min(n, limit)
  {
    ConsumeManyCounts(users, id, limit, n);
  }
}
