/** `api/status.php`: authenticate, start a new month's count when the
    stored reset date lies in another calendar month, and report tier,
    status, limits and usage. */
module Status {
  import opened Common
  import opened Tokens
  import opened TierPolicy
  import opened Store
  import opened Sessions
  import opened RateLimit
  import opened Auth

  datatype Response =
    | Unauthorized                                    // HTTP 401
    | TooManyRequests                                 // HTTP 429
    | StatusOk(tier: string, status: string, limits: Limits,
               messagesUsed: int, messagesLimit: int, messagesRemaining: int)

  /** The `Y-m` comparison. A NULL reset date is parsed by `new DateTime` as
      the current time, so it never calls for a reset. */
  predicate NeedsReset(row: User, clock: Date) {
    row.messagesResetDate.Some? && YearMonth(row.messagesResetDate.value) != YearMonth(clock)
  }

  /** The table after the reset step: reset the caller's row when its month
      has passed, and leave everything alone otherwise. */
  function ResetIfNewMonth(users: Users, id: int, clock: Date, today: Date): (r: Users)
    ensures id in users && NeedsReset(users[id], clock) ==> r == ResetUsage(users, id, today)
    ensures !(id in users && NeedsReset(users[id], clock)) ==> r == users
  {
    if id in users && NeedsReset(users[id], clock) then ResetUsage(users, id, today) else users
  }

  /** The endpoint after the preflight check. `clock` is PHP's `new DateTime()`,
      `today` the database's `CURRENT_DATE`, `now` the `time()` the rate limiter
      reads. */
  method Status(db: Database, session: Session, req: ApiRequest, now: int, clock: Date,
                today: Date, hash: string -> string)
    returns (resp: Response, ghost caller: Option<int>)
    requires db.Valid()
    modifies db`users, session`apiRequests
    ensures db.Valid()
    ensures resp.Unauthorized? <==> Candidates(old(db.users), req, hash) == {}
    ensures resp.Unauthorized? || resp.TooManyRequests? ==> db.users == old(db.users)
    ensures !resp.Unauthorized? ==>
      (resp.TooManyRequests? <==> !Allows(old(session.apiRequests), now, DefaultLimit, DefaultPeriod))
    ensures resp.Unauthorized? ==> session.apiRequests == old(session.apiRequests)
    ensures !resp.Unauthorized? ==>
      session.apiRequests == Prune(old(session.apiRequests), now, DefaultPeriod)
                             + (if resp.TooManyRequests? then [] else [now])
    ensures caller.Some? <==> resp.StatusOk?
    ensures caller.Some? ==> caller.value in old(db.users)
    ensures caller.Some? ==>
      var id := caller.value;
      var row := old(db.users)[id];
      var limits := LimitsOrFree(row.tier);
      var used := if NeedsReset(row, clock) then 0 else row.messagesUsed;
      && id in Candidates(old(db.users), req, hash)
      && db.users == ResetIfNewMonth(old(db.users), id, clock, today)
      && resp == StatusOk(row.tier, row.subscriptionStatus, limits, used,
                          limits.messagesPerMonth, Remaining(limits.messagesPerMonth, used))
  {
    caller := None;
    var auth := AuthenticateApiRequest(db, session, req, now, hash);
    match auth {
      case Unauthenticated =>
        return Unauthorized, caller;
      case RateLimited =>
        return TooManyRequests, caller;
      case Authenticated(user) =>
        caller := Some(user.id);
        var used := user.messagesUsed;
        if user.messagesResetDate.Some? && YearMonth(user.messagesResetDate.value) != YearMonth(clock) {
          db.ResetMessages(user.id, today);
          used := 0;
        }
        var limits := LimitsOrFree(user.tier);
        return StatusOk(user.tier, user.subscriptionStatus, limits, used,
                        limits.messagesPerMonth, Max(0, limits.messagesPerMonth - used)), caller;
    }
  }

  /** A status call never touches tier or subscription status, never raises a
      counter, and changes no row but the caller's. */
  lemma StatusOnlyLowersUsage(users: Users, id: int, clock: Date, today: Date)
    requires forall k :: k in users ==> users[k].messagesUsed >= 0
    ensures var r := ResetIfNewMonth(users, id, clock, today);
      && r.Keys == users.Keys
      && (forall k :: k in users ==>
            && r[k].tier == users[k].tier
            && r[k].subscriptionStatus == users[k].subscriptionStatus
            && r[k].messagesUsed <= users[k].messagesUsed)
      && (forall k :: k in users && k != id ==> r[k] == users[k])
  {
  }

  /** A second status call in the same month as a reset performs no reset. */
  lemma {:induction false} SecondCallNoReset(users: Users, id: int, clock: Date, today: Date, clock2: Date, today2: Date)
    requires id in users && NeedsReset(users[id], clock)
    requires YearMonth(clock2) == YearMonth(today)
    ensures var once := ResetIfNewMonth(users, id, clock, today);
      ResetIfNewMonth(once, id, clock2, today2) == once
  {
    var once := ResetIfNewMonth(users, id, clock, today);
    assert once[id].messagesResetDate == Some(today);
  }
}
