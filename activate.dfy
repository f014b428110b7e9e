/** `activate.php`: after checkout, the logged-in user's row becomes an active
    paid subscription. The request body is trusted as sent; nothing checks it
    against the payment provider, and replays are not detected. */
module Activate {
  import opened Common
  import opened Store
  import opened Sessions

  datatype Response = NotLoggedIn | InvalidData | Activated

  /** The body's `subscription_id` and `plan`, when they are strings. */
  datatype ActivateInput = ActivateInput(subscriptionId: Option<string>, plan: Option<string>)

  /** The guard on line 20: a truthy subscription id and a paid plan name. */
  predicate ValidInput(input: ActivateInput) {
    && input.subscriptionId.Some? && Truthy(input.subscriptionId.value)
    && input.plan.Some? && (input.plan.value == "starter" || input.plan.value == "pro")
  }

  /** The endpoint. `today` is the database's `CURRENT_DATE`. */
  method Activate(db: Database, session: Session, input: ActivateInput, today: Date)
    returns (resp: Response)
    requires db.Valid()
    modifies db`users, session`userTier
    ensures db.Valid()
    ensures resp == NotLoggedIn <==> old(session.userId).None?
    ensures resp == InvalidData <==> old(session.userId).Some? && !ValidInput(input)
    ensures resp != Activated ==> db.users == old(db.users) && session.userTier == old(session.userTier)
    ensures resp == Activated ==>
      && db.users == ActivateRow(old(db.users), session.userId.value,
                                 input.plan.value, input.subscriptionId.value, today)
      && session.userTier == input.plan
  {
    if session.userId.None? {
      return NotLoggedIn;
    }
    if input.subscriptionId.None? || !Truthy(input.subscriptionId.value)
       || input.plan.None? || !(input.plan.value == "starter" || input.plan.value == "pro") {
      return InvalidData;
    }
    db.ActivateSubscription(session.userId.value, input.plan.value, input.subscriptionId.value, today);
    session.userTier := input.plan;
    return Activated;
  }

  /** The activated row: the plan's tier, active, the given subscription id,
      no usage counted, and a reset date of today; all other rows unchanged. */
  lemma ActivationOutcome(users: Users, id: int, plan: string, subscriptionId: string, today: Date)
    requires id in users
    ensures var r := ActivateRow(users, id, plan, subscriptionId, today);
      && r[id].tier == plan && r[id].subscriptionStatus == "active"
      && r[id].paypalSubscriptionId == Some(subscriptionId)
      && r[id].messagesUsed == 0 && r[id].messagesResetDate == Some(today)
      && r[id].email == users[id].email && r[id].authToken == users[id].authToken
      && (forall k :: k in users && k != id ==> r[k] == users[k])
  {
  }

  /** Replaying the same activation gives the same tier, status and
      subscription id, but zeroes again whatever usage was counted in between. */
  lemma {:induction false} ReplayRezeroesUsage(users: Users, id: int, plan: string, subscriptionId: string,
                                               today: Date, later: Date, usedSince: int)
    requires id in users
    ensures var first := ActivateRow(users, id, plan, subscriptionId, today);
      var used := first[id := first[id].(messagesUsed := usedSince)];
      var replay := ActivateRow(used, id, plan, subscriptionId, later);
      && replay[id].tier == first[id].tier
      && replay[id].subscriptionStatus == first[id].subscriptionStatus
      && replay[id].paypalSubscriptionId == first[id].paypalSubscriptionId
      && replay[id].messagesUsed == 0
  {
    var first := ActivateRow(users, id, plan, subscriptionId, today);
    assert id in first;
  }

  /** With nothing in between, a replay on the same day is a no-op. */
  lemma ReplaySameDayIsIdempotent(users: Users, id: int, plan: string, subscriptionId: string, today: Date)
    ensures var first := ActivateRow(users, id, plan, subscriptionId, today);
      ActivateRow(first, id, plan, subscriptionId, today) == first
  {
  }
}
