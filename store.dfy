/** The `users` table and the SQL statements the core issues against it.
    Each `UPDATE ... WHERE` is one atomic step: a pure function on the table
    (the specification) and a `Database` method that performs it. */
module Store {
  import opened Common

  /** A calendar date (a DATE column, or a PHP clock reading). */
  datatype Date = Date(year: int, month: int, day: int)

  /** The `Y-m` rendering two dates are compared by. */
  function YearMonth(d: Date): (int, int) {
    (d.year, d.month)
  }

  /** One row of `users`. `authToken`, `messagesResetDate` and
      `paypalSubscriptionId` are nullable columns. */
  datatype User = User(
    id: int,
    email: string,
    passwordHash: string,
    authToken: Option<string>,
    tier: string,
    subscriptionStatus: string,
    messagesUsed: int,
    messagesResetDate: Option<Date>,
    paypalSubscriptionId: Option<string>)

  type Users = map<int, User>

  /** The table's keys: every row sits under its own id, and e-mail
      addresses are unique. */
  ghost predicate WellFormed(users: Users) {
    && (forall k :: k in users ==> users[k].id == k)
    && (forall a, b :: a in users && b in users && a != b ==> users[a].email != users[b].email)
  }

  /** Ids of the rows whose `auth_token` equals `digest`. */
  function TokenMatches(users: Users, digest: string): (r: set<int>)
    ensures forall k :: k in r <==> k in users && users[k].authToken == Some(digest)
  {
    set k | k in users && users[k].authToken == Some(digest)
  }

  /** Ids of the rows whose `email` equals `email`. */
  function EmailMatches(users: Users, email: string): (r: set<int>)
    ensures forall k :: k in r <==> k in users && users[k].email == email
  {
    set k | k in users && users[k].email == email
  }

  /** `UPDATE users SET auth_token = ? WHERE id = ?` */
  function SetAuthToken(users: Users, id: int, digest: string): (r: Users)
    ensures r.Keys == users.Keys
    ensures id in users ==> r[id] == users[id].(authToken := Some(digest))
    ensures forall k :: k in users && k != id ==> r[k] == users[k]
  {
    if id in users then users[id := users[id].(authToken := Some(digest))] else users
  }

  /** `UPDATE users SET messages_used = messages_used + 1
       WHERE id = ? AND messages_used < ?` */
  function IncrementIfBelow(users: Users, id: int, limit: int): (r: Users)
    ensures r.Keys == users.Keys
    ensures id in users && users[id].messagesUsed < limit
            ==> r[id] == users[id].(messagesUsed := users[id].messagesUsed + 1)
    ensures !(id in users && users[id].messagesUsed < limit) ==> r == users
    ensures forall k :: k in users && k != id ==> r[k] == users[k]
  {
    if id in users && users[id].messagesUsed < limit
    then users[id := users[id].(messagesUsed := users[id].messagesUsed + 1)]
    else users
  }

  /** `UPDATE users SET messages_used = 0, messages_reset_date = CURRENT_DATE WHERE id = ?` */
  function ResetUsage(users: Users, id: int, today: Date): (r: Users)
    ensures r.Keys == users.Keys
    ensures id in users ==> r[id] == users[id].(messagesUsed := 0, messagesResetDate := Some(today))
    ensures forall k :: k in users && k != id ==> r[k] == users[k]
  {
    if id in users then users[id := users[id].(messagesUsed := 0, messagesResetDate := Some(today))]
    else users
  }

  /** The activation `UPDATE`: tier, PayPal subscription id, status `active`,
      usage zeroed and the reset date set to today. */
  function ActivateRow(users: Users, id: int, plan: string, subscriptionId: string, today: Date): (r: Users)
    ensures r.Keys == users.Keys
    ensures id in users ==> r[id] == users[id].(
      tier := plan, paypalSubscriptionId := Some(subscriptionId), subscriptionStatus := "active",
      messagesUsed := 0, messagesResetDate := Some(today))
    ensures forall k :: k in users && k != id ==> r[k] == users[k]
  {
    if id in users
    then users[id := users[id].(
      tier := plan, paypalSubscriptionId := Some(subscriptionId), subscriptionStatus := "active",
      messagesUsed := 0, messagesResetDate := Some(today))]
    else users
  }

  /** `b` has the same rows as `a`, with the same ids and e-mail addresses. */
  ghost predicate SameIdentity(a: Users, b: Users) {
    a.Keys == b.Keys && forall k :: k in a ==> a[k].id == b[k].id && a[k].email == b[k].email
  }

  /** An update that touches neither ids nor e-mail addresses keeps the table
      well formed. */
  lemma SameIdentityKeepsWellFormed(a: Users, b: Users)
    requires WellFormed(a) && SameIdentity(a, b)
    ensures WellFormed(b)
  {
    forall x, y | x in b && y in b && x != y
      ensures b[x].email != b[y].email
    {
      assert a[x].email != a[y].email;
    }
  }

  /** The database connection, reduced to the `users` table and its
      AUTO_INCREMENT counter. */
  class Database {
    var users: Users
    var nextId: int

    ghost predicate Valid()
      reads this
    {
      WellFormed(users) && forall k :: k in users ==> k < nextId
    }

    constructor ()
      ensures Valid() && users == map[] && nextId == 1
    {
      users := map[];
      nextId := 1;
    }

    /** `SELECT ... FROM users WHERE auth_token = ?` and `fetch()`: some
        matching row, or nothing when no row matches. */
    method SelectByToken(digest: string) returns (row: Option<User>)
      requires Valid()
      ensures row.None? <==> TokenMatches(users, digest) == {}
      ensures row.Some? ==> row.value.id in users && users[row.value.id] == row.value
      ensures row.Some? ==> row.value.authToken == Some(digest)
    {
      if k :| k in users && users[k].authToken == Some(digest) {
        assert k in TokenMatches(users, digest);
        row := Some(users[k]);
      } else {
        assert forall k :: k !in TokenMatches(users, digest);
        row := None;
      }
    }

    /** `SELECT * FROM users WHERE id = ?` and `fetch()`. */
    method SelectById(id: int) returns (row: Option<User>)
      requires Valid()
      ensures row.None? <==> id !in users
      ensures row.Some? ==> id in users && users[id] == row.value && row.value.id == id
    {
      row := if id in users then Some(users[id]) else None;
    }

    /** `SELECT ... FROM users WHERE email = ?` and `fetch()`. */
    method SelectByEmail(email: string) returns (row: Option<User>)
      requires Valid()
      ensures row.None? <==> EmailMatches(users, email) == {}
      ensures row.Some? ==> row.value.id in users && users[row.value.id] == row.value
      ensures row.Some? ==> row.value.email == email
    {
      if k :| k in users && users[k].email == email {
        assert k in EmailMatches(users, email);
        row := Some(users[k]);
      } else {
        assert forall k :: k !in EmailMatches(users, email);
        row := None;
      }
    }

    method UpdateAuthToken(id: int, digest: string)
      requires Valid()
      modifies this`users
      ensures Valid()
      ensures users == SetAuthToken(old(users), id, digest)
    {
      var updated := SetAuthToken(users, id, digest);
      SameIdentityKeepsWellFormed(users, updated);
      users := updated;
    }

    /** The conditional increment; `affected` is `rowCount() > 0`. */
    method IncrementMessages(id: int, limit: int) returns (affected: bool)
      requires Valid()
      modifies this`users
      ensures Valid()
      ensures affected <==> id in old(users) && old(users)[id].messagesUsed < limit
      ensures users == IncrementIfBelow(old(users), id, limit)
    {
      affected := id in users && users[id].messagesUsed < limit;
      var updated := IncrementIfBelow(users, id, limit);
      SameIdentityKeepsWellFormed(users, updated);
      users := updated;
    }

    method ResetMessages(id: int, today: Date)
      requires Valid()
      modifies this`users
      ensures Valid()
      ensures users == ResetUsage(old(users), id, today)
    {
      var updated := ResetUsage(users, id, today);
      SameIdentityKeepsWellFormed(users, updated);
      users := updated;
    }

    method ActivateSubscription(id: int, plan: string, subscriptionId: string, today: Date)
      requires Valid()
      modifies this`users
      ensures Valid()
      ensures users == ActivateRow(old(users), id, plan, subscriptionId, today)
    {
      var updated := ActivateRow(users, id, plan, subscriptionId, today);
      SameIdentityKeepsWellFormed(users, updated);
      users := updated;
    }

    /** `INSERT INTO users (email, password_hash, auth_token, tier,
        subscription_status)`; the other columns take their defaults
        (no usage, no reset date, no PayPal id). Returns `lastInsertId()`. */
    method InsertUser(email: string, passwordHash: string, authToken: string,
                      tier: string, status: string) returns (id: int)
      requires Valid()
      requires EmailMatches(users, email) == {}
      modifies this`users, this`nextId
      ensures Valid()
      ensures id == old(nextId) && id !in old(users) && nextId == old(nextId) + 1
      ensures users == old(users)[id := User(id, email, passwordHash, Some(authToken), tier, status, 0, None, None)]
    {
      id := nextId;
      users := users[id := User(id, email, passwordHash, Some(authToken), tier, status, 0, None, None)];
      nextId := nextId + 1;
    }
  }
}
