/** `checkRateLimit`: a sliding window over the timestamps kept in the
    session. The list is shared by everything that uses the same session and
    is not keyed by the user id the caller passes. */
module RateLimit {
  import opened Sessions

  /** Defaults of `checkRateLimit`, the values `authenticateApiRequest` uses. */
  const DefaultLimit: int := 60
  const DefaultPeriod: int := 60

  /** The timestamps `array_filter` keeps: those strictly after `now - period`,
      in their original order. */
  function Prune(requests: seq<int>, now: int, period: int): (r: seq<int>)
    ensures |r| <= |requests|
    ensures forall i :: 0 <= i < |r| ==> r[i] > now - period
    decreases |requests|
  {
    if requests == [] then []
    else
      var last := requests[|requests| - 1];
      Prune(requests[..|requests| - 1], now, period) + (if last > now - period then [last] else [])
  }

  /** Pruning keeps exactly the recent timestamps: every kept one was in the
      list, and every recent one in the list is kept. */
  lemma {:induction false} PruneKeepsRecent(requests: seq<int>, now: int, period: int)
    ensures forall t :: t in Prune(requests, now, period) <==> t in requests && t > now - period
    decreases |requests|
  {
    if requests != [] {
      var init := requests[..|requests| - 1];
      PruneKeepsRecent(init, now, period);
      assert requests == init + [requests[|requests| - 1]];
    }
  }

  /** Pruning twice at the same instant changes nothing more. */
  lemma {:induction false} PruneIdempotent(requests: seq<int>, now: int, period: int)
    ensures Prune(Prune(requests, now, period), now, period) == Prune(requests, now, period)
    decreases |requests|
  {
    if requests != [] {
      var init := requests[..|requests| - 1];
      var last := requests[|requests| - 1];
      PruneIdempotent(init, now, period);
      PruneAppend(Prune(init, now, period), if last > now - period then [last] else [], now, period);
      PruneAllRecent(if last > now - period then [last] else [], now, period);
    }
  }

  lemma {:induction false} PruneAppend(a: seq<int>, b: seq<int>, now: int, period: int)
    ensures Prune(a + b, now, period) == Prune(a, now, period) + Prune(b, now, period)
    decreases |b|
  {
    if b == [] {
      assert a + b == a;
    } else {
      var binit := b[..|b| - 1];
      assert (a + b)[..|a + b| - 1] == a + binit;
      PruneAppend(a, binit, now, period);
    }
  }

  lemma {:induction false} PruneAllRecent(s: seq<int>, now: int, period: int)
    requires forall i :: 0 <= i < |s| ==> s[i] > now - period
    ensures Prune(s, now, period) == s
    decreases |s|
  {
    if s != [] {
      PruneAllRecent(s[..|s| - 1], now, period);
      assert s[..|s| - 1] + [s[|s| - 1]] == s;
    }
  }

  /** A list whose timestamps all lie at or before `now - period` prunes to
      nothing: the window has passed. */
  lemma {:induction false} PruneExpired(s: seq<int>, now: int, period: int)
    requires forall i :: 0 <= i < |s| ==> s[i] <= now - period
    ensures Prune(s, now, period) == []
    decreases |s|
  {
    if s != [] {
      PruneExpired(s[..|s| - 1], now, period);
    }
  }

  /** The `array_filter` call, as the loop it performs. */
  method PruneWindow(requests: seq<int>, now: int, period: int) returns (kept: seq<int>)
    ensures kept == Prune(requests, now, period)
  {
    kept := [];
    var i := 0;
    while i < |requests|
      invariant 0 <= i <= |requests|
      invariant kept == Prune(requests[..i], now, period)
    {
      assert requests[..i + 1][..i] == requests[..i];
      if requests[i] > now - period {
        kept := kept + [requests[i]];
      }
      i := i + 1;
    }
    assert requests[..i] == requests;
  }

  /** The decision `checkRateLimit` takes on a pruned list. */
  predicate Allows(requests: seq<int>, now: int, limit: int, period: int) {
    |Prune(requests, now, period)| < limit
  }

  /** `checkRateLimit($userId, $limit, $period)`: prune the session list; deny
      (HTTP 429, request ends) when `limit` or more remain, otherwise record
      `now`. The user id plays no part. */
  method CheckRateLimit(session: Session, userId: int, now: int, limit: int, period: int)
    returns (allowed: bool)
    modifies session`apiRequests
    ensures allowed <==> Allows(old(session.apiRequests), now, limit, period)
    ensures session.apiRequests ==
      Prune(old(session.apiRequests), now, period) + (if allowed then [now] else [])
  {
    var kept := PruneWindow(session.apiRequests, now, period);
    session.apiRequests := kept;
    if |kept| >= limit {
      return false;
    }
    session.apiRequests := kept + [now];
    return true;
  }

  /** After an allowed call the list holds at most `limit` timestamps, all in
      the window. */
  lemma AllowedStaysWithinLimit(requests: seq<int>, now: int, limit: int, period: int)
    requires Allows(requests, now, limit, period)
    requires period > 0
    ensures |Prune(requests, now, period) + [now]| <= limit
    ensures forall i :: 0 <= i < |Prune(requests, now, period) + [now]| ==>
      (Prune(requests, now, period) + [now])[i] > now - period
  {
  }

  /** A full window is denied; once every timestamp has left the window the
      next call is allowed again. */
  lemma {:induction false} WindowRecovers(requests: seq<int>, now: int, later: int, limit: int, period: int)
    requires limit > 0 && period > 0
    requires forall i :: 0 <= i < |requests| ==> requests[i] <= now
    requires later >= now + period
    ensures Allows(requests, later, limit, period)
  {
    PruneExpired(requests, later, period);
  }

  /** `limit` calls at the same instant fill the window: the next one is denied. */
  lemma {:induction false} FullWindowDenies(n: nat, now: int, limit: int, period: int)
    requires period > 0 && n >= limit
    ensures !Allows(seq(n, _ => now), now, limit, period)
  {
    var s := seq(n, _ => now);
    PruneAllRecent(s, now, period);
  }
}
