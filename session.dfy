/** `$_SESSION`: the per-cookie state PHP keeps between requests. Only the
    keys the core reads or writes are fields. */
module Sessions {
  import opened Common

  class Session {
    var userId: Option<int>
    var userEmail: Option<string>
    var userTier: Option<string>
    var authToken: Option<string>
    /** `$_SESSION['api_requests']`, the rate limiter's timestamps (unset reads as empty). */
    var apiRequests: seq<int>

    constructor ()
      ensures userId.None? && userEmail.None? && userTier.None? && authToken.None?
      ensures apiRequests == []
    {
      userId, userEmail, userTier, authToken := None, None, None, None;
      apiRequests := [];
    }

    /** `session_destroy()`. */
    method Destroy()
      modifies this
      ensures userId.None? && userEmail.None? && userTier.None? && authToken.None?
      ensures apiRequests == []
    {
      userId, userEmail, userTier, authToken := None, None, None, None;
      apiRequests := [];
    }
  }
}
