/** `dashboard.php`: the logged-in user's overview, computed from their row
    and the entitlement table read WITHOUT a fallback, so a tier name the
    table lacks shows empty limits. */
module Dashboard {
  import opened Common
  import opened Tokens
  import opened TierPolicy
  import opened Store
  import opened Sessions
  import opened Pages
  import opened Auth
  import Payment

  /** How a count limit is printed: `Unlimited` for `-1`, the number
      otherwise, and nothing when the tier has no row. */
  datatype LimitText = UnlimitedText | Count(n: int) | Blank

  function LimitTextOf(count: Option<int>): (r: LimitText)
    ensures count.None? <==> r == Blank
    ensures r == UnlimitedText <==> count == Some(Unlimited)
    ensures count.Some? && count.value != Unlimited ==> r == Count(count.value)
  {
    if count.None? then Blank
    else if count.value == Unlimited then UnlimitedText
    else Count(count.value)
  }

  /** The width of the usage bar, in percent: zero for a limit that is not
      positive (or missing), capped at 100. */
  function UsagePercent(used: int, limit: Option<int>): (r: real)
    ensures limit.None? || limit.value <= 0 ==> r == 0.0
    ensures limit.Some? && limit.value > 0 && used >= limit.value ==> r == 100.0
    ensures limit.Some? && limit.value > 0 && used <= limit.value ==>
      r * (limit.value as real) == (used as real) * 100.0
    ensures limit.Some? && limit.value > 0 && used >= 0 ==> 0.0 <= r <= 100.0
  {
    if limit.None? || limit.value <= 0 then 0.0
    else
      var share := used as real / limit.value as real;
      assert share * limit.value as real == used as real;
      assert used >= limit.value ==> share >= 1.0 by {
        if share < 1.0 {
          assert share * limit.value as real < limit.value as real;
        }
      }
      var p := share * 100.0;
      if 100.0 <= p then 100.0 else p
  }

  /** The four feature ticks; all crossed out when the tier has no row. */
  datatype Features = Features(avatars: bool, leadCapture: bool, htmlExport: bool, customPrompt: bool)

  function FeaturesOf(limits: Option<Limits>): (r: Features)
    ensures limits.None? ==> r == Features(false, false, false, false)
    ensures limits.Some? ==> r == Features(limits.value.avatars, limits.value.leadCapture,
                                           limits.value.htmlExport, limits.value.customPrompt)
  {
    match limits
    case None => Features(false, false, false, false)
    case Some(l) => Features(l.avatars, l.leadCapture, l.htmlExport, l.customPrompt)
  }

  /** The upgrade link: none for pro, starter for free, pro for anything else. */
  function UpgradeTarget(tier: string): (r: Option<string>)
    ensures r.None? <==> tier == "pro"
    ensures tier == "free" ==> r == Some("starter")
    ensures r.Some? && tier != "free" ==> r == Some("pro")
  {
    if tier == "pro" then None else if tier == "free" then Some("starter") else Some("pro")
  }

  /** For the known tiers the link always points one step up, to a plan the
      payment page offers as is. */
  lemma UpgradeGoesUp(tier: string)
    requires IsTier(tier) && tier != "pro"
    ensures IsTier(UpgradeTarget(tier).value) && Rank(UpgradeTarget(tier).value) == Rank(tier) + 1
    ensures Payment.CheckoutPlan(UpgradeTarget(tier)) == UpgradeTarget(tier).value
  {
    var t := UpgradeTarget(tier).value;
    assert Lower(t) == t;
  }

  datatype View = View(
    tier: string,
    email: string,
    welcome: bool,
    messagesUsed: int,
    messageLimit: int,
    percent: real,
    bots: LimitText,
    faqs: LimitText,
    features: Features,
    upgrade: Option<string>,
    shownToken: Option<string>)

  /** Everything the page shows for a row. */
  function ViewOf(row: User, welcome: bool): (v: View)
    ensures v.tier == row.tier && v.email == row.email && v.messagesUsed == row.messagesUsed
    ensures v.welcome == welcome
    ensures IsTier(row.tier) ==>
      var l := TierLimits(row.tier).value;
      && v.messageLimit == l.messagesPerMonth
      && v.percent == UsagePercent(row.messagesUsed, Some(l.messagesPerMonth))
      && v.bots == LimitTextOf(Some(l.bots)) && v.faqs == LimitTextOf(Some(l.faqs))
      && v.features == FeaturesOf(Some(l))
    ensures !IsTier(row.tier) ==>
      && v.messageLimit == 0 && v.percent == 0.0 && v.bots == Blank && v.faqs == Blank
      && v.features == FeaturesOf(None)
    ensures v.shownToken == row.authToken
    ensures v.upgrade == UpgradeTarget(row.tier)
  {
    var limits := TierLimits(row.tier);
    View(row.tier, row.email, welcome, row.messagesUsed,
         if limits.Some? then limits.value.messagesPerMonth else 0,
         UsagePercent(row.messagesUsed, if limits.Some? then Some(limits.value.messagesPerMonth) else None),
         LimitTextOf(if limits.Some? then Some(limits.value.bots) else None),
         LimitTextOf(if limits.Some? then Some(limits.value.faqs) else None),
         FeaturesOf(limits), UpgradeTarget(row.tier), row.authToken)
  }

  /** On a known tier the bar never overflows: usage within the quota is
      shown in proportion, anything above as a full bar. */
  lemma PercentInRange(row: User)
    requires IsTier(row.tier) && row.messagesUsed >= 0
    ensures 0.0 <= ViewOf(row, false).percent <= 100.0
  {
    TableValues();
  }

  datatype Page = RedirectTo(to: Location) | Show(view: View)

  /** The page: no session, or a session whose row has gone, leads to the
      login page (the latter also destroys the session). */
  method DashboardPage(db: Database, session: Session, welcome: bool) returns (page: Page)
    requires db.Valid()
    modifies session
    ensures old(session.userId).None? ==>
      && page == RedirectTo(Login)
      && session.userId.None? && session.userEmail == old(session.userEmail)
      && session.userTier == old(session.userTier) && session.authToken == old(session.authToken)
      && session.apiRequests == old(session.apiRequests)
    ensures old(session.userId).Some? && old(session.userId).value !in db.users ==>
      && page == RedirectTo(Login)
      && session.userId.None? && session.userEmail.None? && session.userTier.None?
      && session.authToken.None? && session.apiRequests == []
    ensures old(session.userId).Some? && old(session.userId).value in db.users ==>
      && page == Show(ViewOf(db.users[old(session.userId).value], welcome))
      && session.userId == old(session.userId) && session.userEmail == old(session.userEmail)
      && session.userTier == old(session.userTier) && session.authToken == old(session.authToken)
      && session.apiRequests == old(session.apiRequests)
  {
    if session.userId.None? {
      return RedirectTo(Login);
    }
    var user := db.SelectById(session.userId.value);
    if user.None? {
      session.Destroy();
      return RedirectTo(Login);
    }
    return Show(ViewOf(user.value, welcome));
  }

  /** The token box shows the column's content. The column holds either the
      raw token signup wrote or a digest a refresh wrote; in both cases,
      pasted into an `Authorization: Bearer` header, it is looked up by its
      own digest and does not find the row unless the digest leaves it
      unchanged. */
  lemma {:induction false} ShownTokenRejected(users: Users, id: int, welcome: bool, hash: string -> string)
    requires id in users
    requires var s := ViewOf(users[id], welcome).shownToken;
      s.Some? && |s.value| >= 1 && !IsSpace(s.value[0]) && '\n' !in s.value && Truthy(s.value)
      && hash(s.value) != s.value
    ensures var s := ViewOf(users[id], welcome).shownToken.value;
      var h: HeaderValue := "Bearer " + s;
      id !in Candidates(users, ApiRequest(Some(h), None), hash)
  {
    var s := ViewOf(users[id], welcome).shownToken.value;
    BearerRoundTrip(s);
    StoredValueDoesNotFindItsRow(users, id, s, hash);
  }
}
