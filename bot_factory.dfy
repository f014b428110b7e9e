/** `BotFactory.handleCreateBot`: the bot-count check against the
    subscription's limits, and the record a new bot starts from. */
module BotFactory {
  import opened Common
  import opened TierPolicy
  import opened Bots

  const DefaultWidget := Widget(
    Header("Chat Support", "We're here to help!", "#3B82F6", "#FFFFFF", false),
    Greeting("Hello! How can I help you today?", true),
    Bubble("#3B82F6", "\U{1F4AC}", "bottom-right"),
    Theme("#3B82F6", "#10B981", "Inter, sans-serif"),
    Avatars(Avatar("emoji", "\U{1F916}"), Avatar("emoji", "\U{1F464}"), true))

  const DefaultSettings := Settings(
    "openai/gpt-3.5-turbo", 1000, "You are a helpful assistant.", true, [],
    RateLimiting(false, 100, 3600),
    Analytics(true, true, true))

  /** The check on lines 30-31: a subscription with limits and a finite bot
      count blocks creation once the user has that many bots. */
  predicate Blocked(bots: seq<Bot>, subscription: Option<Subscription>) {
    && subscription.Some? && subscription.value.limits.Some?
    && subscription.value.limits.value.bots != Unlimited
    && |bots| >= subscription.value.limits.value.bots
  }

  /** The new bot; `id` is `Date.now().toString()` and `now` the ISO time. */
  function NewBot(count: nat, id: string, now: string): (b: Bot)
    ensures b.name == "Bot " + NatToString(count + 1)
    ensures b.modules == []
    ensures b.settings.maxTokens == 1000 && b.settings.isActive && b.settings.allowedDomains == []
    ensures b.settings.rateLimiting == RateLimiting(false, 100, 3600)
    ensures b.id == id && b.createdAt == now && b.updatedAt == now
  {
    Bot(id, "Bot " + NatToString(count + 1), "A new bot ready to be configured", [],
        DefaultWidget, DefaultSettings, now, now)
  }

  /** `handleCreateBot`: the bot that is saved and handed to `onBotUpdate`,
      or nothing when the limit blocks it (an alert is shown instead). */
  function CreateBot(bots: seq<Bot>, subscription: Option<Subscription>, id: string, now: string): (r: Option<Bot>)
    ensures r.None? <==> Blocked(bots, subscription)
    ensures r.Some? ==> r.value == NewBot(|bots|, id, now)
  {
    if Blocked(bots, subscription) then None else Some(NewBot(|bots|, id, now))
  }

  /** A creation under a finite limit leaves the user with no more bots than
      the limit allows. */
  lemma CreateRespectsLimit(bots: seq<Bot>, limits: Limits, tier: Option<string>, id: string, now: string)
    requires limits.bots != Unlimited
    requires CreateBot(bots, Some(Subscription(tier, Some(limits))), id, now).Some?
    ensures |bots| + 1 <= limits.bots
  {
  }

  /** Without a subscription, without limits, or with an unlimited count,
      creation always goes ahead. */
  lemma NeverBlockedWithoutFiniteLimit(bots: seq<Bot>, subscription: Option<Subscription>, id: string, now: string)
    requires subscription.None? || subscription.value.limits.None? || subscription.value.limits.value.bots == Unlimited
    ensures CreateBot(bots, subscription, id, now).Some?
  {
  }

  /** Pressing "create" once per id, with each created bot added to the
      list the component receives next. */
  function CreateMany(bots: seq<Bot>, subscription: Option<Subscription>, ids: seq<string>, now: string): (r: seq<Bot>)
    ensures |bots| <= |r| <= |bots| + |ids|
    ensures r[..|bots|] == bots
    decreases |ids|
  {
    if ids == [] then bots
    else
      match CreateBot(bots, subscription, ids[0], now)
      case None => CreateMany(bots, subscription, ids[1..], now)
      case Some(b) =>
        var r := CreateMany(bots + [b], subscription, ids[1..], now);
        assert r[..|bots|] == r[..|bots| + 1][..|bots|];
        r
  }

  /** However often the user presses "create", a finite limit caps the list
      at the larger of the limit and the starting count. */
  lemma {:induction false} CreateManyCapped(bots: seq<Bot>, limits: Limits, tier: Option<string>,
                                            ids: seq<string>, now: string)
    requires limits.bots != Unlimited
    ensures |CreateMany(bots, Some(Subscription(tier, Some(limits))), ids, now)| <= Max(|bots|, limits.bots)
    decreases |ids|
  {
    var sub := Some(Subscription(tier, Some(limits)));
    if ids != [] {
      match CreateBot(bots, sub, ids[0], now)
      case None =>
        CreateManyCapped(bots, limits, tier, ids[1..], now);
      case Some(b) =>
        CreateManyCapped(bots + [b], limits, tier, ids[1..], now);
    }
  }

  /** With the limits of the tier table: a free user is stopped at one bot,
      a starter user at three, and a pro user never. */
  lemma TierBotCaps(bots: seq<Bot>, tier: string, id: string, now: string)
    ensures var sub := Some(Subscription(Some(tier), TierLimits(tier)));
      && (tier == "free" ==> (CreateBot(bots, sub, id, now).None? <==> |bots| >= 1))
      && (tier == "starter" ==> (CreateBot(bots, sub, id, now).None? <==> |bots| >= 3))
      && (tier == "pro" ==> CreateBot(bots, sub, id, now).Some?)
  {
  }
}
