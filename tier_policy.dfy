/** The per-tier entitlement table (`TIER_LIMITS`) and the two ways the
    code reads it: with a fallback to `free` (the API endpoints) and
    without one (the dashboard). `-1` in a countable field means unlimited. */
module TierPolicy {
  import opened Common

  const Unlimited: int := -1

  /** One row of the table. `ownApiKey` is a key only the `pro` row defines,
      so it is `None` where PHP would find no key. */
  datatype Limits = Limits(
    bots: int,
    messagesPerMonth: int,
    faqs: int,
    avatars: bool,
    leadCapture: bool,
    htmlExport: bool,
    customPrompt: bool,
    ownApiKey: Option<bool>)

  const FreeLimits := Limits(1, 300, 10, false, false, true, false, None)
  const StarterLimits := Limits(3, 1000, 50, true, true, true, true, None)
  const ProLimits := Limits(Unlimited, 10000, Unlimited, true, true, true, true, Some(true))

  const TierNames: seq<string> := ["free", "starter", "pro"]

  predicate IsTier(name: string) {
    name == "free" || name == "starter" || name == "pro"
  }

  /** `TIER_LIMITS[$name]`: the row, or nothing for a name the table lacks. */
  function TierLimits(name: string): (r: Option<Limits>)
    ensures r.Some? <==> IsTier(name)
  {
    if name == "free" then Some(FreeLimits)
    else if name == "starter" then Some(StarterLimits)
    else if name == "pro" then Some(ProLimits)
    else None
  }

  /** `TIER_LIMITS[$name] ?? TIER_LIMITS['free']`, as both API endpoints read it. */
  function LimitsOrFree(name: string): (r: Limits)
    ensures IsTier(name) ==> Some(r) == TierLimits(name)
    ensures !IsTier(name) ==> r == FreeLimits
  {
    TierLimits(name).GetOr(FreeLimits)
  }

  /** The messages-per-month quota the endpoints enforce for a tier name. */
  function MessageLimit(name: string): (r: int)
    ensures IsTier(name) ==> r == TierLimits(name).value.messagesPerMonth
    ensures !IsTier(name) ==> r == 300
    ensures r >= 300
  {
    LimitsOrFree(name).messagesPerMonth
  }

  /** `max(0, limit - used)`: what is left of a message quota, as both API
      endpoints report it. */
  function Remaining(limit: int, used: int): (r: int)
    ensures r >= 0
    ensures used <= limit ==> used + r == limit
    ensures used >= limit ==> r == 0
  {
    Max(0, limit - used)
  }

  /** `a` allows no more than `b` when `-1` reads as unlimited. */
  predicate CountAtMost(a: int, b: int) {
    b == Unlimited || (a != Unlimited && a <= b)
  }

  /** Every entitlement of `lo` is also one of `hi`. */
  predicate Covers(lo: Limits, hi: Limits) {
    && CountAtMost(lo.bots, hi.bots)
    && CountAtMost(lo.messagesPerMonth, hi.messagesPerMonth)
    && CountAtMost(lo.faqs, hi.faqs)
    && (lo.avatars ==> hi.avatars)
    && (lo.leadCapture ==> hi.leadCapture)
    && (lo.htmlExport ==> hi.htmlExport)
    && (lo.customPrompt ==> hi.customPrompt)
    && (lo.ownApiKey == Some(true) ==> hi.ownApiKey == Some(true))
  }

  /** Position of a tier in the upgrade order free < starter < pro. */
  function Rank(name: string): (r: nat)
    requires IsTier(name)
    ensures r < 3 && TierNames[r] == name
  {
    if name == "free" then 0 else if name == "starter" then 1 else 2
  }

  /** The table's values, field by field. */
  lemma TableValues()
    ensures TierLimits("free") == Some(Limits(1, 300, 10, false, false, true, false, None))
    ensures TierLimits("starter") == Some(Limits(3, 1000, 50, true, true, true, true, None))
    ensures TierLimits("pro") == Some(Limits(-1, 10000, -1, true, true, true, true, Some(true)))
    ensures forall t :: IsTier(t) ==> (TierLimits(t).value.ownApiKey.Some? <==> t == "pro")
    ensures forall t :: IsTier(t) ==> TierLimits(t).value.messagesPerMonth > 0
  {
  }

  /** Entitlements never shrink going up the tier order. */
  lemma TiersMonotone(a: string, b: string)
    requires IsTier(a) && IsTier(b) && Rank(a) <= Rank(b)
    ensures Covers(TierLimits(a).value, TierLimits(b).value)
  {
  }

  /** No tier has an unlimited message quota: every enforced limit is a
      positive number, whatever the tier name. */
  lemma NoUnlimitedMessages(name: string)
    ensures MessageLimit(name) != Unlimited && MessageLimit(name) > 0
  {
  }
}
