/** `ModuleLibrary`: which modules are locked for the subscription, and what
    a click on a library entry does. */
module ModuleLibrary {
  import opened Common
  import opened TierPolicy
  import opened Bots
  import BotFactory

  /** A JavaScript expression either yields a value or throws (here: a
      `TypeError` from reading a property of `undefined`). */
  datatype JsResult<T> = Returns(value: T) | Throws

  const LeadCapture: string := "lead-capture"

  /** `isModuleLocked`: nothing is locked without a subscription; lead capture
      is locked when the limits deny it; every other module is open. The
      limits are read without a guard, so a subscription object without
      `limits` makes the lead-capture check throw. */
  function IsModuleLocked(subscription: Option<Subscription>, moduleType: string): (r: JsResult<bool>)
    ensures subscription.None? ==> r == Returns(false)
    ensures subscription.Some? && moduleType != LeadCapture ==> r == Returns(false)
    ensures subscription.Some? && moduleType == LeadCapture && subscription.value.limits.None? ==> r == Throws
    ensures subscription.Some? && moduleType == LeadCapture && subscription.value.limits.Some? ==>
      r == Returns(!subscription.value.limits.value.leadCapture)
  {
    if subscription.None? then Returns(false)
    else if moduleType == LeadCapture then
      (if subscription.value.limits.None? then Throws else Returns(!subscription.value.limits.value.leadCapture))
    else Returns(false)
  }

  /** The click handler `!locked && onModuleAdd(type)`: the module type passed
      to `onModuleAdd`, or nothing when the entry is locked. */
  function Click(subscription: Option<Subscription>, moduleType: string): (r: JsResult<Option<string>>)
    ensures r.Throws? <==> IsModuleLocked(subscription, moduleType).Throws?
    ensures r.Returns? ==> (r.value.None? <==> IsModuleLocked(subscription, moduleType).value)
    ensures r.Returns? && r.value.Some? ==> r.value.value == moduleType
  {
    match IsModuleLocked(subscription, moduleType)
    case Throws => Throws
    case Returns(locked) => Returns(if locked then None else Some(moduleType))
  }

  /** Clicking a locked module never adds it, and every other module type is
      always added. */
  lemma LockedClickNeverAdds(subscription: Option<Subscription>, moduleType: string)
    ensures IsModuleLocked(subscription, moduleType) == Returns(true) ==> Click(subscription, moduleType) == Returns(None)
    ensures moduleType != LeadCapture ==> Click(subscription, moduleType) == Returns(Some(moduleType))
  {
  }

  /** With the limits the API endpoints report (the table, with free as the
      fallback), lead capture is locked exactly for free accounts and for tier
      names the table lacks. */
  lemma LeadCaptureLockedForFree(tier: string)
    ensures IsModuleLocked(Some(Subscription(Some(tier), Some(LimitsOrFree(tier)))), LeadCapture)
      == Returns(tier == "free" || !IsTier(tier))
  {
  }

  /** The two components guard the limits differently: a subscription object
      without limits lets a bot be created but makes the lead-capture entry
      throw. */
  lemma MissingLimitsDisagree(bots: seq<Bot>, tier: Option<string>, id: string, now: string)
    ensures BotFactory.CreateBot(bots, Some(Subscription(tier, None)), id, now).Some?
    ensures IsModuleLocked(Some(Subscription(tier, None)), LeadCapture).Throws?
  {
  }
}
