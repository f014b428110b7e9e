/** `payment.php`: the checkout page for a paid plan. It only decides which
    plan to offer; the subscription itself is created by the payment
    provider's button, which then posts `{subscription_id, plan}` to
    `activate.php`. */
module Payment {
  import opened Common
  import opened TierPolicy
  import opened Pages
  import Activate

  /** `strtolower($_GET['plan'] ?? 'starter')`, kept only when it names a paid plan. */
  function CheckoutPlan(plan: Option<string>): (r: string)
    ensures r == "starter" || r == "pro"
    ensures plan.Some? && (Lower(plan.value) == "starter" || Lower(plan.value) == "pro") ==> r == Lower(plan.value)
    ensures plan.None? || !(Lower(plan.value) == "starter" || Lower(plan.value) == "pro") ==> r == "starter"
  {
    if plan.Some? && (Lower(plan.value) == "starter" || Lower(plan.value) == "pro") then Lower(plan.value)
    else "starter"
  }

  /** The payment provider's plan ids (`PAYPAL_STARTER_PLAN_ID`,
      `PAYPAL_PRO_PLAN_ID`), read from the environment. */
  datatype ProviderPlans = ProviderPlans(starter: string, pro: string)

  datatype Offer = Offer(name: string, price: int, planId: string)

  /** `$planData[$plan]`. */
  function OfferFor(plan: string, ids: ProviderPlans): (r: Offer)
    requires plan == "starter" || plan == "pro"
    ensures plan == "starter" ==> r == Offer("Starter", 9, ids.starter)
    ensures plan == "pro" ==> r == Offer("Pro", 29, ids.pro)
  {
    if plan == "starter" then Offer("Starter", 9, ids.starter) else Offer("Pro", 29, ids.pro)
  }

  datatype Page = RedirectTo(to: Location) | Checkout(plan: string, offer: Offer)

  /** The page: a visitor without a session is sent to the login page;
      everyone else gets the checkout for the chosen plan. */
  function PaymentPage(userId: Option<int>, planParam: Option<string>, ids: ProviderPlans): (r: Page)
    ensures userId.None? <==> r == RedirectTo(Login)
    ensures userId.Some? ==> r.Checkout?
    ensures r.Checkout? ==> r.plan == CheckoutPlan(planParam) && r.offer == OfferFor(r.plan, ids)
  {
    if userId.None? then RedirectTo(Login)
    else
      var plan := CheckoutPlan(planParam);
      Checkout(plan, OfferFor(plan, ids))
  }

  /** The paid plans cost more going up, and the page offers only tiers of
      the entitlement table. */
  lemma OffersAreTiers(plan: Option<string>, ids: ProviderPlans)
    ensures IsTier(CheckoutPlan(plan))
    ensures OfferFor("starter", ids).price < OfferFor("pro", ids).price
  {
  }

  /** What the button posts after an approved checkout always passes the
      activation endpoint's check, as long as the provider returns a
      subscription id. */
  lemma CheckoutActivates(userId: Option<int>, planParam: Option<string>, ids: ProviderPlans, subscriptionId: string)
    requires Truthy(subscriptionId)
    requires PaymentPage(userId, planParam, ids).Checkout?
    ensures Activate.ValidInput(Activate.ActivateInput(Some(subscriptionId), Some(PaymentPage(userId, planParam, ids).plan)))
  {
  }

  /** A pending paid account sent here by signup or login sees the plan it chose. */
  lemma PendingRedirectKeepsPlan(tier: string, status: string, welcomeBack: bool)
    requires tier == "starter" || tier == "pro"
    requires AfterLogin(tier, status, welcomeBack).Payment?
    ensures CheckoutPlan(Some(AfterLogin(tier, status, welcomeBack).plan)) == tier
  {
    assert Lower(tier) == tier;
  }
}
