/** Where the account pages send the browser (`header('Location: ...')`),
    and the e-mail field check the forms share. */
module Pages {
  import opened Common

  datatype Location =
    | Dashboard(welcomeBack: bool)       // dashboard.php, or dashboard.php?welcome=back
    | Payment(plan: string)              // payment.php?plan=<plan>
    | LoginExisting(email: string)       // login.php?existing=1&email=<email>
    | Login                              // login.php

  /** A user who chose a paid plan and has not paid yet goes to the payment
      page for that plan; everyone else goes to the dashboard. */
  function AfterLogin(tier: string, status: string, welcomeBack: bool): (r: Location)
    ensures r.Payment? <==> status == "pending" && tier != "free"
    ensures r.Payment? ==> r.plan == tier
    ensures r.Dashboard? ==> r.welcomeBack == welcomeBack
    ensures r.Payment? || r.Dashboard?
  {
    if status == "pending" && tier != "free" then Payment(tier) else Dashboard(welcomeBack)
  }

  /** `filter_var(trim($_POST['email'] ?? ''), FILTER_VALIDATE_EMAIL)` followed
      by the truthiness test the pages apply to it; the validity check itself
      is the parameter `isValidEmail`. */
  function FilteredEmail(raw: Option<string>, isValidEmail: string -> bool): (r: Option<string>)
    ensures r.Some? ==> r.value == Trim(raw.GetOr("")) && isValidEmail(r.value) && Truthy(r.value)
    ensures r.None? ==> !isValidEmail(Trim(raw.GetOr(""))) || !Truthy(Trim(raw.GetOr("")))
  {
    var e := Trim(raw.GetOr(""));
    if isValidEmail(e) && Truthy(e) then Some(e) else None
  }
}
