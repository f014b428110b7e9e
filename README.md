# MemoryKeep Bot Factory — entitlements and usage metering in Dafny

This project models the part of the MemoryKeep Bot Factory that decides what
a customer may do, and counts what they have done. It has two halves.

The PHP back end:
- the per-tier entitlement table (`free`, `starter`, `pro`);
- sign-up, log-in, the payment page, subscription activation and the
  dashboard;
- the API token: generating it, storing it, and reading it back from an
  `Authorization: Bearer` header or the request body;
- the session-based sliding-window rate limiter;
- the two metered API endpoints: `api/status.php`, which also starts a new
  month's count, and `api/use-message.php`, which counts one message with a
  conditional `UPDATE`.

The React front end:
- the pure updates `BotBuilder` makes to a bot record, and its embed-URL rule;
- the bot-count check and the new-bot defaults of `BotFactory`;
- module locking in `ModuleLibrary`.

The `users` table is `Store.Database`, a class holding a map from id to row.
There is one method per SQL statement the core issues, each specified by a
pure function on the table. `$_SESSION` is the class `Sessions.Session`.

The pages and endpoints are methods. They take as inputs what PHP reads from
the request, and they specify the new table, the new session and the
response.

Foreign calls become parameters:
- the SHA-256 token digest is `hash`;
- `password_verify` is `verify`;
- the `FILTER_VALIDATE_EMAIL` filter is `isValidEmail`;
- `random_bytes(32)` is `random`;
- `time()`, `new DateTime()` and the database's `CURRENT_DATE` are `now`,
  `clock` and `today`.

The React components are pure functions over datatypes.

Modules:

| module | file | models |
|---|---|---|
| Common | common.dfy | Option, PHP string truthiness, `strtolower`, `trim`, `max`/`min` |
| TierPolicy | tier_policy.dfy | `TIER_LIMITS` and its two lookups |
| Cors | cors.dfy | `getCorsOrigin` |
| Tokens | tokens.dfy | `generateAuthToken`, the bearer-header pattern, the body fallback |
| Store | store.dfy | the `users` table and its statements |
| Sessions | session.dfy | `$_SESSION` |
| RateLimit | rate_limit.dfy | `checkRateLimit` |
| Auth | auth.dfy | `refreshAuthToken`, `authenticateApiRequest` |
| UseMessage | use_message.dfy | `api/use-message.php` |
| Status | status.dfy | `api/status.php` |
| Activate | activate.dfy | `activate.php` |
| Pages | pages.dfy | redirect targets, the e-mail field check |
| Signup | signup.dfy | `signup.php` |
| Login | login.dfy | `login.php` |
| Payment | payment.dfy | `payment.php` |
| Dashboard | dashboard.dfy | `dashboard.php` |
| Bots | bots.dfy | the `Bot` record and the `subscription` prop |
| BotBuilder | bot_builder.dfy | `BotBuilder.tsx` handlers |
| BotFactory | bot_factory.dfy | `BotFactory.tsx` `handleCreateBot` |
| ModuleLibrary | module_library.dfy | `ModuleLibrary.tsx` `isModuleLocked` |

## Model

| member | source | states |
|---|---|---|
| TierPolicy.TierLimits | php-backend/config.example.php:37-66 | a row exists exactly for the names `free`, `starter` and `pro` |
| TierPolicy.LimitsOrFree | php-backend/api/use-message.php:54 | a known tier gets its own row; any other name gets the `free` row |
| TierPolicy.MessageLimit | php-backend/api/use-message.php:54-55 | the enforced quota is the tier's `messages_per_month`, 300 for unknown names, and never below 300 |
| TierPolicy.Remaining | php-backend/api/use-message.php:82 | what is left is never negative; under the limit, used plus remaining equals the limit; at or over it, nothing is left |
| TierPolicy.TableValues | php-backend/config.example.php:37-66 | the table's values field by field; only `pro` defines `own_api_key`; every quota is positive |
| TierPolicy.TiersMonotone | php-backend/config.example.php:37-66 | going up free < starter < pro never removes an entitlement (-1 counts as unlimited) |
| TierPolicy.NoUnlimitedMessages | php-backend/config.example.php:40-58 | no tier name yields an unlimited (-1) or non-positive message quota |
| Cors.CorsOrigin | php-backend/config.example.php:99-107 | the answer is always an allowed origin; it echoes the request's origin exactly when that origin is allow-listed, and is the first entry otherwise |
| Cors.MissingOriginGetsDefault | php-backend/config.example.php:101-106 | a request without an Origin header gets `https://bf.memorykeep.cloud` |
| Tokens.Hex | php-backend/config.example.php:114 | `bin2hex` yields two lower-case hex digits per byte |
| Tokens.UnhexHex | php-backend/config.example.php:114 | decoding the hex spelling gives back the bytes |
| Tokens.GenerateAuthToken | php-backend/config.example.php:112-115 | a token is 64 lower-case hex characters that decode to the 32 random bytes |
| Tokens.TokensDistinct | php-backend/config.example.php:114 | different random draws give different tokens |
| Tokens.SpaceRunEnd | php-backend/config.example.php:152 | the greedy `\s+` run: every skipped character is white space, and the next one is not |
| Tokens.CaptureAt | php-backend/config.example.php:152 | the capture of a match is a non-empty suffix of the header; it begins after the scheme word and a run of at least one space, every character skipped is a space, and it starts with a non-space unless it is a single character (greedy `\s+` gives one back) |
| Tokens.BearerFrom | php-backend/config.example.php:152-154 | a capture exists exactly when the pattern matches at some position from `i` on; the capture is the one of the leftmost such match |
| Tokens.BearerToken | php-backend/config.example.php:152-154 | `preg_match` finds a token exactly when `Bearer`, one or more spaces and one more character occur; the token is the capture of the leftmost match |
| Tokens.BearerRoundTrip | php-backend/config.example.php:152-154 | `Bearer <t>` yields exactly `t` when `t` does not start with white space |
| Tokens.BearerAnyCase | php-backend/config.example.php:152 | for any spelling of the scheme word (the `i` flag), any non-empty run of spaces and any token that starts with a non-space, the token is extracted exactly |
| Tokens.BearerAlone | php-backend/config.example.php:152 | `Bearer` followed only by two spaces captures one space; the bare word matches nothing |
| Tokens.PresentedToken | php-backend/config.example.php:147-165 | a truthy header token wins; otherwise a truthy body token; otherwise no token |
| Tokens.ZeroHeaderFallsBack | php-backend/config.example.php:158-161 | a header token `0` is falsy, so the body's token is used |
| Store.TokenMatches | php-backend/config.example.php:172-174 | exactly the rows whose `auth_token` equals the digest |
| Store.EmailMatches | php-backend/signup.php:34-36 | exactly the rows whose e-mail equals the address |
| Store.SetAuthToken | php-backend/config.example.php:135-136 | only that row's `auth_token` changes; the keys and all other rows stay the same |
| Store.IncrementIfBelow | php-backend/api/use-message.php:59-60 | the row gains one message exactly when it exists and is under the limit; otherwise the table is unchanged |
| Store.ResetUsage | php-backend/api/status.php:62-63 | only the caller's usage becomes 0 and its reset date today |
| Store.ActivateRow | php-backend/activate.php:27-36 | only the caller's tier, PayPal id, status, usage and reset date change |
| Store.Database.SelectByToken | php-backend/config.example.php:172-174 | returns nothing exactly when no row holds the digest, and otherwise a row of the table that holds it |
| Store.Database.SelectByEmail | php-backend/signup.php:34-36 | returns nothing exactly when no row has the address, and otherwise a row of the table that has it |
| Store.Database.SelectById | php-backend/dashboard.php:16-18 | returns the row with that id, or nothing when there is none |
| Store.Database.UpdateAuthToken | php-backend/config.example.php:135-136 | the table becomes SetAuthToken of the old table; keys and unique e-mails are kept |
| Store.Database.IncrementMessages | php-backend/api/use-message.php:59-63 | the table becomes IncrementIfBelow of the old one; `affected` holds exactly when the row existed under the limit |
| Store.Database.ResetMessages | php-backend/api/status.php:62-63 | the table becomes ResetUsage of the old one |
| Store.Database.ActivateSubscription | php-backend/activate.php:27-36 | the table becomes ActivateRow of the old one |
| Store.Database.InsertUser | php-backend/signup.php:62-65 | adds one row under a fresh id, the next id moves on by one: no usage, no reset date and no PayPal id; the other rows stay as they were |
| Store.SameIdentityKeepsWellFormed | php-backend/signup.php:34-36 | an update that changes no id or e-mail keeps ids and e-mail addresses unique |
| Sessions.Session.Destroy | php-backend/dashboard.php:21 | `session_destroy()` leaves no user, token or request history in the session |
| RateLimit.Prune | php-backend/config.example.php:197-199 | every timestamp kept lies strictly inside the window, and nothing is added |
| RateLimit.PruneKeepsRecent | php-backend/config.example.php:197-199 | a timestamp is kept exactly when it was in the list and lies inside the window |
| RateLimit.PruneIdempotent | php-backend/config.example.php:197-199 | pruning twice at the same instant is pruning once |
| RateLimit.PruneAppend | php-backend/config.example.php:197-199 | pruning a concatenation prunes each part, keeping the order |
| RateLimit.PruneAllRecent | php-backend/config.example.php:197-199 | a list wholly inside the window is kept as it is |
| RateLimit.PruneExpired | php-backend/config.example.php:197-199 | a list wholly outside the window prunes to nothing |
| RateLimit.PruneWindow | php-backend/config.example.php:197-199 | the filtering loop computes Prune |
| RateLimit.CheckRateLimit | php-backend/config.example.php:187-208 | allowed exactly when fewer than `limit` timestamps remain after pruning; the session keeps the pruned list, plus `now` when allowed |
| RateLimit.AllowedStaysWithinLimit | php-backend/config.example.php:197-207 | after an allowed call the list holds at most `limit` timestamps, all inside the window |
| RateLimit.WindowRecovers | php-backend/config.example.php:197-205 | once a full period has passed since the last request, the next call is allowed |
| RateLimit.FullWindowDenies | php-backend/config.example.php:201-205 | `limit` requests at one instant fill the window, and the next is denied |
| Auth.RefreshAuthToken | php-backend/config.example.php:130-138 | returns a fresh token and stores its digest in that row; nothing else changes |
| Auth.RefreshedTokenFindsRow | php-backend/config.example.php:133-136 | after a refresh, looking up the digest of the returned token finds the row |
| Auth.Candidates | php-backend/config.example.php:147-174 | without a presented token nothing matches; otherwise exactly the rows storing its digest |
| Auth.AuthenticateApiRequest | php-backend/config.example.php:144-181 | unauthenticated exactly when no row matches, leaving the limiter alone; otherwise the limiter is charged, and an authenticated user is a matching row |
| Auth.StoredValueDoesNotFindItsRow | php-backend/config.example.php:168-174 | presenting a row's own stored value does not find that row unless the digest leaves the value unchanged |
| UseMessage.UseMessage | php-backend/api/use-message.php:42-83 | 401 exactly when no row matches; the table changes only by the conditional increment of the caller's row; counted exactly when the caller was under its tier quota, and the reported numbers are the new count and what remains; past authentication, 429 exactly when the rate limiter denies, and the session's window becomes the pruned window plus this request when allowed; a 401 leaves the window alone |
| UseMessage.NeverOvershoots | php-backend/api/use-message.php:59-60 | a counter at or under the limit stays at or under it |
| UseMessage.NegativeLimitRejectsAll | php-backend/api/use-message.php:59-60 | a limit of -1 would reject every increment rather than mean unlimited |
| UseMessage.ConsumeManyCounts | php-backend/api/use-message.php:59-63 | n sequential requests from u under limit L succeed min(n, L-u) times and leave min(u+n, L); other rows unchanged |
| UseMessage.FromZero | php-backend/api/use-message.php:59-63 | from zero, n requests succeed min(n, L) times |
| Status.ResetIfNewMonth | php-backend/api/status.php:57-65 | the caller's counter is reset exactly when its stored reset date lies in another calendar month than the clock |
| Status.Status | php-backend/api/status.php:45-79 | 401 exactly when no row matches; on success the table changes only by the monthly reset, and the response reports tier, status, limits (with the free fallback), usage after the reset, and what remains; past authentication, 429 exactly when the rate limiter denies, and the session's window becomes the pruned window plus this request when allowed; a 401 leaves the window alone |
| Status.StatusOnlyLowersUsage | php-backend/api/status.php:57-65 | a status call changes neither tier nor status, never raises a counter, and touches no other row |
| Status.SecondCallNoReset | php-backend/api/status.php:58-63 | after a reset, a call in the same month as the reset date resets nothing |
| Activate.Activate | php-backend/activate.php:10-41 | not logged in, invalid data (falsy id or a plan other than starter/pro) and activation are exclusive; only activation changes the row and the session tier |
| Activate.ActivationOutcome | php-backend/activate.php:27-36 | the activated row has the plan, `active` status, the subscription id, zero usage and today's reset date |
| Activate.ReplayRezeroesUsage | php-backend/activate.php:27-36 | replaying an activation zeroes the usage counted since, with no check against the provider |
| Activate.ReplaySameDayIsIdempotent | php-backend/activate.php:27-36 | an immediate replay on the same day changes nothing |
| Pages.AfterLogin | php-backend/login.php:45-49 | a pending non-free account goes to payment for its tier; everyone else goes to the dashboard |
| Pages.FilteredEmail | php-backend/signup.php:19 | an address is accepted only when, after trimming, it passes the filter and is truthy |
| Signup.NormalizePlan | php-backend/signup.php:9-12 | the plan is always a tier; it is the lower-cased parameter when that names a tier, and `free` otherwise |
| Signup.PlanCaseInsensitive | php-backend/signup.php:9-12 | `PRO` selects pro, `Starter` selects starter, an unknown name selects free |
| Signup.Validate | php-backend/signup.php:23-29 | the first failing check wins: e-mail, then a length under 8, then confirmation; the form passes exactly when all three hold |
| Signup.InitialStatus | php-backend/signup.php:63 | a new account is `active` exactly on the free plan, and `pending` otherwise |
| Signup.SignupPost | php-backend/signup.php:18-81 | an invalid form shows the message of its first error and changes nothing; a known address with the right password logs in without a new token or row; a wrong password redirects to login with the address and leaves the session alone; otherwise one row is inserted under the next id and the session is logged in with the issued token; as written, the row stores the raw token (see Findings); the rate-limit window is never touched |
| Signup.NewAccountKeepsTable | php-backend/signup.php:59-65 | inserting the row as written for an unused address keeps addresses unique, and starts usage at 0 with the status of the plan |
| Signup.PresentedIssuedToken | php-backend/signup.php:61-72 | the issued token sent as `Bearer <token>` is presented verbatim |
| Signup.SignupTokenRejected | php-backend/signup.php:61-65 | as written, the token signup hands out does not authenticate the new account |
| Signup.HashedSignupTokenAccepted | php-backend/signup.php:61-65 | storing the token's digest instead makes the issued token authenticate the new account |
| Login.Notice | php-backend/login.php:14-17 | `existing=1` shows the welcome-back notice and pre-fills the address; anything else shows neither |
| Login.SignupRedirectShowsNotice | php-backend/login.php:14-17 | signup's wrong-password redirect shows the notice with the address filled in |
| Login.LoginPost | php-backend/login.php:19-55 | missing fields fail before any lookup; an unknown address and a wrong password give the same message; failures leave the table and every session key alone; a login reuses a truthy stored token or refreshes it, and redirects by AfterLogin; the id counter and the rate-limit window are never touched |
| Login.FirstLoginTokenWorks | php-backend/login.php:37-42 | a user without a token leaves the login with one that authenticates them |
| Payment.CheckoutPlan | php-backend/payment.php:15-18 | the plan is always starter or pro: the lower-cased parameter when it names one, starter otherwise |
| Payment.OfferFor | php-backend/payment.php:20-35 | starter is $9 with the starter plan id; pro is $29 with the pro plan id |
| Payment.PaymentPage | php-backend/payment.php:10-35 | a visitor without a session is redirected to login, and anyone with one always sees the checkout for the chosen plan |
| Payment.OffersAreTiers | php-backend/payment.php:15-35 | the page offers only tiers of the table, and pro costs more than starter |
| Payment.CheckoutActivates | php-backend/payment.php:200-203 | what the button posts after checkout always passes activation's input check |
| Payment.PendingRedirectKeepsPlan | php-backend/payment.php:15-18 | a pending account sent to payment sees the plan it chose |
| Dashboard.LimitTextOf | php-backend/dashboard.php:31-32 | a count reads `Unlimited` exactly for -1, is the number otherwise, and is blank when the tier has no row |
| Dashboard.UsagePercent | php-backend/dashboard.php:29 | 0 for a limit that is at most 0; at most 100, and proportional below the limit; full at or over it |
| Dashboard.FeaturesOf | php-backend/dashboard.php:293-304 | the feature ticks are the tier's flags, all crossed out for an unknown tier |
| Dashboard.UpgradeTarget | php-backend/dashboard.php:309-316 | no link for pro; starter for free; pro for any other tier |
| Dashboard.UpgradeGoesUp | php-backend/dashboard.php:309-316 | for known tiers the link goes exactly one step up, to a plan the payment page keeps as is |
| Dashboard.ViewOf | php-backend/dashboard.php:26-32 | the view is read from the table without a fallback: a known tier shows its quota, the usage bar of that quota, its bot and FAQ counts and its features; an unknown tier shows a 0 limit, an empty bar, blank counts and no features; the welcome flag is passed through |
| Dashboard.PercentInRange | php-backend/dashboard.php:29 | for a known tier and a non-negative counter, the bar lies in [0, 100] |
| Dashboard.DashboardPage | php-backend/dashboard.php:10-32 | no session redirects to login; a session whose row is gone is destroyed (every key cleared) and redirected; otherwise the row's view is shown; the session is left exactly as it was except when destroyed |
| Dashboard.ShownTokenRejected | php-backend/dashboard.php:323 | the token box shows the stored column, and pasted as a bearer token it does not authenticate its row unless the digest leaves it unchanged |
| BotBuilder.CountChar | src/components/BotBuilder.tsx:21 | counts occurrences of a character; zero exactly when it is absent |
| BotBuilder.CountCharAppend | src/components/BotBuilder.tsx:21 | the count over a concatenation is the sum of the counts |
| BotBuilder.EmbedUrl | src/components/BotBuilder.tsx:21 | `&embed=true` is appended when the URL has a `?`, and `?embed=true` otherwise |
| BotBuilder.EmbedUrlQuery | src/components/BotBuilder.tsx:21 | the URL stays a prefix, the result ends in `embed=true`, and the result has exactly one `?` when the input had none |
| BotBuilder.ModuleAdd | src/components/BotBuilder.tsx:49-64 | one module more, the old ones an unchanged prefix; the new one has the given type, empty config, position (100,100) and is enabled; other fields unchanged |
| BotBuilder.PatchModule | src/components/BotBuilder.tsx:70 | each supplied field replaces the module's field, and each absent one keeps it |
| BotBuilder.UpdateModules | src/components/BotBuilder.tsx:69-71 | same length and order; modules with the id are patched, and all others are unchanged |
| BotBuilder.ModuleUpdate | src/components/BotBuilder.tsx:66-74 | only the module list changes |
| BotBuilder.UpdateAbsentIsIdentity | src/components/BotBuilder.tsx:66-74 | updating an id no module has leaves the bot unchanged |
| BotBuilder.RemoveModules | src/components/BotBuilder.tsx:79 | no module with the id remains; a module remains exactly when it was there with another id; an absent id changes nothing |
| BotBuilder.RemoveModulesAppend | src/components/BotBuilder.tsx:79 | removal distributes over concatenation, so the kept modules stay in order |
| BotBuilder.RemoveModulesCounts | src/components/BotBuilder.tsx:79 | every kept module keeps its multiplicity |
| BotBuilder.ModuleDelete | src/components/BotBuilder.tsx:76-83 | only the module list changes |
| BotBuilder.DeleteUndoesAdd | src/components/BotBuilder.tsx:49-83 | deleting a module just added under a fresh id restores the bot |
| BotBuilder.WidgetUpdate | src/components/BotBuilder.tsx:85-92 | only the widget is replaced |
| BotBuilder.ApiSettingsUpdate | src/components/BotBuilder.tsx:103-110 | only the settings are replaced |
| BotBuilder.BotSettingsUpdate | src/components/BotBuilder.tsx:94-101 | each supplied field overrides, and each absent field is kept |
| BotBuilder.BotPatchLaws | src/components/BotBuilder.tsx:94-101 | an empty update is the identity, and two updates compose into one where the later values win |
| BotBuilder.RenameKeepsContent | src/components/BotBuilder.tsx:94-101 | a rename changes the name and nothing else |
| BotFactory.NewBot | src/components/BotFactory.tsx:37-90 | named `Bot <count+1>`, no modules, 1000 max tokens, active, no allowed domains, rate limiting off at 100 per 3600 s |
| BotFactory.CreateBot | src/components/BotFactory.tsx:28-94 | nothing is created exactly when a finite bot limit is already reached; otherwise the new bot |
| BotFactory.CreateRespectsLimit | src/components/BotFactory.tsx:30-35 | a creation under a finite limit L leaves at most L bots |
| BotFactory.NeverBlockedWithoutFiniteLimit | src/components/BotFactory.tsx:30 | no subscription, no limits or an unlimited count never blocks |
| BotFactory.CreateMany | src/components/BotFactory.tsx:92-93 | repeated creation only appends to the list |
| BotFactory.CreateManyCapped | src/components/BotFactory.tsx:30-35 | however often the user creates, a finite limit caps the list at the larger of the limit and the starting count |
| BotFactory.TierBotCaps | src/components/BotFactory.tsx:30-31 | with the table's limits, free stops at 1 bot, starter at 3, and pro never stops |
| ModuleLibrary.IsModuleLocked | src/components/ModuleLibrary.tsx:13-19 | nothing is locked without a subscription; lead capture is locked exactly when the limits deny it, and throws when limits are missing; other types are open |
| ModuleLibrary.Click | src/components/ModuleLibrary.tsx:38 | a click adds the module exactly when it is not locked |
| ModuleLibrary.LockedClickNeverAdds | src/components/ModuleLibrary.tsx:38 | a locked module is never added, and a non-lead-capture module always is |
| ModuleLibrary.LeadCaptureLockedForFree | src/components/ModuleLibrary.tsx:15-17 | with the endpoints' limits, lead capture is locked exactly for free and unknown tiers |
| ModuleLibrary.MissingLimitsDisagree | src/components/ModuleLibrary.tsx:16 | a subscription without limits lets a bot be created but makes the lead-capture check throw |

## Left out

- Rendering: HTML, CSS, JSX, the PayPal SDK script, clipboard copy and timers.
- Database plumbing: the PDO connection, header emission, `getallheaders` and `php://input` reads.
- Errors: a failed `INSERT` and the `catch` branches that answer HTTP 500 or show a database error.
  The store never fails in the model.
- The CORS headers: the endpoints' own copies of the allow-list are not modelled separately from `getCorsOrigin`.
- The `OPTIONS` preflight early exit.
- SHA-256, `random_bytes`, `password_hash`/`password_verify` and the e-mail filter: these are parameters.
  Nothing is assumed about them, so hash non-invertibility is not modelled.
- Concurrency: each `UPDATE ... WHERE` is one atomic map update, and concurrent requests are sequential calls.
- JSON values that are not strings: a boolean `plan` in the activation body would pass PHP's loose `in_array`, and a numeric body `token` would be turned into its decimal string by `hashAuthToken`'s `string` parameter; `Tokens.ApiRequest.bodyToken` holds strings only.
  `ActivateInput` carries strings only.
- Login.Notice: `$_GET['existing'] == '1'` is a loose comparison (`01` and `1.0` also match).
  The model compares exactly.
- Signup.Validate: `strlen` counts bytes; the model counts characters.
- MySQL collation: e-mail and token lookups compare strings exactly, where a case-insensitive collation would not.
- Column defaults: a new row's `messages_used` is taken as 0 and `messages_reset_date` as NULL, as the `INSERT` leaves them to the schema.
  The schema is not part of this model.
- Status.NeedsReset: a NULL reset date never triggers a reset, because `new DateTime(null)` is the current time.
  An unparsable date string is not modelled.
- Floating point: the bot's `temperature` is not modelled.
  The dashboard's percentage is an exact real, not a PHP float.
- Time stamps: `Date.now()` ids and ISO strings are parameters.
- BotBuilder.PatchModule: a field set to `undefined` in a `Partial` is treated as absent.
  JavaScript would copy the `undefined` over the old value.
- BotFactory.CreateMany: it assumes the parent appends each created bot to the list it passes back.
  The parent component is not part of this model.
- The front end's `MemorySystem.saveBot` and `onBotUpdate` effects: the model returns the record that is passed to them.
- `SubscriptionService.ts`, `ApiKeyModal.tsx`, `LoginPage.tsx`, `AuthContext.tsx` and the type declarations are not part of this model.
- The rate limiter keys its window by session, not by the user id it is passed.
  The model reproduces this, and per-user limiting is not modelled.

## Findings

| source | as written | input that shows it | evidently intended | confidence | as-written member | corrected member |
|---|---|---|---|---|---|---|
| php-backend/signup.php:61-65 | the new row's `auth_token` is the raw token, while authentication looks rows up by `hash(token)` | any sign-up: the token in the session, sent as `Authorization: Bearer <token>`, finds no row unless SHA-256 of it equals itself | store `hashAuthToken($authToken)`, as `refreshAuthToken` does | high, not executed | Signup.SignupTokenRejected | Signup.HashedSignupTokenAccepted |

The as-written row is `Signup.NewAccountRow`, and `Signup.SignupPost`
inserts it, as the code does. The corrected row is `Signup.HashedAccountRow`;
`Signup.HashedSignupTokenAccepted` proves the issued token then finds it.

`Dashboard.ShownTokenRejected` records a related effect. The dashboard shows
the stored column, which holds either the raw token or a digest. Neither
authenticates the row it came from.
