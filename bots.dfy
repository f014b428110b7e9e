/** The front end's `Bot` record and its parts, and the subscription object
    the components receive (the JSON of `api/status.php`, or whatever
    `checkStatus` returned instead). */
module Bots {
  import opened Common
  import opened TierPolicy

  datatype Position = Position(x: int, y: int)

  /** A module on the canvas. `config` is a free-form object; its values are
      kept as strings here. */
  datatype BotModule = BotModule(
    id: string,
    moduleType: string,
    config: map<string, string>,
    position: Position,
    enabled: bool)

  datatype Header = Header(title: string, subtitle: string, backgroundColor: string,
                           textColor: string, showBanner: bool)
  datatype Greeting = Greeting(message: string, showOnOpen: bool)
  datatype Bubble = Bubble(color: string, icon: string, position: string)
  datatype Theme = Theme(primaryColor: string, secondaryColor: string, fontFamily: string)
  datatype Avatar = Avatar(kind: string, value: string)
  datatype Avatars = Avatars(bot: Avatar, user: Avatar, showAvatars: bool)

  datatype Widget = Widget(header: Header, greeting: Greeting, bubble: Bubble, theme: Theme, avatars: Avatars)

  datatype RateLimiting = RateLimiting(enabled: bool, maxRequests: int, timeWindow: int)
  datatype Analytics = Analytics(enabled: bool, trackConversations: bool, trackUserActions: bool)

  /** The AI settings; `temperature` is a floating-point number and is not
      part of this model. */
  datatype Settings = Settings(
    model: string,
    maxTokens: int,
    systemPrompt: string,
    isActive: bool,
    allowedDomains: seq<string>,
    rateLimiting: RateLimiting,
    analytics: Analytics)

  datatype Bot = Bot(
    id: string,
    name: string,
    description: string,
    modules: seq<BotModule>,
    widget: Widget,
    settings: Settings,
    createdAt: string,
    updatedAt: string)

  /** The `subscription` prop: `null` when the status request failed outright
      (`None`), otherwise an object whose `limits` may be absent (an error
      body such as `{success: false, error: ...}` has none). */
  datatype Subscription = Subscription(tier: Option<string>, limits: Option<Limits>)

  /** No module in the list has id `id`. */
  predicate NoModuleWithId(modules: seq<BotModule>, id: string) {
    forall i :: 0 <= i < |modules| ==> modules[i].id != id
  }
}
