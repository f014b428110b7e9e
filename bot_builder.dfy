/** `BotBuilder`: the embed-URL rule and the handlers that build an updated
    `Bot` for `onBotUpdate`. Every handler is a pure record or list update. */
module BotBuilder {
  import opened Common
  import opened Bots

  // ---- embed URL ----

  function CountChar(s: string, c: char): (n: nat)
    ensures n <= |s|
    ensures n == 0 <==> c !in s
  {
    if s == [] then 0 else (if s[0] == c then 1 else 0) + CountChar(s[1..], c)
  }

  lemma {:induction false} CountCharAppend(a: string, b: string, c: char)
    ensures CountChar(a + b, c) == CountChar(a, c) + CountChar(b, c)
    decreases |a|
  {
    if a == [] {
      assert a + b == b;
    } else {
      assert (a + b)[1..] == a[1..] + b;
      CountCharAppend(a[1..], b, c);
    }
  }

  /** The iframe URL: `&embed=true` when the URL already has a `?`,
      `?embed=true` otherwise. */
  function EmbedUrl(url: string): (r: string)
    ensures '?' in url ==> r == url + "&embed=true"
    ensures '?' !in url ==> r == url + "?embed=true"
  {
    if '?' in url then url + "&embed=true" else url + "?embed=true"
  }

  /** The URL is kept as a prefix, the result has exactly one `?` when the
      input had none and no new one otherwise, and ends in `embed=true`. */
  lemma EmbedUrlQuery(url: string)
    ensures |EmbedUrl(url)| == |url| + 11 && EmbedUrl(url)[..|url|] == url
    ensures EmbedUrl(url)[|url| + 1..] == "embed=true"
    ensures CountChar(EmbedUrl(url), '?') == (if '?' in url then CountChar(url, '?') else 1)
  {
    var suffix := if '?' in url then "&embed=true" else "?embed=true";
    assert EmbedUrl(url) == url + suffix;
    CountCharAppend(url, suffix, '?');
    assert CountChar(suffix, '?') == (if '?' in url then 0 else 1) by {
      assert suffix[1..] == "embed=true";
      assert '?' !in "embed=true";
    }
  }

  // ---- modules ----

  /** The module `handleModuleAdd` creates; `id` is `Date.now().toString()`. */
  function NewModule(id: string, moduleType: string): BotModule {
    BotModule(id, moduleType, map[], Position(100, 100), true)
  }

  /** `handleModuleAdd`: the new module goes at the end. */
  function ModuleAdd(bot: Bot, moduleType: string, id: string): (r: Bot)
    ensures |r.modules| == |bot.modules| + 1
    ensures r.modules[..|bot.modules|] == bot.modules
    ensures r.modules[|bot.modules|] == NewModule(id, moduleType)
    ensures r.(modules := bot.modules) == bot
  {
    bot.(modules := bot.modules + [NewModule(id, moduleType)])
  }

  /** `Partial<BotModule>`: the fields the update supplies. */
  datatype ModulePatch = ModulePatch(
    id: Option<string>,
    moduleType: Option<string>,
    config: Option<map<string, string>>,
    position: Option<Position>,
    enabled: Option<bool>)

  /** `{ ...module, ...updates }`. */
  function PatchModule(m: BotModule, p: ModulePatch): (r: BotModule)
    ensures p.id.Some? ==> r.id == p.id.value
    ensures p.id.None? ==> r.id == m.id
    ensures p.moduleType.Some? ==> r.moduleType == p.moduleType.value
    ensures p.moduleType.None? ==> r.moduleType == m.moduleType
    ensures p.config.Some? ==> r.config == p.config.value
    ensures p.config.None? ==> r.config == m.config
    ensures p.position.Some? ==> r.position == p.position.value
    ensures p.position.None? ==> r.position == m.position
    ensures p.enabled.Some? ==> r.enabled == p.enabled.value
    ensures p.enabled.None? ==> r.enabled == m.enabled
  {
    BotModule(p.id.GetOr(m.id), p.moduleType.GetOr(m.moduleType), p.config.GetOr(m.config),
              p.position.GetOr(m.position), p.enabled.GetOr(m.enabled))
  }

  /** The `map` over the module list: matching modules are patched. */
  function UpdateModules(modules: seq<BotModule>, moduleId: string, p: ModulePatch): (r: seq<BotModule>)
    ensures |r| == |modules|
    ensures forall i :: 0 <= i < |modules| && modules[i].id == moduleId ==> r[i] == PatchModule(modules[i], p)
    ensures forall i :: 0 <= i < |modules| && modules[i].id != moduleId ==> r[i] == modules[i]
    decreases |modules|
  {
    if modules == [] then []
    else
      [if modules[0].id == moduleId then PatchModule(modules[0], p) else modules[0]]
      + UpdateModules(modules[1..], moduleId, p)
  }

  /** `handleModuleUpdate`. */
  function ModuleUpdate(bot: Bot, moduleId: string, p: ModulePatch): (r: Bot)
    ensures r.(modules := bot.modules) == bot
    ensures r.modules == UpdateModules(bot.modules, moduleId, p)
  {
    bot.(modules := UpdateModules(bot.modules, moduleId, p))
  }

  /** An id no module has leaves the bot as it is. */
  lemma UpdateAbsentIsIdentity(bot: Bot, moduleId: string, p: ModulePatch)
    requires NoModuleWithId(bot.modules, moduleId)
    ensures ModuleUpdate(bot, moduleId, p) == bot
  {
    assert ModuleUpdate(bot, moduleId, p).modules == bot.modules;
  }

  /** The `filter`: every module with another id, in the original order. */
  function RemoveModules(modules: seq<BotModule>, moduleId: string): (r: seq<BotModule>)
    ensures |r| <= |modules|
    ensures NoModuleWithId(r, moduleId)
    ensures forall m :: m in r <==> m in modules && m.id != moduleId
    ensures NoModuleWithId(modules, moduleId) ==> r == modules
    decreases |modules|
  {
    if modules == [] then []
    else
      var rest := RemoveModules(modules[1..], moduleId);
      if modules[0].id == moduleId then rest
      else [modules[0]] + rest
  }

  /** Removal distributes over concatenation: the kept modules stay in order. */
  lemma {:induction false} RemoveModulesAppend(a: seq<BotModule>, b: seq<BotModule>, moduleId: string)
    ensures RemoveModules(a + b, moduleId) == RemoveModules(a, moduleId) + RemoveModules(b, moduleId)
    decreases |a|
  {
    if a == [] {
      assert a + b == b;
    } else {
      assert (a + b)[0] == a[0];
      assert (a + b)[1..] == a[1..] + b;
      RemoveModulesAppend(a[1..], b, moduleId);
      if a[0].id != moduleId {
        assert [a[0]] + (RemoveModules(a[1..], moduleId) + RemoveModules(b, moduleId))
            == ([a[0]] + RemoveModules(a[1..], moduleId)) + RemoveModules(b, moduleId);
      }
    }
  }

  /** Every kept module keeps its multiplicity. */
  lemma {:induction false} RemoveModulesCounts(modules: seq<BotModule>, moduleId: string, m: BotModule)
    requires m.id != moduleId
    ensures multiset(RemoveModules(modules, moduleId))[m] == multiset(modules)[m]
    decreases |modules|
  {
    if modules != [] {
      RemoveModulesCounts(modules[1..], moduleId, m);
      assert modules == [modules[0]] + modules[1..];
    }
  }

  /** `handleModuleDelete`. */
  function ModuleDelete(bot: Bot, moduleId: string): (r: Bot)
    ensures r.(modules := bot.modules) == bot
    ensures r.modules == RemoveModules(bot.modules, moduleId)
  {
    bot.(modules := RemoveModules(bot.modules, moduleId))
  }

  /** Deleting a module that was just added under a fresh id gives back the
      bot as it was. */
  lemma {:induction false} DeleteUndoesAdd(bot: Bot, moduleType: string, id: string)
    requires NoModuleWithId(bot.modules, id)
    ensures ModuleDelete(ModuleAdd(bot, moduleType, id), id) == bot
  {
    RemoveModulesAppend(bot.modules, [NewModule(id, moduleType)], id);
    assert RemoveModules([NewModule(id, moduleType)], id) == [];
    assert bot.modules + [] == bot.modules;
  }

  // ---- widget and settings ----

  /** `handleWidgetUpdate`. */
  function WidgetUpdate(bot: Bot, widget: Widget): (r: Bot)
    ensures r.widget == widget && r.(widget := bot.widget) == bot
  {
    bot.(widget := widget)
  }

  /** `handleApiSettingsUpdate`. */
  function ApiSettingsUpdate(bot: Bot, settings: Settings): (r: Bot)
    ensures r.settings == settings && r.(settings := bot.settings) == bot
  {
    bot.(settings := settings)
  }

  /** `Partial<Bot>`: the fields a settings form supplies. */
  datatype BotPatch = BotPatch(
    id: Option<string>,
    name: Option<string>,
    description: Option<string>,
    modules: Option<seq<BotModule>>,
    widget: Option<Widget>,
    settings: Option<Settings>,
    createdAt: Option<string>,
    updatedAt: Option<string>)

  const EmptyPatch := BotPatch(None, None, None, None, None, None, None, None)

  /** `handleBotSettingsUpdate`: `{ ...bot, ...updates }`. */
  function BotSettingsUpdate(bot: Bot, p: BotPatch): (r: Bot)
    ensures r.id == p.id.GetOr(bot.id) && r.name == p.name.GetOr(bot.name)
    ensures r.description == p.description.GetOr(bot.description)
    ensures r.modules == p.modules.GetOr(bot.modules) && r.widget == p.widget.GetOr(bot.widget)
    ensures r.settings == p.settings.GetOr(bot.settings)
    ensures r.createdAt == p.createdAt.GetOr(bot.createdAt) && r.updatedAt == p.updatedAt.GetOr(bot.updatedAt)
  {
    Bot(p.id.GetOr(bot.id), p.name.GetOr(bot.name), p.description.GetOr(bot.description),
        p.modules.GetOr(bot.modules), p.widget.GetOr(bot.widget), p.settings.GetOr(bot.settings),
        p.createdAt.GetOr(bot.createdAt), p.updatedAt.GetOr(bot.updatedAt))
  }

  /** `{ ...p, ...q }`: the later patch wins field by field. */
  function MergePatches(p: BotPatch, q: BotPatch): BotPatch {
    BotPatch(
      if q.id.Some? then q.id else p.id,
      if q.name.Some? then q.name else p.name,
      if q.description.Some? then q.description else p.description,
      if q.modules.Some? then q.modules else p.modules,
      if q.widget.Some? then q.widget else p.widget,
      if q.settings.Some? then q.settings else p.settings,
      if q.createdAt.Some? then q.createdAt else p.createdAt,
      if q.updatedAt.Some? then q.updatedAt else p.updatedAt)
  }

  /** An empty update changes nothing, and two updates in a row are one
      update with the later values winning. */
  lemma BotPatchLaws(bot: Bot, p: BotPatch, q: BotPatch)
    ensures BotSettingsUpdate(bot, EmptyPatch) == bot
    ensures BotSettingsUpdate(BotSettingsUpdate(bot, p), q) == BotSettingsUpdate(bot, MergePatches(p, q))
  {
  }

  /** A settings form that touches only the name leaves the modules, the
      widget and the AI settings alone. */
  lemma RenameKeepsContent(bot: Bot, name: string)
    ensures var r := BotSettingsUpdate(bot, EmptyPatch.(name := Some(name)));
      r.name == name && r.(name := bot.name) == bot
  {
  }
}
