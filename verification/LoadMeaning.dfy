/** What a loaded configuration holds, told from the document alone
    (crates/spotuify-config/src/model.rs). */
module LoadMeaning {
  import opened Wrappers
  import opened ConfigTree
  import opened ConfigPath
  import opened ConfigSections
  import opened ConfigLoad
  import opened LoadPrecedence
  import opened EnvironmentMerge
  import opened MigrationPreservesMeaning
  import opened EnvironmentLoads
  import opened TextForm
  import opened Numbers

  // ---- Providers ----

  lemma LoadParts(root: Table, env: Env) returns (all: Table, legacy: (Table, set<Warning>), final: Table)
    requires LoadTree(root, env).Ok?
    ensures ProviderValues(root) == Ok(all) && DefaultOf(all).Ok? && all == Entries(root, PROVIDERS)
    ensures MergeLegacy(root, all - {DEFAULT}) == Ok(legacy) && MergeEnv(legacy.0, DefaultOf(all).value, env) == Ok(final)
    ensures LoadTree(root, env).value.providers == Tables(final) && ChecksPass(final)
    ensures CheckProviders(final, DefaultOf(all).value) == Ok(LoadTree(root, env).value.default)
    ensures DecodeSections(root).Ok? && LoadTree(root, env).value.sections == Repair(DecodeSections(root).value, env)
    ensures LoadTree(root, env).value.warnings == legacy.1
  {
    hide DecodeSections, Repair, Valid, ResolveProviders, MergeLegacy, MergeEnv, CheckProviders, ChecksPass, Tables;
    all, legacy, final := LoadChecks(root, env);
  }

  /** The loaded providers are the configured ones, and at most `spotify` besides. */
  lemma LoadedProviderIds(root: Table, env: Env)
    requires LoadTree(root, env).Ok?
    ensures Named(root).Keys <= LoadTree(root, env).value.providers.Keys <= Named(root).Keys + {SPOTIFY}
    ensures DEFAULT !in LoadTree(root, env).value.providers
  {
    hide LoadTree, MergeLegacy, MergeEnv, CheckProviders, DefaultOf, ChecksPass, Repair, DecodeSections;
    var all, legacy, final := LoadParts(root, env);
    MergeLegacyKeys(root, all - {DEFAULT});
    MergeEnvKeys(legacy.0, DefaultOf(all).value, env);
    FinalHasNoDefault(root, env, all, legacy.0, final);
  }

  /** A named default is the loaded default, and is among the loaded providers; without
      one the default is the only provider, or there is neither. */
  lemma LoadedDefault(root: Table, env: Env)
    requires LoadTree(root, env).Ok?
    ensures var loaded := LoadTree(root, env).value;
      match ItemAt(root, [PROVIDERS, DEFAULT])
      case Some(node) =>
        node.Leaf? && node.value.Text? && loaded.default == Some(node.value.text) && node.value.text in loaded.providers
      case None =>
        (loaded.default == None && loaded.providers == map[])
        || (loaded.default.Some? && loaded.providers.Keys == {loaded.default.value})
  {
    hide LoadTree, MergeLegacy, MergeEnv, ChecksPass, Repair, DecodeSections, ProviderOk, SpotifyOwners;
    var all, legacy, final := LoadParts(root, env);
    ItemAt2(root, PROVIDERS, DEFAULT);
    ItemAt1(all, DEFAULT);
    assert Tables(final).Keys == final.Keys;
  }

  /** Several providers need a default, and a default needs its provider. */
  lemma DefaultIsChecked(root: Table, env: Env)
    ensures ItemAt(root, [PROVIDERS, DEFAULT]) == None && |Named(root)| >= 2 ==> LoadTree(root, env).Err?
    ensures var named := ItemAt(root, [PROVIDERS, DEFAULT]);
      (named.Some? && !NamesOneOf(named.value, Named(root).Keys + {SPOTIFY})) ==> LoadTree(root, env).Err?
  {
    hide LoadTree, Named;
    if LoadTree(root, env).Ok? {
      LoadedDefault(root, env);
      LoadedProviderIds(root, env);
      assert |Named(root)| == |Named(root).Keys|;
      if LoadTree(root, env).value.default.Some? {
        SubsetOfOne(Named(root).Keys, LoadTree(root, env).value.default.value);
      }
    }
  }

  predicate NamesOneOf(node: Node, ids: set<string>)
  {
    node.Leaf? && node.value.Text? && node.value.text in ids
  }

  lemma SubsetOfOne(ids: set<string>, id: string)
    ensures ids <= {id} ==> |ids| <= 1
  {
    if ids <= {id} {
      SubsetSize(ids, {id});
    }
  }

  /** Every loaded provider has a lower-case id and a type that is not blank, one at
      most is Spotify's, and that one has a bitrate Spotify offers. */
  lemma LoadedProvidersAreSound(root: Table, env: Env, id: string, other: string)
    requires LoadTree(root, env).Ok?
    requires id in LoadTree(root, env).value.providers && other in LoadTree(root, env).value.providers
    ensures var table := LoadTree(root, env).value.providers[id];
      && id != "" && 'a' <= id[0] <= 'z'
      && (forall i :: 0 <= i < |id| ==> 'a' <= id[i] <= 'z' || '0' <= id[i] <= '9' || id[i] == '-')
      && TYPE in table && table[TYPE].Leaf? && table[TYPE].value.Text? && Trim(table[TYPE].value.text) != ""
    ensures var tables := LoadTree(root, env).value.providers;
      IsSpotifyTable(tables[id]) && IsSpotifyTable(tables[other]) ==> id == other
    ensures var table := LoadTree(root, env).value.providers[id];
      IsSpotifyTable(table) && PLAYER in table ==>
        table[PLAYER].Branch? && (BITRATE in table[PLAYER].entries ==>
          exists rate :: rate in {96, 160, 320} && table[PLAYER].entries[BITRATE] == Leaf(Integer(rate)))
  {
    hide LoadTree, MergeLegacy, MergeEnv, CheckProviders, DefaultOf, Repair, DecodeSections;
    var all, legacy, final := LoadParts(root, env);
    assert ProviderOk(id, final[id]) && ProviderOk(other, final[other]);
    if IsSpotifyTable(Tables(final)[id]) && IsSpotifyTable(Tables(final)[other]) {
      SmallSetsAgree(SpotifyOwners(final), id, other);
    }
  }

  predicate IsSpotifyTable(table: Table)
  {
    TYPE in table && table[TYPE].Leaf? && table[TYPE].value.Text? && Trim(table[TYPE].value.text) == SPOTIFY
  }

  // ---- Sections ----

  /** A loaded flag is the document's, or the default where the document is silent. */
  predicate HoldsFlag(root: Table, section: string, key: string, default: bool, loaded: bool)
  {
    match ItemAt(root, [section, key])
    case None => loaded == default
    case Some(node) => node == Leaf(Flag(loaded))
  }

  /** A loaded number is the document's, where that lies in the range, and otherwise
      what it is repaired to. */
  predicate HoldsNumber(
    root: Table, section: string, key: string, default: nat, low: nat, high: nat, below: nat, above: nat, loaded: nat)
  {
    match ItemAt(root, [section, key])
    case None => loaded == default
    case Some(node) =>
      node.Leaf? && node.value.Integer? && node.value.number >= 0 &&
      loaded == (if node.value.number < low then below else if node.value.number > high then above else node.value.number)
  }

  /** A loaded fraction is the document's, cut off at the ends of the range. */
  predicate HoldsReal(root: Table, section: string, key: string, default: real, high: real, loaded: real)
  {
    match ItemAt(root, [section, key])
    case None => loaded == default
    case Some(Leaf(Decimal(amount))) => loaded == (if amount < 0.0 then 0.0 else if amount > high then high else amount)
    case Some(Leaf(Integer(number))) =>
      loaded == (if number < 0 then 0.0 else if number as real > high then high else number as real)
    case _ => false
  }

  /** A loaded text is the document's as it is read, or the default where it makes no sense. */
  predicate HoldsText(
    root: Table, section: string, key: string, default: string, reading: string -> Option<string>, loaded: string)
  {
    match ItemAt(root, [section, key])
    case None => loaded == default
    case Some(node) =>
      node.Leaf? && node.value.Text? && loaded == OrDefault(reading(node.value.text), default)
  }

  function OrDefault(text: Option<string>, default: string): (r: string)
  {
    if text.Some? then text.value else default
  }

  /** A loaded optional text is the document's, trimmed, unless that leaves nothing. */
  predicate HoldsOptional(root: Table, section: string, key: string, loaded: Option<string>)
  {
    match ItemAt(root, [section, key])
    case None => loaded == None
    case Some(node) =>
      node.Leaf? && node.value.Text? && loaded == (if Trim(node.value.text) == "" then None else Some(Trim(node.value.text)))
  }

  lemma SectionItem(root: Table, section: string, key: string)
    requires SectionTable(root, section).Ok?
    ensures var t := SectionTable(root, section).value;
      ItemAt(root, [section, key]) == if key in t then Some(t[key]) else None
  {
    ItemAt2(root, section, key);
    ItemAt1(Entries(root, section), key);
  }

  lemma FlagHolds(root: Table, section: string, key: string, default: bool)
    requires SectionTable(root, section).Ok? && FlagField(SectionTable(root, section).value, key, default).Ok?
    ensures HoldsFlag(root, section, key, default, FlagField(SectionTable(root, section).value, key, default).value)
  {
    hide SectionTable, ItemAt;
    SectionItem(root, section, key);
  }

  lemma NumberHolds(
    root: Table, section: string, key: string, default: nat, max: nat, low: nat, high: nat, below: nat, above: nat)
    requires SectionTable(root, section).Ok? && NatField(SectionTable(root, section).value, key, default, max).Ok?
    requires low <= default <= high
    ensures var n := NatField(SectionTable(root, section).value, key, default, max).value;
      HoldsNumber(root, section, key, default, low, high, below, above,
                  if n < low then below else if n > high then above else n)
  {
    hide SectionTable, ItemAt;
    SectionItem(root, section, key);
  }

  lemma RealHolds(root: Table, section: string, key: string, default: real, high: real)
    requires SectionTable(root, section).Ok? && RealField(SectionTable(root, section).value, key, default).Ok?
    requires 0.0 <= default <= high
    ensures HoldsReal(root, section, key, default, high, Clamp(RealField(SectionTable(root, section).value, key, default).value, 0.0, high))
  {
    hide SectionTable, ItemAt;
    SectionItem(root, section, key);
  }

  lemma TextHolds(root: Table, section: string, key: string, default: string, reading: string -> Option<string>)
    requires SectionTable(root, section).Ok? && TextField(SectionTable(root, section).value, key, default).Ok?
    requires OrDefault(reading(default), default) == default
    ensures var t := TextField(SectionTable(root, section).value, key, default).value;
      HoldsText(root, section, key, default, reading, OrDefault(reading(t), default))
  {
    hide SectionTable, ItemAt;
    SectionItem(root, section, key);
  }

  lemma OptionalHolds(root: Table, section: string, key: string)
    requires SectionTable(root, section).Ok? && OptionalTextField(SectionTable(root, section).value, key).Ok?
    ensures HoldsOptional(root, section, key, NonblankOption(OptionalTextField(SectionTable(root, section).value, key).value))
  {
    hide SectionTable, ItemAt, Trim;
    SectionItem(root, section, key);
  }

  /** The loaded sections, section by section. */
  lemma SectionsDecoded(root: Table, env: Env)
    requires LoadTree(root, env).Ok?
    ensures var loaded := LoadTree(root, env).value.sections;
      && SectionTable(root, "cache").Ok? && DecodeCache(SectionTable(root, "cache").value).Ok?
      && SectionTable(root, "notifications").Ok? && DecodeNotifications(SectionTable(root, "notifications").value).Ok?
      && SectionTable(root, "discord").Ok? && DecodeDiscord(SectionTable(root, "discord").value).Ok?
      && SectionTable(root, "viz").Ok? && DecodeViz(SectionTable(root, "viz").value).Ok?
      && SectionTable(root, "tui").Ok? && DecodeTui(SectionTable(root, "tui").value).Ok?
      && SectionTable(root, "analytics").Ok? && DecodeAnalytics(SectionTable(root, "analytics").value).Ok?
      && loaded.viz == RepairViz(DecodeViz(SectionTable(root, "viz").value).value)
      && loaded == Repair(DecodeSections(root).value, env)
      && DecodeSections(root).value.cache == DecodeCache(SectionTable(root, "cache").value).value
      && DecodeSections(root).value.notifications == DecodeNotifications(SectionTable(root, "notifications").value).value
      && DecodeSections(root).value.discord == DecodeDiscord(SectionTable(root, "discord").value).value
      && DecodeSections(root).value.tui == DecodeTui(SectionTable(root, "tui").value).value
      && var a := DecodeAnalytics(SectionTable(root, "analytics").value).value;
        DecodeSections(root).value.analytics == if a.hookCommand.None? then a.(hookCommand := LegacyHook(root)) else a
  {
    hide LoadTree, MergeLegacy, MergeEnv, CheckProviders, DefaultOf, ChecksPass, SectionTable, LegacyHook,
      DecodeDiscord, DecodeCache, DecodeNotifications, DecodeTui, DecodeAnalytics, DecodeViz, RepairViz, RepairAnalytics;
    var all, legacy, final := LoadParts(root, env);
  }

  /** Every setting of the cache section. */
  lemma LoadedCache(root: Table, env: Env)
    requires LoadTree(root, env).Ok?
    ensures var cache := LoadTree(root, env).value.sections.cache;
      && HoldsNumber(root, "cache", "cover_cache_mb", 200, 0, U64_MAX, 0, 0, cache.coverCacheMb)
      && HoldsNumber(root, "cache", "cover_cache_ttl_days", 30, 1, U64_MAX, 30, 0, cache.coverCacheTtlDays)
  {
    hide LoadTree, SectionTable, HoldsNumber, DecodeSections, DecodeOthers, DecodeNotifications, DecodeDiscord, DecodeViz,
      DecodeTui, DecodeAnalytics, RepairViz, RepairAnalytics, TextOr, Canonical, NonblankOption;
    SectionsDecoded(root, env);
    NumberHolds(root, "cache", "cover_cache_mb", 200, U64_MAX, 0, U64_MAX, 0, 0);
    NumberHolds(root, "cache", "cover_cache_ttl_days", 30, U64_MAX, 1, U64_MAX, 30, 0);
  }

  /** Every setting of the discord section, and the theme. */
  lemma LoadedDiscordAndTheme(root: Table, env: Env)
    requires LoadTree(root, env).Ok?
    ensures var sections := LoadTree(root, env).value.sections;
      && HoldsFlag(root, "discord", "enabled", false, sections.discord.enabled)
      && HoldsOptional(root, "discord", "application_id", sections.discord.applicationId)
      && HoldsText(root, "tui", "theme", "terminal-default", ReadTheme, sections.tui.theme)
  {
    hide LoadTree, SectionTable, HoldsFlag, HoldsOptional, HoldsText, FlagField, OptionalTextField, TextField, DecodeSections,
      DecodeOthers, DecodeNotifications, DecodeCache, DecodeViz, DecodeAnalytics, RepairViz, RepairAnalytics, TextOr, Canonical,
      NonblankOption;
    SectionsDecoded(root, env);
    FlagHolds(root, "discord", "enabled", false);
    OptionalHolds(root, "discord", "application_id");
    ThemeIsCanonical();
    TextHolds(root, "tui", "theme", "terminal-default", ReadTheme);
  }

  function ReadTheme(text: string): (r: Option<string>)
  {
    if Canonical(text) == "" then None else Some(Canonical(text))
  }

  function ReadTemplate(text: string): (r: Option<string>)
  {
    if Trim(text) == "" then None else Some(Trim(text))
  }

  /** Every setting of the notifications section. */
  lemma LoadedNotifications(root: Table, env: Env)
    requires LoadTree(root, env).Ok?
    ensures var n := LoadTree(root, env).value.sections.notifications;
      && HoldsFlag(root, "notifications", "enabled", false, n.enabled)
      && HoldsText(root, "notifications", "summary", "{track}", ReadTemplate, n.summary)
      && HoldsText(root, "notifications", "body", "{artist} - {album}", ReadTemplate, n.body)
      && HoldsFlag(root, "notifications", "on_track_change", true, n.onTrackChange)
      && HoldsFlag(root, "notifications", "on_pause", false, n.onPause)
      && HoldsFlag(root, "notifications", "on_resume", false, n.onResume)
      && HoldsFlag(root, "notifications", "on_skip", false, n.onSkip)
      && HoldsFlag(root, "notifications", "on_error", true, n.onError)
  {
    hide LoadTree, SectionTable, HoldsFlag, HoldsText, FlagField, TextField, DecodeSections, DecodeOthers, DecodeDiscord,
      DecodeCache, DecodeViz, DecodeTui, DecodeAnalytics, RepairViz, RepairAnalytics, Canonical, NonblankOption, Trim;
    SectionsDecoded(root, env);
    FlagHolds(root, "notifications", "enabled", false);
    DefaultTextsAreTrimmed();
    TextHolds(root, "notifications", "summary", "{track}", ReadTemplate);
    TextHolds(root, "notifications", "body", "{artist} - {album}", ReadTemplate);
    FlagHolds(root, "notifications", "on_track_change", true);
    FlagHolds(root, "notifications", "on_pause", false);
    FlagHolds(root, "notifications", "on_resume", false);
    FlagHolds(root, "notifications", "on_skip", false);
    FlagHolds(root, "notifications", "on_error", true);
  }

  lemma DefaultTextsAreTrimmed()
    ensures ReadTemplate("{track}") == Some("{track}") && ReadTemplate("{artist} - {album}") == Some("{artist} - {album}")
  {
  }

  function ReadSource(text: string): (r: Option<string>)
  {
    if Canonical(text) in {"auto", "sink", "loopback", "none"} then Some(Canonical(text)) else None
  }

  function ReadColors(text: string): (r: Option<string>)
  {
    if Canonical(text) in {"spotify-green", "rainbow", "monochrome"} then Some(Canonical(text)) else None
  }

  function ReadStyle(text: string): (r: Option<string>)
  {
    if Canonical(text) in VIZ_STYLES then Some(Canonical(text)) else None
  }

  /** Every setting of the visualiser section. */
  lemma LoadedViz(root: Table, env: Env)
    requires LoadTree(root, env).Ok?
    ensures var viz := LoadTree(root, env).value.sections.viz;
      && HoldsFlag(root, "viz", "enabled", true, viz.enabled)
      && HoldsText(root, "viz", "source", "auto", ReadSource, viz.source)
      && HoldsNumber(root, "viz", "target_fps", 30, 1, 60, 1, 60, viz.targetFps)
      && HoldsReal(root, "viz", "smoothing", 0.5, 0.95, viz.smoothing)
      && HoldsReal(root, "viz", "noise_gate", 0.005, 1.0, viz.noiseGate)
      && HoldsText(root, "viz", "color_scheme", "spotify-green", ReadColors, viz.colorScheme)
      && HoldsText(root, "viz", "style", "bars", ReadStyle, viz.style)
  {
    hide LoadTree, SectionTable, HoldsFlag, HoldsText, HoldsNumber, HoldsReal, FlagField, TextField, NatField, RealField,
      DecodeSections, DecodeOthers, DecodeDiscord, DecodeCache, DecodeNotifications, DecodeTui, DecodeAnalytics, RepairAnalytics,
      Repair, Canonical, Clamp;
    SectionsDecoded(root, env);
    DefaultsAreCanonical();
    assert VIZ_STYLES[0] == "bars";
    FlagHolds(root, "viz", "enabled", true);
    TextHolds(root, "viz", "source", "auto", ReadSource);
    NumberHolds(root, "viz", "target_fps", 30, U8_MAX, 1, 60, 1, 60);
    RealHolds(root, "viz", "smoothing", 0.5, 0.95);
    RealHolds(root, "viz", "noise_gate", 0.005, 1.0);
    TextHolds(root, "viz", "color_scheme", "spotify-green", ReadColors);
    TextHolds(root, "viz", "style", "bars", ReadStyle);
  }

  /** Every number and flag of the analytics section. */
  lemma LoadedAnalytics(root: Table, env: Env)
    requires LoadTree(root, env).Ok?
    ensures var a := LoadTree(root, env).value.sections.analytics;
      && HoldsFlag(root, "analytics", "store_raw_queries", true, a.storeRawQueries)
      && HoldsNumber(root, "analytics", "retention_progress_days", 90, 0, U32_MAX, 0, 0, a.retentionProgressDays)
      && HoldsNumber(root, "analytics", "retention_events_days", 365, 0, U32_MAX, 0, 0, a.retentionEventsDays)
      && HoldsNumber(root, "analytics", "retention_operations_days", 90, 0, U32_MAX, 0, 0, a.retentionOperationsDays)
      && HoldsNumber(root, "analytics", "daily_rollup_hour", 3, 0, 23, 3, 3, a.dailyRollupHour)
      && HoldsNumber(root, "analytics", "hook_timeout_ms", 5000, 1, U64_MAX, 5000, 0, a.hookTimeoutMs)
      && HoldsFlag(root, "analytics", "allow_file_credentials", false, a.allowFileCredentials)
  {
    hide LoadTree, SectionTable, HoldsFlag, HoldsNumber, FlagField, OptionalTextField, DecodeSections, DecodeOthers,
      DecodeDiscord, DecodeCache, DecodeNotifications, DecodeTui, DecodeViz, RepairViz, Canonical, TextOr, NonblankOption;
    SectionsDecoded(root, env);
    FlagHolds(root, "analytics", "store_raw_queries", true);
    NumberHolds(root, "analytics", "retention_progress_days", 90, U32_MAX, 0, U32_MAX, 0, 0);
    NumberHolds(root, "analytics", "retention_events_days", 365, U32_MAX, 0, U32_MAX, 0, 0);
    NumberHolds(root, "analytics", "retention_operations_days", 90, U32_MAX, 0, U32_MAX, 0, 0);
    NumberHolds(root, "analytics", "daily_rollup_hour", 3, U8_MAX, 0, 23, 3, 3);
    NumberHolds(root, "analytics", "hook_timeout_ms", 5000, U64_MAX, 1, U64_MAX, 5000, 0);
    FlagHolds(root, "analytics", "allow_file_credentials", false);
  }

  /** Its texts: the environment's Last.fm account comes before the document's, and the
      hook may also be the legacy one. */
  lemma LoadedAccountAndHook(root: Table, env: Env)
    requires LoadTree(root, env).Ok?
    ensures var a := LoadTree(root, env).value.sections.analytics;
      && (if env.lastfmApiKey.Some? then a.lastfmApiKey == env.lastfmApiKey
          else HoldsOptional(root, "analytics", "lastfm_api_key", a.lastfmApiKey))
      && (if env.lastfmUser.Some? then a.lastfmUser == env.lastfmUser
          else HoldsOptional(root, "analytics", "lastfm_user", a.lastfmUser))
      && (if ItemAt(root, ["analytics", "hook_command"]).Some? then HoldsOptional(root, "analytics", "hook_command", a.hookCommand)
          else match ItemAt(root, ["player", "event_hook"])
            case Some(Leaf(Text(hook))) => HoldsOptional(root, "player", "event_hook", a.hookCommand)
            case _ => a.hookCommand == None)
  {
    hide LoadTree, SectionTable, ItemAt, FlagField, NatField, DecodeSections, DecodeOthers, DecodeDiscord, DecodeCache,
      DecodeNotifications, DecodeTui, DecodeViz, RepairViz, Canonical, TextOr, Trim;
    SectionsDecoded(root, env);
    SectionItem(root, "analytics", "lastfm_api_key");
    SectionItem(root, "analytics", "lastfm_user");
    SectionItem(root, "analytics", "hook_command");
  }
}
