/** Which documents load: a condition on the document's items alone, equivalent to
    the loader's success (crates/spotuify-config/src/model.rs). */
module LoadAcceptance {
  import opened Wrappers
  import opened ConfigTree
  import opened ConfigPath
  import opened ConfigSections
  import opened ConfigLoad
  import opened LoadPrecedence
  import opened EnvironmentMerge
  import opened MigrationPreservesMeaning
  import opened EnvironmentLoads
  import opened LoadMeaning
  import opened ConfigReads
  import opened TextForm
  import ConfigEdit

  // ---- Items of the right type ----

  predicate IsFlag(item: Option<Node>)
  {
    item == None || (item.value.Leaf? && item.value.value.Flag?)
  }

  predicate IsText(item: Option<Node>)
  {
    item == None || (item.value.Leaf? && item.value.value.Text?)
  }

  /** A nonnegative integer of the given number of bits. */
  predicate IsNumber(item: Option<Node>, limit: nat)
  {
    item == None || (item.value.Leaf? && item.value.value.Integer? && 0 <= item.value.value.number < limit)
  }

  predicate IsReal(item: Option<Node>)
  {
    item == None || (item.value.Leaf? && (item.value.value.Decimal? || item.value.value.Integer?))
  }

  predicate IsTable(item: Option<Node>)
  {
    item == None || item.value.Branch?
  }

  const BITS_8: nat := 0x100
  const BITS_32: nat := 0x1_0000_0000
  const BITS_64: nat := 0x1_0000_0000_0000_0000

  // ---- Sections ----

  predicate CacheAccepted(root: Table)
  {
    && IsTable(ItemAt(root, ["cache"]))
    && IsNumber(ItemAt(root, ["cache", "cover_cache_mb"]), BITS_64)
    && IsNumber(ItemAt(root, ["cache", "cover_cache_ttl_days"]), BITS_64)
  }

  predicate AnalyticsAccepted(root: Table)
  {
    && IsTable(ItemAt(root, ["analytics"]))
    && IsFlag(ItemAt(root, ["analytics", "store_raw_queries"]))
    && IsNumber(ItemAt(root, ["analytics", "retention_progress_days"]), BITS_32)
    && IsNumber(ItemAt(root, ["analytics", "retention_events_days"]), BITS_32)
    && IsNumber(ItemAt(root, ["analytics", "retention_operations_days"]), BITS_32)
    && IsNumber(ItemAt(root, ["analytics", "daily_rollup_hour"]), BITS_8)
    && IsText(ItemAt(root, ["analytics", "hook_command"]))
    && IsNumber(ItemAt(root, ["analytics", "hook_timeout_ms"]), BITS_64)
    && IsFlag(ItemAt(root, ["analytics", "allow_file_credentials"]))
    && IsText(ItemAt(root, ["analytics", "lastfm_api_key"]))
    && IsText(ItemAt(root, ["analytics", "lastfm_user"]))
  }

  predicate NotificationsAccepted(root: Table)
  {
    && IsTable(ItemAt(root, ["notifications"]))
    && IsFlag(ItemAt(root, ["notifications", "enabled"]))
    && IsText(ItemAt(root, ["notifications", "summary"]))
    && IsText(ItemAt(root, ["notifications", "body"]))
    && IsFlag(ItemAt(root, ["notifications", "on_track_change"]))
    && IsFlag(ItemAt(root, ["notifications", "on_pause"]))
    && IsFlag(ItemAt(root, ["notifications", "on_resume"]))
    && IsFlag(ItemAt(root, ["notifications", "on_skip"]))
    && IsFlag(ItemAt(root, ["notifications", "on_error"]))
  }

  predicate DiscordAccepted(root: Table)
  {
    && IsTable(ItemAt(root, ["discord"]))
    && IsFlag(ItemAt(root, ["discord", "enabled"]))
    && IsText(ItemAt(root, ["discord", "application_id"]))
  }

  predicate VizAccepted(root: Table)
  {
    && IsTable(ItemAt(root, ["viz"]))
    && IsFlag(ItemAt(root, ["viz", "enabled"]))
    && IsText(ItemAt(root, ["viz", "source"]))
    && IsNumber(ItemAt(root, ["viz", "target_fps"]), BITS_8)
    && IsReal(ItemAt(root, ["viz", "smoothing"]))
    && IsReal(ItemAt(root, ["viz", "noise_gate"]))
    && IsText(ItemAt(root, ["viz", "color_scheme"]))
    && IsText(ItemAt(root, ["viz", "style"]))
  }

  predicate TuiAccepted(root: Table)
  {
    IsTable(ItemAt(root, ["tui"])) && IsText(ItemAt(root, ["tui", "theme"]))
  }

  predicate SectionsAccepted(root: Table)
  {
    CacheAccepted(root) && AnalyticsAccepted(root) && NotificationsAccepted(root) && DiscordAccepted(root) && VizAccepted(root)
    && TuiAccepted(root)
  }

  /** A section decodes when it is a table. */
  lemma SectionIff(root: Table, section: string)
    ensures SectionTable(root, section).Ok? <==> IsTable(ItemAt(root, [section]))
  {
    ItemAt1(root, section);
  }

  /** A field decodes when its item has the field's type. */
  lemma FieldIff(root: Table, section: string, key: string, flag: bool, number: nat, max: nat, fraction: real, text: string)
    requires SectionTable(root, section).Ok?
    ensures var t, item := SectionTable(root, section).value, ItemAt(root, [section, key]);
      && (FlagField(t, key, flag).Ok? <==> IsFlag(item))
      && (NatField(t, key, number, max).Ok? <==> IsNumber(item, max + 1))
      && (RealField(t, key, fraction).Ok? <==> IsReal(item))
      && (TextField(t, key, text).Ok? <==> IsText(item))
      && (OptionalTextField(t, key).Ok? <==> IsText(item))
  {
    hide SectionTable, ItemAt;
    SectionItem(root, section, key);
  }

  lemma CacheIff(root: Table)
    requires SectionTable(root, "cache").Ok?
    ensures DecodeCache(SectionTable(root, "cache").value).Ok? <==> CacheAccepted(root)
  {
    hide SectionTable, ItemAt, NatField, IsNumber;
    SectionIff(root, "cache");
    FieldIff(root, "cache", "cover_cache_mb", true, 200, U64_MAX, 0.0, "");
    FieldIff(root, "cache", "cover_cache_ttl_days", true, 30, U64_MAX, 0.0, "");
  }

  lemma AnalyticsIff(root: Table)
    requires SectionTable(root, "analytics").Ok?
    ensures DecodeAnalytics(SectionTable(root, "analytics").value).Ok? <==> AnalyticsAccepted(root)
  {
    hide SectionTable, ItemAt, NatField, FlagField, OptionalTextField, IsNumber, IsFlag, IsText;
    SectionIff(root, "analytics");
    FieldIff(root, "analytics", "store_raw_queries", true, 0, 0, 0.0, "");
    FieldIff(root, "analytics", "retention_progress_days", true, 90, U32_MAX, 0.0, "");
    FieldIff(root, "analytics", "retention_events_days", true, 365, U32_MAX, 0.0, "");
    FieldIff(root, "analytics", "retention_operations_days", true, 90, U32_MAX, 0.0, "");
    FieldIff(root, "analytics", "daily_rollup_hour", true, 3, U8_MAX, 0.0, "");
    FieldIff(root, "analytics", "hook_command", true, 0, 0, 0.0, "");
    FieldIff(root, "analytics", "hook_timeout_ms", true, 5000, U64_MAX, 0.0, "");
    FieldIff(root, "analytics", "allow_file_credentials", false, 0, 0, 0.0, "");
    FieldIff(root, "analytics", "lastfm_api_key", true, 0, 0, 0.0, "");
    FieldIff(root, "analytics", "lastfm_user", true, 0, 0, 0.0, "");
  }

  lemma NotificationsIff(root: Table)
    requires SectionTable(root, "notifications").Ok?
    ensures DecodeNotifications(SectionTable(root, "notifications").value).Ok? <==> NotificationsAccepted(root)
  {
    hide SectionTable, ItemAt, FlagField, TextField, IsFlag, IsText;
    SectionIff(root, "notifications");
    FieldIff(root, "notifications", "enabled", false, 0, 0, 0.0, "");
    FieldIff(root, "notifications", "summary", true, 0, 0, 0.0, "{track}");
    FieldIff(root, "notifications", "body", true, 0, 0, 0.0, "{artist} - {album}");
    FieldIff(root, "notifications", "on_track_change", true, 0, 0, 0.0, "");
    FieldIff(root, "notifications", "on_pause", false, 0, 0, 0.0, "");
    FieldIff(root, "notifications", "on_resume", false, 0, 0, 0.0, "");
    FieldIff(root, "notifications", "on_skip", false, 0, 0, 0.0, "");
    FieldIff(root, "notifications", "on_error", true, 0, 0, 0.0, "");
  }

  lemma DiscordIff(root: Table)
    requires SectionTable(root, "discord").Ok?
    ensures DecodeDiscord(SectionTable(root, "discord").value).Ok? <==> DiscordAccepted(root)
  {
    hide SectionTable, ItemAt, FlagField, OptionalTextField, IsFlag, IsText;
    SectionIff(root, "discord");
    FieldIff(root, "discord", "enabled", false, 0, 0, 0.0, "");
    FieldIff(root, "discord", "application_id", true, 0, 0, 0.0, "");
  }

  lemma VizIff(root: Table)
    requires SectionTable(root, "viz").Ok?
    ensures DecodeViz(SectionTable(root, "viz").value).Ok? <==> VizAccepted(root)
  {
    hide SectionTable, ItemAt, FlagField, TextField, NatField, RealField, IsFlag, IsText, IsNumber, IsReal;
    SectionIff(root, "viz");
    FieldIff(root, "viz", "enabled", true, 0, 0, 0.0, "");
    FieldIff(root, "viz", "source", true, 0, 0, 0.0, "auto");
    FieldIff(root, "viz", "target_fps", true, 30, U8_MAX, 0.0, "");
    FieldIff(root, "viz", "smoothing", true, 0, 0, 0.5, "");
    FieldIff(root, "viz", "noise_gate", true, 0, 0, 0.005, "");
    FieldIff(root, "viz", "color_scheme", true, 0, 0, 0.0, "spotify-green");
    FieldIff(root, "viz", "style", true, 0, 0, 0.0, "bars");
  }

  lemma TuiIff(root: Table)
    requires SectionTable(root, "tui").Ok?
    ensures DecodeTui(SectionTable(root, "tui").value).Ok? <==> TuiAccepted(root)
  {
    hide SectionTable, ItemAt, TextField, IsText;
    SectionIff(root, "tui");
    FieldIff(root, "tui", "theme", true, 0, 0, 0.0, "terminal-default");
  }

  /** The sections decode if and only if every key the program knows is absent or of
      its type, and in the range of its integer type. */
  lemma SectionsDecodeIff(root: Table)
    ensures DecodeSections(root).Ok? <==> SectionsAccepted(root)
  {
    hide SectionTable, CacheAccepted, AnalyticsAccepted, NotificationsAccepted, DiscordAccepted, VizAccepted, TuiAccepted,
      DecodeCache, DecodeAnalytics, DecodeNotifications, DecodeDiscord, DecodeViz, DecodeTui, LegacyHook;
    SectionsAreTables(root);
    if SectionTable(root, "cache").Ok? { CacheIff(root); }
    if SectionTable(root, "analytics").Ok? { AnalyticsIff(root); }
    if SectionTable(root, "notifications").Ok? { NotificationsIff(root); }
    if SectionTable(root, "discord").Ok? { DiscordIff(root); }
    if SectionTable(root, "viz").Ok? { VizIff(root); }
    if SectionTable(root, "tui").Ok? { TuiIff(root); }
  }

  lemma SectionsAreTables(root: Table)
    ensures CacheAccepted(root) ==> SectionTable(root, "cache").Ok?
    ensures AnalyticsAccepted(root) ==> SectionTable(root, "analytics").Ok?
    ensures NotificationsAccepted(root) ==> SectionTable(root, "notifications").Ok?
    ensures DiscordAccepted(root) ==> SectionTable(root, "discord").Ok?
    ensures VizAccepted(root) ==> SectionTable(root, "viz").Ok?
    ensures TuiAccepted(root) ==> SectionTable(root, "tui").Ok?
  {
    hide SectionTable, ItemAt, IsFlag, IsText, IsNumber, IsReal;
    SectionIff(root, "cache");
    SectionIff(root, "analytics");
    SectionIff(root, "notifications");
    SectionIff(root, "discord");
    SectionIff(root, "viz");
    SectionIff(root, "tui");
  }

  // ---- Providers ----

  /** The provider the document's legacy keys belong to. */
  predicate IsHome(root: Table, id: string)
  {
    HasLegacy(root) && LoadTarget(Named(root)) == Ok(id)
  }

  /** The configured providers, and the home of the legacy keys. */
  function Ids(root: Table): (r: set<string>)
  {
    Named(root).Keys + (if HasLegacy(root) && LoadTarget(Named(root)).Ok? then {LoadTarget(Named(root)).value} else {})
  }

  /** A provider's `type`; the home of the legacy keys need not have one. */
  function KindItem(root: Table, id: string): (r: Option<Node>)
  {
    var own := ItemAt(root, [PROVIDERS, id, TYPE]);
    if IsHome(root, id) then OrElse(own, Some(Leaf(Text(SPOTIFY)))) else own
  }

  /** A provider's player setting; the home of the legacy keys has those too. */
  function SettingItem(root: Table, id: string, key: string): (r: Option<Node>)
  {
    var own := ItemAt(root, [PROVIDERS, id, PLAYER, key]);
    if !IsHome(root, id) then own
    else OrElse(OrElse(own, ItemAt(root, [PLAYER, key])),
                if key == DEVICE_NAME then ItemAt(root, [SPOTIFYD, DEVICE_NAME]) else None)
  }

  predicate BackendAccepted(item: Option<Node>)
  {
    item == None || item == Some(Leaf(Text("embedded")))
  }

  predicate BitrateAccepted(item: Option<Node>)
  {
    item == None || item == Some(Leaf(Integer(96))) || item == Some(Leaf(Integer(160))) || item == Some(Leaf(Integer(320)))
  }

  predicate SettingsAccepted(root: Table, id: string)
  {
    && BackendAccepted(SettingItem(root, id, "backend"))
    && BitrateAccepted(SettingItem(root, id, "bitrate"))
    && IsText(SettingItem(root, id, "device_name"))
    && IsText(SettingItem(root, id, "audio_output_device"))
    && IsFlag(SettingItem(root, id, "normalization"))
    && IsNumber(SettingItem(root, id, "audio_cache_mib"), BITS_32)
    && IsFlag(SettingItem(root, id, "pulse_props"))
  }

  predicate PlainId(id: string)
  {
    id != "" && 'a' <= id[0] <= 'z'
    && forall i :: 0 <= i < |id| ==> 'a' <= id[i] <= 'z' || '0' <= id[i] <= '9' || id[i] == '-'
  }

  predicate KindAccepted(item: Option<Node>)
  {
    item.Some? && item.value.Leaf? && item.value.value.Text? && Trim(item.value.value.text) != ""
  }

  predicate SaysSpotify(item: Option<Node>)
  {
    item.Some? && item.value.Leaf? && item.value.value.Text? && Trim(item.value.value.text) == "spotify"
  }

  predicate ProviderAccepted(root: Table, id: string)
  {
    && PlainId(id)
    && IsTable(ItemAt(root, [PROVIDERS, id]))
    && KindAccepted(KindItem(root, id))
    && (SaysSpotify(KindItem(root, id)) ==> IsTable(ItemAt(root, [PROVIDERS, id, PLAYER])) && SettingsAccepted(root, id))
  }

  /** A default that is one of the providers; it can be left out where there is at most one. */
  predicate DefaultAccepted(root: Table)
  {
    match ItemAt(root, [PROVIDERS, DEFAULT])
    case None => |Ids(root)| <= 1
    case Some(node) => node.Leaf? && node.value.Text? && node.value.text in Ids(root)
  }

  predicate LegacyAccepted(root: Table)
  {
    LoadTarget(Named(root)).Ok? && IsTable(ItemAt(root, [PLAYER])) && IsTable(ItemAt(root, [SPOTIFYD]))
  }

  predicate OneSpotify(root: Table)
  {
    forall x, y :: x in Ids(root) && y in Ids(root) && SaysSpotify(KindItem(root, x)) && SaysSpotify(KindItem(root, y)) ==> x == y
  }

  predicate ProvidersAccepted(root: Table)
  {
    && IsTable(ItemAt(root, [PROVIDERS]))
    && (HasLegacy(root) ==> LegacyAccepted(root))
    && (forall id :: id in Ids(root) ==> ProviderAccepted(root, id))
    && OneSpotify(root)
    && DefaultAccepted(root)
  }

  // ---- One provider's table ----

  predicate TableSettingsAccepted(t: Table)
  {
    && BackendAccepted(ItemAt(t, [PLAYER, "backend"]))
    && BitrateAccepted(ItemAt(t, [PLAYER, "bitrate"]))
    && IsText(ItemAt(t, [PLAYER, "device_name"]))
    && IsText(ItemAt(t, [PLAYER, "audio_output_device"]))
    && IsFlag(ItemAt(t, [PLAYER, "normalization"]))
    && IsNumber(ItemAt(t, [PLAYER, "audio_cache_mib"]), BITS_32)
    && IsFlag(ItemAt(t, [PLAYER, "pulse_props"]))
  }

  lemma SettingIff(t: Table, key: string, flag: bool, max: nat)
    ensures var p, item := Entries(t, PLAYER), ItemAt(t, [PLAYER, key]);
      && (OptionalTextField(p, key).Ok? <==> IsText(item))
      && (FlagField(p, key, flag).Ok? <==> IsFlag(item))
      && (NatField(p, key, 0, max).Ok? <==> IsNumber(item, max + 1))
      && ((key in p ==> p[key] == Leaf(Text("embedded"))) <==> BackendAccepted(item))
      && ((key in p ==> p[key] in {Leaf(Integer(96)), Leaf(Integer(160)), Leaf(Integer(320))}) <==> BitrateAccepted(item))
  {
    hide ItemAt;
    ItemAt2(t, PLAYER, key);
    ItemAt1(Entries(t, PLAYER), key);
  }

  lemma PlayerIff(t: Table)
    requires TableOrAbsent(t, PLAYER)
    ensures (PLAYER in t ==> PlayerOk(t[PLAYER])) <==> TableSettingsAccepted(t)
  {
    hide ItemAt, IsText, IsFlag, IsNumber, BackendAccepted, BitrateAccepted, FlagField, NatField, OptionalTextField;
    SettingIff(t, "backend", true, 0);
    SettingIff(t, "bitrate", true, 0);
    SettingIff(t, "device_name", true, 0);
    SettingIff(t, "audio_output_device", true, 0);
    SettingIff(t, "normalization", false, 0);
    SettingIff(t, "audio_cache_mib", true, U32_MAX);
    SettingIff(t, "pulse_props", true, 0);
    if PLAYER !in t {
      NoSettings(t);
    }
  }

  lemma NoSettings(t: Table)
    requires PLAYER !in t
    ensures TableSettingsAccepted(t)
  {
  }

  lemma KindIff(t: Table)
    ensures TrimmedKind(Branch(t)).Some? <==> KindAccepted(ItemAt(t, [TYPE]))
    ensures TrimmedKind(Branch(t)) == Some(SPOTIFY) <==> SaysSpotify(ItemAt(t, [TYPE]))
  {
    hide Trim;
    ItemAt1(t, TYPE);
  }

  lemma IdIff(id: string)
    ensures ValidProviderId(id) <==> PlainId(id)
  {
  }

  /** The loader's check of one table, in terms of the table's items. */
  lemma TableIff(id: string, t: Table)
    ensures ProviderOk(id, Branch(t)) <==>
      && PlainId(id) && KindAccepted(ItemAt(t, [TYPE]))
      && (SaysSpotify(ItemAt(t, [TYPE])) ==> TableOrAbsent(t, PLAYER) && TableSettingsAccepted(t))
  {
    hide ItemAt, ValidProviderId, PlainId, TrimmedKind, KindAccepted, SaysSpotify, TableSettingsAccepted;
    IdIff(id);
    KindIff(t);
    if TableOrAbsent(t, PLAYER) {
      hide PlayerOk;
      PlayerIff(t);
    }
  }

  /** A table with the items of a provider is accepted as the provider is. */
  lemma SameItemsSameAnswer(root: Table, id: string, t: Table)
    requires IsTable(ItemAt(root, [PROVIDERS, id])) && ItemAt(t, [TYPE]) == KindItem(root, id)
    requires TableOrAbsent(t, PLAYER) <==> IsTable(ItemAt(root, [PROVIDERS, id, PLAYER]))
    requires forall key :: key in PLAYER_KEYS ==> ItemAt(t, [PLAYER, key]) == SettingItem(root, id, key)
    ensures ProviderOk(id, Branch(t)) <==> ProviderAccepted(root, id)
    ensures TrimmedKind(Branch(t)) == Some(SPOTIFY) <==> SaysSpotify(KindItem(root, id))
  {
    hide ItemAt, KindItem, SettingItem, PlainId, KindAccepted, SaysSpotify, IsText, IsFlag, IsNumber, IsTable, BackendAccepted,
      BitrateAccepted, TableOrAbsent, ProviderOk, TrimmedKind;
    TableIff(id, t);
    KindIff(t);
    assert SettingsAccepted(root, id) <==> TableSettingsAccepted(t);
  }

  /** A configured provider that is not the home of legacy keys is checked as it is. */
  lemma PlainProviderIff(root: Table, id: string)
    requires id in Named(root) && !IsHome(root, id)
    ensures ProviderOk(id, Named(root)[id]) <==> ProviderAccepted(root, id)
    ensures TrimmedKind(Named(root)[id]) == Some(SPOTIFY) <==> SaysSpotify(KindItem(root, id))
  {
    hide ItemAt, IsHome;
    var node := Named(root)[id];
    ItemAt2(root, PROVIDERS, id);
    ItemAt1(Entries(root, PROVIDERS), id);
    OwnItems(root, id);
    if node.Branch? {
      hide ProviderOk, TrimmedKind, ProviderAccepted, SaysSpotify;
      TableItem(node.entries);
      SameItemsSameAnswer(root, id, node.entries);
    } else {
      ItemAt1(map[], TYPE);
    }
  }

  lemma OwnItems(root: Table, id: string)
    ensures var t := Entries(Entries(root, PROVIDERS), id);
      && ItemAt(root, [PROVIDERS, id, TYPE]) == ItemAt(t, [TYPE])
      && ItemAt(root, [PROVIDERS, id, PLAYER]) == ItemAt(t, [PLAYER])
      && forall key :: ItemAt(root, [PROVIDERS, id, PLAYER, key]) == ItemAt(t, [PLAYER, key])
  {
    hide ItemAt;
    var t := Entries(Entries(root, PROVIDERS), id);
    ItemAt3(root, PROVIDERS, id, TYPE);
    ItemAt3(root, PROVIDERS, id, PLAYER);
    forall key
      ensures ItemAt(root, [PROVIDERS, id, PLAYER, key]) == ItemAt(t, [PLAYER, key])
    {
      ItemAt4(root, PROVIDERS, id, PLAYER, key);
      ItemAt2(t, PLAYER, key);
    }
  }

  lemma TableItem(t: Table)
    ensures TableOrAbsent(t, PLAYER) <==> IsTable(ItemAt(t, [PLAYER]))
  {
    ItemAt1(t, PLAYER);
  }

  /** The home of the legacy keys is checked with them filled in. */
  lemma HomeIff(root: Table, id: string)
    requires IsHome(root, id) && Shaped(root, id) && MergedSpotify(root, ViewOf(root, id).spotify).Ok?
    ensures var merged := Branch(MergedSpotify(root, ViewOf(root, id).spotify).value);
      && (ProviderOk(id, merged) <==> ProviderAccepted(root, id))
      && (TrimmedKind(merged) == Some(SPOTIFY) <==> SaysSpotify(KindItem(root, id)))
  {
    hide ItemAt, IsHome, Shaped, ViewOf, MergedSpotify, ProviderOk, TrimmedKind, ProviderAccepted, SaysSpotify, SameButEmptyPlayer,
      Fill, FillPlayer, Restrict, TableOrAbsent;
    var view := ViewOf(root, id);
    var merged := MergedSpotify(root, view.spotify).value;
    var filled := CompletedView(MovedView(view), id).spotify;
    MergeMatchesMoves(root, id);
    EmptyPlayerDoesNotMatter(id, merged, filled);
    ViewParts(root, id);
    HomeShape(root, id);
    FilledKind(root, id, view);
    forall key | key in PLAYER_KEYS
      ensures ItemAt(filled, [PLAYER, key]) == SettingItem(root, id, key)
    {
      FilledSetting(root, id, view, key);
    }
    SameItemsSameAnswer(root, id, filled);
  }

  lemma HomeShape(root: Table, id: string)
    requires Shaped(root, id)
    ensures IsTable(ItemAt(root, [PROVIDERS, id])) && IsTable(ItemAt(root, [PROVIDERS, id, PLAYER]))
  {
    hide ItemAt;
    ItemAt2(root, PROVIDERS, id);
    ItemAt1(Entries(root, PROVIDERS), id);
    ItemAt3(root, PROVIDERS, id, PLAYER);
    ItemAt1(Entries(Entries(root, PROVIDERS), id), PLAYER);
  }

  lemma FilledSetting(root: Table, id: string, view: View, key: string)
    requires IsHome(root, id) && view == ViewOf(root, id) && TableOrAbsent(view.spotify, PLAYER) && key in PLAYER_KEYS
    ensures ItemAt(CompletedView(MovedView(view), id).spotify, [PLAYER, key]) == SettingItem(root, id, key)
  {
    hide ItemAt, IsHome, ViewOf, Fill, FillPlayer, Restrict, TableOrAbsent;
    ViewParts(root, id);
    FlatHasNoPlayer(root);
    FilledPlayerItem(view.spotify, view.flat, Restrict(view.player, PLAYER_KEYS), Restrict(view.spotifyd, {DEVICE_NAME}), key);
    RestrictLookup(view.player, PLAYER_KEYS, key);
    RestrictLookup(view.spotifyd, {DEVICE_NAME}, key);
    ItemAt4(root, PROVIDERS, id, PLAYER, key);
    ItemAt2(view.spotify, PLAYER, key);
    ItemAt2(root, PLAYER, key);
    ItemAt2(root, SPOTIFYD, DEVICE_NAME);
  }

  lemma FilledKind(root: Table, id: string, view: View)
    requires IsHome(root, id) && view == ViewOf(root, id) && TableOrAbsent(view.spotify, PLAYER)
    ensures var filled := CompletedView(MovedView(view), id).spotify;
      TableOrAbsent(filled, PLAYER) && ItemAt(filled, [TYPE]) == KindItem(root, id)
  {
    hide ItemAt, IsHome, ViewOf, Fill, FillPlayer, Restrict, TableOrAbsent;
    ViewParts(root, id);
    ItemAt3(root, PROVIDERS, id, TYPE);
    KeyLists();
    FlatHasNoPlayer(root);
    FlatHasNoType(root);
    var a := Fill(view.spotify, view.flat);
    var b := FillPlayer(a, Restrict(view.player, PLAYER_KEYS));
    var c := FillPlayer(b, Restrict(view.spotifyd, {DEVICE_NAME}));
    var kind: Table := map[TYPE := Leaf(Text(SPOTIFY))];
    EntriesAfterFill(view.spotify, view.flat, PLAYER);
    PlayerAfterFill(a, Restrict(view.player, PLAYER_KEYS));
    PlayerAfterFill(b, Restrict(view.spotifyd, {DEVICE_NAME}));
    EntriesAfterFill(c, kind, PLAYER);
    FillLookup(view.spotify, view.flat, TYPE);
    KindAfterFillPlayer(a, Restrict(view.player, PLAYER_KEYS));
    KindAfterFillPlayer(b, Restrict(view.spotifyd, {DEVICE_NAME}));
    FillLookup(c, kind, TYPE);
    ItemAt1(kind, TYPE);
    ItemAt1(view.flat, TYPE);
  }

  lemma FlatHasNoType(root: Table)
    ensures TYPE !in Restrict(root, ROOT_KEYS)
  {
    KeyLists();
  }

  lemma KindAfterFillPlayer(t: Table, extra: Table)
    ensures ItemAt(FillPlayer(t, extra), [TYPE]) == ItemAt(t, [TYPE])
  {
    KeyLists();
    ItemAt1(t, TYPE);
    ItemAt1(FillPlayer(t, extra), TYPE);
  }

  // ---- The whole document ----

  /** Every table the legacy keys go through is a table. */
  predicate Mergeable(root: Table)
  {
    HasLegacy(root) ==> LoadTarget(Named(root)).Ok? && Shaped(root, LoadTarget(Named(root)).value)
  }

  lemma ShapedMerges(root: Table, id: string)
    requires Shaped(root, id)
    ensures MergedSpotify(root, ViewOf(root, id).spotify).Ok?
  {
    hide Restrict;
    FlatHasNoPlayer(root);
  }

  /** The provider values the checks run on: one for each provider, accepted as it is. */
  lemma FinalIs(root: Table) returns (final: Table)
    requires Mergeable(root)
    ensures MergeLegacy(root, Named(root)).Ok? && final == MergeLegacy(root, Named(root)).value.0 && final.Keys == Ids(root)
    ensures forall id :: id in Ids(root) ==> (ProviderOk(id, final[id]) <==> ProviderAccepted(root, id))
    ensures forall id :: id in Ids(root) ==> (TrimmedKind(final[id]) == Some(SPOTIFY) <==> SaysSpotify(KindItem(root, id)))
  {
    hide HasLegacy, LoadTarget, Shaped, ViewOf, MergedSpotify, LegacyWarnings, ProviderOk, ProviderAccepted, TrimmedKind,
      SaysSpotify, KindItem, Named;
    if HasLegacy(root) {
      final := HomeValues(root, LoadTarget(Named(root)).value);
    } else {
      final := Named(root);
    }
    forall id | id in Ids(root)
      ensures ProviderOk(id, final[id]) <==> ProviderAccepted(root, id)
      ensures TrimmedKind(final[id]) == Some(SPOTIFY) <==> SaysSpotify(KindItem(root, id))
    {
      if IsHome(root, id) {
        HomeIff(root, id);
      } else {
        PlainProviderIff(root, id);
      }
    }
  }

  lemma HomeValues(root: Table, id: string) returns (final: Table)
    requires IsHome(root, id) && Shaped(root, id)
    ensures MergeLegacy(root, Named(root)).Ok? && final == MergeLegacy(root, Named(root)).value.0
    ensures MergedSpotify(root, ViewOf(root, id).spotify).Ok?
    ensures final == Named(root)[id := Branch(MergedSpotify(root, ViewOf(root, id).spotify).value)]
  {
    hide MergedSpotify, LegacyWarnings, LoadTarget, HasLegacy;
    ShapedMerges(root, id);
    TargetIsNotDefault(Named(root), id);
    final := Named(root)[id := Branch(MergedSpotify(root, ViewOf(root, id).spotify).value)];
  }

  lemma OwnersIff(root: Table, final: Table)
    requires final.Keys == Ids(root)
    requires forall id :: id in Ids(root) ==> (TrimmedKind(final[id]) == Some(SPOTIFY) <==> SaysSpotify(KindItem(root, id)))
    ensures |SpotifyOwners(final)| <= 1 <==> OneSpotify(root)
  {
    hide TrimmedKind, SaysSpotify, KindItem, Ids;
    var owners := SpotifyOwners(final);
    assert forall id :: id in owners <==> id in Ids(root) && SaysSpotify(KindItem(root, id));
    if |owners| <= 1 {
      forall x, y | x in owners && y in owners
        ensures x == y
      {
        SmallSetsAgree(owners, x, y);
      }
    } else if OneSpotify(root) {
      var x :| x in owners;
      SubsetOfOne(owners, x);
      assert false;
    }
  }

  lemma ChecksIff(root: Table, final: Table, default: Option<string>)
    requires final.Keys == Ids(root)
    requires forall id :: id in Ids(root) ==> (ProviderOk(id, final[id]) <==> ProviderAccepted(root, id))
    requires forall id :: id in Ids(root) ==> (TrimmedKind(final[id]) == Some(SPOTIFY) <==> SaysSpotify(KindItem(root, id)))
    ensures CheckProviders(final, default).Ok? <==>
      && (forall id :: id in Ids(root) ==> ProviderAccepted(root, id)) && OneSpotify(root)
      && (if default.Some? then default.value in Ids(root) else |Ids(root)| <= 1)
  {
    hide TrimmedKind, SaysSpotify, KindItem, Ids, OneSpotify, ProviderOk, ProviderAccepted, SpotifyOwners;
    OwnersIff(root, final);
  }

  /** The home of the legacy keys is Spotify's, or its type is none at all. */
  lemma HomeSaysSpotify(root: Table, id: string)
    requires IsHome(root, id) && KindAccepted(KindItem(root, id))
    ensures SaysSpotify(KindItem(root, id))
  {
    hide HasLegacy, ItemAt, Trim;
    NamesDiffer();
    OwnItems(root, id);
    ItemAt1(Entries(Entries(root, PROVIDERS), id), TYPE);
    assert Trim(SPOTIFY) == SPOTIFY by {
      SpotifyIsTrimmed();
    }
    TargetIsNotDefault(Named(root), id);
    if id in Named(root) {
      assert KindOf(Named(root)[id]) in {None, Some(SPOTIFY)} by {
        HomeKind(Named(root), id);
      }
    }
  }

  lemma SpotifyIsTrimmed()
    ensures Trim(SPOTIFY) == SPOTIFY
  {
  }

  lemma HomeKind(values: Table, id: string)
    requires LoadTarget(values) == Ok(id) && id in values
    ensures values[id].Branch? && KindOf(values[id]) in {None, Some(SPOTIFY)}
  {
  }

  lemma AcceptedIsMergeable(root: Table)
    requires AnalyticsAccepted(root) && ProvidersAccepted(root)
    ensures Mergeable(root)
  {
    hide HasLegacy, LoadTarget, ItemAt, KindAccepted, SaysSpotify, KindItem, SettingsAccepted, PlainId, DefaultAccepted, Shaped,
      IsFlag, IsText, IsNumber, Named;
    if HasLegacy(root) {
      var id := LoadTarget(Named(root)).value;
      assert ProviderAccepted(root, id);
      HomeSaysSpotify(root, id);
      ItemAt1(root, PROVIDERS);
      ItemAt1(root, PLAYER);
      ItemAt1(root, SPOTIFYD);
      ItemAt1(root, ANALYTICS);
      ItemAt2(root, PROVIDERS, id);
      ItemAt1(Entries(root, PROVIDERS), id);
      ItemAt3(root, PROVIDERS, id, PLAYER);
      ItemAt1(Entries(Entries(root, PROVIDERS), id), PLAYER);
      ViewParts(root, id);
    }
  }

  lemma LoadedIsMergeable(root: Table)
    requires DecodeSections(root).Ok? && ResolveProviders(root, NO_ENV).Ok?
    ensures Mergeable(root) && (HasLegacy(root) ==> LegacyAccepted(root))
  {
    hide HasLegacy, LoadTarget, ItemAt, DecodeSections, ResolveProviders, EditTarget, Shaped, MergedSpotify, MergeLegacy, ViewOf,
      ValidProviderId, ProviderValues, DefaultOf;
    if HasLegacy(root) {
      TargetsAgree(root, NO_ENV);
      DefaultIff(root);
      var id := EditTarget(root).value;
      LoadedIsShaped(root, id);
      ViewParts(root, id);
      ItemAt1(root, PLAYER);
      ItemAt1(root, SPOTIFYD);
    }
  }

  lemma DefaultIff(root: Table)
    ensures ProviderValues(root).Ok? <==> IsTable(ItemAt(root, [PROVIDERS]))
    ensures ProviderValues(root).Ok? ==> ProviderValues(root).value == Entries(root, PROVIDERS)
    ensures var default := DefaultOf(Entries(root, PROVIDERS));
      match ItemAt(root, [PROVIDERS, DEFAULT])
      case None => default == Ok(None)
      case Some(node) =>
        (default.Ok? <==> node.Leaf? && node.value.Text? && ValidProviderId(node.value.text))
        && (default.Ok? ==> default.value == Some(node.value.text))
  {
    hide ItemAt, ValidProviderId;
    ItemAt1(root, PROVIDERS);
    ItemAt2(root, PROVIDERS, DEFAULT);
    ItemAt1(Entries(root, PROVIDERS), DEFAULT);
  }

  /** With its sections in order, a document resolves exactly when its providers are accepted. */
  lemma ProvidersResolveIff(root: Table)
    requires DecodeSections(root).Ok?
    ensures ResolveProviders(root, NO_ENV).Ok? <==> ProvidersAccepted(root)
  {
    hide HasLegacy, LoadTarget, ItemAt, DecodeSections, ResolveProviders, Shaped, MergeLegacy, CheckProviders, ProviderValues,
      DefaultOf, Ids, ProviderAccepted, SaysSpotify, KindItem, ValidProviderId, Mergeable, LegacyAccepted, MergeEnv, ProviderOk,
      TrimmedKind, SectionsAccepted;
    SectionsDecodeIff(root);
    DefaultIff(root);
    if ResolveProviders(root, NO_ENV).Ok? {
      LoadedIsMergeable(root);
      ResolvedHasParts(root);
    } else if ProvidersAccepted(root) {
      AnalyticsAreAccepted(root);
      AcceptedIsMergeable(root);
    }
    if Mergeable(root) && IsTable(ItemAt(root, [PROVIDERS])) && DefaultOf(Entries(root, PROVIDERS)).Ok? {
      var final := FinalIs(root);
      var default := DefaultOf(Entries(root, PROVIDERS)).value;
      var legacy := MergeLegacy(root, Named(root)).value;
      ResolvesIffChecks(root, NO_ENV, Entries(root, PROVIDERS), legacy);
      NothingInTheEnvironment(final, default, NO_ENV);
      ChecksIff(root, final, default);
    }
    if ProvidersAccepted(root) {
      DefaultIsPlain(root);
    }
  }

  lemma AnalyticsAreAccepted(root: Table)
    requires SectionsAccepted(root)
    ensures AnalyticsAccepted(root)
  {
  }

  lemma ResolvedHasParts(root: Table)
    requires ResolveProviders(root, NO_ENV).Ok?
    ensures ProviderValues(root).Ok? && DefaultOf(ProviderValues(root).value).Ok?
  {
    var all, legacy, final := LoadChecks(root, NO_ENV);
  }

  lemma DefaultIsPlain(root: Table)
    requires ProvidersAccepted(root)
    ensures ItemAt(root, [PROVIDERS, DEFAULT]).Some? ==>
      var node := ItemAt(root, [PROVIDERS, DEFAULT]).value;
      node.Leaf? && node.value.Text? && ValidProviderId(node.value.text)
  {
    hide HasLegacy, LoadTarget, ItemAt, SaysSpotify, KindItem, ValidProviderId, Ids, LegacyAccepted, PlainId, KindAccepted;
    var item := ItemAt(root, [PROVIDERS, DEFAULT]);
    if item.Some? {
      assert ProviderAccepted(root, item.value.value.text);
      IdIff(item.value.value.text);
    }
  }

  /** A document loads on its own if and only if its sections and its providers are
      accepted: every known key absent or of its type, providers with plain ids and a
      type, one Spotify provider at most and its player settings in order, legacy keys
      with one home, and a default that is there. */
  lemma LoadsIff(root: Table)
    ensures LoadTree(root, NO_ENV).Ok? <==> SectionsAccepted(root) && ProvidersAccepted(root)
  {
    hide LoadTree, DecodeSections, ResolveProviders, SectionsAccepted, ProvidersAccepted;
    LoadsIffParts(root, NO_ENV);
    SectionsDecodeIff(root);
    if DecodeSections(root).Ok? {
      ProvidersResolveIff(root);
    }
  }

  // ---- With credentials in the environment ----

  /** Where there are providers, credentials make no document load that does not. */
  lemma CredentialsDoNotHelp(values: Table, default: Option<string>, env: Env)
    requires EnvPresent(env) && values != map[] && MergeEnv(values, default, env).Ok?
    ensures CheckProviders(MergeEnv(values, default, env).value, default) == CheckProviders(values, default)
  {
    hide CheckProviders, EnvPresent, WithEnv, IsSpotify;
    var target := EnvTargetOf(values, default).value;
    assert target in SpotifyIds(values);
    SpotifyIsATable(values[target]);
    var own := values[target].entries;
    ChecksIgnoreTheEnvironment(values, target, own, env, default);
    assert values[target := Branch(own)] == values;
  }

  lemma SpotifyIsATable(node: Node)
    requires IsSpotify(node)
    ensures node.Branch?
  {
  }

  lemma LoadsWithoutCredentials(root: Table, env: Env)
    requires LoadTree(root, env).Ok? && EnvPresent(env) && !(Named(root) == map[] && !HasLegacy(root))
    ensures LoadTree(root, NO_ENV).Ok?
  {
    hide LoadTree, DecodeSections, ResolveProviders, MergeLegacy, MergeEnv, CheckProviders, DefaultOf, HasLegacy, EnvPresent,
      FinalValues, ChecksPass, Tables, Repair, ProviderValues;
    LoadsIffParts(root, NO_ENV);
    LoadsIffParts(root, env);
    var all, legacy, final := LoadParts(root, env);
    ResolvesIffChecks(root, NO_ENV, all, legacy);
    NothingInTheEnvironment(legacy.0, DefaultOf(all).value, NO_ENV);
    SomeProvider(root, legacy);
    CredentialsDoNotHelp(legacy.0, DefaultOf(all).value, env);
  }

  lemma SomeProvider(root: Table, legacy: (Table, set<Warning>))
    requires MergeLegacy(root, Named(root)) == Ok(legacy) && (Named(root) != map[] || HasLegacy(root))
    ensures legacy.0 != map[]
  {
    hide HasLegacy, MergedSpotify, LegacyWarnings, LoadTarget;
  }

  /** A document without providers takes the environment's, if its default allows. */
  lemma EmptyLoadsIff(root: Table, env: Env)
    requires EnvPresent(env) && Named(root) == map[] && !HasLegacy(root)
    ensures ResolveProviders(root, env).Ok? <==>
      IsTable(ItemAt(root, [PROVIDERS])) && ItemAt(root, [PROVIDERS, DEFAULT]) in {None, Some(Leaf(Text("spotify")))}
  {
    hide ItemAt, ValidProviderId, EnvPresent, HasLegacy, MergeLegacy, CheckProviders, MergeEnv, DefaultOf, ResolveProviders,
      ProviderValues;
    DefaultIff(root);
    ItemAt1(root, PROVIDERS);
    var all := Entries(root, PROVIDERS);
    if ResolveProviders(root, env).Ok? {
      var _, _, _ := LoadChecks(root, env);
    }
    NamesAreNormal();
    if IsTable(ItemAt(root, [PROVIDERS])) && DefaultOf(all).Ok? {
      QuietMerge(root, all);
      ResolvesIffChecks(root, env, all, (map[], {}));
      BroughtBy(DefaultOf(all).value, env);
    }
  }

  lemma BroughtBy(default: Option<string>, env: Env)
    requires EnvPresent(env)
    ensures var merged := MergeEnv(map[], default, env);
      (merged.Ok? && CheckProviders(merged.value, default).Ok?) <==> default == None || default == Some(SPOTIFY)
  {
    hide WithEnv, ProviderOk, EnvPresent;
    var none: Table := map[];
    var own: Table := map[TYPE := Leaf(Text(SPOTIFY))];
    var seeded: Table := map[SPOTIFY := Branch(own)];
    assert IsSpotify(seeded[SPOTIFY]) && SPOTIFY in SpotifyIds(seeded);
    var given: Table := map[SPOTIFY := Branch(WithEnv(own, env))];
    assert seeded[SPOTIFY := Branch(WithEnv(own, env))] == given;
    assert none[SPOTIFY := Branch(InEnv(own, env))] == given && none[SPOTIFY := Branch(own)] == seeded;
    ChecksIgnoreTheEnvironment(none, SPOTIFY, own, env, default);
    assert MergeEnv(none, default, env) == Ok(given);
    if default == None || default == Some(SPOTIFY) {
      BareProviderOk(own);
      OneProviderPasses(SPOTIFY, Branch(own), default);
    }
  }

  /** A document loads in an environment that brings credentials if and only if it is
      accepted and has a place for them, or has no provider and lets them bring one. */
  lemma LoadsInEveryEnvIff(root: Table, env: Env)
    ensures LoadTree(root, env).Ok? <==>
      SectionsAccepted(root) &&
      if !EnvPresent(env) then ProvidersAccepted(root)
      else if Named(root) == map[] && !HasLegacy(root) then
        IsTable(ItemAt(root, [PROVIDERS])) && ItemAt(root, [PROVIDERS, DEFAULT]) in {None, Some(Leaf(Text("spotify")))}
      else ProvidersAccepted(root) && AcceptsEnv(root)
  {
    hide LoadTree, SectionsAccepted, ProvidersAccepted, HasLegacy, EnvPresent, ItemAt, IsTable, DecodeSections, ResolveProviders,
      AcceptsEnv, Named;
    LoadsIff(root);
    LoadsIffParts(root, env);
    SectionsDecodeIff(root);
    if !EnvPresent(env) {
      QuietEnvironment(root, env);
    } else if Named(root) == map[] && !HasLegacy(root) {
      EmptyLoadsIff(root, env);
    } else {
      if LoadTree(root, env).Ok? {
        LoadsWithoutCredentials(root, env);
      }
      if LoadTree(root, NO_ENV).Ok? {
        LoadsInEnvIff(root, env);
      }
    }
  }

  lemma QuietEnvironment(root: Table, env: Env)
    requires !EnvPresent(env)
    ensures LoadTree(root, env).Ok? <==> LoadTree(root, NO_ENV).Ok?
  {
    hide LoadTree, DecodeSections, MergeLegacy, CheckProviders, DefaultOf, ProviderValues, Tables;
    LoadsIffParts(root, env);
    LoadsIffParts(root, NO_ENV);
  }

  // ---- A key the loader does not know ----

  function Stray(value: Scalar): (r: Table)
  {
    map["client-id" := Leaf(value)]
  }

  lemma StraySection(value: Scalar, section: string)
    requires section != "client-id"
    ensures ItemAt(Stray(value), [section]) == None && forall key :: ItemAt(Stray(value), [section, key]) == None
  {
    hide ItemAt;
    ItemAt1(Stray(value), section);
    forall key
      ensures ItemAt(Stray(value), [section, key]) == None
    {
      ItemAt2(Stray(value), section, key);
      ItemAt1(map[], key);
    }
  }

  lemma StrayAnalytics(value: Scalar)
    ensures AnalyticsAccepted(Stray(value))
  {
    hide ItemAt, Stray;
    assert "analytics"[0] == 'a' && "client-id"[0] == 'c';
    StraySection(value, "analytics");
  }

  lemma StrayNotifications(value: Scalar)
    ensures NotificationsAccepted(Stray(value))
  {
    hide ItemAt, Stray;
    StraySection(value, "notifications");
  }

  lemma StraySections(value: Scalar)
    ensures SectionsAccepted(Stray(value))
  {
    hide ItemAt, Stray, AnalyticsAccepted, NotificationsAccepted;
    StrayAnalytics(value);
    StrayNotifications(value);
    StraySection(value, "cache");
    StraySection(value, "discord");
    StraySection(value, "viz");
    StraySection(value, "tui");
  }

  lemma StrayHasNoLegacy(value: Scalar)
    ensures !HasLegacy(Stray(value)) && Named(Stray(value)) == map[]
  {
    assert "client_id"[6] == '_' && "client-id"[6] == '-' && PROVIDERS[0] == 'p' && "client-id"[0] == 'c';
    assert Stray(value).Keys * ROOT_KEYS == {};
  }

  lemma StrayLoads(value: Scalar)
    ensures LoadTree(Stray(value), NO_ENV).Ok? && !HasLegacy(Stray(value))
  {
    hide LoadTree, ItemAt, SectionsAccepted, Stray, HasLegacy, Named, ProviderAccepted, SaysSpotify, KindItem;
    assert "client-id"[0] == 'c' && PROVIDERS[0] == 'p';
    StraySections(value);
    StrayHasNoLegacy(value);
    StraySection(value, PROVIDERS);
    assert Ids(Stray(value)) == {};
    LoadsIff(Stray(value));
  }

  lemma StrayTarget(value: Scalar, path: ConfigPath)
    requires path == ConfigPath([PROVIDERS, SPOTIFY, CLIENT_ID], Some([CLIENT_ID]))
    ensures EditTarget(Stray(value)) == Ok(SPOTIFY) && ResolveDocumentPath(Stray(value), path) == Ok(path.canonical)
  {
    assert "client-id"[0] == 'c' && PROVIDERS[0] == 'p';
    assert [PROVIDERS, SPOTIFY] + path.canonical[2..] == path.canonical;
  }

  /** The hyphenated spelling is a place to look, and neither canonical nor flat. */
  lemma StrayIsASpelling(path: ConfigPath)
    requires path == ConfigPath([PROVIDERS, SPOTIFY, CLIENT_ID], Some([CLIENT_ID]))
    ensures ["client-id"] in Spellings(path) && ["client-id"] !in FlatSpellings(path.canonical)
  {
    hide Hyphenated;
    var plain := PlainSpellings(path);
    var last := |plain| - 1;
    assert plain[last] == [CLIENT_ID];
    HyphenatedClientId();
    assert HyphenatedAll([CLIENT_ID]) == ["client-id"];
    assert Spellings(path)[|plain| + last] == HyphenatedAll(plain[last]);
    assert path.canonical[..2] == [PROVIDERS, SPOTIFY] && CLIENT_ID[6] == '_' && "client-id"[6] == '-';
  }

  lemma HyphenatedClientId()
    ensures Hyphenated(CLIENT_ID) == "client-id"
  {
  }

  /** `client-id`, with a hyphen, is read by `get client_id` but is no credential to the
      loader: reading and loading do not agree everywhere. */
  lemma HyphenatedKeyIsReadButNotLoaded(value: Scalar)
    ensures var root := Stray(value);
      && LoadTree(root, NO_ENV).Ok? && Parse([CLIENT_ID]).Ok?
      && Held(LoadTree(root, NO_ENV).value, SPOTIFY, [CLIENT_ID]) == None
      && ConfigEdit.GetValue(root, Parse([CLIENT_ID]).value) != Ok(None)
  {
    hide LoadTree, Parse, EditTarget, ConfigEdit.GetValue, ResolveDocumentPath, Spellings, FlatSpellings, HasLegacy, ItemAt;
    var root := Stray(value);
    StrayLoads(value);
    ConfigEdit.ClientIdParses();
    var path := Parse([CLIENT_ID]).value;
    StrayTarget(value, path);
    StrayIsASpelling(path);
    ItemAt1(root, "client-id");
    LoadedCredential(root, SPOTIFY, CLIENT_ID);
    NoLegacyNoFlatKey(root, CLIENT_ID);
    StraySection(value, PROVIDERS);
    ItemAt3(root, PROVIDERS, SPOTIFY, CLIENT_ID);
    ItemAt1(map[], CLIENT_ID);
    CredentialReadsWhatLoadsIff(root, path, SPOTIFY, CLIENT_ID);
  }
}
