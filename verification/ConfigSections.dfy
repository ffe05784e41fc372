/** The provider-independent sections: decoding with defaults, repair and the
    final validation (crates/spotuify-config/src/model.rs). */
module ConfigSections {
  import opened Wrappers
  import opened Numbers
  import opened ConfigTree
  import opened ConfigPath
  import opened TextForm

  datatype DecodeError = WrongType

  datatype Cache = Cache(coverCacheMb: nat, coverCacheTtlDays: nat)

  datatype Analytics = Analytics(
    storeRawQueries: bool, retentionProgressDays: nat, retentionEventsDays: nat, retentionOperationsDays: nat,
    dailyRollupHour: nat, hookCommand: Option<string>, hookTimeoutMs: nat, allowFileCredentials: bool,
    lastfmApiKey: Option<string>, lastfmUser: Option<string>)

  datatype Notifications = Notifications(
    enabled: bool, summary: string, body: string,
    onTrackChange: bool, onPause: bool, onResume: bool, onSkip: bool, onError: bool)

  datatype Discord = Discord(enabled: bool, applicationId: Option<string>)

  datatype Viz = Viz(
    enabled: bool, source: string, targetFps: nat, smoothing: real, noiseGate: real, colorScheme: string, style: string)

  datatype Tui = Tui(theme: string)

  datatype Sections = Sections(
    cache: Cache, analytics: Analytics, notifications: Notifications, discord: Discord, viz: Viz, tui: Tui)

  datatype Env = Env(
    clientId: Option<string>, clientSecret: Option<string>, redirectUri: Option<string>,
    lastfmApiKey: Option<string>, lastfmUser: Option<string>)

  const NO_ENV := Env(None, None, None, None, None)

  const U8_MAX := 0xFF
  const U32_MAX := 0xFFFF_FFFF
  const U64_MAX := 0xFFFF_FFFF_FFFF_FFFF

  // ---- Typed fields ----

  function FlagField(table: Table, key: string, default: bool): (r: Result<bool, DecodeError>)
  {
    if key !in table then Ok(default)
    else match table[key]
      case Leaf(Flag(flag)) => Ok(flag)
      case _ => Err(WrongType)
  }

  function NatField(table: Table, key: string, default: nat, max: nat): (r: Result<nat, DecodeError>)
  {
    if key !in table then Ok(default)
    else match table[key]
      case Leaf(Integer(number)) => if 0 <= number <= max then Ok(number) else Err(WrongType)
      case _ => Err(WrongType)
  }

  function RealField(table: Table, key: string, default: real): (r: Result<real, DecodeError>)
  {
    if key !in table then Ok(default)
    else match table[key]
      case Leaf(Decimal(amount)) => Ok(amount)
      case Leaf(Integer(number)) => Ok(number as real)
      case _ => Err(WrongType)
  }

  function TextField(table: Table, key: string, default: string): (r: Result<string, DecodeError>)
  {
    if key !in table then Ok(default)
    else match table[key]
      case Leaf(Text(text)) => Ok(text)
      case _ => Err(WrongType)
  }

  function OptionalTextField(table: Table, key: string): (r: Result<Option<string>, DecodeError>)
  {
    if key !in table then Ok(None)
    else match table[key]
      case Leaf(Text(text)) => Ok(Some(text))
      case _ => Err(WrongType)
  }

  // ---- Sections ----

  function DecodeCache(t: Table): (r: Result<Cache, DecodeError>)
  {
    var mb :- NatField(t, "cover_cache_mb", 200, U64_MAX);
    var ttl :- NatField(t, "cover_cache_ttl_days", 30, U64_MAX);
    Ok(Cache(mb, ttl))
  }

  function DecodeAnalytics(t: Table): (r: Result<Analytics, DecodeError>)
  {
    var hook :- OptionalTextField(t, HOOK_COMMAND);
    DecodeAnalyticsWithHook(t, hook)
  }

  /** Every analytics field but the hook command. */
  function DecodeAnalyticsWithHook(t: Table, hook: Option<string>): (r: Result<Analytics, DecodeError>)
  {
    var raw :- FlagField(t, "store_raw_queries", true);
    var progress :- NatField(t, "retention_progress_days", 90, U32_MAX);
    var events :- NatField(t, "retention_events_days", 365, U32_MAX);
    var operations :- NatField(t, "retention_operations_days", 90, U32_MAX);
    var hour :- NatField(t, "daily_rollup_hour", 3, U8_MAX);
    var timeout :- NatField(t, "hook_timeout_ms", 5000, U64_MAX);
    var files :- FlagField(t, "allow_file_credentials", false);
    var key :- OptionalTextField(t, "lastfm_api_key");
    var user :- OptionalTextField(t, "lastfm_user");
    Ok(Analytics(raw, progress, events, operations, hour, hook, timeout, files, key, user))
  }

  function DecodeNotifications(t: Table): (r: Result<Notifications, DecodeError>)
  {
    var enabled :- FlagField(t, "enabled", false);
    var summary :- TextField(t, "summary", "{track}");
    var body :- TextField(t, "body", "{artist} - {album}");
    var change :- FlagField(t, "on_track_change", true);
    var pause :- FlagField(t, "on_pause", false);
    var resume :- FlagField(t, "on_resume", false);
    var skip :- FlagField(t, "on_skip", false);
    var error :- FlagField(t, "on_error", true);
    Ok(Notifications(enabled, summary, body, change, pause, resume, skip, error))
  }

  function DecodeDiscord(t: Table): (r: Result<Discord, DecodeError>)
  {
    var enabled :- FlagField(t, "enabled", false);
    var id :- OptionalTextField(t, "application_id");
    Ok(Discord(enabled, id))
  }

  function DecodeViz(t: Table): (r: Result<Viz, DecodeError>)
  {
    var enabled :- FlagField(t, "enabled", true);
    var source :- TextField(t, "source", "auto");
    var fps :- NatField(t, "target_fps", 30, U8_MAX);
    var smoothing :- RealField(t, "smoothing", 0.5);
    var gate :- RealField(t, "noise_gate", 0.005);
    var colors :- TextField(t, "color_scheme", "spotify-green");
    var style :- TextField(t, "style", "bars");
    Ok(Viz(enabled, source, fps, smoothing, gate, colors, style))
  }

  function DecodeTui(t: Table): (r: Result<Tui, DecodeError>)
  {
    var theme :- TextField(t, "theme", "terminal-default");
    Ok(Tui(theme))
  }

  function SectionTable(root: Table, name: string): (r: Result<Table, DecodeError>)
  {
    if name !in root then Ok(map[])
    else match root[name]
      case Branch(entries) => Ok(entries)
      case Leaf(_) => Err(WrongType)
  }

  /** Everything but the analytics section. */
  function DecodeOthers(root: Table): (r: Result<(Cache, Notifications, Discord, Viz, Tui), DecodeError>)
  {
    var cacheTable :- SectionTable(root, "cache");
    var cache :- DecodeCache(cacheTable);
    var notificationsTable :- SectionTable(root, "notifications");
    var notifications :- DecodeNotifications(notificationsTable);
    var discordTable :- SectionTable(root, "discord");
    var discord :- DecodeDiscord(discordTable);
    var vizTable :- SectionTable(root, "viz");
    var viz :- DecodeViz(vizTable);
    var tuiTable :- SectionTable(root, "tui");
    var tui :- DecodeTui(tuiTable);
    Ok((cache, notifications, discord, viz, tui))
  }

  /** The legacy hook, used when the analytics section names none. */
  function LegacyHook(root: Table): (r: Option<string>)
  {
    match ItemAt(root, [PLAYER, EVENT_HOOK])
    case Some(Leaf(Text(text))) => Some(text)
    case _ => None
  }

  function DecodeSections(root: Table): (r: Result<Sections, DecodeError>)
  {
    var others :- DecodeOthers(root);
    var table :- SectionTable(root, ANALYTICS);
    var analytics :- DecodeAnalytics(table);
    var hooked := if analytics.hookCommand.None? then analytics.(hookCommand := LegacyHook(root)) else analytics;
    Ok(Sections(others.0, hooked, others.1, others.2, others.3, others.4))
  }

  // ---- Repair ----

  const VIZ_STYLES: seq<string> := [
    "bars", "bars-dot", "bars-outline", "bricks", "columns", "classic-peak", "classic-led", "mirror", "scatter", "rain",
    "matrix", "flame", "retro", "pulse", "wave", "scope", "heartbeat", "sakura", "firework", "bubbles", "terrain",
    "firefly", "mosaic", "sand", "geyser", "butterfly", "binary", "ascii"]

  predicate KnownSource(name: string) { name in {"auto", "sink", "loopback", "none"} }

  predicate KnownColors(name: string) { name in {"spotify-green", "rainbow", "monochrome"} }

  function RepairAnalytics(a: Analytics, env: Env): (r: Analytics)
  {
    a.(dailyRollupHour := if a.dailyRollupHour > 23 then 3 else a.dailyRollupHour,
       hookTimeoutMs := if a.hookTimeoutMs == 0 then 5000 else a.hookTimeoutMs,
       hookCommand := NonblankOption(a.hookCommand),
       lastfmApiKey := if env.lastfmApiKey.Some? then env.lastfmApiKey else NonblankOption(a.lastfmApiKey),
       lastfmUser := if env.lastfmUser.Some? then env.lastfmUser else NonblankOption(a.lastfmUser))
  }

  function RepairViz(v: Viz): (r: Viz)
  {
    v.(source := if KnownSource(Canonical(v.source)) then Canonical(v.source) else "auto",
       targetFps := if v.targetFps < 1 then 1 else if v.targetFps > 60 then 60 else v.targetFps,
       smoothing := Clamp(v.smoothing, 0.0, 0.95),
       noiseGate := Clamp(v.noiseGate, 0.0, 1.0),
       colorScheme := if KnownColors(Canonical(v.colorScheme)) then Canonical(v.colorScheme) else "spotify-green",
       style := if Canonical(v.style) in VIZ_STYLES then Canonical(v.style) else "bars")
  }

  function TextOr(s: string, default: string): (r: string)
  {
    if Nonblank(s).Some? then Nonblank(s).value else default
  }

  function Repair(s: Sections, env: Env): (r: Sections)
  {
    Sections(
      s.cache.(coverCacheTtlDays := if s.cache.coverCacheTtlDays == 0 then 30 else s.cache.coverCacheTtlDays),
      RepairAnalytics(s.analytics, env),
      s.notifications.(summary := TextOr(s.notifications.summary, "{track}"),
                       body := TextOr(s.notifications.body, "{artist} - {album}")),
      s.discord.(applicationId := NonblankOption(s.discord.applicationId)),
      RepairViz(s.viz),
      Tui(if Canonical(s.tui.theme) == [] then "terminal-default" else Canonical(s.tui.theme)))
  }

  /** `validate_generic`. */
  predicate Valid(s: Sections)
  {
    && s.analytics.dailyRollupHour <= 23
    && s.analytics.hookTimeoutMs != 0
    && 1 <= s.viz.targetFps <= 60
    && 0.0 <= s.viz.smoothing <= 0.95 && 0.0 <= s.viz.noiseGate <= 1.0
    && KnownSource(s.viz.source)
    && KnownColors(s.viz.colorScheme)
    && Canonical(s.viz.style) in VIZ_STYLES
  }

  /** Repair leaves nothing for the validation to reject, and a second repair
      finds nothing to do. */
  lemma RepairAlwaysValidates(s: Sections, env: Env)
    ensures Valid(Repair(s, env))
    ensures Repair(Repair(s, env), env) == Repair(s, env)
  {
    hide Canonical, KnownSource, KnownColors, RepairViz, RepairAnalytics, NonblankOption, TextOr;
    VizRepairs(s.viz);
    AnalyticsRepair(s.analytics, env);
    NonblankTwice(s.discord.applicationId);
    TextTwice(s.notifications.summary, "{track}");
    TextTwice(s.notifications.body, "{artist} - {album}");
    CanonicalIsIdempotent(s.tui.theme);
    ThemeIsCanonical();
  }

  lemma VizRepairs(v: Viz)
    ensures var r := RepairViz(v);
      && RepairViz(r) == r && 1 <= r.targetFps <= 60
      && 0.0 <= r.smoothing <= 0.95 && 0.0 <= r.noiseGate <= 1.0
      && KnownSource(r.source) && KnownColors(r.colorScheme) && Canonical(r.style) in VIZ_STYLES
  {
    hide Canonical;
    CanonicalIsIdempotent(v.source);
    CanonicalIsIdempotent(v.colorScheme);
    CanonicalIsIdempotent(v.style);
    DefaultsAreCanonical();
    assert VIZ_STYLES[0] == "bars";
  }

  lemma AnalyticsRepair(a: Analytics, env: Env)
    ensures var r := RepairAnalytics(a, env);
      RepairAnalytics(r, env) == r && r.dailyRollupHour <= 23 && r.hookTimeoutMs != 0
  {
    hide NonblankOption;
    NonblankTwice(a.hookCommand);
    NonblankTwice(a.lastfmApiKey);
    NonblankTwice(a.lastfmUser);
  }

  lemma NonblankTwice(s: Option<string>)
    ensures NonblankOption(NonblankOption(s)) == NonblankOption(s)
  {
    hide IsSpace;
    if s.Some? && Trim(s.value) != [] {
      assert Trim(Trim(s.value)) == Trim(s.value);
    }
  }

  lemma TextTwice(s: string, default: string)
    requires default != [] && !IsSpace(default[0]) && !IsSpace(default[|default| - 1])
    ensures TextOr(TextOr(s, default), default) == TextOr(s, default)
  {
    hide IsSpace;
    if Trim(s) != [] {
      assert Trim(Trim(s)) == Trim(s);
    }
    assert Trim(default) == default;
  }

  lemma ThemeIsCanonical()
    ensures Canonical("terminal-default") == "terminal-default"
  {
    assert Trim("terminal-default") == "terminal-default";
  }

  lemma DefaultsAreCanonical()
    ensures Canonical("auto") == "auto" && Canonical("spotify-green") == "spotify-green" && Canonical("bars") == "bars"
  {
    assert Trim("auto") == "auto" && Trim("spotify-green") == "spotify-green" && Trim("bars") == "bars";
  }
}
