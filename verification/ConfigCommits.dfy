/** The config file under the lock protocol: what is committed always loads
    (crates/spotuify-config/src/document.rs). */
module ConfigCommits {
  import opened Wrappers
  import opened ConfigTree
  import opened ConfigPath
  import opened ConfigSections
  import opened ConfigLoad
  import opened LoadPrecedence
  import opened LockProtocol
  import Migration
  import MigrationPreservesMeaning
  import MigrationReports
  import opened EnvironmentLoads
  import opened MigrationOverrides
  import ConfigEdit

  /** A document with the template's sections. */
  function Document(providers: Table, cache: Table, analytics: Table, notifications: Table, discord: Table, viz: Table, tui: Table): (r: Table)
  {
    map[PROVIDERS := Branch(providers), "cache" := Branch(cache), ANALYTICS := Branch(analytics),
        "notifications" := Branch(notifications), "discord" := Branch(discord), "viz" := Branch(viz), "tui" := Branch(tui)]
  }

  /** The file `init` writes, section by section. */
  const TEMPLATE: Table := Document(TEMPLATE_PROVIDERS, TEMPLATE_CACHE, TEMPLATE_ANALYTICS, TEMPLATE_NOTIFICATIONS,
                                    TEMPLATE_DISCORD, TEMPLATE_VIZ, TEMPLATE_TUI)

  const TEMPLATE_DISCORD: Table := map["enabled" := Leaf(Flag(false))]

  const TEMPLATE_TUI: Table := map["theme" := Leaf(Text("terminal-default"))]

  const TEMPLATE_PROVIDERS: Table := map[DEFAULT := Leaf(Text(SPOTIFY)), SPOTIFY := Branch(TEMPLATE_SPOTIFY)]

  const TEMPLATE_SPOTIFY: Table := map[
    TYPE := Leaf(Text(SPOTIFY)),
    CLIENT_ID := Leaf(Text("")),
    REDIRECT_URI := Leaf(Text("http://127.0.0.1:8888/callback")),
    PLAYER := Branch(TEMPLATE_PLAYER)]

  const TEMPLATE_PLAYER: Table := map[
    BITRATE := Leaf(Integer(320)),
    NORMALIZATION := Leaf(Flag(false)),
    AUDIO_CACHE_MIB := Leaf(Integer(0)),
    PULSE_PROPS := Leaf(Flag(true))]

  const TEMPLATE_CACHE: Table := map["cover_cache_mb" := Leaf(Integer(200)), "cover_cache_ttl_days" := Leaf(Integer(30))]

  const TEMPLATE_ANALYTICS: Table := map[
    "store_raw_queries" := Leaf(Flag(true)),
    "retention_progress_days" := Leaf(Integer(90)),
    "retention_events_days" := Leaf(Integer(365)),
    "retention_operations_days" := Leaf(Integer(90)),
    "daily_rollup_hour" := Leaf(Integer(3)),
    "hook_timeout_ms" := Leaf(Integer(5000)),
    "allow_file_credentials" := Leaf(Flag(false))]

  const TEMPLATE_NOTIFICATIONS: Table := map[
    "enabled" := Leaf(Flag(false)),
    "summary" := Leaf(Text("{track}")),
    "body" := Leaf(Text("{artist} - {album}")),
    "on_track_change" := Leaf(Flag(true)),
    "on_pause" := Leaf(Flag(false)),
    "on_resume" := Leaf(Flag(false)),
    "on_skip" := Leaf(Flag(false)),
    "on_error" := Leaf(Flag(true))]

  const TEMPLATE_VIZ: Table := map[
    "enabled" := Leaf(Flag(true)),
    "source" := Leaf(Text("auto")),
    "target_fps" := Leaf(Integer(30)),
    "smoothing" := Leaf(Decimal(0.5)),
    "noise_gate" := Leaf(Decimal(0.005)),
    "color_scheme" := Leaf(Text("spotify-green")),
    "style" := Leaf(Text("bars"))]

  /** `None` as an item is a value that did not parse. */
  datatype Request = Set(path: ConfigPath, item: Option<Option<Scalar>>) | Migrate | Init

  /** What a request makes of the file it read. */
  function PlanFor(file: Option<Table>, request: Request): (r: Plan<Table>)
  {
    var document := if file.Some? then file.value else TEMPLATE;
    match request
    case Set(path, None) => Refuse
    case Set(path, Some(item)) =>
      (match ConfigEdit.SetValue(document, path, item)
       case Ok(edited) => Write(edited)
       case Err(_) => Refuse)
    case Migrate =>
      (match Migration.Migrate(document)
       case Ok(migrated) => if migrated.1 == [] && file.Some? then Keep else Write(migrated.0)
       case Err(_) => Refuse)
    case Init => if file.Some? then Keep else Write(TEMPLATE)
  }

  /** The file, or the empty document for a missing one, loads with the credentials
      and the overrides an environment brings. */
  predicate Loadable(file: Option<Table>, env: Env, overrides: seq<Override>)
  {
    Load(if file.Some? then file.value else map[], env, overrides).Ok?
  }

  lemma LoadableWithoutOverrides(contents: Table, env: Env)
    ensures Loadable(Some(contents), env, []) <==> LoadTree(contents, env).Ok?
  {
    hide LoadTree;
    assert Overridden(contents, []) == Ok(contents);
  }

  lemma DocumentSections(p: Table, c: Table, a: Table, n: Table, d: Table, v: Table, t: Table)
    ensures var root := Document(p, c, a, n, d, v, t);
      && ProviderValues(root) == Ok(p) && SectionTable(root, ANALYTICS) == Ok(a)
      && SectionTable(root, "cache") == Ok(c) && SectionTable(root, "notifications") == Ok(n)
      && SectionTable(root, "discord") == Ok(d) && SectionTable(root, "viz") == Ok(v) && SectionTable(root, "tui") == Ok(t)
  {
    NamesDiffer();
    assert "viz"[0] == 'v' && "tui"[0] == 't';
  }

  lemma DocumentHasNoLegacy(p: Table, c: Table, a: Table, n: Table, d: Table, v: Table, t: Table)
    ensures !HasLegacy(Document(p, c, a, n, d, v, t))
  {
    var root := Document(p, c, a, n, d, v, t);
    forall key | key in root
      ensures key !in ROOT_KEYS && key != PLAYER && key != SPOTIFYD
    {
      TemplateNameIsNotLegacy(key);
    }
    assert root.Keys * ROOT_KEYS == {};
  }

  lemma TemplateNameIsNotLegacy(name: string)
    requires name in {PROVIDERS, "cache", ANALYTICS, "notifications", "discord", "viz", "tui"}
    ensures name !in ROOT_KEYS && name != PLAYER && name != SPOTIFYD
  {
    assert CLIENT_ID[1] == 'l' && CLIENT_SECRET[1] == 'l' && REDIRECT_URI[0] == 'r' && PLAYER[1] == 'l' && SPOTIFYD[0] == 's';
    assert PROVIDERS[0] == 'p' && PROVIDERS[1] == 'r' && "cache"[1] == 'a' && "cache"[0] == 'c' && ANALYTICS[0] == 'a'
      && ANALYTICS[1] == 'n' && "notifications"[0] == 'n' && "notifications"[1] == 'o' && "discord"[0] == 'd'
      && "discord"[1] == 'i' && "viz"[0] == 'v' && "viz"[1] == 'i' && "tui"[0] == 't' && "tui"[1] == 'u';
  }

  lemma TemplateSmallSectionsDecode()
    ensures DecodeCache(TEMPLATE_CACHE).Ok? && DecodeDiscord(TEMPLATE_DISCORD).Ok? && DecodeTui(TEMPLATE_TUI).Ok?
    ensures DecodeCache(TEMPLATE_CACHE) == DecodeCache(map[]) && DecodeDiscord(TEMPLATE_DISCORD) == DecodeDiscord(map[])
    ensures DecodeTui(TEMPLATE_TUI) == DecodeTui(map[])
  {
  }

  lemma TemplateAnalyticsDecodes()
    ensures DecodeAnalytics(TEMPLATE_ANALYTICS).Ok? && DecodeAnalytics(TEMPLATE_ANALYTICS) == DecodeAnalytics(map[])
  {
    assert "store_raw_queries"[0] == 's' && "daily_rollup_hour"[0] == 'd';
  }

  lemma TemplateNotificationsDecode()
    ensures DecodeNotifications(TEMPLATE_NOTIFICATIONS).Ok?
    ensures DecodeNotifications(TEMPLATE_NOTIFICATIONS) == DecodeNotifications(map[])
  {
    assert "enabled"[0] == 'e' && "summary"[0] == 's' && "on_skip"[0] == 'o';
  }

  lemma TemplateVizDecodes()
    ensures DecodeViz(TEMPLATE_VIZ).Ok? && DecodeViz(TEMPLATE_VIZ) == DecodeViz(map[])
  {
    assert "target_fps"[0] == 't' && "noise_gate"[0] == 'n';
  }

  lemma TemplateHasNoHook()
    ensures LegacyHook(TEMPLATE) == None && LegacyHook(map[]) == None
  {
    hide Document, HasLegacy;
    TemplateNamesAreNotPlayer(TEMPLATE_PROVIDERS, TEMPLATE_CACHE, TEMPLATE_ANALYTICS, TEMPLATE_NOTIFICATIONS,
                              TEMPLATE_DISCORD, TEMPLATE_VIZ, TEMPLATE_TUI);
  }

  lemma TemplateNamesAreNotPlayer(p: Table, c: Table, a: Table, n: Table, d: Table, v: Table, t: Table)
    ensures PLAYER !in Document(p, c, a, n, d, v, t)
  {
    if PLAYER in Document(p, c, a, n, d, v, t) {
      TemplateNameIsNotLegacy(PLAYER);
    }
  }

  lemma NothingHasNoSections()
    ensures forall name :: SectionTable(map[], name) == Ok(map[])
  {
  }

  lemma TemplateSectionsDecode()
    ensures DecodeSections(TEMPLATE).Ok? && DecodeSections(TEMPLATE) == DecodeSections(map[])
  {
    hide Document, SectionTable, DecodeCache, DecodeAnalytics, DecodeNotifications, DecodeDiscord, DecodeViz, DecodeTui, LegacyHook;
    TemplateHasNoHook();
    NothingHasNoSections();
    DocumentSections(TEMPLATE_PROVIDERS, TEMPLATE_CACHE, TEMPLATE_ANALYTICS, TEMPLATE_NOTIFICATIONS,
                     TEMPLATE_DISCORD, TEMPLATE_VIZ, TEMPLATE_TUI);
    TemplateSmallSectionsDecode();
    TemplateAnalyticsDecodes();
    TemplateNotificationsDecode();
    TemplateVizDecodes();
  }

  lemma TemplateProviderOk()
    ensures ProviderOk(SPOTIFY, Branch(TEMPLATE_SPOTIFY))
    ensures TEMPLATE_PROVIDERS - {DEFAULT} == map[SPOTIFY := Branch(TEMPLATE_SPOTIFY)]
    ensures DefaultOf(TEMPLATE_PROVIDERS) == Ok(Some(SPOTIFY))
  {
    NamesDiffer();
    NamesAreNormal();
    assert PlayerOk(Branch(TEMPLATE_PLAYER));
    assert KindOf(Branch(TEMPLATE_SPOTIFY)) == Some(SPOTIFY);
  }

  lemma TemplateProvidersResolve()
    ensures ResolveProviders(TEMPLATE, NO_ENV).Ok?
  {
    hide Document, HasLegacy, ProviderOk, DefaultOf, ProviderValues;
    DocumentSections(TEMPLATE_PROVIDERS, TEMPLATE_CACHE, TEMPLATE_ANALYTICS, TEMPLATE_NOTIFICATIONS,
                     TEMPLATE_DISCORD, TEMPLATE_VIZ, TEMPLATE_TUI);
    DocumentHasNoLegacy(TEMPLATE_PROVIDERS, TEMPLATE_CACHE, TEMPLATE_ANALYTICS, TEMPLATE_NOTIFICATIONS,
                        TEMPLATE_DISCORD, TEMPLATE_VIZ, TEMPLATE_TUI);
    TemplateProviderOk();
    OneProviderPasses(SPOTIFY, Branch(TEMPLATE_SPOTIFY), Some(SPOTIFY));
  }

  lemma TemplateLoads()
    ensures LoadTree(TEMPLATE, NO_ENV).Ok?
  {
    hide DecodeSections, ResolveProviders, LoadTree;
    TemplateSectionsDecode();
    TemplateProvidersResolve();
    LoadsFromParts(TEMPLATE);
  }

  /** The template says what silence means: it loads with the sections of an empty
      document, in every environment both load in. */
  lemma TemplateHoldsTheDefaults(env: Env)
    requires LoadTree(TEMPLATE, env).Ok? && LoadTree(map[], env).Ok?
    ensures LoadTree(TEMPLATE, env).value.sections == LoadTree(map[], env).value.sections
  {
    hide DecodeSections, ResolveProviders, Repair, Valid;
    TemplateSectionsDecode();
  }

  /** Whatever a request writes loads on its own, whatever it read. */
  lemma PlannedWritesLoadAlone(file: Option<Table>, request: Request)
    requires PlanFor(file, request).Write?
    ensures LoadTree(PlanFor(file, request).contents, NO_ENV).Ok?
  {
    hide LoadTree, Migration.MovedAndCompleted, Migration.MigrationTarget, ResolveDocumentPath, ConfigEdit.Edited;
    TemplateLoads();
    var document := if file.Some? then file.value else TEMPLATE;
    if request.Migrate? && Migration.Migrate(document).Ok? && Migration.Migrate(document).value.1 == [] && file.None? {
      TemplateHasNoLegacy();
      MigrationPreservesMeaning.NothingToMigrate(TEMPLATE);
    }
  }

  /** What migrate and init write has a place for the environment's values. */
  lemma OnlySetsShutTheEnvironmentOut(file: Option<Table>, request: Request)
    requires PlanFor(file, request).Write? && !request.Set?
    ensures AcceptsEnv(PlanFor(file, request).contents)
  {
    hide LoadTree, AcceptsEnv, Migration.MovedAndCompleted, Migration.MigrationTarget;
    TemplateAcceptsEnv();
    var document := if file.Some? then file.value else TEMPLATE;
    if request.Migrate? {
      if Migration.Migrate(document).value.1 == [] {
        TemplateHasNoLegacy();
        MigrationPreservesMeaning.NothingToMigrate(TEMPLATE);
      } else {
        MigratedAcceptsEnv(document);
      }
    }
  }

  lemma TemplateAcceptsEnv()
    ensures AcceptsEnv(TEMPLATE)
  {
    hide Named, HasLegacy;
    TemplateNamesSpotify();
  }

  lemma TemplateNamesSpotify()
    ensures SPOTIFY in SpotifyIds(Named(TEMPLATE))
  {
    hide Document, HasLegacy, ProviderOk, DefaultOf;
    DocumentSections(TEMPLATE_PROVIDERS, TEMPLATE_CACHE, TEMPLATE_ANALYTICS, TEMPLATE_NOTIFICATIONS,
                     TEMPLATE_DISCORD, TEMPLATE_VIZ, TEMPLATE_TUI);
    TemplateProviderOk();
    TemplateKind();
    assert Entries(TEMPLATE, PROVIDERS) == TEMPLATE_PROVIDERS;
    IsAnId(Named(TEMPLATE), SPOTIFY);
  }

  lemma TemplateKind()
    ensures IsSpotify(Branch(TEMPLATE_SPOTIFY))
  {
  }

  /** What a request writes loads with the environment's credentials if and only if
      there are none or the written document has a place for one; what migrate and
      init write loads with any. Under overrides the same holds of the overridden
      document, provided it loads without credentials. */
  lemma PlannedWritesLoad(file: Option<Table>, request: Request, env: Env, overrides: seq<Override>)
    requires PlanFor(file, request).Write?
    ensures var contents := PlanFor(file, request).contents;
      && (Loadable(Some(contents), env, []) <==> !EnvPresent(env) || AcceptsEnv(contents))
      && (!request.Set? ==> Loadable(Some(contents), env, []))
      && (Loadable(Some(contents), NO_ENV, overrides) ==>
            (Loadable(Some(contents), env, overrides) <==>
              !EnvPresent(env) || AcceptsEnv(Overridden(contents, overrides).value)))
  {
    hide PlanFor, LoadTree, AcceptsEnv, EnvPresent, Overridden;
    var contents := PlanFor(file, request).contents;
    PlannedWritesLoadAlone(file, request);
    LoadableWithoutOverrides(contents, env);
    LoadsInEnvIff(contents, env);
    if !request.Set? {
      OnlySetsShutTheEnvironmentOut(file, request);
    }
    if Loadable(Some(contents), NO_ENV, overrides) {
      LoadsInEnvIff(Overridden(contents, overrides).value, env);
    }
  }

  /** A migration keeps a file loadable under gentle overrides, in every environment. */
  lemma MigrateStaysLoadable(file: Table, env: Env, overrides: seq<Override>)
    requires LoadTree(file, NO_ENV).Ok? && Loadable(Some(file), NO_ENV, overrides) && PlanFor(Some(file), Migrate).Write?
    requires EditTarget(file).Ok? && AllGentle(file, overrides, EditTarget(file).value)
    ensures Loadable(Some(PlanFor(Some(file), Migrate).contents), env, overrides)
  {
    hide LoadTree, Load, EditTarget, AllGentle, Migration.MovedAndCompleted, Migration.MigrationTarget, HasLegacy;
    if !HasLegacy(file) {
      MigrationPreservesMeaning.NothingToMigrate(file);
    }
    MigrationPreservesOverriddenLoads(file, overrides, env);
  }

  /** Under an override that makes a second provider Spotify's it need not: this file
      loads under it, and what its migration writes does not. */
  lemma MigrateCanShutAnOverrideOut(value: Scalar, env: Env) returns (file: Option<Table>, overrides: seq<Override>)
    ensures Parse([PROVIDERS, ConfigEdit.HOME, TYPE]).Ok?
    ensures overrides == [Override(Parse([PROVIDERS, ConfigEdit.HOME, TYPE]).value, Leaf(Text(SPOTIFY)))]
    ensures Loadable(file, NO_ENV, overrides) && PlanFor(file, Migrate).Write?
    ensures !Loadable(Some(PlanFor(file, Migrate).contents), env, overrides)
  {
    hide LoadTree, Load, HasLegacy, Parse, ValidProviderId, Migration.Migrate;
    HomeIsValid();
    TypeOverrideIsParsed(ConfigEdit.HOME);
    SecondSpotifySplitsTheMigration(value, env);
    file, overrides := Some(FlatDocument(value)), [TypeOverride(ConfigEdit.HOME)];
  }

  /** Nor need an init: a missing file loads under it, the template does not. */
  lemma InitCanShutAnOverrideOut(env: Env) returns (overrides: seq<Override>)
    ensures Parse([PROVIDERS, ConfigEdit.HOME, TYPE]).Ok?
    ensures overrides == [Override(Parse([PROVIDERS, ConfigEdit.HOME, TYPE]).value, Leaf(Text(SPOTIFY)))]
    ensures Loadable(None, NO_ENV, overrides) && PlanFor(None, Init) == Write(TEMPLATE)
    ensures !Loadable(Some(TEMPLATE), env, overrides)
  {
    hide LoadTree, HasLegacy, Parse, ValidProviderId, OneProvider, Overridden, Named;
    HomeIsValid();
    TypeOverrideIsParsed(ConfigEdit.HOME);
    overrides := [TypeOverride(ConfigEdit.HOME)];
    NothingOverridden();
    OneProviderLoads(ConfigEdit.HOME, SPOTIFY);
    TemplateHasNoLegacy();
    TemplateNamesSpotify();
    SecondSpotifyIsRefused(TEMPLATE, SPOTIFY, ConfigEdit.HOME, env);
  }

  lemma NothingOverridden()
    ensures Overridden(map[], [TypeOverride(ConfigEdit.HOME)]) == Ok(OneProvider(ConfigEdit.HOME, SPOTIFY))
  {
    var none: Table := map[];
    TypeOverrideApplies(none, ConfigEdit.HOME);
    MigrationPreservesMeaning.Set3(none, PROVIDERS, ConfigEdit.HOME, TYPE, Leaf(Text(SPOTIFY)));
    var own: Table := map[TYPE := Leaf(Text(SPOTIFY))];
    assert Entries(none, PROVIDERS) == none && Entries(none, ConfigEdit.HOME) == none && none[TYPE := Leaf(Text(SPOTIFY))] == own;
    assert none[ConfigEdit.HOME := Branch(own)] == map[ConfigEdit.HOME := Branch(own)];
    assert none[PROVIDERS := Branch(map[ConfigEdit.HOME := Branch(own)])] == OneProvider(ConfigEdit.HOME, SPOTIFY);
  }

  lemma TemplateHasNoLegacy()
    ensures !HasLegacy(TEMPLATE)
  {
    hide HasLegacy, Document;
    DocumentHasNoLegacy(TEMPLATE_PROVIDERS, TEMPLATE_CACHE, TEMPLATE_ANALYTICS, TEMPLATE_NOTIFICATIONS,
                        TEMPLATE_DISCORD, TEMPLATE_VIZ, TEMPLATE_TUI);
  }

  /** In every interleaving of set, migrate and init processes: a committed version
      loads with the environment's credentials if and only if there are none or the
      version has a place for one. So, where the environment brings no overrides, a
      loadable file stays loadable unless a set leaves no place for a credential. */
  lemma CommittedVersionsLoad(s: State<Table, Request>, steps: seq<Step>, env: Env)
    requires Initial(s) && IsRun(PlanFor, s, steps)
    ensures var t := After(PlanFor, s, steps);
      && (forall i :: 0 <= i < |t.log| ==>
            (Loadable(Some(t.log[i].contents), env, []) <==> !EnvPresent(env) || AcceptsEnv(t.log[i].contents)))
      && ((Loadable(s.initial, env, [])
           && forall i :: 0 <= i < |t.log| && t.log[i].request.Set? && EnvPresent(env) ==> AcceptsEnv(t.log[i].contents))
          ==> Loadable(t.file, env, []))
  {
    hide Loadable, PlanFor, IsRun, After, Initial, AcceptsEnv, EnvPresent;
    NoLostUpdate(PlanFor, s, steps);
    var t := After(PlanFor, s, steps);
    forall i | 0 <= i < |t.log|
      ensures Loadable(Some(t.log[i].contents), env, []) <==> !EnvPresent(env) || AcceptsEnv(t.log[i].contents)
      ensures !t.log[i].request.Set? ==> Loadable(Some(t.log[i].contents), env, [])
    {
      assert ComputedFromPrevious(PlanFor, t, i);
      PlannedWritesLoad(Version(t, i), t.log[i].request, env, []);
    }
  }

  /** And it can be left without one: after this set the file no longer loads with a
      client id in the environment, where it did before. */
  lemma SetShutsTheEnvironmentOut() returns (file: Option<Table>, request: Request)
    ensures Loadable(file, WITH_CLIENT_ID, []) && PlanFor(file, request).Write?
    ensures !Loadable(Some(PlanFor(file, request).contents), WITH_CLIENT_ID, [])
  {
    hide LoadTree, Parse, ConfigEdit.SetValue, OneProvider;
    TypeChangeShutsTheEnvironmentOut();
    LoadableWithoutOverrides(OneProvider(SPOTIFY, SPOTIFY), WITH_CLIENT_ID);
    LoadableWithoutOverrides(OneProvider(SPOTIFY, FAKE), WITH_CLIENT_ID);
    file := Some(OneProvider(SPOTIFY, SPOTIFY));
    request := Set(Parse([PROVIDERS, SPOTIFY, TYPE]).value, Some(Some(Text(FAKE))));
  }

  // ---- What success means ----

  /** A set that reports success is in the log, and its version reads back what was
      set, or nothing after a clear. */
  lemma SuccessfulSetIsCommitted(s: State<Table, Request>, steps: seq<Step>, pid: nat, segments: Path, item: Option<Scalar>)
    requires Initial(s) && IsRun(PlanFor, s, steps) && pid in s.processes
    requires Parse(segments).Ok? && s.processes[pid].request == Set(Parse(segments).value, Some(item))
    ensures var t := After(PlanFor, s, steps);
      && pid in t.processes
      && (t.processes[pid].phase == Done(Succeeded) ==>
            exists i :: 0 <= i < |t.log| && t.log[i].pid == pid
                        && ConfigEdit.GetValue(t.log[i].contents, Parse(segments).value) == Ok(item))
  {
    hide IsRun, After, Initial, PlanFor, Parse, ConfigEdit.GetValue;
    SuccessMeansDone(PlanFor, s, steps, pid);
    var t := After(PlanFor, s, steps);
    var request := s.processes[pid].request;
    if t.processes[pid].phase == Done(Succeeded) {
      SetsAreNeverKept(t, request);
      var i :| 0 <= i < |t.log| && t.log[i].pid == pid && t.log[i].request == request && ComputedFromPrevious(PlanFor, t, i);
      WrittenSetReadsBack(Version(t, i), segments, item);
    }
  }

  lemma SetsAreNeverKept(s: State<Table, Request>, request: Request)
    requires request.Set?
    ensures !LeftAlone(PlanFor, s, request)
  {
    hide ConfigEdit.SetValue;
    assert forall file :: !PlanFor(file, request).Keep?;
  }

  lemma WrittenSetReadsBack(file: Option<Table>, segments: Path, item: Option<Scalar>)
    requires Parse(segments).Ok? && PlanFor(file, Set(Parse(segments).value, Some(item))).Write?
    ensures var contents := PlanFor(file, Set(Parse(segments).value, Some(item))).contents;
      ConfigEdit.GetValue(contents, Parse(segments).value) == Ok(item)
  {
    hide ConfigEdit.SetValue, ConfigEdit.GetValue, Parse;
    var document := if file.Some? then file.value else TEMPLATE;
    if item.Some? {
      ConfigEdit.SetThenGetValue(document, segments, item.value);
    } else {
      ConfigEdit.ClearThenGetNothing(document, segments);
    }
  }

  /** When a request writes, keeps or refuses: init keeps any file; a migration keeps a
      file without legacy keys, writes one without legacy keys, and refuses a file that
      loads only for a hook that cannot move; a set writes whatever the edit of the file,
      or of the template, succeeds with, and refuses only where that fails. */
  lemma PlansHaveReasons(file: Option<Table>, request: Request)
    ensures var plan := PlanFor(file, request);
      match request
      case Init => !plan.Refuse? && (plan.Keep? <==> file.Some?)
      case Migrate =>
        && (plan.Keep? <==> file.Some? && !HasLegacy(file.value))
        && (plan.Write? ==> !HasLegacy(plan.contents))
        && (file == None ==> plan == Write(TEMPLATE))
        && (file.Some? && LoadTree(file.value, NO_ENV).Ok? ==>
              (plan.Refuse? <==> !MigrationPreservesMeaning.HookCanMove(file.value)))
      case Set(path, item) =>
        if item == None then plan == Refuse
        else match ConfigEdit.SetValue(if file.Some? then file.value else TEMPLATE, path, item.value)
          case Ok(edited) => plan == Write(edited)
          case Err(_) => plan == Refuse
  {
    hide LoadTree, HasLegacy, Migration.Migrate, ConfigEdit.SetValue, MigrationPreservesMeaning.HookCanMove;
    TemplateHasNoLegacy();
    MigrationPreservesMeaning.NothingToMigrate(TEMPLATE);
    if request.Migrate? && file.Some? {
      if !HasLegacy(file.value) {
        MigrationPreservesMeaning.NothingToMigrate(file.value);
      }
      if Migration.Migrate(file.value).Ok? {
        MigrationReports.MigrationClears(file.value);
      }
      if LoadTree(file.value, NO_ENV).Ok? {
        MigrationPreservesMeaning.MigrationSucceedsIff(file.value);
      }
    }
  }

  /** A migration that reports success leaves, or found, a version without legacy keys. */
  lemma SuccessfulMigrationIsDone(s: State<Table, Request>, steps: seq<Step>, pid: nat)
    requires Initial(s) && IsRun(PlanFor, s, steps) && pid in s.processes && s.processes[pid].request == Migrate
    ensures var t := After(PlanFor, s, steps);
      PhaseOf(t, pid) == Done(Succeeded) ==>
        exists i: nat :: i <= |t.log| && Version(t, i).Some? && !HasLegacy(Version(t, i).value)
  {
    hide IsRun, After, Initial, PlanFor, HasLegacy;
    SuccessMeansDone(PlanFor, s, steps, pid);
    var t := After(PlanFor, s, steps);
    if PhaseOf(t, pid) == Done(Succeeded) {
      if LeftAlone(PlanFor, t, Migrate) {
        var i: nat :| i <= |t.log| && PlanFor(Version(t, i), Migrate) == Keep;
        PlansHaveReasons(Version(t, i), Migrate);
      } else {
        var i :| 0 <= i < |t.log| && t.log[i].pid == pid && t.log[i].request == Migrate && ComputedFromPrevious(PlanFor, t, i);
        PlansHaveReasons(Version(t, i), Migrate);
        assert Version(t, i + 1) == Some(t.log[i].contents);
      }
    }
  }

  /** Init writes the template and only where there was no file; so does a migration
      without one; and a migration of a file without legacy keys writes nothing. */
  lemma CommitsSayWhatTheyDid(s: State<Table, Request>, steps: seq<Step>, i: nat)
    requires Initial(s) && IsRun(PlanFor, s, steps) && i < |After(PlanFor, s, steps).log|
    ensures var commit := After(PlanFor, s, steps).log[i];
      && (commit.request.Init? ==> commit.base == None && commit.contents == TEMPLATE)
      && (commit.request.Migrate? && commit.base == None ==> commit.contents == TEMPLATE)
      && (commit.request.Migrate? && commit.base.Some? ==> HasLegacy(commit.base.value))
      && !(commit.request.Set? && commit.request.item == None)
  {
    hide IsRun, After, Initial, HasLegacy, ConfigEdit.SetValue, Migration.Migrate;
    NoLostUpdate(PlanFor, s, steps);
    var commit := After(PlanFor, s, steps).log[i];
    assert ComputedFromPrevious(PlanFor, After(PlanFor, s, steps), i);
    TemplateHasNoLegacy();
    MigrationPreservesMeaning.NothingToMigrate(TEMPLATE);
    if commit.request.Migrate? && commit.base.Some? && !HasLegacy(commit.base.value) {
      MigrationPreservesMeaning.NothingToMigrate(commit.base.value);
    }
  }
}
