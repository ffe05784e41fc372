/** Which documents that load on their own also load with Spotify values in the
    environment (crates/spotuify-config/src/model.rs). */
module EnvironmentLoads {
  import opened Wrappers
  import opened ConfigTree
  import opened ConfigPath
  import opened ConfigSections
  import opened ConfigLoad
  import opened LoadPrecedence
  import opened TextForm
  import opened Migration
  import opened MigrationPreservesMeaning
  import opened EnvironmentMerge
  import ConfigEdit

  /** The configured providers. */
  function Named(root: Table): (r: Table)
  {
    Entries(root, PROVIDERS) - {DEFAULT}
  }

  /** The environment's values have somewhere to go: the document has legacy keys,
      no provider at all, or one of type `spotify`. */
  predicate AcceptsEnv(root: Table)
  {
    HasLegacy(root) || Named(root) == map[] || SpotifyIds(Named(root)) != {}
  }

  lemma LoadsIffParts(root: Table, env: Env)
    ensures LoadTree(root, env).Ok? <==> DecodeSections(root).Ok? && ResolveProviders(root, env).Ok?
  {
    hide DecodeSections, ResolveProviders, Repair, Valid;
    if DecodeSections(root).Ok? {
      RepairAlwaysValidates(DecodeSections(root).value, env);
    }
  }

  lemma ResolvesIffChecks(root: Table, env: Env, all: Table, legacy: (Table, set<Warning>))
    requires ProviderValues(root) == Ok(all) && DefaultOf(all).Ok? && MergeLegacy(root, all - {DEFAULT}) == Ok(legacy)
    ensures ResolveProviders(root, env).Ok? <==>
      var merged := MergeEnv(legacy.0, DefaultOf(all).value, env);
      merged.Ok? && CheckProviders(merged.value, DefaultOf(all).value).Ok?
  {
    hide MergeLegacy, MergeEnv, CheckProviders, DefaultOf, ProviderValues;
  }

  /** Without a provider the environment brings its own. */
  lemma EmptyTakesTheEnvironment(default: Option<string>, env: Env)
    requires EnvPresent(env) && CheckProviders(map[], default).Ok?
    ensures var merged := MergeEnv(map[], default, env);
      merged.Ok? && CheckProviders(merged.value, default).Ok?
  {
    hide WithEnv, ProviderOk, EnvPresent;
    var none: Table := map[];
    var own: Table := map[TYPE := Leaf(Text(SPOTIFY))];
    assert default == None;
    var seeded: Table := map[SPOTIFY := Branch(own)];
    assert SPOTIFY in SpotifyIds(seeded);
    var given: Table := map[SPOTIFY := Branch(WithEnv(own, env))];
    assert seeded[SPOTIFY := Branch(WithEnv(own, env))] == given;
    assert none[SPOTIFY := Branch(InEnv(own, env))] == given && none[SPOTIFY := Branch(own)] == seeded;
    ChecksIgnoreTheEnvironment(none, SPOTIFY, own, env, None);
    BareProviderOk(own);
    OneProviderPasses(SPOTIFY, Branch(own), None);
  }

  lemma BareProviderOk(table: Table)
    requires table == map[TYPE := Leaf(Text(SPOTIFY))]
    ensures ProviderOk(SPOTIFY, Branch(table))
  {
    NamesAreNormal();
    assert TYPE != PLAYER;
    assert KindOf(Branch(table)) == Some(SPOTIFY);
    ExactIsTrimmed(Branch(table));
  }

  /** Providers none of which is Spotify's refuse it. */
  lemma OthersRefuseTheEnvironment(values: Table, default: Option<string>, env: Env)
    requires EnvPresent(env) && values != map[] && SpotifyIds(values) == {}
    ensures MergeEnv(values, default, env).Err?
  {
  }

  /** One of type `spotify` takes it. */
  lemma OwnerTakesTheEnvironment(values: Table, target: string, default: Option<string>, env: Env)
    requires target in SpotifyIds(values) && CheckProviders(values, default).Ok?
    ensures var merged := MergeEnv(values, default, env);
      merged.Ok? && CheckProviders(merged.value, default).Ok?
  {
    assert values[target].Branch?;
    hide IsSpotify, InEnv, MergeEnv, CheckProviders, SpotifyOwners;
    AtMostOneOwner(values, default);
    EnvGoesToTheTarget(values, target, default, env);
    var entries := values[target].entries;
    ChecksIgnoreTheEnvironment(values, target, entries, env, default);
    assert values[target := Branch(entries)] == values;
  }

  /** A document that loads on its own loads in an environment if and only if the
      environment brings no Spotify value or the document accepts one. */
  lemma LoadsInEnvIff(root: Table, env: Env)
    requires LoadTree(root, NO_ENV).Ok?
    ensures LoadTree(root, env).Ok? <==> !EnvPresent(env) || AcceptsEnv(root)
  {
    hide LoadTree, DecodeSections, ResolveProviders, MergeLegacy, MergeEnv, CheckProviders, DefaultOf, HasLegacy, EnvPresent,
      SpotifyIds, FinalValues, ChecksPass, Tables, LoadTarget, IsSpotify;
    LoadsIffParts(root, NO_ENV);
    LoadsIffParts(root, env);
    var all, legacy, final := LoadChecks(root, NO_ENV);
    var values, default := legacy.0, DefaultOf(all).value;
    NothingInTheEnvironment(values, default, NO_ENV);
    ResolvesIffChecks(root, env, all, legacy);
    if !EnvPresent(env) {
      NothingInTheEnvironment(values, default, env);
    } else if HasLegacy(root) {
      MergedTargetIsSpotify(root, all - {DEFAULT}, default, NO_ENV);
      var target := LoadTarget(all - {DEFAULT}).value;
      IsAnId(values, target);
      OwnerTakesTheEnvironment(values, target, default, env);
    } else {
      QuietMerge(root, all);
      if values == map[] {
        EmptyTakesTheEnvironment(default, env);
      } else if SpotifyIds(values) == {} {
        OthersRefuseTheEnvironment(values, default, env);
      } else {
        var target :| target in SpotifyIds(values);
        OwnerTakesTheEnvironment(values, target, default, env);
      }
    }
  }

  lemma NothingInTheEnvironment(values: Table, default: Option<string>, env: Env)
    requires !EnvPresent(env) || env == NO_ENV
    ensures MergeEnv(values, default, env) == Ok(values)
  {
  }

  lemma IsAnId(values: Table, target: string)
    requires target in values && IsSpotify(values[target])
    ensures target in SpotifyIds(values)
  {
  }

  // ---- A migrated document accepts every environment ----

  predicate Misses(move: Move, path: Path)
  {
    !(move.legacy <= path) && !(move.canonical <= path)
  }

  lemma MoveKeeps(d: Table, move: Move, path: Path)
    requires Misses(move, path) && MovePath(d, move).Ok?
    ensures ScalarAt(MovePath(d, move).value.0, path) == ScalarAt(d, path)
  {
    hide SetItem, RemoveItem, ScalarAt;
    if ItemAt(d, move.legacy).Some? {
      if ItemAt(d, move.canonical).Some? {
        RemoveFrame(d, move.legacy, path);
      } else {
        SetFrame(d, move.canonical, ItemAt(d, move.legacy).value, path);
        RemoveFrame(SetItem(d, move.canonical, ItemAt(d, move.legacy).value).value, move.legacy, path);
      }
    }
  }

  lemma {:induction false} MovesKeep(d: Table, moves: seq<Move>, path: Path)
    requires RunMoves(d, moves).Ok? && forall i :: 0 <= i < |moves| ==> Misses(moves[i], path)
    ensures ScalarAt(RunMoves(d, moves).value.0, path) == ScalarAt(d, path)
    decreases |moves|
  {
    hide MovePath, ScalarAt, Misses;
    if moves != [] {
      var front := moves[..|moves| - 1];
      MovesKeep(d, front, path);
      MoveKeeps(RunMoves(d, front).value.0, moves[|moves| - 1], path);
    }
  }

  lemma MissesTypes(move: Move, id: string)
    requires move.legacy != [] && move.legacy[0] != PROVIDERS && move.canonical != []
    requires move.canonical[0] != PROVIDERS || (|move.canonical| > 2 && move.canonical[2] != TYPE)
    ensures Misses(move, [PROVIDERS, id, TYPE])
  {
  }

  lemma MovesMissTypes(target: string, id: string, i: nat)
    requires i < |Moves(target)|
    ensures Misses(Moves(target)[i], [PROVIDERS, id, TYPE])
  {
    hide Misses;
    NamesDiffer();
    KeyLists();
    assert TYPE != PLAYER && PLAYER != PROVIDERS && SPOTIFYD != PROVIDERS;
    if i < 3 {
      var key := ROOT_KEY_LIST[i];
      assert key in Elements(ROOT_KEY_LIST);
      assert Moves(target)[i] == RootMove(target, key);
      MissesTypes(RootMove(target, key), id);
    } else if i < 10 {
      assert Moves(target)[i] == PlayerMove(target, PLAYER_KEY_LIST[i - 3]);
      MissesTypes(PlayerMove(target, PLAYER_KEY_LIST[i - 3]), id);
    } else {
      MissesTypes(HOOK_MOVE, id);
      MissesTypes(DeviceMove(target), id);
    }
  }

  /** The editor's target is Spotify's, or has no type yet. */
  lemma TargetsAreSpotify(root: Table)
    requires EditTarget(root).Ok?
    ensures ConfigEdit.TypeAt(root, EditTarget(root).value) in {None, Some(SPOTIFY)}
    ensures ConfigEdit.TypeAt(root, EditTarget(root).value) == None ==> EditTarget(root).value == SPOTIFY
  {
    var target := EditTarget(root).value;
    if PROVIDERS !in root || root[PROVIDERS].Leaf? {
      ConfigEdit.NoProvidersNoTypes(root, target);
    } else {
      ConfigEdit.TypesAreKinds(root, target);
    }
  }

  /** Naming the default leaves the types alone, and the target then has one. */
  lemma CompletionNamesTheType(moved: Table, target: string)
    requires Completed(moved, target).Ok? && target != DEFAULT
    ensures var typed := [PROVIDERS, target, TYPE]; var done := Completed(moved, target).value;
      ItemAt(done, typed).Some? && (ScalarAt(done, typed) == Some(Text(SPOTIFY)) || ScalarAt(done, typed) == ScalarAt(moved, typed))
  {
    hide SetItem, ItemAt;
    var named := SetIfMissing(moved, [PROVIDERS, DEFAULT], Leaf(Text(target))).value;
    if ItemAt(moved, [PROVIDERS, DEFAULT]) == None {
      assert [PROVIDERS, target, TYPE][..2][1] == target;
      SetFrame(moved, [PROVIDERS, DEFAULT], Leaf(Text(target)), [PROVIDERS, target, TYPE]);
    }
    if ItemAt(named, [PROVIDERS, target, TYPE]) == None {
      SetThenGet(named, [PROVIDERS, target, TYPE], Leaf(Text(SPOTIFY)));
    }
  }

  /** A loaded document's provider has a type, and `default` is none. */
  lemma LoadedProvidersAreTyped(root: Table, id: string)
    requires LoadTree(root, NO_ENV).Ok? && ItemAt(root, [PROVIDERS, id, TYPE]).Some?
    ensures id != DEFAULT && id in Named(root)
    ensures !HasLegacy(root) && ConfigEdit.TypeAt(root, id) in {None, Some(SPOTIFY)} ==> IsSpotify(Named(root)[id])
  {
    hide LoadTree, DecodeSections, ResolveProviders, MergeLegacy, MergeEnv, CheckProviders, HasLegacy, FinalValues, Tables,
      TrimmedKind, ValidProviderId, PlayerOk;
    LoadsIffParts(root, NO_ENV);
    var all, legacy, final := LoadChecks(root, NO_ENV);
    NothingInTheEnvironment(legacy.0, DefaultOf(all).value, NO_ENV);
    ItemAt3(root, PROVIDERS, id, TYPE);
    ItemAt1(Entries(Entries(root, PROVIDERS), id), TYPE);
    assert TYPE in Entries(Entries(root, PROVIDERS), id);
    if !HasLegacy(root) {
      QuietMerge(root, all);
      assert ProviderOk(id, final[id]);
      TrimmedHasKind(final[id]);
      ConfigEdit.TypesAreKinds(root, id);
    }
  }

  lemma TrimmedHasKind(node: Node)
    requires TrimmedKind(node).Some?
    ensures KindOf(node).Some?
  {
  }

  /** The provider a migration moves keys to has the type `spotify` afterwards. */
  lemma MigratedTargetIsSpotify(document: Table)
    requires Migrate(document).Ok? && Migrate(document).value.1 != []
    ensures EditTarget(document).Ok?
    ensures var target, written := EditTarget(document).value, Migrate(document).value.0;
      target in Named(written) && (!HasLegacy(written) ==> IsSpotify(Named(written)[target]))
  {
    hide LoadTree, HasLegacy, RunMoves, Completed, Moves, EditTarget, IsSpotify, ScalarAt, ItemAt;
    if !HasLegacy(document) {
      NothingToMigrate(document);
    }
    var target := EditTarget(document).value;
    var moved := RunMoves(document, Moves(target)).value.0;
    var written := Migrate(document).value.0;
    assert Completed(moved, target) == Ok(written);
    TypedAfterCompletion(moved, target);
    LoadedProvidersAreTyped(written, target);
    CompletionNamesTheType(moved, target);
    forall i | 0 <= i < |Moves(target)|
      ensures Misses(Moves(target)[i], [PROVIDERS, target, TYPE])
    {
      MovesMissTypes(target, target, i);
    }
    MovesKeep(document, Moves(target), [PROVIDERS, target, TYPE]);
    TargetsAreSpotify(document);
  }

  /** What a migration writes accepts every environment. */
  lemma MigratedAcceptsEnv(document: Table)
    requires Migrate(document).Ok? && Migrate(document).value.1 != []
    ensures AcceptsEnv(Migrate(document).value.0)
  {
    hide Migrate, HasLegacy, EditTarget, IsSpotify, Named;
    MigratedTargetIsSpotify(document);
    var written := Migrate(document).value.0;
    if !HasLegacy(written) {
      IsAnId(Named(written), EditTarget(document).value);
    }
  }

  lemma TypedAfterCompletion(moved: Table, target: string)
    requires Completed(moved, target).Ok?
    ensures ItemAt(Completed(moved, target).value, [PROVIDERS, target, TYPE]).Some?
  {
    hide SetItem, ItemAt;
    var named := SetIfMissing(moved, [PROVIDERS, DEFAULT], Leaf(Text(target))).value;
    if ItemAt(named, [PROVIDERS, target, TYPE]) == None {
      SetThenGet(named, [PROVIDERS, target, TYPE], Leaf(Text(SPOTIFY)));
    }
  }

  // ---- An edit that shuts the environment out ----

  const FAKE := "fake"

  function OneProvider(id: string, kind: string): (r: Table)
  {
    map[PROVIDERS := Branch(map[id := Branch(map[TYPE := Leaf(Text(kind))])])]
  }

  const WITH_CLIENT_ID := Env(Some("x"), None, None, None, None)

  /** Changing the only Spotify provider's type is accepted, because the check before
      the write looks at no environment; with a client id in the environment the
      document loaded before and does not load after. */
  lemma TypeChangeShutsTheEnvironmentOut()
    ensures Parse([PROVIDERS, SPOTIFY, TYPE]).Ok?
    ensures var path := Parse([PROVIDERS, SPOTIFY, TYPE]).value;
      && LoadTree(OneProvider(SPOTIFY, SPOTIFY), WITH_CLIENT_ID).Ok?
      && ConfigEdit.SetValue(OneProvider(SPOTIFY, SPOTIFY), path, Some(Text(FAKE))) == Ok(OneProvider(SPOTIFY, FAKE))
      && LoadTree(OneProvider(SPOTIFY, FAKE), WITH_CLIENT_ID).Err?
  {
    hide LoadTree, HasLegacy, Parse, OneProvider, ConfigEdit.SetValue, AcceptsEnv, ValidProviderId;
    NamesDiffer();
    NamesAreNormal();
    OneProviderLoads(SPOTIFY, SPOTIFY);
    OneProviderLoads(SPOTIFY, FAKE);
    LoadsInEnvIff(OneProvider(SPOTIFY, SPOTIFY), WITH_CLIENT_ID);
    LoadsInEnvIff(OneProvider(SPOTIFY, FAKE), WITH_CLIENT_ID);
    OneProviderAcceptsIff(SPOTIFY);
    OneProviderAcceptsIff(FAKE);
    TypeIsSet();
  }

  /** A document of nothing but providers and a flat client id has default sections. */
  lemma BareSections(root: Table)
    requires root.Keys <= {PROVIDERS, CLIENT_ID}
    ensures DecodeSections(root).Ok?
  {
    hide LegacyHook, DecodeCache, DecodeAnalytics, DecodeNotifications, DecodeDiscord, DecodeViz, DecodeTui;
    EmptySectionsDecode();
    NamesDiffer();
    SectionNamesDiffer();
  }

  lemma SectionNamesDiffer()
    ensures PROVIDERS !in {"cache", "notifications", "discord", "viz", "tui"}
    ensures CLIENT_ID !in {"cache", "notifications", "discord", "viz", "tui"}
  {
    assert "notifications"[0] == 'n';
  }

  lemma OneProviderIsQuiet(id: string, kind: string)
    requires id != DEFAULT
    ensures !HasLegacy(OneProvider(id, kind))
    ensures ProviderValues(OneProvider(id, kind)) == Ok(Entries(OneProvider(id, kind), PROVIDERS))
    ensures Named(OneProvider(id, kind)) == map[id := Branch(map[TYPE := Leaf(Text(kind))])]
    ensures DefaultOf(Entries(OneProvider(id, kind), PROVIDERS)) == Ok(None)
  {
    NamesDiffer();
    assert PLAYER != PROVIDERS && SPOTIFYD != PROVIDERS;
    var root := OneProvider(id, kind);
    assert root.Keys * ROOT_KEYS == {};
    assert Entries(root, PLAYER) == map[] && Entries(root, SPOTIFYD) == map[];
    var entries := Entries(root, PROVIDERS);
    assert entries - {DEFAULT} == entries;
  }

  lemma KindsAreTrimmed(id: string, kind: string)
    requires ValidProviderId(id) && (kind == SPOTIFY || kind == FAKE)
    ensures ProviderOk(id, Branch(map[TYPE := Leaf(Text(kind))]))
  {
    hide ValidProviderId;
    assert TYPE != PLAYER;
    var node := Branch(map[TYPE := Leaf(Text(kind))]);
    assert KindOf(node) == Some(kind);
    assert Trim(SPOTIFY) == SPOTIFY && Trim(FAKE) == FAKE;
  }

  lemma OneProviderLoads(id: string, kind: string)
    requires ValidProviderId(id) && id != DEFAULT && (kind == SPOTIFY || kind == FAKE)
    ensures LoadTree(OneProvider(id, kind), NO_ENV).Ok?
  {
    hide LoadTree, DecodeSections, HasLegacy, ProviderOk, OneProvider, ProviderValues, CheckProviders, DefaultOf, MergeLegacy,
      Named, ValidProviderId;
    var root := OneProvider(id, kind);
    assert DecodeSections(root).Ok? by {
      OneProviderKeys(id, kind);
      BareSections(root);
    }
    OneProviderIsQuiet(id, kind);
    KindsAreTrimmed(id, kind);
    var node := Branch(map[TYPE := Leaf(Text(kind))]);
    OneProviderPasses(id, node, None);
    var all := Entries(root, PROVIDERS);
    assert all - {DEFAULT} == map[id := node] by {
      NamedIs(root);
    }
    QuietResolve(root, all, Some(id));
    LoadsFromParts(root);
  }

  lemma OneProviderKeys(id: string, kind: string)
    ensures OneProvider(id, kind).Keys == {PROVIDERS}
  {
  }

  lemma NamedIs(root: Table)
    ensures Named(root) == Entries(root, PROVIDERS) - {DEFAULT}
  {
  }

  lemma OneProviderAcceptsIff(kind: string)
    ensures AcceptsEnv(OneProvider(SPOTIFY, kind)) <==> kind == SPOTIFY
  {
    hide HasLegacy, OneProvider, Named;
    NamesDiffer();
    OneProviderIsQuiet(SPOTIFY, kind);
    var values := Named(OneProvider(SPOTIFY, kind));
    assert KindOf(values[SPOTIFY]) == Some(kind);
    if kind == SPOTIFY {
      IsAnId(values, SPOTIFY);
    }
  }

  lemma TypePathParses()
    ensures Parse([PROVIDERS, SPOTIFY, TYPE]) == Ok(ConfigPath([PROVIDERS, SPOTIFY, TYPE], None))
    ensures forall c :: c in Spellings(ConfigPath([PROVIDERS, SPOTIFY, TYPE], None)) ==> c == [PROVIDERS, SPOTIFY, TYPE]
  {
    NamesAreNormal();
    NamesDiffer();
    var canonical := [PROVIDERS, SPOTIFY, TYPE];
    assert Underscored(TYPE) == TYPE && Hyphenated(TYPE) == TYPE && Hyphenated(PROVIDERS) == PROVIDERS;
    assert UnderscoredAll(canonical) == canonical && HyphenatedAll(canonical) == canonical;
    NamesAreValid();
    assert ValidSegment(TYPE);
    hide Underscored, Hyphenated, ValidProviderId, ValidSegment;
    forall c | c in Spellings(ConfigPath(canonical, None))
      ensures c == canonical
    {
      var plain := SpellingsAre(ConfigPath(canonical, None), c);
      assert TYPE !in ROOT_KEYS && TYPE != PLAYER;
    }
  }

  lemma FirstIsMember(paths: seq<Path>)
    ensures paths == [] || exists path :: path in paths
  {
    if paths != [] {
      assert paths[0] in paths;
    }
  }

  lemma TypeIsSet()
    ensures Parse([PROVIDERS, SPOTIFY, TYPE]).Ok?
    ensures ConfigEdit.SetValue(OneProvider(SPOTIFY, SPOTIFY), Parse([PROVIDERS, SPOTIFY, TYPE]).value, Some(Text(FAKE))) == Ok(OneProvider(SPOTIFY, FAKE))
  {
    hide LoadTree, Parse, Spellings;
    TypePathParses();
    NamesDiffer();
    NamesAreNormal();
    OneProviderLoads(SPOTIFY, FAKE);
    var path := Parse([PROVIDERS, SPOTIFY, TYPE]).value;
    var aliases := ConfigEdit.AliasesToRemove(path, path.canonical);
    FirstIsMember(aliases);
    var root := OneProvider(SPOTIFY, SPOTIFY);
    var own: Table := map[TYPE := Leaf(Text(SPOTIFY))];
    Set3(root, PROVIDERS, SPOTIFY, TYPE, Leaf(Text(FAKE)));
    assert Entries(root, PROVIDERS) == map[SPOTIFY := Branch(own)] && Entries(Entries(root, PROVIDERS), SPOTIFY) == own;
    assert own[TYPE := Leaf(Text(FAKE))] == map[TYPE := Leaf(Text(FAKE))];
    assert Entries(root, PROVIDERS)[SPOTIFY := Branch(own[TYPE := Leaf(Text(FAKE))])] == map[SPOTIFY := Branch(map[TYPE := Leaf(Text(FAKE))])];
    var changed: Table := map[SPOTIFY := Branch(map[TYPE := Leaf(Text(FAKE))])];
    assert root[PROVIDERS := Branch(changed)] == OneProvider(SPOTIFY, FAKE);
    assert path.canonical == [PROVIDERS, SPOTIFY, TYPE];
    assert SetItem(root, [PROVIDERS, SPOTIFY, TYPE], Leaf(Text(FAKE))) == Ok(OneProvider(SPOTIFY, FAKE));
  }
}
