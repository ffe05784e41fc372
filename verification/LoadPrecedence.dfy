/** What a successful load guarantees: the target rules agree, credentials come
    from the highest layer that has one, and other providers are left alone. */
module LoadPrecedence {
  import opened Wrappers
  import opened ConfigTree
  import opened ConfigPath
  import opened ConfigSections
  import opened ConfigLoad
  import opened TextForm

  /** The provider values the checks run on. */
  function FinalValues(root: Table, env: Env): (r: Result<Table, LoadError>)
  {
    var all :- ProviderValues(root);
    var default :- DefaultOf(all);
    var legacy :- MergeLegacy(root, all - {DEFAULT});
    MergeEnv(legacy.0, default, env)
  }

  lemma LoadChecks(root: Table, env: Env) returns (all: Table, legacy: (Table, set<Warning>), final: Table)
    requires ResolveProviders(root, env).Ok?
    ensures ProviderValues(root) == Ok(all) && DefaultOf(all).Ok?
    ensures MergeLegacy(root, all - {DEFAULT}) == Ok(legacy)
    ensures FinalValues(root, env) == Ok(final) == MergeEnv(legacy.0, DefaultOf(all).value, env)
    ensures ResolveProviders(root, env).value.tables == Tables(final)
    ensures ResolveProviders(root, env).value.warnings == legacy.1
    ensures CheckProviders(final, DefaultOf(all).value) == Ok(ResolveProviders(root, env).value.default)
    ensures ChecksPass(final)
  {
    hide MergeLegacy, MergeEnv;
    all := ProviderValues(root).value;
    legacy := MergeLegacy(root, all - {DEFAULT}).value;
    final := FinalValues(root, env).value;
  }

  predicate ChecksPass(values: Table)
  {
    (forall id :: id in values ==> ProviderOk(id, values[id])) && |SpotifyOwners(values)| <= 1
  }

  lemma SmallSetsAgree(ids: set<string>, x: string, y: string)
    requires |ids| <= 1 && x in ids && y in ids
    ensures x == y
  {
    assert |ids - {x}| == 0;
    assert y !in ids - {x};
  }

  /** An exact `spotify` type is a trimmed one. */
  lemma ExactIsTrimmed(node: Node)
    requires IsSpotify(node)
    ensures TrimmedKind(node) == Some(SPOTIFY)
  {
    assert Trim(SPOTIFY) == SPOTIFY;
  }

  /** The environment never changes a type. */
  lemma EnvKeepsKinds(values: Table, default: Option<string>, env: Env, id: string)
    requires MergeEnv(values, default, env).Ok? && id in values
    ensures id in MergeEnv(values, default, env).value
    ensures KindOf(MergeEnv(values, default, env).value[id]) == KindOf(values[id])
  {
    NamesDiffer();
  }

  /** After a merge the target carries the exact type, if the checks pass. */
  lemma MergedTargetIsSpotify(root: Table, values: Table, default: Option<string>, env: Env)
    requires HasLegacy(root) && MergeLegacy(root, values).Ok?
    requires MergeEnv(MergeLegacy(root, values).value.0, default, env).Ok?
    requires ChecksPass(MergeEnv(MergeLegacy(root, values).value.0, default, env).value)
    ensures LoadTarget(values).Ok? && LoadTarget(values).value in MergeLegacy(root, values).value.0
    ensures IsSpotify(MergeLegacy(root, values).value.0[LoadTarget(values).value])
  {
    var target := LoadTarget(values).value;
    var merged := MergeLegacy(root, values).value.0;
    EnvKeepsKinds(merged, default, env, target);
    MergedKind(root, Entries(values, target));
  }

  lemma MergedKind(root: Table, spotify: Table)
    requires MergedSpotify(root, spotify).Ok?
    ensures TYPE in MergedSpotify(root, spotify).value
    ensures MergedSpotify(root, spotify).value[TYPE] == if TYPE in spotify then spotify[TYPE] else Leaf(Text(SPOTIFY))
  {
  }

  /** At most the target of the merge is typed `spotify` before the merge. */
  lemma OnlyTheTargetIsSpotify(root: Table, env: Env)
    requires ResolveProviders(root, env).Ok? && HasLegacy(root)
    ensures ProviderValues(root).Ok? && LoadTarget(ProviderValues(root).value - {DEFAULT}).Ok?
    ensures var values := ProviderValues(root).value - {DEFAULT}; SpotifyIds(values) <= {LoadTarget(values).value}
  {
    hide MergeEnv, ResolveProviders, FinalValues, CheckProviders, LoadTarget, MergedSpotify, LegacyWarnings;
    var all, legacy, final := LoadChecks(root, env);
    var values := all - {DEFAULT};
    MergedTargetIsSpotify(root, values, DefaultOf(all).value, env);
    var target := LoadTarget(values).value;
    OwnersIncludeExact(legacy.0, DefaultOf(all).value, env, target);
    forall id | id in SpotifyIds(values)
      ensures id == target
    {
      if id != target {
        OwnersIncludeExact(legacy.0, DefaultOf(all).value, env, id);
      }
      SmallSetsAgree(SpotifyOwners(final), id, target);
    }
  }

  lemma RulesAgree(root: Table, all: Table, target: string)
    requires ProviderValues(root) == Ok(all) && DefaultOf(all).Ok?
    requires LoadTarget(all - {DEFAULT}) == Ok(target) && SpotifyIds(all - {DEFAULT}) <= {target}
    ensures EditTarget(root) == Ok(target)
  {
    NamesDiffer();
    var values := all - {DEFAULT};
    assert SpotifyIds(all) == SpotifyIds(values);
    SubsetSize(SpotifyIds(values), {target});
  }

  /** The editor and the loader mean the same provider by a legacy key in every
      document that loads. */
  lemma TargetsAgree(root: Table, env: Env)
    requires ResolveProviders(root, env).Ok? && HasLegacy(root)
    ensures ProviderValues(root).Ok? && EditTarget(root).Ok?
    ensures LoadTarget(ProviderValues(root).value - {DEFAULT}) == Ok(EditTarget(root).value)
  {
    hide MergeLegacy, MergeEnv, ResolveProviders, FinalValues, EditTarget, LoadTarget;
    var all, legacy, final := LoadChecks(root, env);
    OnlyTheTargetIsSpotify(root, env);
    RulesAgree(root, all, LoadTarget(all - {DEFAULT}).value);
  }

  lemma UnderscoredIsValid(segment: string)
    requires ValidSegment(segment)
    ensures ValidSegment(Underscored(segment))
  {
  }

  /** The segments of a parsed path stay valid when it is made canonical. */
  lemma CanonicalIsValid(segments: Path, i: nat)
    requires Parse(segments).Ok? && IsLegacyProviderAlias(Parse(segments).value)
    requires i < |Parse(segments).value.canonical|
    ensures ValidSegment(Parse(segments).value.canonical[i])
  {
    hide ValidSegment;
    forall k | 0 <= k < |segments|
      ensures ValidSegment(Underscored(segments[k]))
    {
      UnderscoredIsValid(segments[k]);
    }
    NamesAreValid();
    LegacyIsScoped(segments);
  }

  lemma NamesAreValid()
    ensures ValidSegment(PROVIDERS) && ValidSegment(SPOTIFY) && ValidSegment(PLAYER) && ValidSegment(DEVICE_NAME)
  {
  }

  lemma ProviderIdsAreSegments(id: string)
    requires ValidProviderId(id)
    ensures ValidSegment(id) && Hyphenated(Underscored(id)) == id
  {
  }

  /** The override layer sends a legacy path to the editor's target if and only if
      that target is a valid provider id, as it is in every document that loads. */
  lemma OverlayAgreesIff(root: Table, segments: Path, target: string)
    requires Parse(segments).Ok? && IsLegacyProviderAlias(Parse(segments).value) && EditTarget(root) == Ok(target)
    ensures var path := Parse(segments).value;
      && InSpotifyScope(path.canonical)
      && ResolveDocumentPath(root, path) == Ok([PROVIDERS, target] + path.canonical[2..])
      && (ResolveOverlayPath(root, path) == Ok([PROVIDERS, target] + path.canonical[2..]) <==> ValidProviderId(target))
  {
    var path := Parse(segments).value;
    LegacyIsScoped(segments);
    var resolved := [PROVIDERS, target] + path.canonical[2..];
    CanonicalizeIsIdempotent(segments);
    CanonicalTailsAreNormal(path.canonical);
    NamesAreNormal();
    hide IsLegacyProviderAlias, EditTarget, ValidSegment;
    if ValidProviderId(target) {
      ProviderIdsAreSegments(target);
      NamesAreValid();
      forall i | 0 <= i < |resolved|
        ensures ValidSegment(resolved[i])
      {
        if i >= 2 {
          CanonicalIsValid(segments, i);
        }
      }
      ScopedIsFixed(resolved);
      hide Canonicalize, ValidProviderId;
      assert Parse(resolved).Ok? && Parse(resolved).value.canonical == resolved;
    } else {
      OnlyValidIdsAreCanonical(resolved);
      hide Canonicalize, ValidProviderId;
    }
  }

  lemma OnlyValidIdsAreCanonical(path: Path)
    requires |path| > 2 && path[0] == PROVIDERS
    ensures Canonicalize(path) == Ok(path) ==> ValidProviderId(path[1])
  {
    NamesAreNormal();
  }

  lemma LoadedTargetIsValid(root: Table, env: Env)
    requires ResolveProviders(root, env).Ok? && HasLegacy(root) && EditTarget(root).Ok?
    ensures ValidProviderId(EditTarget(root).value)
  {
    hide MergedSpotify, LegacyWarnings, ResolveProviders, FinalValues, EditTarget, LoadTarget, HasLegacy, ValidProviderId,
      CheckProviders, MergeEnv;
    TargetsAgree(root, env);
    var all, legacy, final := LoadChecks(root, env);
    MergeEnvKeys(legacy.0, DefaultOf(all).value, env);
    assert EditTarget(root).value in final;
  }

  /** In every document that loads, the editor, the override layer and the loader
      take a legacy path to mean the same provider. */
  lemma ThreeTargetsAgree(root: Table, env: Env, segments: Path)
    requires ResolveProviders(root, env).Ok? && HasLegacy(root)
    requires Parse(segments).Ok? && IsLegacyProviderAlias(Parse(segments).value)
    ensures ProviderValues(root).Ok? && LoadTarget(ProviderValues(root).value - {DEFAULT}).Ok?
    ensures var path := Parse(segments).value; var target := LoadTarget(ProviderValues(root).value - {DEFAULT}).value;
      && InSpotifyScope(path.canonical)
      && ResolveDocumentPath(root, path) == Ok([PROVIDERS, target] + path.canonical[2..])
      && ResolveOverlayPath(root, path) == Ok([PROVIDERS, target] + path.canonical[2..])
  {
    hide ResolveProviders, HasLegacy, EditTarget, LoadTarget, Parse, IsLegacyProviderAlias, ResolveDocumentPath,
      ResolveOverlayPath, ValidProviderId;
    TargetsAgree(root, env);
    LoadedTargetIsValid(root, env);
    OverlayAgreesIff(root, segments, EditTarget(root).value);
  }

  lemma SubsetSize(a: set<string>, b: set<string>)
    requires a <= b
    ensures |a| <= |b|
  {
    assert b == a + (b - a);
  }

  lemma OwnersIncludeExact(values: Table, default: Option<string>, env: Env, id: string)
    requires MergeEnv(values, default, env).Ok? && id in values && IsSpotify(values[id])
    ensures id in SpotifyOwners(MergeEnv(values, default, env).value)
  {
    EnvKeepsKinds(values, default, env, id);
    ExactIsTrimmed(MergeEnv(values, default, env).value[id]);
  }

  // ---- Building a load from its parts ----

  lemma LoadsFromParts(root: Table)
    requires DecodeSections(root).Ok? && ResolveProviders(root, NO_ENV).Ok?
    ensures LoadTree(root, NO_ENV).Ok?
  {
    hide DecodeSections, ResolveProviders, Repair, Valid;
    RepairAlwaysValidates(DecodeSections(root).value, NO_ENV);
  }

  lemma OneProviderPasses(id: string, node: Node, default: Option<string>)
    requires ProviderOk(id, node) && default in {None, Some(id)}
    ensures CheckProviders(map[id := node], default) == Ok(Some(id))
  {
    hide ProviderOk, TrimmedKind;
    var values := map[id := node];
    assert values.Keys == {id};
    assert SpotifyOwners(values) <= {id};
    assert |SpotifyOwners(values)| <= |{id}| by {
      assert {id} == SpotifyOwners(values) + ({id} - SpotifyOwners(values));
    }
  }

  // ---- Credentials ----

  function EnvFor(env: Env, key: string): (r: Option<string>)
  {
    NonblankOption(if key == CLIENT_ID then env.clientId else if key == CLIENT_SECRET then env.clientSecret
                   else if key == REDIRECT_URI then env.redirectUri else None)
  }

  function OrElse<T>(first: Option<T>, second: Option<T>): (r: Option<T>)
  {
    if first.Some? then first else second
  }

  /** A Spotify credential is the nonblank environment value, else the provider's
      own key, else the flat legacy key. */
  lemma CredentialPrecedence(root: Table, env: Env, id: string, key: string)
    requires ResolveProviders(root, env).Ok? && key in ROOT_KEYS
    requires id in ResolveProviders(root, env).value.tables
    requires TrimmedKind(Branch(ResolveProviders(root, env).value.tables[id])) == Some(SPOTIFY)
    ensures ItemAt(ResolveProviders(root, env).value.tables[id], [key]) ==
      match EnvFor(env, key)
      case Some(text) => Some(Leaf(Text(text)))
      case None => OrElse(ItemAt(root, [PROVIDERS, id, key]), ItemAt(root, [key]))
  {
    hide MergeLegacy, MergeEnv, ResolveProviders, FinalValues;
    var all, legacy, final := LoadChecks(root, env);
    assert id in SpotifyOwners(final);
    EnvKey(legacy.0, DefaultOf(all).value, env, id, key);
    LegacyKey(root, env, id, key);
    assert ItemAt(ResolveProviders(root, env).value.tables[id], [key]) == ItemAt(Entries(final, id), [key]);
  }

  lemma WithEnvLookup(table: Table, env: Env, key: string)
    requires key in ROOT_KEYS
    ensures ItemAt(WithEnv(table, env), [key]) ==
      match EnvFor(env, key)
      case Some(text) => Some(Leaf(Text(text)))
      case None => ItemAt(table, [key])
  {
  }

  /** The layer above: environment over the merged file. */
  lemma EnvKey(values: Table, default: Option<string>, env: Env, id: string, key: string)
    requires MergeEnv(values, default, env).Ok? && key in ROOT_KEYS
    requires id in SpotifyOwners(MergeEnv(values, default, env).value)
    requires |SpotifyOwners(MergeEnv(values, default, env).value)| <= 1
    ensures ItemAt(Entries(MergeEnv(values, default, env).value, id), [key]) ==
      match EnvFor(env, key)
      case Some(text) => Some(Leaf(Text(text)))
      case None => ItemAt(Entries(values, id), [key])
  {
    if EnvPresent(env) {
      var target := EnvTargetIsOwner(values, default, env);
      SmallSetsAgree(SpotifyOwners(MergeEnv(values, default, env).value), target, id);
      WithEnvLookup(Entries(values, id), env, key);
      WithEnvLookup(map[TYPE := Leaf(Text(SPOTIFY))], env, key);
      hide NonblankOption;
      assert key != TYPE;
    }
  }

  lemma EnvTargetIsOwner(values: Table, default: Option<string>, env: Env) returns (target: string)
    requires EnvPresent(env) && MergeEnv(values, default, env).Ok?
    ensures target in SpotifyOwners(MergeEnv(values, default, env).value)
    ensures Entries(MergeEnv(values, default, env).value, target) ==
      WithEnv(if values == map[] then map[TYPE := Leaf(Text(SPOTIFY))] else Entries(values, target), env)
  {
    var seeded := if values == map[] then map[SPOTIFY := Branch(map[TYPE := Leaf(Text(SPOTIFY))])] else values;
    target := EnvTargetOf(seeded, default).value;
    var final := MergeEnv(values, default, env).value;
    assert IsSpotify(seeded[target]);
    assert KindOf(final[target]) == KindOf(seeded[target]);
    ExactIsTrimmed(final[target]);
  }

  lemma ScopedItem(root: Table, all: Table, id: string, key: string)
    requires ProviderValues(root) == Ok(all) && id != DEFAULT
    ensures ItemAt(root, [PROVIDERS, id, key]) == ItemAt(Entries(all - {DEFAULT}, id), [key])
  {
    assert [PROVIDERS, id, key][1..] == [id, key] && [id, key][1..] == [key];
    if PROVIDERS in root {
      assert ItemAt(root, [PROVIDERS, id, key]) == ItemAt(all, [id, key]);
    }
  }

  /** The layer below: the provider's own key over the flat one. */
  lemma LegacyKey(root: Table, env: Env, id: string, key: string)
    requires ResolveProviders(root, env).Ok? && key in ROOT_KEYS
    requires FinalValues(root, env).Ok? && id in SpotifyOwners(FinalValues(root, env).value)
    ensures ProviderValues(root).Ok? && MergeLegacy(root, ProviderValues(root).value - {DEFAULT}).Ok?
    ensures ItemAt(Entries(MergeLegacy(root, ProviderValues(root).value - {DEFAULT}).value.0, id), [key]) ==
            OrElse(ItemAt(root, [PROVIDERS, id, key]), ItemAt(root, [key]))
  {
    hide MergeEnv, ResolveProviders, FinalValues, CheckProviders, LoadTarget, MergedSpotify, LegacyWarnings;
    var all, legacy, final := LoadChecks(root, env);
    var values := all - {DEFAULT};
    FinalHasNoDefault(root, env, all, legacy.0, final);
    ScopedItem(root, all, id, key);
    if HasLegacy(root) {
      MergedTargetIsSpotify(root, values, DefaultOf(all).value, env);
      var target := LoadTarget(values).value;
      OwnersIncludeExact(legacy.0, DefaultOf(all).value, env, target);
      SmallSetsAgree(SpotifyOwners(final), target, id);
      MergedRootKey(root, Entries(values, id), key);
    } else {
      assert key !in root.Keys * ROOT_KEYS;
    }
  }

  /** A legacy merge adds at most the provider `spotify`. */
  lemma MergeLegacyKeys(root: Table, values: Table)
    requires MergeLegacy(root, values).Ok?
    ensures values.Keys <= MergeLegacy(root, values).value.0.Keys <= values.Keys + {SPOTIFY}
  {
    hide MergedSpotify, LegacyWarnings, HasLegacy;
  }

  /** So does an environment merge. */
  lemma MergeEnvKeys(values: Table, default: Option<string>, env: Env)
    requires MergeEnv(values, default, env).Ok?
    ensures values.Keys <= MergeEnv(values, default, env).value.Keys <= values.Keys + {SPOTIFY}
  {
    hide WithEnv;
  }

  /** `default` is never a provider. */
  lemma FinalHasNoDefault(root: Table, env: Env, all: Table, merged: Table, final: Table)
    requires MergeLegacy(root, all - {DEFAULT}).Ok? && merged == MergeLegacy(root, all - {DEFAULT}).value.0
    requires DefaultOf(all).Ok? && MergeEnv(merged, DefaultOf(all).value, env) == Ok(final)
    ensures DEFAULT !in merged && DEFAULT !in final
    ensures final.Keys >= merged.Keys >= all.Keys - {DEFAULT}
  {
    hide MergeLegacy, MergeEnv;
    MergeLegacyKeys(root, all - {DEFAULT});
    MergeEnvKeys(merged, DefaultOf(all).value, env);
    NamesDiffer();
  }

  lemma MergedRootKey(root: Table, spotify: Table, key: string)
    requires MergedSpotify(root, spotify).Ok? && key in ROOT_KEYS
    ensures ItemAt(MergedSpotify(root, spotify).value, [key]) == OrElse(ItemAt(spotify, [key]), ItemAt(root, [key]))
  {
    NamesDiffer();
  }

  // ---- Everyone else ----

  /** Legacy keys and environment values reach the Spotify provider only: any
      other provider's table is the one the tree holds, and none is lost. */
  lemma OtherProvidersUntouched(root: Table, env: Env, id: string)
    requires ResolveProviders(root, env).Ok?
    ensures var tables := ResolveProviders(root, env).value.tables;
      && (id in tables && TrimmedKind(Branch(tables[id])) != Some(SPOTIFY) ==>
            ItemAt(root, [PROVIDERS, id]) == Some(Branch(tables[id])))
      && (id != DEFAULT && ItemAt(root, [PROVIDERS, id]).Some? ==> id in tables)
  {
    hide MergeEnv, MergeLegacy, ResolveProviders, FinalValues, CheckProviders;
    var all, legacy, final := LoadChecks(root, env);
    FinalHasNoDefault(root, env, all, legacy.0, final);
    assert [PROVIDERS, id][1..] == [id];
    assert ItemAt(root, [PROVIDERS, id]) == ItemAt(all, [id]);
    if id in final && TrimmedKind(final[id]) != Some(SPOTIFY) {
      EnvLeavesOthers(legacy.0, DefaultOf(all).value, env, id);
      LegacyLeavesOthers(root, all - {DEFAULT}, DefaultOf(all).value, env, id);
    }
  }

  lemma EnvLeavesOthers(values: Table, default: Option<string>, env: Env, id: string)
    requires MergeEnv(values, default, env).Ok? && id in MergeEnv(values, default, env).value
    requires TrimmedKind(MergeEnv(values, default, env).value[id]) != Some(SPOTIFY)
    ensures id in values && values[id] == MergeEnv(values, default, env).value[id]
  {
    hide WithEnv;
    if EnvPresent(env) {
      var target := EnvTargetIsOwner(values, default, env);
      var seeded := if values == map[] then map[SPOTIFY := Branch(map[TYPE := Leaf(Text(SPOTIFY))])] else values;
      var target' := EnvTargetOf(seeded, default).value;
      assert IsSpotify(seeded[target']);
      assert TYPE !in ROOT_KEYS;
      EnvKeepsKinds(seeded, default, env, target');
      ExactIsTrimmed(seeded[target']);
    }
  }

  lemma LegacyLeavesOthers(root: Table, values: Table, default: Option<string>, env: Env, id: string)
    requires MergeLegacy(root, values).Ok? && MergeEnv(MergeLegacy(root, values).value.0, default, env).Ok?
    requires ChecksPass(MergeEnv(MergeLegacy(root, values).value.0, default, env).value)
    requires id in MergeLegacy(root, values).value.0
    requires TrimmedKind(MergeLegacy(root, values).value.0[id]) != Some(SPOTIFY)
    ensures id in values && values[id] == MergeLegacy(root, values).value.0[id]
  {
    hide MergeEnv, MergedSpotify, LegacyWarnings;
    if HasLegacy(root) {
      MergedTargetIsSpotify(root, values, default, env);
      ExactIsTrimmed(MergeLegacy(root, values).value.0[LoadTarget(values).value]);
    }
  }

  // ---- Overrides ----

  /** Where the `i`-th override lands. */
  function OverrideTargetAt(root: Table, overrides: seq<Override>, i: nat): (r: Result<Path, LoadError>)
    requires i < |overrides|
  {
    var before :- Overridden(root, overrides[..i]);
    ResolveOverlayPath(before, overrides[i].path)
  }

  /** The table with `value` put in, if that is possible. */
  function Inserted(table: Table, path: Path, value: Node): (r: Table)
  {
    match SetItem(table, path, value)
    case Ok(updated) => updated
    case Err(_) => table
  }

  /** What file and overrides together put at one path: an override at or above the
      path decides by what its value holds there, one below it goes into the table
      that was there, and any other lets the earlier layers show through. */
  function Layered(root: Table, overrides: seq<Override>, path: Path): (r: Option<Node>)
    decreases |overrides|
  {
    if overrides == [] || path == [] then ItemAt(root, path)
    else
      var last := |overrides| - 1;
      var below := Layered(root, overrides[..last], path);
      match OverrideTargetAt(root, overrides, last)
      case Err(_) => below
      case Ok(target) =>
        if target <= path then ItemIn(overrides[last].value, path[|target|..])
        else if path <= target then Some(Branch(Inserted(EntriesIn(below), target[|path|..], overrides[last].value)))
        else below
  }

  /** Later overrides win over earlier ones and over the file, at every path and
      for every list of overrides. */
  lemma {:induction false} LastOverrideWins(root: Table, overrides: seq<Override>, path: Path)
    requires Overridden(root, overrides).Ok?
    ensures ItemAt(Overridden(root, overrides).value, path) == Layered(root, overrides, path)
    decreases |overrides|
  {
    hide ResolveOverlayPath, SetItem;
    if overrides != [] && path != [] {
      var last := |overrides| - 1;
      LastOverrideWins(root, overrides[..last], path);
      var before := Overridden(root, overrides[..last]).value;
      var value := overrides[last].value;
      var target := OverrideTargetAt(root, overrides, last).value;
      if target <= path {
        assert target + path[|target|..] == path;
        SetThenGetUnder(before, target, value, path[|target|..]);
      } else if path <= target {
        assert target[..|path|] == path && |path| < |target|;
        SetThenGetAbove(before, target, value, |path|);
      } else {
        SetFrame(before, target, value, path);
      }
    }
  }

  /** No override from the `i`-th on has anything to do with `path`. */
  predicate UntouchedFrom(root: Table, overrides: seq<Override>, path: Path, i: nat)
  {
    forall j :: i <= j < |overrides| && OverrideTargetAt(root, overrides, j).Ok? ==>
      Unrelated(OverrideTargetAt(root, overrides, j).value, path)
  }

  lemma EarlierTargets(root: Table, overrides: seq<Override>, path: Path)
    requires overrides != []
    ensures var earlier := overrides[..|overrides| - 1];
      && (forall j :: 0 <= j < |earlier| ==> OverrideTargetAt(root, earlier, j) == OverrideTargetAt(root, overrides, j))
      && (forall i: nat :: UntouchedFrom(root, overrides, path, i) ==> UntouchedFrom(root, earlier, path, i))
  {
    hide ResolveOverlayPath, Overridden;
    var earlier := overrides[..|overrides| - 1];
    forall j | 0 <= j < |earlier|
      ensures OverrideTargetAt(root, earlier, j) == OverrideTargetAt(root, overrides, j)
    {
      assert earlier[..j] == overrides[..j];
    }
  }

  /** Without an override at, above or below a path the file shows through. */
  lemma {:induction false} FileShowsThrough(root: Table, overrides: seq<Override>, path: Path)
    requires UntouchedFrom(root, overrides, path, 0)
    ensures Layered(root, overrides, path) == ItemAt(root, path)
    decreases |overrides|
  {
    hide OverrideTargetAt, ItemIn, ItemAt, Inserted;
    if overrides != [] {
      EarlierTargets(root, overrides, path);
      FileShowsThrough(root, overrides[..|overrides| - 1], path);
    }
  }

  /** The last override at or above a path decides it, by what its value holds there. */
  lemma {:induction false} LastAtOrAboveDecides(root: Table, overrides: seq<Override>, path: Path, i: nat)
    requires i < |overrides| && path != [] && UntouchedFrom(root, overrides, path, i + 1)
    requires OverrideTargetAt(root, overrides, i).Ok? && OverrideTargetAt(root, overrides, i).value <= path
    ensures Layered(root, overrides, path) ==
            ItemIn(overrides[i].value, path[|OverrideTargetAt(root, overrides, i).value|..])
    decreases |overrides|
  {
    hide OverrideTargetAt, ItemIn, ItemAt, Inserted;
    if i < |overrides| - 1 {
      EarlierTargets(root, overrides, path);
      LastAtOrAboveDecides(root, overrides[..|overrides| - 1], path, i);
    }
  }

  /** A later override of a whole table wipes an earlier one of a leaf in it: the
      last override of exactly the leaf does not decide it. */
  lemma LaterTableWipesALeaf(key: string, value: Scalar) returns (overrides: seq<Override>)
    requires key in ROOT_KEYS
    ensures |overrides| == 2 && Parsed(overrides) && Overridden(map[], overrides).Ok?
    ensures OverrideTargetAt(map[], overrides, 0) == Ok([PROVIDERS, SPOTIFY, key]) && overrides[0].value == Leaf(value)
    ensures ItemAt(Overridden(map[], overrides).value, [PROVIDERS, SPOTIFY, key]) == None
  {
    hide ValidProviderId;
    var leaf := Override(ConfigPath([PROVIDERS, SPOTIFY, key], None), Leaf(value));
    var table := Override(ConfigPath([PROVIDERS, SPOTIFY], None), Branch(map[TYPE := Leaf(Text(SPOTIFY))]));
    overrides := [leaf, table];
    var none: Table := map[];
    var first: Table := map[PROVIDERS := Branch(map[SPOTIFY := Branch(map[key := Leaf(value)])])];
    assert leaf.path.canonical[1..] == [SPOTIFY, key] && [SPOTIFY, key][1..] == [key];
    assert table.path.canonical[1..] == [SPOTIFY];
    assert SetItem(none, [key], leaf.value) == Ok(map[key := Leaf(value)]);
    assert SetItem(none, [SPOTIFY, key], leaf.value) == Ok(map[SPOTIFY := Branch(map[key := Leaf(value)])]);
    assert SetItem(none, leaf.path.canonical, leaf.value) == Ok(first);
    assert overrides[..0] == [] && overrides[..1] == [leaf] && [leaf][..0] == [];
    assert Overridden(none, []) == Ok(none);
    assert Overridden(none, [leaf]) == Ok(first);
    assert SetItem(first, table.path.canonical, table.value).Ok?;
    TablePathsAreParsed(key);
    LastOverrideWins(none, overrides, [PROVIDERS, SPOTIFY, key]);
  }

  lemma TablePathsAreParsed(key: string)
    requires key in ROOT_KEYS
    ensures Canonicalize([PROVIDERS, SPOTIFY, key]) == Ok([PROVIDERS, SPOTIFY, key])
    ensures Canonicalize([PROVIDERS, SPOTIFY]) == Ok([PROVIDERS, SPOTIFY])
  {
    NamesAreNormal();
    ScopedIsFixed([PROVIDERS, SPOTIFY, key]);
    assert UnderscoredAll([PROVIDERS, SPOTIFY]) == [PROVIDERS, SPOTIFY];
  }

  /** Parsed override paths: not blank, and canonicalising them again changes nothing. */
  predicate Parsed(overrides: seq<Override>)
  {
    forall i :: 0 <= i < |overrides| ==>
      overrides[i].path.canonical != [] && Canonicalize(overrides[i].path.canonical) == Ok(overrides[i].path.canonical)
  }

  /** No parsed override sets a flat legacy key: such a path means the scoped one. */
  lemma OverridesNeverSetFlatKeys(root: Table, overrides: seq<Override>, key: string, i: nat)
    requires Parsed(overrides) && key in ROOT_KEYS && i < |overrides|
    ensures OverrideTargetAt(root, overrides, i).Ok? ==> !(OverrideTargetAt(root, overrides, i).value <= [key])
  {
    var path := overrides[i].path;
    NamesAreNormal();
    assert UnderscoredAll([key]) == [key];
    assert path.canonical != [key];
  }

  /** The layers of a Spotify credential, for every list of overrides: nonblank
      environment value, what overrides and file put at the provider's own key,
      what they put at the flat legacy key. */
  lemma CredentialLayers(document: Table, env: Env, overrides: seq<Override>, id: string, key: string)
    requires Load(document, env, overrides).Ok? && key in ROOT_KEYS
    requires id in Load(document, env, overrides).value.providers
    requires TrimmedKind(Branch(Load(document, env, overrides).value.providers[id])) == Some(SPOTIFY)
    ensures ItemAt(Load(document, env, overrides).value.providers[id], [key]) ==
      match EnvFor(env, key)
      case Some(text) => Some(Leaf(Text(text)))
      case None =>
        OrElse(Layered(document, overrides, [PROVIDERS, id, key]), Layered(document, overrides, [key]))
  {
    hide DecodeSections, Repair, Valid, ResolveProviders, Overridden;
    var root := Overridden(document, overrides).value;
    LastOverrideWins(document, overrides, [PROVIDERS, id, key]);
    LastOverrideWins(document, overrides, [key]);
    CredentialPrecedence(root, env, id, key);
  }
}
