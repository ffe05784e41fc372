/** The loader: overrides, legacy keys, environment and provider checks
    (crates/spotuify-config/src/model.rs). */
module ConfigLoad {
  import opened Wrappers
  import opened ConfigTree
  import opened ConfigPath
  import opened ConfigSections
  import opened TextForm

  datatype TargetError = Conflict | Ambiguous

  datatype LoadError =
    | BadOverride(edit: EditError)
    | OverrideTarget(target: TargetError)
    | OverridePath(path: PathError)
    | BadSection
    | ProvidersNotTable
    | BadDefault
    | SpotifyNotTable
    | LegacyTargetError(target: TargetError)
    | LegacyNotTable(name: string)
    | ScopedPlayerNotTable
    | EnvTarget(target: TargetError)
    | BadProvider
    | SchemeOwnedTwice
    | DefaultMissing
    | DefaultRequired
    | BadGeneric

  datatype Warning = DeprecatedKey(legacy: Path, canonical: Path, ignored: bool)

  datatype Override = Override(path: ConfigPath, value: Node)

  datatype Providers = Providers(default: Option<string>, tables: map<string, Table>, warnings: set<Warning>)

  datatype Loaded = Loaded(
    default: Option<string>, providers: map<string, Table>, sections: Sections, warnings: set<Warning>)

  // ---- Which provider a legacy key means ----

  function Entries(table: Table, key: string): (r: Table)
  {
    if key in table && table[key].Branch? then table[key].entries else map[]
  }

  /** The `type` of a provider, when it is a string. */
  function KindOf(node: Node): (r: Option<string>)
  {
    match node
    case Leaf(_) => None
    case Branch(entries) =>
      if TYPE !in entries then None
      else match entries[TYPE]
        case Leaf(Text(kind)) => Some(kind)
        case _ => None
  }

  predicate IsSpotify(node: Node)
  {
    KindOf(node) == Some(SPOTIFY)
  }

  function SpotifyIds(values: Table): (r: set<string>)
  {
    set id | id in values && IsSpotify(values[id])
  }

  lemma SingletonIsUnique(ids: set<string>)
    requires |ids| == 1
    ensures forall x, y :: x in ids && y in ids ==> x == y
  {
    forall x, y | x in ids && y in ids
      ensures x == y
    {
      assert |ids - {x}| == 0;
      assert y !in ids - {x};
    }
  }

  function TheOne(ids: set<string>): (id: string)
    requires |ids| == 1
    ensures ids == {id}
  {
    SingletonIsUnique(ids);
    var id :| id in ids;
    assert forall x :: x in ids ==> x == id;
    id
  }

  /** The editor's choice (crates/spotuify-config/src/document.rs). */
  function EditTarget(root: Table): (r: Result<string, TargetError>)
  {
    if PROVIDERS !in root || root[PROVIDERS].Leaf? then Ok(SPOTIFY)
    else
      var providers := root[PROVIDERS].entries;
      if SPOTIFY in providers && IsSpotify(providers[SPOTIFY]) then Ok(SPOTIFY)
      else
        var ids := SpotifyIds(providers);
        if |ids| == 1 then Ok(TheOne(ids))
        else if |ids| > 1 then Err(Ambiguous)
        else if SPOTIFY in providers && KindOf(providers[SPOTIFY]).Some? then Err(Conflict)
        else Ok(SPOTIFY)
  }

  function ResolveDocumentPath(root: Table, path: ConfigPath): (r: Result<Path, TargetError>)
  {
    if !IsLegacyProviderAlias(path) || !InSpotifyScope(path.canonical) then Ok(path.canonical)
    else
      var target :- EditTarget(root);
      Ok([PROVIDERS, target] + path.canonical[2..])
  }

  /** The override layer's choice: the same rule, but a renamed path is parsed anew. */
  function ResolveOverlayPath(root: Table, path: ConfigPath): (r: Result<Path, LoadError>)
  {
    match ResolveDocumentPath(root, path)
    case Err(error) => Err(OverrideTarget(error))
    case Ok(resolved) =>
      if resolved == path.canonical then Ok(resolved)
      else match Parse(resolved)
        case Err(error) => Err(OverridePath(error))
        case Ok(parsed) => Ok(parsed.canonical)
  }

  /** The loader's choice, among the provider values without `default`. */
  function LoadTarget(values: Table): (r: Result<string, LoadError>)
  {
    if SPOTIFY in values then
      if values[SPOTIFY].Leaf? then Err(SpotifyNotTable)
      else if KindOf(values[SPOTIFY]).Some? && KindOf(values[SPOTIFY]) != Some(SPOTIFY) then Err(LegacyTargetError(Conflict))
      else Ok(SPOTIFY)
    else
      var ids := SpotifyIds(values);
      if |ids| == 1 then Ok(TheOne(ids))
      else if |ids| > 1 then Err(LegacyTargetError(Ambiguous))
      else Ok(SPOTIFY)
  }

  // ---- Overrides ----

  /** The tree after all overrides, the later ones on top of the earlier. */
  function Overridden(root: Table, overrides: seq<Override>): (r: Result<Table, LoadError>)
    decreases |overrides|
  {
    if overrides == [] then Ok(root)
    else
      var before :- Overridden(root, overrides[..|overrides| - 1]);
      ApplyOverride(before, overrides[|overrides| - 1])
  }

  function ApplyOverride(root: Table, entry: Override): (r: Result<Table, LoadError>)
  {
    var target :- ResolveOverlayPath(root, entry.path);
    match SetItem(root, target, entry.value)
    case Err(error) => Err(BadOverride(error))
    case Ok(updated) => Ok(updated)
  }

  method ApplyOverrides(root: Table, overrides: seq<Override>) returns (r: Result<Table, LoadError>)
    ensures r == Overridden(root, overrides)
  {
    var current := root;
    for i := 0 to |overrides|
      invariant Overridden(root, overrides[..i]) == Ok(current)
    {
      var next := ApplyOverride(current, overrides[i]);
      assert overrides[..i + 1][..i] == overrides[..i];
      if next.Err? {
        FailedOverrideStays(root, overrides, i + 1);
        return next;
      }
      current := next.value;
    }
    assert overrides[..|overrides|] == overrides;
    return Ok(current);
  }

  lemma {:induction false} FailedOverrideStays(root: Table, overrides: seq<Override>, n: nat)
    requires n <= |overrides| && Overridden(root, overrides[..n]).Err?
    ensures Overridden(root, overrides) == Overridden(root, overrides[..n])
    decreases |overrides|
  {
    if n < |overrides| {
      assert overrides[..|overrides| - 1][..n] == overrides[..n];
      FailedOverrideStays(root, overrides[..|overrides| - 1], n);
    } else {
      assert overrides[..n] == overrides;
    }
  }

  // ---- Legacy keys ----

  const BACKEND := "backend"
  const BITRATE := "bitrate"
  const AUDIO_OUTPUT_DEVICE := "audio_output_device"
  const NORMALIZATION := "normalization"
  const AUDIO_CACHE_MIB := "audio_cache_mib"
  const PULSE_PROPS := "pulse_props"

  /** The player keys that move under the provider; `event_hook` does not. */
  const PLAYER_KEYS: set<string> :=
    {BACKEND, BITRATE, DEVICE_NAME, AUDIO_OUTPUT_DEVICE, NORMALIZATION, AUDIO_CACHE_MIB, PULSE_PROPS}

  function Restrict(table: Table, keys: set<string>): (r: Table)
  {
    map key | key in table && key in keys :: table[key]
  }

  predicate HasLegacy(root: Table)
  {
    root.Keys * ROOT_KEYS != {}
    || Entries(root, PLAYER).Keys * (PLAYER_KEYS + {EVENT_HOOK}) != {}
    || DEVICE_NAME in Entries(root, SPOTIFYD)
  }

  /** `player` under the provider, once the legacy one has filled its gaps. */
  function MergedPlayer(root: Table, spotify: Table): (r: Result<Table, LoadError>)
  {
    if PLAYER !in root then Ok(spotify)
    else if root[PLAYER].Leaf? then Err(LegacyNotTable(PLAYER))
    else if PLAYER in spotify && spotify[PLAYER].Leaf? then Err(ScopedPlayerNotTable)
    else Ok(spotify[PLAYER := Branch(Restrict(root[PLAYER].entries, PLAYER_KEYS) + Entries(spotify, PLAYER))])
  }

  function MergedSpotifyd(root: Table, spotify: Table): (r: Result<Table, LoadError>)
  {
    if SPOTIFYD !in root then Ok(spotify)
    else if root[SPOTIFYD].Leaf? then Err(LegacyNotTable(SPOTIFYD))
    else if DEVICE_NAME !in root[SPOTIFYD].entries then Ok(spotify)
    else if PLAYER in spotify && spotify[PLAYER].Leaf? then Err(ScopedPlayerNotTable)
    else Ok(spotify[PLAYER := Branch(Restrict(root[SPOTIFYD].entries, {DEVICE_NAME}) + Entries(spotify, PLAYER))])
  }

  /** The Spotify provider's table: its own keys first, then the flat ones,
      then `player`, then `spotifyd`. */
  function MergedSpotify(root: Table, spotify: Table): (r: Result<Table, LoadError>)
  {
    var withPlayer :- MergedPlayer(root, Restrict(root, ROOT_KEYS) + spotify);
    var withDevice :- MergedSpotifyd(root, withPlayer);
    Ok(map[TYPE := Leaf(Text(SPOTIFY))] + withDevice)
  }

  function LegacyWarnings(root: Table, spotify: Table, target: string): (r: set<Warning>)
  {
    (set key | key in ROOT_KEYS && key in root :: DeprecatedKey([key], [PROVIDERS, target, key], key in spotify))
    + PlayerWarnings(root, spotify, target)
    + SpotifydWarnings(root, spotify, target)
  }

  function PlayerWarnings(root: Table, spotify: Table, target: string): (r: set<Warning>)
  {
    var player := Entries(root, PLAYER);
    (set key | key in PLAYER_KEYS && key in player ::
      DeprecatedKey([PLAYER, key], [PROVIDERS, target, PLAYER, key], key in Entries(spotify, PLAYER)))
    + (if EVENT_HOOK in player
       then {DeprecatedKey([PLAYER, EVENT_HOOK], [ANALYTICS, HOOK_COMMAND], HOOK_COMMAND in Entries(root, ANALYTICS))}
       else {})
  }

  function SpotifydWarnings(root: Table, spotify: Table, target: string): (r: set<Warning>)
  {
    if DEVICE_NAME in Entries(root, SPOTIFYD)
    then {DeprecatedKey([SPOTIFYD, DEVICE_NAME], [PROVIDERS, target, PLAYER, DEVICE_NAME],
                        DEVICE_NAME in Entries(spotify, PLAYER) || DEVICE_NAME in Entries(root, PLAYER))}
    else {}
  }

  function MergeLegacy(root: Table, values: Table): (r: Result<(Table, set<Warning>), LoadError>)
  {
    if !HasLegacy(root) then Ok((values, {}))
    else
      var target :- LoadTarget(values);
      if target in values && values[target].Leaf? then Err(SpotifyNotTable)
      else
        var merged :- MergedSpotify(root, Entries(values, target));
        Ok((values[target := Branch(merged)], LegacyWarnings(root, Entries(values, target), target)))
  }

  // ---- Environment ----

  predicate EnvPresent(env: Env)
  {
    env.clientId.Some? || env.clientSecret.Some? || env.redirectUri.Some?
  }

  function EnvTargetOf(values: Table, default: Option<string>): (r: Result<string, LoadError>)
  {
    var ids := SpotifyIds(values);
    if default.Some? && default.value in ids then Ok(default.value)
    else if SPOTIFY in ids then Ok(SPOTIFY)
    else if |ids| == 1 then Ok(TheOne(ids))
    else if |ids| > 1 then Err(EnvTarget(Ambiguous))
    else Err(EnvTarget(Conflict))
  }

  function WithEnvKey(table: Table, key: string, value: Option<string>): (r: Table)
  {
    match NonblankOption(value)
    case None => table
    case Some(text) => table[key := Leaf(Text(text))]
  }

  function WithEnv(table: Table, env: Env): (r: Table)
  {
    WithEnvKey(WithEnvKey(WithEnvKey(table, CLIENT_ID, env.clientId), CLIENT_SECRET, env.clientSecret),
               REDIRECT_URI, env.redirectUri)
  }

  function MergeEnv(values: Table, default: Option<string>, env: Env): (r: Result<Table, LoadError>)
  {
    if !EnvPresent(env) then Ok(values)
    else
      var seeded := if values == map[] then map[SPOTIFY := Branch(map[TYPE := Leaf(Text(SPOTIFY))])] else values;
      var target :- EnvTargetOf(seeded, default);
      Ok(seeded[target := Branch(WithEnv(Entries(seeded, target), env))])
  }

  // ---- Provider checks ----

  /** `PlayerSettings`: decodable and with a supported bitrate. */
  predicate PlayerOk(node: Node)
  {
    node.Branch? &&
    var t := node.entries;
    && (BACKEND in t ==> t[BACKEND] == Leaf(Text("embedded")))
    && (BITRATE in t ==> t[BITRATE] in {Leaf(Integer(96)), Leaf(Integer(160)), Leaf(Integer(320))})
    && OptionalTextField(t, DEVICE_NAME).Ok?
    && OptionalTextField(t, AUDIO_OUTPUT_DEVICE).Ok?
    && FlagField(t, NORMALIZATION, false).Ok?
    && NatField(t, AUDIO_CACHE_MIB, 0, U32_MAX).Ok?
    && FlagField(t, PULSE_PROPS, true).Ok?
  }

  /** The trimmed `type` of a provider. */
  function TrimmedKind(node: Node): (r: Option<string>)
  {
    NonblankOption(KindOf(node))
  }

  predicate ProviderOk(id: string, node: Node)
  {
    && node.Branch?
    && ValidProviderId(id)
    && TrimmedKind(node).Some?
    && (TrimmedKind(node) == Some(SPOTIFY) && PLAYER in node.entries ==> PlayerOk(node.entries[PLAYER]))
  }

  /** The providers whose trimmed type is `spotify`. */
  function SpotifyOwners(values: Table): (r: set<string>)
  {
    set id | id in values && TrimmedKind(values[id]) == Some(SPOTIFY)
  }

  function CheckProviders(values: Table, default: Option<string>): (r: Result<Option<string>, LoadError>)
  {
    if exists id :: id in values && !ProviderOk(id, values[id]) then Err(BadProvider)
    else if |SpotifyOwners(values)| > 1 then Err(SchemeOwnedTwice)
    else if default.Some? then (if default.value in values then Ok(default) else Err(DefaultMissing))
    else if |values.Keys| == 0 then Ok(None)
    else if |values.Keys| == 1 then Ok(Some(TheOne(values.Keys)))
    else Err(DefaultRequired)
  }

  function ProviderValues(root: Table): (r: Result<Table, LoadError>)
  {
    if PROVIDERS !in root then Ok(map[])
    else match root[PROVIDERS]
      case Branch(entries) => Ok(entries)
      case Leaf(_) => Err(ProvidersNotTable)
  }

  function DefaultOf(values: Table): (r: Result<Option<string>, LoadError>)
  {
    if DEFAULT !in values then Ok(None)
    else match values[DEFAULT]
      case Leaf(Text(id)) => if ValidProviderId(id) then Ok(Some(id)) else Err(BadDefault)
      case _ => Err(BadDefault)
  }

  function Tables(values: Table): (r: map<string, Table>)
  {
    map id | id in values :: Entries(values, id)
  }

  function ResolveProviders(root: Table, env: Env): (r: Result<Providers, LoadError>)
  {
    var all :- ProviderValues(root);
    var default :- DefaultOf(all);
    var legacy :- MergeLegacy(root, all - {DEFAULT});
    var values :- MergeEnv(legacy.0, default, env);
    var effective :- CheckProviders(values, default);
    Ok(Providers(effective, Tables(values), legacy.1))
  }

  function LoadTree(root: Table, env: Env): (r: Result<Loaded, LoadError>)
  {
    match DecodeSections(root)
    case Err(_) => Err(BadSection)
    case Ok(sections) =>
      var providers :- ResolveProviders(root, env);
      if !Valid(Repair(sections, env)) then Err(BadGeneric)
      else Ok(Loaded(providers.default, providers.tables, Repair(sections, env), providers.warnings))
  }

  function Load(document: Table, env: Env, overrides: seq<Override>): (r: Result<Loaded, LoadError>)
  {
    var root :- Overridden(document, overrides);
    LoadTree(root, env)
  }
}
