/** What a reader of the document finds is what a load holds
    (crates/spotuify-config/src/document.rs, crates/spotuify-config/src/model.rs). */
module ConfigReads {
  import opened Wrappers
  import opened ConfigTree
  import opened ConfigPath
  import opened ConfigSections
  import opened ConfigLoad
  import opened LoadPrecedence
  import opened EnvironmentMerge
  import opened MigrationPreservesMeaning
  import opened EnvironmentLoads
  import opened LoadMeaning
  import ConfigEdit

  // ---- The first place that holds something ----

  /** The first scalar a lookup finds. */
  function FirstBy(look: Path -> Option<Scalar>, places: seq<Path>): (r: Option<Scalar>)
  {
    if places == [] then None else if look(places[0]).Some? then look(places[0]) else FirstBy(look, places[1..])
  }

  lemma {:induction false} FirstInTwo(look: Path -> Option<Scalar>, a: seq<Path>, b: seq<Path>)
    ensures FirstBy(look, a + b) == if FirstBy(look, a).Some? then FirstBy(look, a) else FirstBy(look, b)
    decreases |a|
  {
    if a == [] {
      assert a + b == b;
    } else {
      assert (a + b)[1..] == a[1..] + b;
      FirstInTwo(look, a[1..], b);
    }
  }

  lemma {:induction false} FirstIsNone(look: Path -> Option<Scalar>, places: seq<Path>)
    ensures FirstBy(look, places) == None <==> forall c :: c in places ==> look(c) == None
  {
    if places != [] {
      FirstIsNone(look, places[1..]);
      assert places == [places[0]] + places[1..];
    }
  }

  /** Places that hold nothing, or were looked at before, do not matter. */
  lemma RestDoesNotMatter(look: Path -> Option<Scalar>, a: seq<Path>, b: seq<Path>)
    requires forall c :: c in b ==> look(c) == None || c in a
    ensures FirstBy(look, a + b) == FirstBy(look, a)
  {
    FirstInTwo(look, a, b);
    FirstIsNone(look, a);
    FirstIsNone(look, b);
  }

  lemma {:induction false} FirstOfDeduplicated(look: Path -> Option<Scalar>, places: seq<Path>)
    ensures FirstBy(look, Deduplicated(places)) == FirstBy(look, places)
    decreases |places|
  {
    if places != [] {
      var front, last := places[..|places| - 1], places[|places| - 1];
      FirstOfDeduplicated(look, front);
      assert places == front + [last];
      FirstInTwo(look, front, [last]);
      if last in front {
        RestDoesNotMatter(look, front, [last]);
      } else {
        FirstInTwo(look, Deduplicated(front), [last]);
      }
    }
  }

  /** Eligible places only. */
  function Masked(root: Table, path: ConfigPath, target: Path): (r: Path -> Option<Scalar>)
  {
    c => if ConfigEdit.Eligible(path, target, c) then ScalarAt(root, c) else None
  }

  lemma {:induction false} FirstOfFiltered(root: Table, path: ConfigPath, target: Path, places: seq<Path>)
    ensures ConfigEdit.FirstScalar(root, ConfigEdit.Filtered(places, path, target)) == FirstBy(Masked(root, path, target), places)
  {
    hide ScalarAt;
    if places != [] {
      FirstOfFiltered(root, path, target, places[1..]);
      if ConfigEdit.Eligible(path, target, places[0]) {
        var kept := ConfigEdit.Filtered(places[1..], path, target);
        assert ([places[0]] + kept)[1..] == kept;
      } else {
        assert [] + ConfigEdit.Filtered(places[1..], path, target) == ConfigEdit.Filtered(places[1..], path, target);
      }
    }
  }

  function At(root: Table): (r: Path -> Option<Scalar>)
  {
    c => ScalarAt(root, c)
  }

  lemma {:induction false} FirstScalarIs(root: Table, places: seq<Path>)
    ensures ConfigEdit.FirstScalar(root, places) == FirstBy(At(root), places)
  {
    hide ScalarAt;
    if places != [] {
      FirstScalarIs(root, places[1..]);
    }
  }

  // ---- Reading a legacy path ----

  /** No place a reader may look at holds anything, but for the canonical and the flat ones. */
  predicate NothingElsewhere(root: Table, path: ConfigPath, target: Path)
  {
    forall c :: c in Spellings(path) && ConfigEdit.Eligible(path, target, c) ==>
      c == path.canonical || c in FlatSpellings(path.canonical) || ScalarAt(root, c) == None
  }

  lemma FlatsAreEligible(path: ConfigPath, target: Path, flat: Path)
    requires flat in FlatSpellings(path.canonical)
    ensures ConfigEdit.Eligible(path, target, flat)
  {
    NamesDiffer();
  }

  lemma {:induction false} SameLookups(a: Path -> Option<Scalar>, b: Path -> Option<Scalar>, places: seq<Path>)
    requires forall c :: c in places ==> a(c) == b(c)
    ensures FirstBy(a, places) == FirstBy(b, places)
  {
    if places != [] {
      SameLookups(a, b, places[1..]);
    }
  }

  lemma CanonicalAndFlats(root: Table, path: ConfigPath, target: Path)
    requires InSpotifyScope(path.canonical)
    ensures FirstBy(Masked(root, path, target), [path.canonical] + FlatSpellings(path.canonical)) ==
      OrElse(if target == path.canonical then ScalarAt(root, target) else None, FirstBy(At(root), FlatSpellings(path.canonical)))
  {
    hide ScalarAt, FlatSpellings;
    var look, flats := Masked(root, path, target), FlatSpellings(path.canonical);
    FirstInTwo(look, [path.canonical], flats);
    assert FirstBy(look, [path.canonical]) == look(path.canonical) by {
      assert [path.canonical][1..] == [];
    }
    forall c | c in flats
      ensures look(c) == At(root)(c)
    {
      FlatsAreEligible(path, target, c);
    }
    SameLookups(look, At(root), flats);
  }

  lemma FirstSpelling(root: Table, path: ConfigPath, target: Path)
    requires InSpotifyScope(path.canonical)
    ensures var first := FirstBy(Masked(root, path, target), [path.canonical] + FlatSpellings(path.canonical));
      var all := FirstBy(Masked(root, path, target), Spellings(path));
      if first.Some? then all == first else all == None <==> NothingElsewhere(root, path, target)
  {
    hide ScalarAt, FlatSpellings, ConfigEdit.Eligible;
    var look := Masked(root, path, target);
    var first := [path.canonical] + FlatSpellings(path.canonical);
    var rest := Spellings(path)[|first|..];
    assert Spellings(path) == first + rest;
    FirstInTwo(look, first, rest);
    FirstIsNone(look, first);
    FirstIsNone(look, rest);
    assert forall c :: c in Spellings(path) <==> c in first || c in rest;
  }

  /** A setting of the Spotify provider is read at its target and then at its flat
      spellings, in order, exactly where these hold something or nothing else does. */
  lemma ReadsTargetThenFlatsIff(root: Table, path: ConfigPath, target: Path)
    requires ResolveDocumentPath(root, path) == Ok(target) && InSpotifyScope(path.canonical)
    ensures var first := OrElse(ScalarAt(root, target), FirstBy(At(root), FlatSpellings(path.canonical)));
      ConfigEdit.GetValue(root, path) == Ok(first) <==> first.Some? || NothingElsewhere(root, path, target)
  {
    hide ScalarAt, FlatSpellings, ResolveDocumentPath, Spellings, Masked, At, NothingElsewhere;
    var spelled := Deduplicated(Spellings(path));
    var kept := ConfigEdit.Filtered(spelled, path, target);
    FirstScalarIs(root, ConfigEdit.ReadOrder(path, target));
    FirstOfDeduplicated(At(root), [target] + kept);
    FirstInTwo(At(root), [target], kept);
    FirstScalarIs(root, kept);
    FirstOfFiltered(root, path, target, spelled);
    FirstOfDeduplicated(Masked(root, path, target), Spellings(path));
    FirstSpelling(root, path, target);
    CanonicalAndFlats(root, path, target);
    assert FirstBy(At(root), [target]) == ScalarAt(root, target) by {
      OnePlace(root, target);
    }
  }

  lemma OnePlace(root: Table, place: Path)
    ensures FirstBy(At(root), [place]) == ScalarAt(root, place)
  {
    hide ScalarAt;
    assert [place][1..] == [];
  }

  // ---- Player settings ----

  lemma PlayerLeaves(node: Node, key: string)
    requires PlayerOk(node) && key in PLAYER_KEYS && key in node.entries
    ensures node.entries[key].Leaf?
  {
  }

  lemma PlayerAfterFill(spotify: Table, extra: Table)
    requires TableOrAbsent(spotify, PLAYER)
    ensures Entries(FillPlayer(spotify, extra), PLAYER) == Fill(Entries(spotify, PLAYER), extra)
    ensures TableOrAbsent(FillPlayer(spotify, extra), PLAYER)
  {
    var own := Entries(spotify, PLAYER);
    if extra == map[] {
      assert Fill(own, extra) == own;
    }
  }

  lemma FillLookup(table: Table, extra: Table, key: string)
    ensures ItemAt(Fill(table, extra), [key]) == OrElse(ItemAt(table, [key]), ItemAt(extra, [key]))
  {
    ItemAt1(table, key);
    ItemAt1(extra, key);
    ItemAt1(Fill(table, extra), key);
  }

  lemma EntriesAfterFill(table: Table, extra: Table, key: string)
    requires key !in extra
    ensures Entries(Fill(table, extra), key) == Entries(table, key)
    ensures TableOrAbsent(table, key) ==> TableOrAbsent(Fill(table, extra), key)
  {
  }

  lemma FilledPlayerItem(spotify: Table, flat: Table, player: Table, device: Table, key: string)
    requires TableOrAbsent(spotify, PLAYER) && PLAYER !in flat
    ensures var kind: Table := map[TYPE := Leaf(Text(SPOTIFY))];
      ItemAt(Fill(FillPlayer(FillPlayer(Fill(spotify, flat), player), device), kind), [PLAYER, key]) ==
      OrElse(OrElse(ItemAt(spotify, [PLAYER, key]), ItemAt(player, [key])), ItemAt(device, [key]))
  {
    KeyLists();
    hide ItemAt, Fill, FillPlayer, TableOrAbsent;
    var kind: Table := map[TYPE := Leaf(Text(SPOTIFY))];
    var a := Fill(spotify, flat);
    EntriesAfterFill(spotify, flat, PLAYER);
    PlayerAfterFill(a, player);
    var b := FillPlayer(a, player);
    PlayerAfterFill(b, device);
    var c := FillPlayer(b, device);
    EntriesAfterFill(c, kind, PLAYER);
    var own := Entries(spotify, PLAYER);
    ItemAt2(spotify, PLAYER, key);
    ItemAt2(Fill(c, kind), PLAYER, key);
    FillLookup(Fill(own, player), device, key);
    FillLookup(own, player, key);
  }

  lemma RestrictLookup(table: Table, keys: set<string>, key: string)
    ensures ItemAt(Restrict(table, keys), [key]) == if key in keys then ItemAt(table, [key]) else None
  {
    ItemAt1(Restrict(table, keys), key);
    ItemAt1(table, key);
  }

  /** A player setting of the Spotify provider, in a document with legacy keys: its own,
      else the one in `player`, else, for the device name, the one in `spotifyd`. */
  lemma LoadedPlayerItem(root: Table, target: string, key: string)
    requires LoadTree(root, NO_ENV).Ok? && HasLegacy(root) && EditTarget(root) == Ok(target) && key in PLAYER_KEYS
    ensures target in LoadTree(root, NO_ENV).value.providers
    ensures var item := OrElse(OrElse(ItemAt(root, [PROVIDERS, target, PLAYER, key]), ItemAt(root, [PLAYER, key])),
                               if key == DEVICE_NAME then ItemAt(root, [SPOTIFYD, DEVICE_NAME]) else None);
      && (item.Some? ==> item.value.Leaf?)
      && ScalarAt(LoadTree(root, NO_ENV).value.providers[target], [PLAYER, key]) == ScalarOf(item)
  {
    hide LoadTree, HasLegacy, EditTarget, ResolveProviders, DecodeSections, MergeLegacy, MergeEnv, CheckProviders, DefaultOf,
      ChecksPass, MergedSpotify, LoadTarget, Shaped, ViewOf, ItemAt, ScalarAt, SameButEmptyPlayer, ValidProviderId, ProviderOk,
      FillPlayer, Fill, Restrict, FinalValues;
    LoadsIffParts(root, NO_ENV);
    LoadedIsShaped(root, target);
    var all, legacy, final := LoadParts(root, NO_ENV);
    NothingInTheEnvironment(legacy.0, DefaultOf(all).value, NO_ENV);
    var view := ViewOf(root, target);
    var merged := MergedSpotify(root, view.spotify).value;
    MergeMatchesMoves(root, target);
    var filled := CompletedView(MovedView(view), target).spotify;
    ScalarsAgree(merged, filled, [PLAYER, key]);
    ViewParts(root, target);
    FlatHasNoPlayer(root);
    FilledPlayerItem(view.spotify, view.flat, Restrict(view.player, PLAYER_KEYS), Restrict(view.spotifyd, {DEVICE_NAME}), key);
    RestrictLookup(view.player, PLAYER_KEYS, key);
    RestrictLookup(view.spotifyd, {DEVICE_NAME}, key);
    ItemAt4(root, PROVIDERS, target, PLAYER, key);
    ItemAt2(view.spotify, PLAYER, key);
    ItemAt2(root, PLAYER, key);
    ItemAt2(root, SPOTIFYD, DEVICE_NAME);
    var item := ItemAt(filled, [PLAYER, key]);
    MergedIsSpotify(root, target, all, legacy, final);
    PlayerItemIsALeaf(target, merged, filled, key);
    ScalarOfItem(filled, [PLAYER, key]);
  }

  function ScalarOf(item: Option<Node>): (r: Option<Scalar>)
  {
    match item
    case Some(Leaf(value)) => Some(value)
    case _ => None
  }

  lemma ScalarOfItem(table: Table, path: Path)
    ensures ScalarAt(table, path) == ScalarOf(ItemAt(table, path))
  {
  }

  lemma FlatHasNoPlayer(root: Table)
    ensures PLAYER !in Restrict(root, ROOT_KEYS)
  {
    NamesDiffer();
  }

  lemma MergedIsSpotify(root: Table, target: string, all: Table, legacy: (Table, set<Warning>), final: Table)
    requires HasLegacy(root) && LoadTarget(all - {DEFAULT}) == Ok(target) && MergeLegacy(root, all - {DEFAULT}) == Ok(legacy)
    requires DefaultOf(all).Ok? && MergeEnv(legacy.0, DefaultOf(all).value, NO_ENV) == Ok(final) && ChecksPass(final)
    requires final == legacy.0
    ensures target in final && ProviderOk(target, final[target]) && TrimmedKind(final[target]) == Some(SPOTIFY)
  {
    hide HasLegacy, LoadTarget, MergeLegacy, MergeEnv, DefaultOf, ProviderOk;
    MergedTargetIsSpotify(root, all - {DEFAULT}, DefaultOf(all).value, NO_ENV);
    ExactIsTrimmed(final[target]);
  }

  lemma PlayerItemIsALeaf(id: string, merged: Table, filled: Table, key: string)
    requires ProviderOk(id, Branch(merged)) && TrimmedKind(Branch(merged)) == Some(SPOTIFY) && SameButEmptyPlayer(merged, filled)
    requires key in PLAYER_KEYS
    ensures ItemAt(filled, [PLAYER, key]).Some? ==> ItemAt(filled, [PLAYER, key]).value.Leaf?
  {
    hide ValidProviderId, TrimmedKind;
    ItemAt2(filled, PLAYER, key);
    ItemAt1(Entries(filled, PLAYER), key);
    if PLAYER in filled && filled[PLAYER].Branch? && key in filled[PLAYER].entries {
      assert merged == filled;
      PlayerLeaves(merged[PLAYER], key);
    }
  }

  // ---- Reading and loading agree ----

  /** What a load holds for a setting of a provider, if it has that provider. */
  function Held(loaded: Loaded, id: string, path: Path): (r: Option<Scalar>)
  {
    if id in loaded.providers then ScalarAt(loaded.providers[id], path) else None
  }

  /** Without legacy keys a load holds what the document holds. */
  lemma QuietLoadHolds(root: Table, id: string, path: Path)
    requires LoadTree(root, NO_ENV).Ok? && !HasLegacy(root) && path != []
    ensures Held(LoadTree(root, NO_ENV).value, id, path) == ScalarAt(root, [PROVIDERS, id] + path)
  {
    hide LoadTree, HasLegacy, DecodeSections, Repair, MergeLegacy, MergeEnv, CheckProviders, ChecksPass;
    var all, legacy, final := LoadParts(root, NO_ENV);
    NothingInTheEnvironment(legacy.0, DefaultOf(all).value, NO_ENV);
    QuietMerge(root, all);
    assert [PROVIDERS, id] + path == [PROVIDERS] + ([id] + path);
    ItemUnder(root, PROVIDERS, [id] + path);
    ItemUnder(all, id, path);
    assert ItemAt(map[], path) == None;
    if id == DEFAULT || id !in all {
      assert Entries(all, id) == map[];
    } else {
      assert final[id] == all[id] && Entries(final, id) == Entries(all, id);
    }
  }

  lemma ItemUnder(table: Table, key: string, rest: Path)
    requires rest != []
    ensures ItemAt(table, [key] + rest) == ItemAt(Entries(table, key), rest)
  {
    assert ([key] + rest)[0] == key && ([key] + rest)[1..] == rest;
  }

  lemma NoLegacyNoPlayer(root: Table, key: string)
    requires !HasLegacy(root) && key in PLAYER_KEYS
    ensures ItemAt(root, [PLAYER, key]) == None && ItemAt(root, [SPOTIFYD, DEVICE_NAME]) == None
  {
    ItemAt2(root, PLAYER, key);
    ItemAt1(Entries(root, PLAYER), key);
    ItemAt2(root, SPOTIFYD, DEVICE_NAME);
    ItemAt1(Entries(root, SPOTIFYD), DEVICE_NAME);
    assert key in Entries(root, PLAYER) ==> key in Entries(root, PLAYER).Keys * (PLAYER_KEYS + {EVENT_HOOK});
  }

  lemma NoLegacyNoFlatKey(root: Table, key: string)
    requires !HasLegacy(root) && key in ROOT_KEYS
    ensures ItemAt(root, [key]) == None
  {
    ItemAt1(root, key);
    assert key in root ==> key in root.Keys * ROOT_KEYS;
  }

  lemma PlayerFlats(root: Table, key: string)
    requires key in PLAYER_KEYS
    ensures FirstBy(At(root), FlatSpellings([PROVIDERS, SPOTIFY, PLAYER, key])) ==
      OrElse(ScalarAt(root, [PLAYER, key]), if key == DEVICE_NAME then ScalarAt(root, [SPOTIFYD, DEVICE_NAME]) else None)
  {
    hide ScalarAt;
    var canonical := [PROVIDERS, SPOTIFY, PLAYER, key];
    NamesDiffer();
    assert canonical[..3] == [PROVIDERS, SPOTIFY, PLAYER] && canonical[3..] == [key];
    assert [PLAYER] + [key] == [PLAYER, key];
    OnePlace(root, [PLAYER, key]);
    if key == DEVICE_NAME {
      OnePlace(root, [SPOTIFYD, DEVICE_NAME]);
      FirstInTwo(At(root), [[PLAYER, DEVICE_NAME]], [[SPOTIFYD, DEVICE_NAME]]);
      assert FlatSpellings(canonical) == [[PLAYER, DEVICE_NAME]] + [[SPOTIFYD, DEVICE_NAME]];
    }
  }

  /** Reading a player setting of the Spotify provider, by whatever path leads there,
      finds what a load holds for it, exactly where the load holds something or no
      other spelling does: in every document that loads. */
  lemma PlayerReadsWhatLoadsIff(root: Table, path: ConfigPath, target: string, key: string)
    requires LoadTree(root, NO_ENV).Ok? && EditTarget(root) == Ok(target) && key in PLAYER_KEYS
    requires path.canonical == [PROVIDERS, SPOTIFY, PLAYER, key]
    requires ResolveDocumentPath(root, path) == Ok([PROVIDERS, target, PLAYER, key])
    ensures var held := Held(LoadTree(root, NO_ENV).value, target, [PLAYER, key]);
      ConfigEdit.GetValue(root, path) == Ok(held) <==> held.Some? || NothingElsewhere(root, path, [PROVIDERS, target, PLAYER, key])
  {
    hide LoadTree, EditTarget, NothingElsewhere, HasLegacy, ConfigEdit.GetValue, ItemAt, FlatSpellings, ScalarAt, ResolveDocumentPath;
    var place := [PROVIDERS, target, PLAYER, key];
    ReadsTargetThenFlatsIff(root, path, place);
    PlayerFlats(root, key);
    ScalarOfItem(root, place);
    ScalarOfItem(root, [PLAYER, key]);
    ScalarOfItem(root, [SPOTIFYD, DEVICE_NAME]);
    if HasLegacy(root) {
      LoadedPlayerItem(root, target, key);
    } else {
      NoLegacyNoPlayer(root, key);
      QuietLoadHolds(root, target, [PLAYER, key]);
      assert [PROVIDERS, target] + [PLAYER, key] == place;
    }
  }

  lemma CredentialFlats(root: Table, key: string)
    requires key in ROOT_KEYS
    ensures FirstBy(At(root), FlatSpellings([PROVIDERS, SPOTIFY, key])) == ScalarAt(root, [key])
  {
    hide ScalarAt;
    var canonical := [PROVIDERS, SPOTIFY, key];
    assert canonical[..2] == [PROVIDERS, SPOTIFY];
    OnePlace(root, [key]);
  }

  lemma LoadedTargetIsSpotify(root: Table, target: string)
    requires LoadTree(root, NO_ENV).Ok? && HasLegacy(root) && EditTarget(root) == Ok(target)
    ensures target in LoadTree(root, NO_ENV).value.providers
    ensures TrimmedKind(Branch(LoadTree(root, NO_ENV).value.providers[target])) == Some(SPOTIFY)
  {
    hide LoadTree, HasLegacy, EditTarget, ResolveProviders, DecodeSections, MergeLegacy, MergeEnv, CheckProviders, DefaultOf,
      ChecksPass, MergedSpotify, LoadTarget, Shaped, ViewOf, ProviderOk, ValidProviderId, TrimmedKind, Repair;
    LoadsIffParts(root, NO_ENV);
    LoadedIsShaped(root, target);
    var all, legacy, final := LoadParts(root, NO_ENV);
    NothingInTheEnvironment(legacy.0, DefaultOf(all).value, NO_ENV);
    MergedIsSpotify(root, target, all, legacy, final);
  }

  /** The provider's own credential is a table, which shadows the flat one from the
      loader and not from a reader. */
  predicate TableShadows(root: Table, target: string, key: string)
  {
    var own := ItemAt(root, [PROVIDERS, target, key]);
    own.Some? && own.value.Branch? && ScalarAt(root, [key]).Some?
  }

  /** The same of a credential, but for one that a table shadows. */
  lemma CredentialReadsWhatLoadsIff(root: Table, path: ConfigPath, target: string, key: string)
    requires LoadTree(root, NO_ENV).Ok? && EditTarget(root) == Ok(target) && key in ROOT_KEYS
    requires path.canonical == [PROVIDERS, SPOTIFY, key] && ResolveDocumentPath(root, path) == Ok([PROVIDERS, target, key])
    ensures var held := Held(LoadTree(root, NO_ENV).value, target, [key]);
      ConfigEdit.GetValue(root, path) == Ok(held) <==>
        held.Some? || (NothingElsewhere(root, path, [PROVIDERS, target, key]) && !TableShadows(root, target, key))
  {
    hide LoadTree, EditTarget, NothingElsewhere, HasLegacy, ConfigEdit.GetValue, ItemAt, FlatSpellings, ScalarAt, ResolveDocumentPath;
    var place := [PROVIDERS, target, key];
    ReadsTargetThenFlatsIff(root, path, place);
    CredentialFlats(root, key);
    ScalarOfItem(root, place);
    ScalarOfItem(root, [key]);
    LoadedCredential(root, target, key);
  }

  /** A credential the load holds: the provider's own item, else the flat one. */
  lemma LoadedCredential(root: Table, target: string, key: string)
    requires LoadTree(root, NO_ENV).Ok? && EditTarget(root) == Ok(target) && key in ROOT_KEYS
    ensures Held(LoadTree(root, NO_ENV).value, target, [key]) ==
      ScalarOf(OrElse(ItemAt(root, [PROVIDERS, target, key]), ItemAt(root, [key])))
  {
    hide EditTarget, HasLegacy, ItemAt, ScalarAt, ResolveProviders, DecodeSections, Repair, Valid, TrimmedKind;
    if HasLegacy(root) {
      LoadedTargetIsSpotify(root, target);
      CredentialPrecedence(root, NO_ENV, target, key);
      NoCredentialInTheEnvironment(key);
      ScalarOfItem(LoadTree(root, NO_ENV).value.providers[target], [key]);
    } else {
      hide LoadTree;
      NoLegacyNoFlatKey(root, key);
      QuietLoadHolds(root, target, [key]);
      assert [PROVIDERS, target] + [key] == [PROVIDERS, target, key];
      ScalarOfItem(root, [PROVIDERS, target, key]);
    }
  }

  lemma NoCredentialInTheEnvironment(key: string)
    ensures EnvFor(NO_ENV, key) == None
  {
  }
}
