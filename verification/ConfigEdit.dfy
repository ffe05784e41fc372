/** Setting, clearing and reading one setting of the document
    (crates/spotuify-config/src/document.rs). */
module ConfigEdit {
  import opened Wrappers
  import opened ConfigTree
  import opened ConfigPath
  import opened ConfigSections
  import opened ConfigLoad

  datatype SetError = NoTarget(target: TargetError) | CannotSet(edit: EditError) | WouldNotLoad(load: LoadError)

  /** A spelling this edit may touch: one that cannot belong to a provider which
      merely happens to be called `spotify`. */
  predicate Eligible(path: ConfigPath, target: Path, candidate: Path)
  {
    target == path.canonical || !InSpotifyScope(candidate)
  }

  function Filtered(candidates: seq<Path>, path: ConfigPath, target: Path): (r: seq<Path>)
    ensures forall c :: c in r <==> c in candidates && Eligible(path, target, c)
  {
    if candidates == [] then []
    else
      assert candidates == [candidates[0]] + candidates[1..];
      (if Eligible(path, target, candidates[0]) then [candidates[0]] else []) + Filtered(candidates[1..], path, target)
  }

  /** The spellings to drop once `target` holds the value. */
  function AliasesToRemove(path: ConfigPath, target: Path): (r: seq<Path>)
    ensures forall c :: c in r <==> c in Spellings(path) && c != target && Eligible(path, target, c)
  {
    AllBut(Filtered(Deduplicated(Spellings(path)), path, target), target)
  }

  function AllBut(candidates: seq<Path>, target: Path): (r: seq<Path>)
    ensures forall c :: c in r <==> c in candidates && c != target
  {
    if candidates == [] then []
    else
      assert candidates == [candidates[0]] + candidates[1..];
      (if candidates[0] != target then [candidates[0]] else []) + AllBut(candidates[1..], target)
  }

  /** The places a reader looks, the target first. */
  function ReadOrder(path: ConfigPath, target: Path): (r: seq<Path>)
    ensures forall c :: c in r <==> c == target || (c in Spellings(path) && Eligible(path, target, c))
    ensures r != [] && r[0] == target
  {
    var places := [target] + Filtered(Deduplicated(Spellings(path)), path, target);
    DeduplicatedKeepsFirst(places);
    Deduplicated(places)
  }

  /** The first scalar among the places. */
  function FirstScalar(root: Table, places: seq<Path>): (r: Option<Scalar>)
  {
    if places == [] then None
    else if ScalarAt(root, places[0]).Some? then ScalarAt(root, places[0])
    else FirstScalar(root, places[1..])
  }

  function GetValue(root: Table, path: ConfigPath): (r: Result<Option<Scalar>, TargetError>)
  {
    var target :- ResolveDocumentPath(root, path);
    Ok(FirstScalar(root, ReadOrder(path, target)))
  }

  function RemoveAll(root: Table, paths: seq<Path>): (r: Table)
    decreases |paths|
  {
    if paths == [] then root else RemoveItem(RemoveAll(root, paths[..|paths| - 1]), paths[|paths| - 1])
  }

  /** The edited document, before it is checked. `None` clears the setting. */
  function Edited(root: Table, path: ConfigPath, target: Path, item: Option<Scalar>): (r: Result<Table, EditError>)
  {
    match item
    case Some(value) =>
      var written :- SetItem(root, target, Leaf(value));
      Ok(RemoveAll(written, AliasesToRemove(path, target)))
    case None => Ok(RemoveAll(root, [target] + AliasesToRemove(path, target)))
  }

  function SetValue(root: Table, path: ConfigPath, item: Option<Scalar>): (r: Result<Table, SetError>)
  {
    match ResolveDocumentPath(root, path)
    case Err(error) => Err(NoTarget(error))
    case Ok(target) =>
      match Edited(root, path, target, item)
      case Err(error) => Err(CannotSet(error))
      case Ok(edited) =>
        match LoadTree(edited, NO_ENV)
        case Err(error) => Err(WouldNotLoad(error))
        case Ok(_) => Ok(edited)
  }

  // ---- Removing spellings ----

  lemma {:induction false} RemoveAllFrame(root: Table, paths: seq<Path>, other: Path)
    requires forall i :: 0 <= i < |paths| ==> !(paths[i] <= other)
    ensures ScalarAt(RemoveAll(root, paths), other) == ScalarAt(root, other)
    decreases |paths|
  {
    if paths != [] {
      RemoveAllFrame(root, paths[..|paths| - 1], other);
      RemoveFrame(RemoveAll(root, paths[..|paths| - 1]), paths[|paths| - 1], other);
    }
  }

  lemma {:induction false} RemoveAllRemoves(root: Table, paths: seq<Path>, i: nat)
    requires i < |paths| && paths[i] != []
    ensures ItemAt(RemoveAll(root, paths), paths[i]) == None
    decreases |paths|
  {
    var before := RemoveAll(root, paths[..|paths| - 1]);
    if i == |paths| - 1 {
      RemoveThenGet(before, paths[i]);
    } else {
      RemoveAllRemoves(root, paths[..|paths| - 1], i);
      RemoveNeverAdds(before, paths[|paths| - 1], paths[i]);
    }
  }

  // ---- Spellings never lead through one another ----

  /** A spelling has its canonical path's length, or starts with a legacy name. */
  lemma SpellingShape(candidate: Path)
    requires candidate != [] && Canonicalize(candidate).Ok?
    ensures var canonical := Canonicalize(candidate).value;
      || (|candidate| == |canonical| && (canonical[0] == PROVIDERS && |canonical| > 2 ==>
            candidate[0] == PROVIDERS && Underscored(candidate[2]) == canonical[2]))
      || (candidate[0] != PROVIDERS && candidate[0] != ANALYTICS && canonical[0] in {PROVIDERS, ANALYTICS})
  {
    NamesAreNormal();
    NamesDiffer();
    var normalized := UnderscoredAll(candidate);
    assert normalized[0] == Underscored(candidate[0]);
    if |normalized| > 2 && normalized[0] == PROVIDERS {
      OneSpelling(candidate[0], PROVIDERS);
      assert normalized[2] == Underscored(candidate[2]);
    }
  }

  /** Every spelling of a parsed path canonicalises somewhere of the same shape. */
  lemma SpellingsCanonicalize(segments: Path, candidate: Path)
    requires Parse(segments).Ok? && candidate in Spellings(Parse(segments).value)
    ensures candidate != [] && Canonicalize(candidate).Ok?
    ensures var canonical := Parse(segments).value.canonical;
      Canonicalize(candidate).value == canonical
      || (canonical == EVENT_HOOK_PATH && candidate[0] != PROVIDERS)
  {
    var path := Parse(segments).value;
    var plain := SpellingsAre(path, candidate);
    CanonicalizeIsIdempotent(segments);
    SpellingChangesCancel(plain);
    CanonicalizeIgnoresHyphens(candidate, plain);
    if path.canonical == EVENT_HOOK_PATH {
      if plain in FlatSpellings(path.canonical) {
        FlatSpellingsCanonicalizeBack(path.canonical, plain);
        assert plain == [PLAYER, EVENT_HOOK];
        assert Hyphenated(PLAYER) == PLAYER;
      }
    } else {
      PlainSpellingCanonicalizesBack(segments, plain);
    }
    assert plain != [];
  }

  lemma TargetShape(root: Table, path: ConfigPath, target: Path)
    requires ResolveDocumentPath(root, path) == Ok(target)
    ensures |target| == |path.canonical|
    ensures path.canonical != [] ==> target[0] == path.canonical[0]
    ensures |path.canonical| > 2 ==> target[2..] == path.canonical[2..]
    ensures !IsLegacyProviderAlias(path) ==> target == path.canonical
  {
    hide EditTarget;
  }

  /** No other spelling is the target or a table on the way to it. */
  lemma SpellingsMissTheTarget(root: Table, segments: Path, target: Path, candidate: Path)
    requires Parse(segments).Ok? && ResolveDocumentPath(root, Parse(segments).value) == Ok(target)
    requires candidate in Spellings(Parse(segments).value) && candidate != target
    ensures !(candidate <= target)
  {
    hide Canonicalize, ResolveDocumentPath;
    TargetShape(root, Parse(segments).value, target);
    SpellingsCanonicalize(segments, candidate);
    SpellingShape(candidate);
  }

  /** A credential or a player setting of the Spotify provider: what legacy aliases mean. */
  predicate SpotifySetting(canonical: Path)
  {
    InSpotifyScope(canonical) && (canonical[2] in ROOT_KEYS || (canonical[2] == PLAYER && |canonical| > 3))
  }

  lemma LegacyMeansCredentialOrPlayer(segments: Path)
    requires Parse(segments).Ok? && IsLegacyProviderAlias(Parse(segments).value)
    ensures SpotifySetting(Parse(segments).value.canonical)
  {
    LegacyAliasIff(segments);
    var normalized := UnderscoredAll(segments);
    assert normalized[0] == Underscored(segments[0]);
    NamesAreNormal();
  }

  /** An edit of such a setting leaves every provider's type alone. */
  lemma SpellingsMissTypes(segments: Path, candidate: Path, id: string)
    requires Parse(segments).Ok? && SpotifySetting(Parse(segments).value.canonical)
    requires candidate in Spellings(Parse(segments).value)
    ensures !(candidate <= [PROVIDERS, id, TYPE])
  {
    SpellingsCanonicalize(segments, candidate);
    SpellingShape(candidate);
    hide Canonicalize;
    assert Underscored(TYPE) == TYPE;
    assert TYPE !in ROOT_KEYS && TYPE != PLAYER;
  }

  // ---- The target depends on the provider types only ----

  function TypeAt(root: Table, id: string): (r: Option<string>)
  {
    match ScalarAt(root, [PROVIDERS, id, TYPE])
    case Some(Text(kind)) => Some(kind)
    case _ => None
  }

  lemma TypesAreKinds(root: Table, id: string)
    requires PROVIDERS in root && root[PROVIDERS].Branch?
    ensures TypeAt(root, id) == if id in root[PROVIDERS].entries then KindOf(root[PROVIDERS].entries[id]) else None
  {
    assert [PROVIDERS, id, TYPE][1..] == [id, TYPE] && [id, TYPE][1..] == [TYPE];
    var providers := root[PROVIDERS].entries;
    assert ItemAt(root, [PROVIDERS, id, TYPE]) == ItemAt(providers, [id, TYPE]);
    if id in providers && providers[id].Branch? {
      assert ItemAt(providers, [id, TYPE]) == ItemAt(providers[id].entries, [TYPE]);
    }
  }

  lemma NoProvidersNoTypes(root: Table, id: string)
    requires PROVIDERS !in root || root[PROVIDERS].Leaf?
    ensures TypeAt(root, id) == None
  {
  }

  /** The editor's rule, read off the types. */
  lemma EditTargetFromTypes(root: Table, ids: set<string>)
    requires forall id :: id in ids <==> TypeAt(root, id) == Some(SPOTIFY)
    ensures EditTarget(root) ==
      if SPOTIFY in ids then Ok(SPOTIFY)
      else if |ids| == 1 then Ok(TheOne(ids))
      else if |ids| > 1 then Err(Ambiguous)
      else if TypeAt(root, SPOTIFY).Some? then Err(Conflict)
      else Ok(SPOTIFY)
  {
    if PROVIDERS !in root || root[PROVIDERS].Leaf? {
      forall id ensures id !in ids {
        NoProvidersNoTypes(root, id);
      }
      NoProvidersNoTypes(root, SPOTIFY);
      assert ids == {};
    } else {
      var providers := root[PROVIDERS].entries;
      forall id ensures id in ids <==> id in SpotifyIds(providers) {
        TypesAreKinds(root, id);
      }
      assert ids == SpotifyIds(providers);
      TypesAreKinds(root, SPOTIFY);
    }
  }

  function TypedIds(root: Table): (r: set<string>)
  {
    SpotifyIds(Entries(root, PROVIDERS))
  }

  lemma SameTypesSameTarget(a: Table, b: Table)
    requires forall id :: TypeAt(a, id) == TypeAt(b, id)
    ensures EditTarget(a) == EditTarget(b)
  {
    hide EditTarget, TypeAt;
    var ids := TypedIds(a);
    forall id ensures id in ids <==> TypeAt(a, id) == Some(SPOTIFY) {
      if PROVIDERS in a && a[PROVIDERS].Branch? {
        TypesAreKinds(a, id);
      } else {
        NoProvidersNoTypes(a, id);
      }
    }
    EditTargetFromTypes(a, ids);
    EditTargetFromTypes(b, ids);
  }

  // ---- The theorems ----

  /** The paths an edit writes or removes. */
  function TouchedPaths(path: ConfigPath, target: Path): (r: seq<Path>)
  {
    [target] + AliasesToRemove(path, target)
  }

  /** Every scalar that is not at or under the target or a removed spelling is
      exactly what it was. */
  lemma EditFrame(root: Table, path: ConfigPath, item: Option<Scalar>, target: Path, other: Path)
    requires SetValue(root, path, item).Ok? && ResolveDocumentPath(root, path) == Ok(target)
    requires forall i :: 0 <= i < |TouchedPaths(path, target)| ==> !(TouchedPaths(path, target)[i] <= other)
    ensures ScalarAt(SetValue(root, path, item).value, other) == ScalarAt(root, other)
  {
    hide LoadTree, ResolveDocumentPath, AliasesToRemove, ScalarAt, SetItem;
    var touched := TouchedPaths(path, target);
    assert touched[0] == target;
    if item.Some? {
      var written := SetItem(root, target, Leaf(item.value)).value;
      SetFrame(root, target, Leaf(item.value), other);
      var aliases := AliasesToRemove(path, target);
      assert forall i :: 0 <= i < |aliases| ==> aliases[i] == touched[i + 1];
      RemoveAllFrame(written, aliases, other);
    } else {
      RemoveAllFrame(root, touched, other);
    }
  }

  /** A path keeps its target across an edit of that path, in whatever spelling. */
  lemma TargetIsStable(root: Table, segments: Path, other: Path, item: Option<Scalar>)
    requires Parse(segments).Ok? && SetValue(root, Parse(segments).value, item).Ok?
    requires Parse(other).Ok? && Parse(other).value.canonical == Parse(segments).value.canonical
    ensures ResolveDocumentPath(SetValue(root, Parse(segments).value, item).value, Parse(other).value)
         == ResolveDocumentPath(root, Parse(other).value)
  {
    hide LoadTree, EditTarget, Edited, Parse, IsLegacyProviderAlias, SpotifySetting;
    var path := Parse(segments).value;
    if IsLegacyProviderAlias(Parse(other).value) {
      LegacyMeansCredentialOrPlayer(other);
      var edited := SetValue(root, path, item).value;
      forall id ensures TypeAt(edited, id) == TypeAt(root, id) {
        TypesSurvive(root, segments, item, id);
      }
      SameTypesSameTarget(edited, root);
    }
  }

  lemma TypesSurvive(root: Table, segments: Path, item: Option<Scalar>, id: string)
    requires Parse(segments).Ok? && SpotifySetting(Parse(segments).value.canonical)
    requires SetValue(root, Parse(segments).value, item).Ok?
    ensures TypeAt(SetValue(root, Parse(segments).value, item).value, id) == TypeAt(root, id)
  {
    hide LoadTree, EditTarget, SetValue, ScalarAt, Parse;
    var path := Parse(segments).value;
    var target := SetHasTarget(root, path, item);
    TargetShape(root, path, target);
    assert TYPE !in ROOT_KEYS && TYPE != PLAYER;
    assert target[2] == target[2..][0] == path.canonical[2];
    var touched := TouchedPaths(path, target);
    forall i | 0 <= i < |touched|
      ensures !(touched[i] <= [PROVIDERS, id, TYPE])
    {
      if i > 0 {
        assert touched[i] in AliasesToRemove(path, target);
        SpellingsMissTypes(segments, touched[i], id);
      }
    }
    EditFrame(root, path, item, target, [PROVIDERS, id, TYPE]);
  }

  lemma SetHasTarget(root: Table, path: ConfigPath, item: Option<Scalar>) returns (target: Path)
    requires SetValue(root, path, item).Ok?
    ensures ResolveDocumentPath(root, path) == Ok(target)
    ensures Edited(root, path, target, item) == Ok(SetValue(root, path, item).value)
  {
    hide LoadTree, EditTarget, Edited;
    target := ResolveDocumentPath(root, path).value;
  }

  /** What was set is what is read, by the same path. */
  lemma SetThenGetValue(root: Table, segments: Path, value: Scalar)
    requires Parse(segments).Ok? && SetValue(root, Parse(segments).value, Some(value)).Ok?
    ensures var path := Parse(segments).value;
      GetValue(SetValue(root, path, Some(value)).value, path) == Ok(Some(value))
  {
    hide LoadTree, EditTarget, SetValue, ScalarAt, Parse, ResolveDocumentPath;
    TargetIsStable(root, segments, segments, Some(value));
    TargetHoldsTheValue(root, segments, value);
  }

  lemma TargetHoldsTheValue(root: Table, segments: Path, value: Scalar)
    requires Parse(segments).Ok? && SetValue(root, Parse(segments).value, Some(value)).Ok?
    ensures var path := Parse(segments).value;
      && ResolveDocumentPath(root, path).Ok?
      && ScalarAt(SetValue(root, path, Some(value)).value, ResolveDocumentPath(root, path).value) == Some(value)
  {
    hide LoadTree, EditTarget, SetValue, ScalarAt, Parse, ResolveDocumentPath;
    var path := Parse(segments).value;
    var target := SetHasTarget(root, path, Some(value));
    var written := SetItem(root, target, Leaf(value)).value;
    var aliases := AliasesToRemove(path, target);
    SetThenGet(root, target, Leaf(value));
    assert ScalarAt(written, target) == Some(value) by { ScalarOf(written, target, value); }
    forall i | 0 <= i < |aliases|
      ensures !(aliases[i] <= target)
    {
      assert aliases[i] in aliases;
      SpellingsMissTheTarget(root, segments, target, aliases[i]);
    }
    RemoveAllFrame(written, aliases, target);
  }

  lemma ScalarOf(root: Table, path: Path, value: Scalar)
    requires ItemAt(root, path) == Some(Leaf(value))
    ensures ScalarAt(root, path) == Some(value)
  {
  }

  /** After a clear, reading by the same path finds nothing, in any of its places. */
  lemma ClearThenGetNothing(root: Table, segments: Path)
    requires Parse(segments).Ok? && SetValue(root, Parse(segments).value, None).Ok?
    ensures var path := Parse(segments).value;
      GetValue(SetValue(root, path, None).value, path) == Ok(None)
  {
    hide LoadTree, EditTarget, SetValue, ScalarAt, ResolveDocumentPath, Parse;
    var path := Parse(segments).value;
    var target := SetHasTarget(root, path, None);
    TargetIsStable(root, segments, segments, None);
    TargetShape(root, path, target);
    var edited := SetValue(root, path, None).value;
    var touched := TouchedPaths(path, target);
    var places := ReadOrder(path, target);
    forall i | 0 <= i < |places|
      ensures ScalarAt(edited, places[i]) == None
    {
      assert places[i] in places;
      assert places[i] in touched;
      var k :| 0 <= k < |touched| && touched[k] == places[i];
      NonemptyPlace(root, segments, target, places[i]);
      RemoveAllRemoves(root, touched, k);
      assert ScalarAt(edited, places[i]) == None by { NoItemNoScalar(edited, places[i]); }
    }
    NoScalars(edited, places);
  }

  lemma NonemptyPlace(root: Table, segments: Path, target: Path, place: Path)
    requires Parse(segments).Ok? && ResolveDocumentPath(root, Parse(segments).value) == Ok(target)
    requires place == target || place in Spellings(Parse(segments).value)
    ensures place != []
  {
    hide EditTarget, Parse, Canonicalize;
    if place in Spellings(Parse(segments).value) {
      SpellingsCanonicalize(segments, place);
    } else {
      SpellingsCanonicalize(segments, Parse(segments).value.canonical);
      TargetShape(root, Parse(segments).value, target);
    }
  }

  lemma NoItemNoScalar(root: Table, path: Path)
    requires ItemAt(root, path) == None
    ensures ScalarAt(root, path) == None
  {
  }

  lemma {:induction false} NoScalars(root: Table, places: seq<Path>)
    requires forall i :: 0 <= i < |places| ==> ScalarAt(root, places[i]) == None
    ensures FirstScalar(root, places) == None
  {
    if places != [] {
      NoScalars(root, places[1..]);
    }
  }

  // ---- Other spellings ----

  /** Two spellings of one path resolve alike, unless exactly one of them is a
      legacy alias and the Spotify provider has another name. */
  lemma SpellingsResolve(root: Table, segments: Path, other: Path, target: Path, otherTarget: Path)
    requires Parse(segments).Ok? && Parse(other).Ok? && Parse(other).value.canonical == Parse(segments).value.canonical
    requires ResolveDocumentPath(root, Parse(segments).value) == Ok(target)
    requires ResolveDocumentPath(root, Parse(other).value) == Ok(otherTarget)
    ensures var canonical := Parse(segments).value.canonical;
      target == otherTarget
      || (SpotifySetting(canonical) && |target| == |otherTarget| == |canonical| && target[0] == PROVIDERS
          && ((target == canonical && otherTarget[1] != SPOTIFY) || (otherTarget == canonical && target[1] != SPOTIFY)))
  {
    hide EditTarget, Parse, IsLegacyProviderAlias;
    var path, second := Parse(segments).value, Parse(other).value;
    if IsLegacyProviderAlias(path) {
      LegacyMeansCredentialOrPlayer(segments);
    }
    if IsLegacyProviderAlias(second) {
      LegacyMeansCredentialOrPlayer(other);
    }
    if InSpotifyScope(path.canonical) {
      assert path.canonical == [PROVIDERS, SPOTIFY] + path.canonical[2..];
    }
  }

  lemma SpotifyHasOneSpelling(name: string)
    requires Hyphenated(Underscored(name)) == SPOTIFY
    ensures name == SPOTIFY
  {
    NamesAreNormal();
    var plain := Underscored(name);
    forall i | 0 <= i < |name|
      ensures name[i] == SPOTIFY[i]
    {
      assert Hyphenated(plain)[i] == SPOTIFY[i];
    }
  }

  /** A spelling under `providers` names the provider `spotify`. */
  lemma ScopedSpellingsAreSpotify(segments: Path, candidate: Path)
    requires Parse(segments).Ok? && InSpotifyScope(Parse(segments).value.canonical)
    requires candidate in Spellings(Parse(segments).value) && candidate[..1] == [PROVIDERS]
    ensures |candidate| == |Parse(segments).value.canonical| && candidate[1] == SPOTIFY
  {
    SpellingsCanonicalize(segments, candidate);
    SpellingShape(candidate);
    NamesAreNormal();
    SpotifyHasOneSpelling(candidate[1]);
  }

  /** A reader with another target never looks where the value was put, nor under it. */
  lemma OtherTargetMissesTheValue(root: Table, segments: Path, other: Path, target: Path, otherTarget: Path, place: Path)
    requires Parse(segments).Ok? && Parse(other).Ok? && Parse(other).value.canonical == Parse(segments).value.canonical
    requires ResolveDocumentPath(root, Parse(segments).value) == Ok(target)
    requires ResolveDocumentPath(root, Parse(other).value) == Ok(otherTarget) && otherTarget != target
    requires place in ReadOrder(Parse(other).value, otherTarget)
    ensures !(target <= place)
  {
    hide ResolveDocumentPath, Parse, ReadOrder, Canonicalize, Spellings;
    SpellingsResolve(root, segments, other, target, otherTarget);
    NonemptyPlace(root, segments, target, target);
    assert place[..|place|] == place;
    if place != [] && place != otherTarget && place[..1] == [PROVIDERS] {
      ScopedSpellingsAreSpotify(other, place);
      assert Eligible(Parse(other).value, otherTarget, place);
    }
  }

  lemma {:induction false} NothingUnderNothing(table: Table, path: Path, other: Path)
    requires path != [] && path <= other && ItemAt(table, path) == None
    ensures ItemAt(table, other) == None
    decreases |path|
  {
    if path[0] in table && |path| > 1 && table[path[0]].Branch? {
      NothingUnderNothing(table[path[0]].entries, path[1..], other[1..]);
    }
  }

  /** What a removal of spellings leaves at a place depends only on what was there. */
  lemma RemovalsAgree(a: Table, b: Table, paths: seq<Path>, place: Path)
    requires ScalarAt(a, place) == ScalarAt(b, place)
    requires forall i :: 0 <= i < |paths| ==> paths[i] != []
    ensures ScalarAt(RemoveAll(a, paths), place) == ScalarAt(RemoveAll(b, paths), place)
  {
    if i :| 0 <= i < |paths| && paths[i] <= place {
      RemoveAllRemoves(a, paths, i);
      RemoveAllRemoves(b, paths, i);
      NothingUnderNothing(RemoveAll(a, paths), paths[i], place);
      NothingUnderNothing(RemoveAll(b, paths), paths[i], place);
    } else {
      RemoveAllFrame(a, paths, place);
      RemoveAllFrame(b, paths, place);
    }
  }

  lemma {:induction false} SameScalarsSameFirst(a: Table, b: Table, places: seq<Path>)
    requires forall i :: 0 <= i < |places| ==> ScalarAt(a, places[i]) == ScalarAt(b, places[i])
    ensures FirstScalar(a, places) == FirstScalar(b, places)
  {
    hide ScalarAt;
    if places != [] {
      SameScalarsSameFirst(a, b, places[1..]);
    }
  }

  /** Another spelling of the path reads what was set if and only if it resolves to
      the same target: then it reads the value, and otherwise what it reads does not
      depend on the value at all. */
  lemma OtherSpellingReadsIff(root: Table, segments: Path, other: Path, value: Scalar, instead: Scalar)
    requires Parse(segments).Ok? && Parse(other).Ok? && Parse(other).value.canonical == Parse(segments).value.canonical
    requires SetValue(root, Parse(segments).value, Some(value)).Ok?
    requires SetValue(root, Parse(segments).value, Some(instead)).Ok?
    ensures var path, second := Parse(segments).value, Parse(other).value;
      var read := GetValue(SetValue(root, path, Some(value)).value, second);
      if ResolveDocumentPath(root, second) == ResolveDocumentPath(root, path) then read == Ok(Some(value))
      else read == GetValue(SetValue(root, path, Some(instead)).value, second)
  {
    hide LoadTree, EditTarget, SetValue, ScalarAt, Parse, ResolveDocumentPath, ReadOrder;
    var path, second := Parse(segments).value, Parse(other).value;
    TargetIsStable(root, segments, other, Some(value));
    TargetIsStable(root, segments, other, Some(instead));
    TargetHoldsTheValue(root, segments, value);
    if ResolveDocumentPath(root, second) != ResolveDocumentPath(root, path) && ResolveDocumentPath(root, second).Ok? {
      var places := ReadOrder(second, ResolveDocumentPath(root, second).value);
      var a, b := SetValue(root, path, Some(value)).value, SetValue(root, path, Some(instead)).value;
      forall i | 0 <= i < |places|
        ensures ScalarAt(a, places[i]) == ScalarAt(b, places[i])
      {
        assert places[i] in places;
        PlacesAgree(root, segments, other, value, instead, places[i]);
      }
      SameScalarsSameFirst(a, b, places);
    }
  }

  lemma PlacesAgree(root: Table, segments: Path, other: Path, value: Scalar, instead: Scalar, place: Path)
    requires Parse(segments).Ok? && Parse(other).Ok? && Parse(other).value.canonical == Parse(segments).value.canonical
    requires SetValue(root, Parse(segments).value, Some(value)).Ok?
    requires SetValue(root, Parse(segments).value, Some(instead)).Ok?
    requires ResolveDocumentPath(root, Parse(other).value).Ok?
    requires ResolveDocumentPath(root, Parse(other).value) != ResolveDocumentPath(root, Parse(segments).value)
    requires place in ReadOrder(Parse(other).value, ResolveDocumentPath(root, Parse(other).value).value)
    ensures ScalarAt(SetValue(root, Parse(segments).value, Some(value)).value, place)
         == ScalarAt(SetValue(root, Parse(segments).value, Some(instead)).value, place)
  {
    hide LoadTree, EditTarget, SetValue, ScalarAt, Parse, ResolveDocumentPath, ReadOrder, SetItem, RemoveAll, Eligible, Spellings,
      AliasesToRemove;
    var path := Parse(segments).value;
    var target := SetHasTarget(root, path, Some(value));
    var same := SetHasTarget(root, path, Some(instead));
    OtherTargetMissesTheValue(root, segments, other, target, ResolveDocumentPath(root, Parse(other).value).value, place);
    SetFrame(root, target, Leaf(value), place);
    SetFrame(root, target, Leaf(instead), place);
    var aliases := AliasesToRemove(path, target);
    forall i | 0 <= i < |aliases|
      ensures aliases[i] != []
    {
      assert aliases[i] in aliases;
      NonemptyPlace(root, segments, target, aliases[i]);
    }
    RemovalsAgree(SetItem(root, target, Leaf(value)).value, SetItem(root, target, Leaf(instead)).value, aliases, place);
  }

  /** They do differ: with the Spotify provider called `home`, `client_id` reads its
      credential and `providers.spotify.client_id` reads nothing. */
  lemma RenamedProviderSplitsSpellings(value: Scalar)
    ensures var root := Renamed(value);
      && Parse([CLIENT_ID]).Ok? && Parse([PROVIDERS, SPOTIFY, CLIENT_ID]).Ok?
      && Parse([CLIENT_ID]).value.canonical == Parse([PROVIDERS, SPOTIFY, CLIENT_ID]).value.canonical
      && GetValue(root, Parse([CLIENT_ID]).value) == Ok(Some(value))
      && GetValue(root, Parse([PROVIDERS, SPOTIFY, CLIENT_ID]).value) == Ok(None)
  {
    hide ReadOrder, ResolveDocumentPath, Parse;
    ClientIdParses();
    var root := Renamed(value);
    var flat, scoped := Parse([CLIENT_ID]).value, Parse([PROVIDERS, SPOTIFY, CLIENT_ID]).value;
    RenamedTargets(value);
    var held := [PROVIDERS, HOME, CLIENT_ID];
    assert ScalarAt(root, held) == Some(value) by {
      RenamedHolds(value);
    }
    var places := ReadOrder(scoped, scoped.canonical);
    forall i | 0 <= i < |places|
      ensures ScalarAt(root, places[i]) == None
    {
      assert places[i] in places;
      ScopedPlacesAreEmpty(value, places[i]);
    }
    NoScalars(root, places);
  }

  const HOME := "home"

  function Renamed(value: Scalar): (r: Table)
  {
    map[PROVIDERS := Branch(map[HOME := Branch(map[TYPE := Leaf(Text(SPOTIFY)), CLIENT_ID := Leaf(value)])])]
  }

  lemma RenamedHolds(value: Scalar)
    ensures ScalarAt(Renamed(value), [PROVIDERS, HOME, CLIENT_ID]) == Some(value)
  {
    assert TYPE != CLIENT_ID;
    var providers := Renamed(value)[PROVIDERS].entries;
    var home := providers[HOME].entries;
    assert ItemAt(home, [CLIENT_ID]) == Some(Leaf(value));
    assert [HOME, CLIENT_ID][1..] == [CLIENT_ID] && ItemAt(providers, [HOME, CLIENT_ID]) == Some(Leaf(value));
    assert [PROVIDERS, HOME, CLIENT_ID][1..] == [HOME, CLIENT_ID];
  }

  lemma ClientIdParses()
    ensures Parse([CLIENT_ID]) == Ok(ConfigPath([PROVIDERS, SPOTIFY, CLIENT_ID], Some([CLIENT_ID])))
    ensures Parse([PROVIDERS, SPOTIFY, CLIENT_ID]) == Ok(ConfigPath([PROVIDERS, SPOTIFY, CLIENT_ID], None))
  {
    NamesAreNormal();
    NamesDiffer();
    hide Underscored, Hyphenated, ValidProviderId;
    assert ValidSegment(CLIENT_ID) && ValidSegment(PROVIDERS) && ValidSegment(SPOTIFY);
    assert UnderscoredAll([CLIENT_ID]) == [CLIENT_ID];
    assert UnderscoredAll([PROVIDERS, SPOTIFY, CLIENT_ID]) == [PROVIDERS, SPOTIFY, CLIENT_ID];
  }

  lemma RenamedTargets(value: Scalar)
    ensures ResolveDocumentPath(Renamed(value), ConfigPath([PROVIDERS, SPOTIFY, CLIENT_ID], Some([CLIENT_ID])))
         == Ok([PROVIDERS, HOME, CLIENT_ID])
    ensures ResolveDocumentPath(Renamed(value), ConfigPath([PROVIDERS, SPOTIFY, CLIENT_ID], None))
         == Ok([PROVIDERS, SPOTIFY, CLIENT_ID])
  {
    var entries := Renamed(value)[PROVIDERS].entries;
    assert TYPE != CLIENT_ID && HOME != SPOTIFY;
    assert IsSpotify(entries[HOME]);
    assert SpotifyIds(entries) == {HOME};
    assert TheOne(SpotifyIds(entries)) == HOME;
    var flat := ConfigPath([PROVIDERS, SPOTIFY, CLIENT_ID], Some([CLIENT_ID]));
    assert IsLegacyProviderAlias(flat) && InSpotifyScope(flat.canonical);
    assert EditTarget(Renamed(value)) == Ok(HOME);
    assert [PROVIDERS, HOME] + flat.canonical[2..] == [PROVIDERS, HOME, CLIENT_ID];
  }

  lemma ScopedPlacesAreEmpty(value: Scalar, place: Path)
    requires Parse([PROVIDERS, SPOTIFY, CLIENT_ID]).Ok?
    requires var scoped := Parse([PROVIDERS, SPOTIFY, CLIENT_ID]).value;
      place in ReadOrder(scoped, scoped.canonical)
    ensures ScalarAt(Renamed(value), place) == None
  {
    hide ReadOrder, Parse;
    ClientIdParses();
    assert HOME != SPOTIFY;
    if place != [] && place[0] == PROVIDERS {
      if place != [PROVIDERS, SPOTIFY, CLIENT_ID] {
        ScopedSpellingsAreSpotify([PROVIDERS, SPOTIFY, CLIENT_ID], place);
      }
      assert place[1] == SPOTIFY && place[1..][0] == SPOTIFY;
      assert ItemAt(Renamed(value)[PROVIDERS].entries, place[1..]) == None;
    }
  }

  /** A set also drops every other spelling it may touch, so that none is left to be
      read by the loader or by another program. */
  lemma SetDropsOtherSpellings(root: Table, segments: Path, value: Scalar, target: Path, other: Path)
    requires Parse(segments).Ok? && SetValue(root, Parse(segments).value, Some(value)).Ok?
    requires ResolveDocumentPath(root, Parse(segments).value) == Ok(target)
    requires other in Spellings(Parse(segments).value) && other != target && Eligible(Parse(segments).value, target, other)
    ensures ItemAt(SetValue(root, Parse(segments).value, Some(value)).value, other) == None
  {
    hide LoadTree, EditTarget, SetValue, Parse, ResolveDocumentPath, Spellings, ItemAt, SetItem;
    var path := Parse(segments).value;
    var same := SetHasTarget(root, path, Some(value));
    var aliases := AliasesToRemove(path, target);
    assert other in aliases;
    var i :| 0 <= i < |aliases| && aliases[i] == other;
    NonemptyPlace(root, segments, target, other);
    RemoveAllRemoves(SetItem(root, target, Leaf(value)).value, aliases, i);
  }

  /** A set fails only for a legacy key without one home, a value on its way, or because
      the document it would leave does not load; a clear has nothing on its way. */
  lemma SetValueSucceedsIff(root: Table, segments: Path, item: Option<Scalar>)
    requires Parse(segments).Ok?
    ensures var path := Parse(segments).value;
      var target := ResolveDocumentPath(root, path);
      SetValue(root, path, item).Ok? <==>
        && target.Ok?
        && (item.Some? ==> forall n :: 0 < n < |target.value| ==> ScalarAt(root, target.value[..n]) == None)
        && Edited(root, path, target.value, item).Ok?
        && LoadTree(Edited(root, path, target.value, item).value, NO_ENV).Ok?
    ensures var path := Parse(segments).value;
      var target := ResolveDocumentPath(root, path);
      target.Ok? && (item == None || forall n :: 0 < n < |target.value| ==> ScalarAt(root, target.value[..n]) == None) ==>
        Edited(root, path, target.value, item).Ok?
    ensures ResolveDocumentPath(root, Parse(segments).value).Err? ==>
      IsLegacyProviderAlias(Parse(segments).value) && EditTarget(root).Err?
  {
    hide LoadTree, EditTarget, Parse, ScalarAt, SetItem, AliasesToRemove, IsLegacyProviderAlias;
    var path := Parse(segments).value;
    var target := ResolveDocumentPath(root, path);
    if target.Ok? && item.Some? {
      SetSucceedsIff(root, target.value, Leaf(item.value));
      TargetIsNotBlank(root, segments);
    }
  }

  lemma TargetIsNotBlank(root: Table, segments: Path)
    requires Parse(segments).Ok? && ResolveDocumentPath(root, Parse(segments).value).Ok?
    ensures ResolveDocumentPath(root, Parse(segments).value).value != []
  {
    hide EditTarget, ValidSegment, ValidProviderId, IsLegacyProviderAlias;
  }
}
