/** Migrating a document under overrides of single settings
    (crates/spotuify-config/src/document.rs, crates/spotuify-config/src/model.rs). */
module MigrationOverrides {
  import opened Wrappers
  import opened ConfigTree
  import opened ConfigPath
  import opened ConfigSections
  import opened ConfigLoad
  import opened LoadPrecedence
  import opened Migration
  import opened MigrationPreservesMeaning
  import opened EnvironmentMerge
  import opened EnvironmentLoads
  import ConfigEdit

  /** An override that neither changes which provider is Spotify's, nor replaces a
      table a legacy key may be in or move into, nor goes into a value that one may
      become. */
  predicate Gentle(target: string, path: Path, value: Node)
  {
    path != [] &&
    if path[0] == PROVIDERS then
      |path| > 1 &&
      if path[1] == target then |path| > 2 && GentleUnder(path[2..], value)
      else if path[1] == DEFAULT then |path| == 2 && value.Leaf?
      else if |path| == 2 then KindOf(value) != Some(SPOTIFY)
      else |path| == 3 && path[2] == TYPE ==> value != Leaf(Text(SPOTIFY))
    else if path[0] == ANALYTICS then |path| > 1 && (|path| == 2 || path[1] != HOOK_COMMAND)
    else if path[0] == SPOTIFYD then |path| > 1 && path[1] != DEVICE_NAME
    else path[0] !in TOUCHED
  }

  /** The same inside the Spotify provider's table. */
  predicate GentleUnder(path: Path, value: Node)
  {
    path != [] &&
    if path[0] == TYPE then |path| == 1 && value == Leaf(Text(SPOTIFY))
    else if path[0] == PLAYER then |path| > 1 && (|path| == 2 || path[1] !in PLAYER_KEYS)
    else |path| == 1 || path[0] !in ROOT_KEYS
  }

  // ---- Insertions and fillings commute ----

  lemma SetUnder(table: Table, key: string, rest: Path, value: Node)
    requires rest != [] && TableOrAbsent(table, key)
    ensures var inner := SetItem(Entries(table, key), rest, value);
      SetItem(table, [key] + rest, value) == if inner.Ok? then Ok(table[key := Branch(inner.value)]) else inner
  {
    assert ([key] + rest)[0] == key && ([key] + rest)[1..] == rest;
  }

  /** An insertion changes the entry of its first key. */
  lemma HeadOnly(table: Table, path: Path, value: Node) returns (node: Node)
    requires SetItem(table, path, value).Ok?
    ensures path != [] && SetItem(table, path, value) == Ok(table[path[0] := node])
    ensures |path| == 1 ==> node == value
    ensures |path| > 1 ==>
      && TableOrAbsent(table, path[0]) && SetItem(Entries(table, path[0]), path[1..], value).Ok?
      && node == Branch(SetItem(Entries(table, path[0]), path[1..], value).value)
  {
    if |path| == 1 {
      node := value;
    } else {
      node := Branch(SetItem(Entries(table, path[0]), path[1..], value).value);
      assert path == [path[0]] + path[1..];
      SetUnder(table, path[0], path[1..], value);
    }
  }

  /** Two tables an insertion cannot tell apart on its way. */
  predicate SameAt(a: Table, b: Table, path: Path)
  {
    path != [] &&
    (|path| == 1 || ((path[0] in a <==> path[0] in b) && (path[0] in a ==> a[path[0]] == b[path[0]])))
  }

  lemma SameHead(a: Table, b: Table, path: Path, value: Node) returns (node: Node)
    requires SameAt(a, b, path)
    ensures SetItem(a, path, value).Ok? <==> SetItem(b, path, value).Ok?
    ensures SetItem(a, path, value).Ok? ==>
      SetItem(a, path, value) == Ok(a[path[0] := node]) && SetItem(b, path, value) == Ok(b[path[0] := node])
  {
    var child := if path[0] in a then a[path[0]] else Branch(map[]);
    node := value;
    if |path| > 1 && child.Branch? && SetItem(child.entries, path[1..], value).Ok? {
      node := Branch(SetItem(child.entries, path[1..], value).value);
    }
  }

  lemma FillSet(table: Table, extra: Table, path: Path, value: Node)
    requires SetItem(table, path, value).Ok? && path != [] && (|path| == 1 || path[0] !in extra)
    ensures SetItem(Fill(table, extra), path, value) == Ok(Fill(SetItem(table, path, value).value, extra))
  {
    hide SetItem;
    var filled := Fill(table, extra);
    var node := SameHead(table, filled, path, value);
    assert Fill(table[path[0] := node], extra) == filled[path[0] := node];
  }

  lemma FillPlayerKeeps(spotify: Table, extra: Table, key: string, node: Node)
    requires key != PLAYER
    ensures FillPlayer(spotify[key := node], extra) == FillPlayer(spotify, extra)[key := node]
    ensures (key in FillPlayer(spotify, extra) <==> key in spotify)
    ensures key in spotify ==> FillPlayer(spotify, extra)[key] == spotify[key]
  {
    hide Fill;
    assert Entries(spotify[key := node], PLAYER) == Entries(spotify, PLAYER);
    if extra != map[] {
      var full := Branch(Fill(Entries(spotify, PLAYER), extra));
      assert spotify[key := node][PLAYER := full] == spotify[PLAYER := full][key := node];
    }
  }

  lemma FillPlayerSet(spotify: Table, extra: Table, path: Path, value: Node)
    requires SetItem(spotify, path, value).Ok? && TableOrAbsent(spotify, PLAYER) && path != []
    requires path[0] == PLAYER ==> |path| > 1 && (|path| == 2 || path[1] !in extra)
    ensures SetItem(FillPlayer(spotify, extra), path, value) == Ok(FillPlayer(SetItem(spotify, path, value).value, extra))
    ensures TableOrAbsent(FillPlayer(spotify, extra), PLAYER)
  {
    hide SetItem, Fill;
    if path[0] != PLAYER {
      hide FillPlayer;
      FillPlayerKeeps(spotify, extra, path[0], value);
      var node := SameHead(spotify, FillPlayer(spotify, extra), path, value);
      FillPlayerKeeps(spotify, extra, path[0], node);
      FilledStaysATable(spotify, extra);
    } else if extra != map[] {
      var own, rest := Entries(spotify, PLAYER), path[1..];
      assert path == [PLAYER] + rest;
      SetUnder(spotify, PLAYER, rest, value);
      FillSet(own, extra, rest, value);
      var filled := FillPlayer(spotify, extra);
      SetUnder(filled, PLAYER, rest, value);
      var put := SetItem(own, rest, value).value;
      assert Entries(spotify[PLAYER := Branch(put)], PLAYER) == put;
      assert filled[PLAYER := Branch(Fill(put, extra))] == spotify[PLAYER := Branch(put)][PLAYER := Branch(Fill(put, extra))];
    }
  }

  lemma FilledStaysATable(spotify: Table, extra: Table)
    requires TableOrAbsent(spotify, PLAYER)
    ensures TableOrAbsent(FillPlayer(spotify, extra), PLAYER)
  {
  }

  // ---- An override seen through the view ----

  /** What a gentle override does to the view. */
  function OnView(v: View, target: string, path: Path, value: Node): (r: Result<View, EditError>)
    requires Gentle(target, path, value)
    ensures r.Ok? ==> r.value.flat == v.flat && r.value.player == v.player
    ensures r.Ok? ==> if path[0] == ANALYTICS then Ok(r.value.analytics) == SetItem(v.analytics, path[1..], value)
                      else r.value.analytics == v.analytics
    ensures r.Ok? ==> if path[0] == SPOTIFYD then Ok(r.value.spotifyd) == SetItem(v.spotifyd, path[1..], value)
                      else r.value.spotifyd == v.spotifyd
  {
    if path[0] == PROVIDERS && path[1] == target then
      var spotify :- SetItem(v.spotify, path[2..], value);
      Ok(v.(spotify := spotify))
    else if path[0] == PROVIDERS then
      var others :- SetItem(v.others, path[1..], value);
      Ok(v.(others := others))
    else if path[0] == ANALYTICS then
      var analytics :- SetItem(v.analytics, path[1..], value);
      Ok(v.(analytics := analytics))
    else if path[0] == SPOTIFYD then
      var spotifyd :- SetItem(v.spotifyd, path[1..], value);
      Ok(v.(spotifyd := spotifyd))
    else
      var rest :- SetItem(v.rest, path, value);
      Ok(v.(rest := rest))
  }

  /** The view of the migrated document. */
  function Migrated(v: View, target: string): (r: View)
  {
    CompletedView(MovedView(v), target)
  }

  lemma SpotifyCommutes(spotify: Table, flat: Table, player: Table, device: Table, path: Path, value: Node)
    requires SetItem(spotify, path, value).Ok? && GentleUnder(path, value) && TableOrAbsent(spotify, PLAYER)
    requires flat.Keys <= ROOT_KEYS && player.Keys <= PLAYER_KEYS && device.Keys <= {DEVICE_NAME}
    ensures var kind: Table := map[TYPE := Leaf(Text(SPOTIFY))];
      SetItem(Fill(FillPlayer(FillPlayer(Fill(spotify, flat), player), device), kind), path, value) ==
      Ok(Fill(FillPlayer(FillPlayer(Fill(SetItem(spotify, path, value).value, flat), player), device), kind))
  {
    KeyLists();
    assert DEVICE_NAME in PLAYER_KEYS;
    hide SetItem, FillPlayer, Fill;
    FillSet(spotify, flat, path, value);
    var a := Fill(spotify, flat);
    assert TableOrAbsent(a, PLAYER) by {
      FilledPlayerIsATable(spotify, flat);
    }
    FillPlayerSet(a, player, path, value);
    var b := FillPlayer(a, player);
    FillPlayerSet(b, device, path, value);
    FillSet(FillPlayer(b, device), map[TYPE := Leaf(Text(SPOTIFY))], path, value);
  }

  lemma FilledPlayerIsATable(spotify: Table, flat: Table)
    requires TableOrAbsent(spotify, PLAYER) && PLAYER !in flat
    ensures TableOrAbsent(Fill(spotify, flat), PLAYER)
  {
  }

  /** Overriding and migrating commute on views. */
  lemma ViewsCommute(v: View, target: string, path: Path, value: Node)
    requires Gentle(target, path, value) && OnView(v, target, path, value).Ok?
    requires TableOrAbsent(v.spotify, PLAYER) && v.flat.Keys <= ROOT_KEYS && target != DEFAULT
    ensures OnView(Migrated(v, target), target, path, value) == Ok(Migrated(OnView(v, target, path, value).value, target))
  {
    hide SetItem, TableOrAbsent, Migrated, GentleUnder;
    if path[0] == PROVIDERS && path[1] == target {
      SpotifyViewsCommute(v, target, path[2..], value);
    } else if path[0] == PROVIDERS {
      OthersCommute(v, target, path[1..], value);
    } else if path[0] == ANALYTICS {
      AnalyticsCommute(v, target, path[1..], value);
    } else if path[0] == SPOTIFYD {
      SpotifydCommutes(v, target, path[1..], value);
    } else {
      RestCommutes(v, target, path, value);
    }
  }

  lemma OthersCommute(v: View, target: string, path: Path, value: Node)
    requires path != [] && (|path| == 1 || path[0] != DEFAULT) && SetItem(v.others, path, value).Ok?
    ensures var put := SetItem(Migrated(v, target).others, path, value);
      put.Ok? && Migrated(v, target).(others := put.value) == Migrated(v.(others := SetItem(v.others, path, value).value), target)
  {
    hide SetItem, FillPlayer, Fill, Restrict, HookEntry;
    FillSet(v.others, map[DEFAULT := Leaf(Text(target))], path, value);
  }

  lemma AnalyticsCommute(v: View, target: string, path: Path, value: Node)
    requires path != [] && (|path| == 1 || path[0] != HOOK_COMMAND) && SetItem(v.analytics, path, value).Ok?
    ensures var put := SetItem(Migrated(v, target).analytics, path, value);
      put.Ok? && Migrated(v, target).(analytics := put.value) == Migrated(v.(analytics := SetItem(v.analytics, path, value).value), target)
  {
    hide SetItem, FillPlayer, Fill, Restrict, HookEntry;
    HookEntryKeys(v.player);
    FillSet(v.analytics, HookEntry(v.player), path, value);
  }

  lemma SpotifydCommutes(v: View, target: string, path: Path, value: Node)
    requires path != [] && path[0] != DEVICE_NAME && SetItem(v.spotifyd, path, value).Ok?
    ensures var put := SetItem(Migrated(v, target).spotifyd, path, value);
      put.Ok? && Migrated(v, target).(spotifyd := put.value) == Migrated(v.(spotifyd := SetItem(v.spotifyd, path, value).value), target)
  {
    hide SetItem, FillPlayer, Fill, HookEntry;
    var left := v.spotifyd - {DEVICE_NAME};
    var node := SameHead(v.spotifyd, left, path, value);
    assert v.spotifyd[path[0] := node] - {DEVICE_NAME} == left[path[0] := node];
    assert Restrict(v.spotifyd[path[0] := node], {DEVICE_NAME}) == Restrict(v.spotifyd, {DEVICE_NAME});
  }

  lemma RestCommutes(v: View, target: string, path: Path, value: Node)
    requires SetItem(v.rest, path, value).Ok?
    ensures var put := SetItem(Migrated(v, target).rest, path, value);
      put.Ok? && Migrated(v, target).(rest := put.value) == Migrated(v.(rest := SetItem(v.rest, path, value).value), target)
  {
    hide SetItem, FillPlayer, Fill, Restrict, HookEntry;
  }

  lemma SpotifyViewsCommute(v: View, target: string, path: Path, value: Node)
    requires GentleUnder(path, value) && SetItem(v.spotify, path, value).Ok?
    requires TableOrAbsent(v.spotify, PLAYER) && v.flat.Keys <= ROOT_KEYS
    ensures var put := SetItem(Migrated(v, target).spotify, path, value);
      put.Ok? && Migrated(v, target).(spotify := put.value) == Migrated(v.(spotify := SetItem(v.spotify, path, value).value), target)
  {
    hide SetItem, FillPlayer, Fill, Restrict, TableOrAbsent, GentleUnder, HookEntry;
    var player, device := Restrict(v.player, PLAYER_KEYS), Restrict(v.spotifyd, {DEVICE_NAME});
    RestrictKeys(v.player, PLAYER_KEYS);
    RestrictKeys(v.spotifyd, {DEVICE_NAME});
    SpotifyCommutes(v.spotify, v.flat, player, device, path, value);
  }

  lemma RestrictKeys(table: Table, keys: set<string>)
    ensures Restrict(table, keys).Keys <= keys
  {
  }

  lemma HookEntryKeys(player: Table)
    ensures HookEntry(player).Keys <= {HOOK_COMMAND}
  {
  }

  /** An override of the document is that override of its view. */
  predicate FollowsView(d: Table, target: string, path: Path, value: Node)
    requires Gentle(target, path, value)
  {
    && (SetItem(d, path, value).Ok? <==> OnView(ViewOf(d, target), target, path, value).Ok?)
    && (SetItem(d, path, value).Ok? ==>
          var e := SetItem(d, path, value).value;
          && Shaped(e, target) && Ok(ViewOf(e, target)) == OnView(ViewOf(d, target), target, path, value)
          && Entries(d, PROVIDERS).Keys <= Entries(e, PROVIDERS).Keys)
  }

  lemma SetView(d: Table, target: string, path: Path, value: Node)
    requires Shaped(d, target) && Gentle(target, path, value) && target != DEFAULT
    ensures FollowsView(d, target, path, value)
  {
    hide FollowsView, GentleUnder, Shaped;
    if path[0] == PROVIDERS {
      if path[1] == target {
        SpotifyFollows(d, target, path, value);
      } else {
        OthersFollow(d, target, path, value);
      }
    } else if path[0] == ANALYTICS {
      AnalyticsFollows(d, target, path, value);
    } else if path[0] == SPOTIFYD {
      SpotifydFollows(d, target, path, value);
    } else {
      RestFollows(d, target, path, value);
    }
  }

  lemma SpotifyFollows(d: Table, target: string, path: Path, value: Node)
    requires Shaped(d, target) && Gentle(target, path, value) && path[0] == PROVIDERS && path[1] == target
    requires target != DEFAULT
    ensures FollowsView(d, target, path, value)
  {
    hide SetItem, Shaped, ViewOf, GentleUnder, TableOrAbsent;
    ViewParts(d, target);
    assert path == [PROVIDERS] + path[1..] && path[1..] == [target] + path[2..];
    SetUnder(d, PROVIDERS, path[1..], value);
    SetUnder(Entries(d, PROVIDERS), target, path[2..], value);
    SetSpotifyView(d, target, path[2..], value);
  }

  lemma OthersFollow(d: Table, target: string, path: Path, value: Node)
    requires Shaped(d, target) && Gentle(target, path, value) && path[0] == PROVIDERS && path[1] != target
    ensures FollowsView(d, target, path, value)
  {
    hide SetItem, Shaped, ViewOf, GentleUnder, TableOrAbsent;
    ViewParts(d, target);
    assert path == [PROVIDERS] + path[1..];
    SetUnder(d, PROVIDERS, path[1..], value);
    SetOthersView(d, target, path[1..], value);
  }

  lemma AnalyticsFollows(d: Table, target: string, path: Path, value: Node)
    requires Shaped(d, target) && Gentle(target, path, value) && path[0] == ANALYTICS
    ensures FollowsView(d, target, path, value)
  {
    hide SetItem, Shaped, ViewOf, GentleUnder, TableOrAbsent;
    ViewParts(d, target);
    NamesDiffer();
    assert path == [ANALYTICS] + path[1..];
    SetUnder(d, ANALYTICS, path[1..], value);
    if SetItem(Entries(d, ANALYTICS), path[1..], value).Ok? {
      AnalyticsWriteView(d, target, SetItem(Entries(d, ANALYTICS), path[1..], value).value);
    }
  }

  lemma SpotifydFollows(d: Table, target: string, path: Path, value: Node)
    requires Shaped(d, target) && Gentle(target, path, value) && path[0] == SPOTIFYD
    ensures FollowsView(d, target, path, value)
  {
    hide SetItem, Shaped, ViewOf, GentleUnder, TableOrAbsent;
    ViewParts(d, target);
    assert SPOTIFYD != PROVIDERS && SPOTIFYD != ANALYTICS;
    assert path == [SPOTIFYD] + path[1..];
    SetUnder(d, SPOTIFYD, path[1..], value);
    if SetItem(Entries(d, SPOTIFYD), path[1..], value).Ok? {
      SpotifydWriteView(d, target, SetItem(Entries(d, SPOTIFYD), path[1..], value).value);
    }
  }

  lemma SpotifydWriteView(d: Table, target: string, spotifyd: Table)
    requires Shaped(d, target)
    ensures var e := d[SPOTIFYD := Branch(spotifyd)];
      && Shaped(e, target) && ViewOf(e, target) == ViewOf(d, target).(spotifyd := spotifyd)
      && Entries(e, PROVIDERS) == Entries(d, PROVIDERS)
  {
    NamesDiffer();
    var e := d[SPOTIFYD := Branch(spotifyd)];
    assert Restrict(e, ROOT_KEYS) == Restrict(d, ROOT_KEYS);
    assert e - TOUCHED == d - TOUCHED;
  }

  lemma RestFollows(d: Table, target: string, path: Path, value: Node)
    requires Shaped(d, target) && Gentle(target, path, value) && path[0] !in {PROVIDERS, ANALYTICS, SPOTIFYD}
    ensures FollowsView(d, target, path, value)
  {
    hide SetItem, Shaped, ViewOf, GentleUnder;
    SetRestView(d, target, path, value);
  }

  lemma SetSpotifyView(d: Table, target: string, path: Path, value: Node)
    requires Shaped(d, target) && GentleUnder(path, value)
    ensures var inner := SetItem(ViewOf(d, target).spotify, path, value); inner.Ok? ==>
      var e := d[PROVIDERS := Branch(Entries(d, PROVIDERS)[target := Branch(inner.value)])];
      && Shaped(e, target) && ViewOf(e, target) == ViewOf(d, target).(spotify := inner.value)
      && Entries(d, PROVIDERS).Keys <= Entries(e, PROVIDERS).Keys
  {
    hide SetItem, Shaped, ViewOf;
    ViewParts(d, target);
    var spotify := ViewOf(d, target).spotify;
    if SetItem(spotify, path, value).Ok? {
      var node := HeadOnly(spotify, path, value);
      WriteView(d, target, SetItem(spotify, path, value).value);
    }
  }

  lemma SetOthersView(d: Table, target: string, path: Path, value: Node)
    requires Shaped(d, target) && path != [] && path[0] != target
    ensures var all := Entries(d, PROVIDERS); var others := ViewOf(d, target).others;
      && (SetItem(all, path, value).Ok? <==> SetItem(others, path, value).Ok?)
      && (SetItem(all, path, value).Ok? ==>
            var e := d[PROVIDERS := Branch(SetItem(all, path, value).value)];
            && Shaped(e, target) && ViewOf(e, target) == ViewOf(d, target).(others := SetItem(others, path, value).value)
            && all.Keys <= Entries(e, PROVIDERS).Keys)
  {
    hide SetItem, Shaped, ViewOf;
    ViewParts(d, target);
    var all, others := Entries(d, PROVIDERS), ViewOf(d, target).others;
    var node := SameHead(all, others, path, value);
    if SetItem(all, path, value).Ok? {
      assert all[path[0] := node] - {target} == others[path[0] := node];
      ProvidersWriteView(d, target, all[path[0] := node]);
    }
  }

  lemma ProvidersWriteView(d: Table, target: string, all: Table)
    requires Shaped(d, target) && Entries(all, target) == Entries(Entries(d, PROVIDERS), target)
    requires target in all <==> target in Entries(d, PROVIDERS)
    requires target in all ==> all[target] == Entries(d, PROVIDERS)[target]
    ensures var e := d[PROVIDERS := Branch(all)];
      Shaped(e, target) && ViewOf(e, target) == ViewOf(d, target).(others := all - {target})
  {
    NamesDiffer();
    var e := d[PROVIDERS := Branch(all)];
    assert Restrict(e, ROOT_KEYS) == Restrict(d, ROOT_KEYS);
    assert e - TOUCHED == d - TOUCHED;
  }

  lemma SetRestView(d: Table, target: string, path: Path, value: Node)
    requires Shaped(d, target) && path != [] && path[0] !in TOUCHED
    ensures var rest := ViewOf(d, target).rest;
      && (SetItem(d, path, value).Ok? <==> SetItem(rest, path, value).Ok?)
      && (SetItem(d, path, value).Ok? ==>
            var e := SetItem(d, path, value).value;
            && Shaped(e, target) && ViewOf(e, target) == ViewOf(d, target).(rest := SetItem(rest, path, value).value)
            && Entries(e, PROVIDERS) == Entries(d, PROVIDERS))
  {
    hide SetItem, Shaped, ViewOf;
    ViewParts(d, target);
    var rest := d - TOUCHED;
    var node := SameHead(d, rest, path, value);
    RestWriteView(d, target, path[0], node);
  }

  lemma RestWriteView(d: Table, target: string, key: string, node: Node)
    requires Shaped(d, target) && key !in TOUCHED
    ensures var e := d[key := node];
      && Shaped(e, target) && ViewOf(e, target) == ViewOf(d, target).(rest := ViewOf(d, target).rest[key := node])
      && Entries(e, PROVIDERS) == Entries(d, PROVIDERS)
  {
    var e := d[key := node];
    assert Restrict(e, ROOT_KEYS) == Restrict(d, ROOT_KEYS);
    assert e - TOUCHED == (d - TOUCHED)[key := node];
  }

  // ---- The provider stays the same ----

  /** `target` is the one provider of type `spotify`, or is called so and has no type. */
  ghost predicate TargetHolds(d: Table, target: string)
  {
    && (forall id :: id != target ==> ConfigEdit.TypeAt(d, id) != Some(SPOTIFY))
    && (ConfigEdit.TypeAt(d, target) == Some(SPOTIFY) || (target == SPOTIFY && ConfigEdit.TypeAt(d, target) == None))
  }

  lemma TargetHoldsMeans(d: Table, target: string)
    requires TargetHolds(d, target)
    ensures EditTarget(d) == Ok(target)
  {
    hide EditTarget, ConfigEdit.TypeAt;
    var ids := if ConfigEdit.TypeAt(d, target) == Some(SPOTIFY) then {target} else {};
    ConfigEdit.EditTargetFromTypes(d, ids);
    if ids == {target} {
      assert TheOne(ids) == target;
    }
  }

  /** What a gentle override can do to a type: name the target's, and give no other
      provider the type `spotify`. */
  lemma GentleTypes(d: Table, target: string, path: Path, value: Node, id: string)
    requires Gentle(target, path, value) && SetItem(d, path, value).Ok? && target != DEFAULT
    ensures var before, after := ConfigEdit.TypeAt(d, id), ConfigEdit.TypeAt(SetItem(d, path, value).value, id);
      after == before || (if id == target then after == Some(SPOTIFY) else after != Some(SPOTIFY))
  {
    hide SetItem, ScalarAt, ItemAt;
    NamesDiffer();
    var typed := [PROVIDERS, id, TYPE];
    var e := SetItem(d, path, value).value;
    if path == typed {
      SetThenGet(d, path, value);
      TypeOfItem(e, id, value);
      assert id == target ==> path[2..] == [TYPE];
    } else if path == [PROVIDERS, id] {
      SetThenGetUnder(d, path, value, [TYPE]);
      assert path + [TYPE] == typed;
      TypeInside(e, id, value);
    } else {
      if path <= typed {
        PrefixesOfThree(path, PROVIDERS, id, TYPE);
      }
      SetFrame(d, path, value, typed);
    }
  }

  lemma PrefixesOfThree(path: Path, a: string, b: string, c: string)
    requires path <= [a, b, c]
    ensures path in {[], [a], [a, b], [a, b, c]}
  {
    assert path == [a, b, c][..|path|];
    assert |path| == 0 || |path| == 1 || |path| == 2 || |path| == 3;
    assert |path| == 0 ==> path == [];
    assert |path| == 1 ==> path == [a];
    assert |path| == 2 ==> path == [a, b];
    assert |path| == 3 ==> path == [a, b, c];
  }

  lemma TypeOfItem(e: Table, id: string, value: Node)
    requires ItemAt(e, [PROVIDERS, id, TYPE]) == Some(value)
    ensures ConfigEdit.TypeAt(e, id) == Some(SPOTIFY) <==> value == Leaf(Text(SPOTIFY))
  {
  }

  lemma TypeInside(e: Table, id: string, value: Node)
    requires ItemAt(e, [PROVIDERS, id, TYPE]) == ItemIn(value, [TYPE])
    ensures ConfigEdit.TypeAt(e, id) == KindOf(value)
  {
  }

  lemma GentleKeepsTheTarget(d: Table, target: string, path: Path, value: Node)
    requires Gentle(target, path, value) && SetItem(d, path, value).Ok? && target != DEFAULT && TargetHolds(d, target)
    ensures TargetHolds(SetItem(d, path, value).value, target)
  {
    hide SetItem, Gentle, ConfigEdit.TypeAt;
    forall id
      ensures var before, after := ConfigEdit.TypeAt(d, id), ConfigEdit.TypeAt(SetItem(d, path, value).value, id);
        after == before || (if id == target then after == Some(SPOTIFY) else after != Some(SPOTIFY))
    {
      GentleTypes(d, target, path, value, id);
    }
  }

  lemma TargetDecidesThePath(a: Table, b: Table, path: ConfigPath)
    requires EditTarget(a) == EditTarget(b)
    ensures ResolveOverlayPath(a, path) == ResolveOverlayPath(b, path)
  {
    hide EditTarget, Parse, IsLegacyProviderAlias;
  }

  // ---- The two documents side by side ----

  /** `e` is the migrated form of `d`. */
  ghost predicate Beside(d: Table, e: Table, target: string)
  {
    && Shaped(d, target) && Shaped(e, target) && target != DEFAULT && target in Entries(e, PROVIDERS)
    && ViewOf(e, target) == Migrated(ViewOf(d, target), target)
    && TargetHolds(d, target) && TargetHolds(e, target) && HookCanMove(d)
  }

  /** The legacy keys, all but the contents of the `spotifyd` table, are the same. */
  predicate SameLegacy(v: View, w: View)
  {
    w.flat == v.flat && w.player == v.player && (DEVICE_NAME in w.spotifyd <==> DEVICE_NAME in v.spotifyd)
  }

  lemma OneOverride(d: Table, e: Table, target: string, path: Path, value: Node)
    requires Beside(d, e, target) && Gentle(target, path, value) && SetItem(d, path, value).Ok?
    ensures SetItem(e, path, value).Ok? && Beside(SetItem(d, path, value).value, SetItem(e, path, value).value, target)
    ensures SameLegacy(ViewOf(d, target), ViewOf(SetItem(d, path, value).value, target))
  {
    hide SetItem, Shaped, ViewOf, Migrated, TargetHolds;
    var v := ViewOf(d, target);
    ViewParts(d, target);
    FlatKeys(d, target);
    SetView(d, target, path, value);
    SetView(e, target, path, value);
    ViewsCommute(v, target, path, value);
    GentleKeepsTheTarget(d, target, path, value);
    GentleKeepsTheTarget(e, target, path, value);
    LegacyPartsStay(v, target, path, value);
    HookStaysMovable(d, target, path, value);
  }

  lemma FlatKeys(d: Table, target: string)
    ensures ViewOf(d, target).flat.Keys <= ROOT_KEYS
  {
  }

  lemma LegacyPartsStay(v: View, target: string, path: Path, value: Node)
    requires Gentle(target, path, value) && OnView(v, target, path, value).Ok?
    ensures var w := OnView(v, target, path, value).value; SameLegacy(v, w) && KeysWithin(v.analytics, w.analytics)
  {
    hide SetItem, KeysWithin, OnView, GentleUnder;
    KeysStay(v.analytics);
    if path[0] == ANALYTICS {
      KeysGrow(v.analytics, path[1..], value);
    } else if path[0] == SPOTIFYD {
      var node := HeadOnly(v.spotifyd, path[1..], value);
    }
  }

  predicate KeysWithin(a: Table, b: Table)
  {
    a.Keys <= b.Keys
  }

  lemma KeysStay(table: Table)
    ensures KeysWithin(table, table)
  {
  }

  lemma KeysGrow(table: Table, path: Path, value: Node)
    requires SetItem(table, path, value).Ok?
    ensures KeysWithin(table, SetItem(table, path, value).value)
  {
    var node := HeadOnly(table, path, value);
    hide SetItem;
  }

  lemma HookStaysMovable(d: Table, target: string, path: Path, value: Node)
    requires Shaped(d, target) && target != DEFAULT && Gentle(target, path, value) && SetItem(d, path, value).Ok? && HookCanMove(d)
    ensures HookCanMove(SetItem(d, path, value).value)
  {
    hide SetItem, Shaped, ViewOf;
    var e := SetItem(d, path, value).value;
    SetView(d, target, path, value);
    LegacyPartsStay(ViewOf(d, target), target, path, value);
    ViewParts(d, target);
    ViewParts(e, target);
  }

  predicate AllGentle(document: Table, overrides: seq<Override>, target: string)
  {
    forall i :: 0 <= i < |overrides| && OverrideTargetAt(document, overrides, i).Ok? ==>
      Gentle(target, OverrideTargetAt(document, overrides, i).value, overrides[i].value)
  }

  /** Overriding both keeps them side by side. */
  lemma {:induction false} OverridesStayBeside(d: Table, e: Table, overrides: seq<Override>, target: string)
    requires Beside(d, e, target) && Overridden(d, overrides).Ok? && AllGentle(d, overrides, target)
    ensures Overridden(e, overrides).Ok? && Beside(Overridden(d, overrides).value, Overridden(e, overrides).value, target)
    ensures SameLegacy(ViewOf(d, target), ViewOf(Overridden(d, overrides).value, target))
    decreases |overrides|
  {
    hide Gentle, SetItem, ResolveOverlayPath, ViewOf, Shaped, EditTarget, HookCanMove, TargetHolds, Migrated;
    if overrides != [] {
      var last := |overrides| - 1;
      var front := overrides[..last];
      EarlierAreGentle(d, overrides, target);
      OverridesStayBeside(d, e, front, target);
      var a, b := Overridden(d, front).value, Overridden(e, front).value;
      TargetHoldsMeans(a, target);
      TargetHoldsMeans(b, target);
      TargetDecidesThePath(a, b, overrides[last].path);
      var path := OverrideTargetAt(d, overrides, last).value;
      OneOverride(a, b, target, path, overrides[last].value);
    }
  }

  lemma EarlierAreGentle(d: Table, overrides: seq<Override>, target: string)
    requires overrides != [] && AllGentle(d, overrides, target)
    ensures AllGentle(d, overrides[..|overrides| - 1], target)
  {
    hide Gentle, OverrideTargetAt, UntouchedFrom;
    EarlierTargets(d, overrides, []);
  }

  // ---- The theorem ----

  predicate IsSpotifyAt(all: Table, id: string)
  {
    id in all && IsSpotify(all[id])
  }

  lemma LoadedDefaultIsPlain(root: Table)
    requires LoadTree(root, NO_ENV).Ok?
    ensures !IsSpotifyAt(Entries(root, PROVIDERS), DEFAULT)
  {
    hide LoadTree, DecodeSections, ResolveProviders, MergeLegacy, MergeEnv, CheckProviders, FinalValues, Tables, ChecksPass;
    LoadsIffParts(root, NO_ENV);
    var all, legacy, final := LoadChecks(root, NO_ENV);
  }

  /** Types read off the provider tables. */
  lemma TypeIsSpotifyIff(root: Table, id: string)
    ensures ConfigEdit.TypeAt(root, id) == Some(SPOTIFY) <==> IsSpotifyAt(Entries(root, PROVIDERS), id)
  {
    if PROVIDERS in root && root[PROVIDERS].Branch? {
      ConfigEdit.TypesAreKinds(root, id);
    } else {
      ConfigEdit.NoProvidersNoTypes(root, id);
    }
  }

  lemma LoadedTargetHolds(document: Table, target: string)
    requires LoadTree(document, NO_ENV).Ok? && HasLegacy(document) && EditTarget(document) == Ok(target)
    ensures TargetHolds(document, target)
  {
    hide LoadTree, HasLegacy, ResolveProviders, DecodeSections, LoadTarget, IsSpotify, EditTarget, ConfigEdit.TypeAt;
    LoadsIffParts(document, NO_ENV);
    OnlyTheTargetIsSpotify(document, NO_ENV);
    TargetsAgree(document, NO_ENV);
    LoadedDefaultIsPlain(document);
    var all := Entries(document, PROVIDERS);
    forall id | id != target
      ensures ConfigEdit.TypeAt(document, id) != Some(SPOTIFY)
    {
      TypeIsSpotifyIff(document, id);
      if id != DEFAULT {
        OthersAreNot(all, target, id);
      }
    }
    TargetsAreSpotify(document);
  }

  lemma OthersAreNot(all: Table, target: string, id: string)
    requires SpotifyIds(all - {DEFAULT}) <= {target} && id != target && id != DEFAULT
    ensures !IsSpotifyAt(all, id)
  {
    assert id !in SpotifyIds(all - {DEFAULT});
    assert id in all ==> (all - {DEFAULT})[id] == all[id];
  }

  lemma MigratedTargetHolds(document: Table, target: string)
    requires LoadTree(document, NO_ENV).Ok? && HasLegacy(document) && Migrate(document).Ok? && Migrate(document).value.1 != []
    requires EditTarget(document) == Ok(target) && TargetHolds(document, target)
    requires var e := Migrate(document).value.0;
      && Shaped(e, target) && target in Entries(e, PROVIDERS) && !HasLegacy(e)
      && ViewOf(e, target) == Migrated(ViewOf(document, target), target)
    ensures TargetHolds(Migrate(document).value.0, target)
  {
    hide LoadTree, Migrate, HasLegacy, EditTarget, IsSpotify, Shaped, ViewOf, MovedView, ConfigEdit.TypeAt;
    var e := Migrate(document).value.0;
    MigratedTargetIsSpotify(document);
    TypeIsSpotifyIff(e, target);
    ViewParts(document, target);
    ViewParts(e, target);
    MovedKeepsOthers(ViewOf(document, target));
    var all, all' := Entries(document, PROVIDERS), Entries(e, PROVIDERS);
    assert all' - {target} == Fill(all - {target}, map[DEFAULT := Leaf(Text(target))]);
    forall id | id != target
      ensures ConfigEdit.TypeAt(e, id) != Some(SPOTIFY)
    {
      TypeIsSpotifyIff(document, id);
      TypeIsSpotifyIff(e, id);
      NoOtherSpotify(all, all', target, id);
    }
  }

  lemma NoOtherSpotify(all: Table, all': Table, target: string, id: string)
    requires id != target && !IsSpotifyAt(all, id)
    requires all' - {target} == Fill(all - {target}, map[DEFAULT := Leaf(Text(target))])
    ensures !IsSpotifyAt(all', id)
  {
    if id in all' {
      assert all'[id] == (all' - {target})[id];
    }
  }

  lemma MovedKeepsOthers(v: View)
    ensures MovedView(v).others == v.others
  {
  }

  lemma MigratedStandsBeside(document: Table)
    requires LoadTree(document, NO_ENV).Ok? && HasLegacy(document) && Migrate(document).Ok?
    ensures EditTarget(document).Ok? && Beside(document, Migrate(document).value.0, EditTarget(document).value)
    ensures !HasLegacy(Migrate(document).value.0)
  {
    hide LoadTree, HasLegacy, EditTarget, MovedAndCompleted, Shaped, ViewOf, DecodeSections, ResolveProviders, HookCanMove,
      SameMeaning, TargetHolds;
    MigratedLoad(document, NO_ENV);
    MigrationSucceedsIff(document);
    LoadsIffParts(document, NO_ENV);
    var target := EditTarget(document).value;
    LoadedIsShaped(document, target);
    MigratedDocument(document, target);
    LoadedTargetHolds(document, target);
    MigratedTargetHolds(document, target);
  }

  lemma LegacyStays(a: Table, b: Table, target: string)
    requires SameLegacy(ViewOf(a, target), ViewOf(b, target))
    ensures HasLegacy(b) <==> HasLegacy(a)
  {
    hide HasLegacy, ViewOf;
    LegacyIsInView(a, target);
    LegacyIsInView(b, target);
  }

  lemma BesideHasNoLegacy(d: Table, e: Table, target: string)
    requires Beside(d, e, target)
    ensures !HasLegacy(e)
  {
    hide HasLegacy, ViewOf, Shaped, MovedView, CompletedView;
    LegacyIsInView(e, target);
    MovedHasNoLegacy(ViewOf(d, target), target);
  }

  /** Migration preserves meaning under gentle overrides, in every environment. */
  lemma MigrationPreservesOverriddenLoads(document: Table, overrides: seq<Override>, env: Env)
    requires LoadTree(document, NO_ENV).Ok? && Migrate(document).Ok? && Load(document, NO_ENV, overrides).Ok?
    requires HasLegacy(document) ==> EditTarget(document).Ok? && AllGentle(document, overrides, EditTarget(document).value)
    ensures var moved := Migrate(document).value.0;
      && (Load(moved, env, overrides).Ok? <==> Load(document, env, overrides).Ok?)
      && (Load(document, env, overrides).Ok? ==>
            SameMeaning(Load(document, env, overrides).value, Load(moved, env, overrides).value))
      && (HasLegacy(document) ==> Load(moved, env, overrides).Ok? && Load(moved, env, overrides).value.warnings == {})
  {
    hide LoadTree, Migrate, HasLegacy, EditTarget, Overridden, AllGentle, SameMeaning, ViewOf, Shaped, TargetHolds;
    if HasLegacy(document) {
      var target, moved := EditTarget(document).value, Migrate(document).value.0;
      MigratedStandsBeside(document);
      OverridesStayBeside(document, moved, overrides, target);
      var d, e := Overridden(document, overrides).value, Overridden(moved, overrides).value;
      LegacyStays(document, d, target);
      BesideHasNoLegacy(d, e, target);
      TargetHoldsMeans(d, target);
      LoadAlike(d, e, target, env);
    } else {
      NothingToMigrate(document);
      if Load(document, env, overrides).Ok? {
        SameMeaningReflexive(Load(document, env, overrides).value);
      }
    }
  }

  // ---- An override that is not gentle ----

  /** An override of a provider's whole table, as the parser gives it. */
  function TableOverride(id: string): (r: Override)
  {
    Override(ConfigPath([PROVIDERS, id], None), Branch(map[TYPE := Leaf(Text(SPOTIFY))]))
  }

  lemma TableOverrideApplies(root: Table, id: string)
    requires TableOrAbsent(root, PROVIDERS)
    ensures Overridden(root, [TableOverride(id)]) == Ok(root[PROVIDERS := Branch(Entries(root, PROVIDERS)[id := TableOverride(id).value])])
  {
    var overrides := [TableOverride(id)];
    assert overrides[..0] == [];
    assert Overridden(root, []) == Ok(root);
    hide EditTarget, SetItem;
    Set2(root, PROVIDERS, id, TableOverride(id).value);
  }

  /** It loses what was moved into the table: before the migration the flat key still
      gives the credential, after it neither place does. */
  lemma TableOverrideLosesAMovedKey(document: Table, key: string)
    requires LoadTree(document, NO_ENV).Ok? && Migrate(document).Ok? && key in ROOT_KEYS && key in document
    ensures EditTarget(document).Ok?
    ensures var target, moved := EditTarget(document).value, Migrate(document).value.0;
      var before, after := Overridden(document, [TableOverride(target)]), Overridden(moved, [TableOverride(target)]);
      && before.Ok? && after.Ok?
      && ItemAt(before.value, [key]) == Some(document[key])
      && ItemAt(after.value, [key]) == None && ItemAt(after.value, [PROVIDERS, target, key]) == None
  {
    hide LoadTree, Migrate, EditTarget, Overridden, HasLegacy;
    FlatKeyIsLegacy(document, key);
    MigratedStandsBeside(document);
    var target, moved := EditTarget(document).value, Migrate(document).value.0;
    KeyIsGone(moved, key);
    hide ViewOf, HookCanMove, TargetHolds, Migrated, TableOverride;
    TableOverrideApplies(document, target);
    TableOverrideApplies(moved, target);
    AfterTableOverride(document, target, key);
    AfterTableOverride(moved, target, key);
  }

  lemma AfterTableOverride(root: Table, id: string, key: string)
    requires key in ROOT_KEYS
    ensures var after := root[PROVIDERS := Branch(Entries(root, PROVIDERS)[id := TableOverride(id).value])];
      && ItemAt(after, [key]) == (if key in root then Some(root[key]) else None)
      && ItemAt(after, [PROVIDERS, id, key]) == None
  {
    NamesDiffer();
    KeyLists();
    var after := root[PROVIDERS := Branch(Entries(root, PROVIDERS)[id := TableOverride(id).value])];
    ItemAt1(after, key);
    ItemAt3(after, PROVIDERS, id, key);
    ItemAt1(Entries(Entries(after, PROVIDERS), id), key);
  }

  lemma FlatKeyIsLegacy(document: Table, key: string)
    requires key in ROOT_KEYS && key in document
    ensures HasLegacy(document)
  {
    assert key in document.Keys * ROOT_KEYS;
  }

  lemma KeyIsGone(moved: Table, key: string)
    requires !HasLegacy(moved) && key in ROOT_KEYS
    ensures key !in moved
  {
    if key in moved {
      FlatKeyIsLegacy(moved, key);
    }
  }

  // ---- Overrides that change which provider is Spotify's ----

  /** `providers.<id>.type = "spotify"`. */
  function TypeOverride(id: string): (r: Override)
  {
    Override(ConfigPath([PROVIDERS, id, TYPE], None), Leaf(Text(SPOTIFY)))
  }

  lemma TypeOverrideIsParsed(id: string)
    requires ValidProviderId(id)
    ensures Parse([PROVIDERS, id, TYPE]) == Ok(TypeOverride(id).path)
  {
    NamesAreNormal();
    NamesAreValid();
    ProviderIdsAreSegments(id);
    assert ValidSegment(TYPE) && Underscored(TYPE) == TYPE;
    hide ValidSegment, Underscored, Hyphenated, ValidProviderId;
    ScopedIsFixed([PROVIDERS, id, TYPE]);
    hide Canonicalize;
  }

  lemma TypeOverrideApplies(root: Table, id: string)
    ensures Overridden(root, [TypeOverride(id)]) ==
      match SetItem(root, [PROVIDERS, id, TYPE], Leaf(Text(SPOTIFY)))
      case Ok(updated) => Ok(updated)
      case Err(error) => Err(BadOverride(error))
  {
    hide SetItem, EditTarget;
    var overrides := [TypeOverride(id)];
    assert overrides[..0] == [] && Overridden(root, []) == Ok(root);
  }

  /** In a document without legacy keys that resolves, one provider at most has the type `spotify`. */
  lemma ExactAreOne(root: Table, env: Env, a: string, b: string)
    requires ResolveProviders(root, env).Ok? && !HasLegacy(root)
    requires a in SpotifyIds(Named(root)) && b in SpotifyIds(Named(root))
    ensures a == b
  {
    var all, legacy, final := LoadChecks(root, env);
    QuietMerge(root, all);
    hide ResolveProviders, HasLegacy, MergeLegacy, MergeEnv, ProviderOk, FinalValues, DefaultOf;
    OwnersIncludeExact(legacy.0, DefaultOf(all).value, env, a);
    OwnersIncludeExact(legacy.0, DefaultOf(all).value, env, b);
    SmallSetsAgree(SpotifyOwners(final), a, b);
  }

  lemma TypeOverridden(root: Table, id: string)
    requires TableOrAbsent(root, PROVIDERS) && SetItem(root, [PROVIDERS, id, TYPE], Leaf(Text(SPOTIFY))).Ok?
    ensures var e := SetItem(root, [PROVIDERS, id, TYPE], Leaf(Text(SPOTIFY))).value; var all := Entries(root, PROVIDERS);
      && e == root[PROVIDERS := Branch(all[id := Branch(Entries(all, id)[TYPE := Leaf(Text(SPOTIFY))])])]
  {
    assert [PROVIDERS, id, TYPE] == [PROVIDERS] + [id, TYPE] && [id, TYPE] == [id] + [TYPE];
    var node := HeadOnly(root, [PROVIDERS, id, TYPE], Leaf(Text(SPOTIFY)));
    var inner := HeadOnly(Entries(root, PROVIDERS), [id, TYPE], Leaf(Text(SPOTIFY)));
    Set3(root, PROVIDERS, id, TYPE, Leaf(Text(SPOTIFY)));
  }

  lemma ProvidersCarryNoLegacy(root: Table, all: Table)
    ensures HasLegacy(root[PROVIDERS := Branch(all)]) <==> HasLegacy(root)
  {
    NamesDiffer();
    assert PLAYER != PROVIDERS && SPOTIFYD != PROVIDERS;
    var e := root[PROVIDERS := Branch(all)];
    assert e.Keys * ROOT_KEYS == root.Keys * ROOT_KEYS;
    assert Entries(e, PLAYER) == Entries(root, PLAYER) && Entries(e, SPOTIFYD) == Entries(root, SPOTIFYD);
  }

  /** A document that has its Spotify provider loads with no second one. */
  lemma SecondSpotifyIsRefused(root: Table, target: string, id: string, env: Env)
    requires !HasLegacy(root) && target in SpotifyIds(Named(root)) && id != target
    ensures Load(root, env, [TypeOverride(id)]).Err?
  {
    hide LoadTree, HasLegacy, Overridden, SetItem, ResolveProviders, DecodeSections;
    TypeOverrideApplies(root, id);
    var all := Entries(root, PROVIDERS);
    if SetItem(root, [PROVIDERS, id, TYPE], Leaf(Text(SPOTIFY))).Ok? {
      var e := SetItem(root, [PROVIDERS, id, TYPE], Leaf(Text(SPOTIFY))).value;
      var all' := all[id := Branch(Entries(all, id)[TYPE := Leaf(Text(SPOTIFY))])];
      TypeOverridden(root, id);
      ProvidersCarryNoLegacy(root, all');
      LoadsIffParts(e, env);
      if id == DEFAULT {
        TableIsNoDefault(e, all', env);
      } else {
        BothAreSpotify(all, all', target, id);
        if ResolveProviders(e, env).Ok? {
          ExactAreOne(e, env, target, id);
        }
      }
    }
  }

  lemma TableIsNoDefault(root: Table, all: Table, env: Env)
    requires ProviderValues(root) == Ok(all) && DEFAULT in all && all[DEFAULT].Branch?
    ensures ResolveProviders(root, env).Err?
  {
  }

  lemma BothAreSpotify(all: Table, all': Table, target: string, id: string)
    requires target in SpotifyIds(all - {DEFAULT}) && id != target && id != DEFAULT
    requires all' == all[id := Branch(Entries(all, id)[TYPE := Leaf(Text(SPOTIFY))])]
    ensures target in SpotifyIds(all' - {DEFAULT}) && id in SpotifyIds(all' - {DEFAULT})
  {
    assert (all' - {DEFAULT})[target] == (all - {DEFAULT})[target];
    assert KindOf(all'[id]) == Some(SPOTIFY);
  }

  /** A migrated document loads under no override that makes another provider
      Spotify's, whatever the document was. */
  lemma MigratedRefusesASecondSpotify(document: Table, id: string, env: Env)
    requires LoadTree(document, NO_ENV).Ok? && HasLegacy(document) && Migrate(document).Ok?
    requires EditTarget(document) != Ok(id)
    ensures Load(Migrate(document).value.0, env, [TypeOverride(id)]).Err?
  {
    hide Load, LoadTree, HasLegacy, EditTarget, Named, IsSpotify, MovedAndCompleted, HookCanMove, SameMeaning;
    MigratedLoad(document, NO_ENV);
    MigrationSucceedsIff(document);
    MigratedTargetIsSpotify(document);
    var target, moved := EditTarget(document).value, Migrate(document).value.0;
    IsAnId(Named(moved), target);
    SecondSpotifyIsRefused(moved, target, id, env);
  }

  // ---- A document that does load under it ----

  function FlatDocument(value: Scalar): (r: Table)
  {
    map[CLIENT_ID := Leaf(value)]
  }

  function FlatWithHome(value: Scalar): (r: Table)
  {
    map[CLIENT_ID := Leaf(value), PROVIDERS := Branch(map[ConfigEdit.HOME := Branch(map[TYPE := Leaf(Text(SPOTIFY))])])]
  }

  function FlatProvider(value: Scalar): (r: Table)
  {
    map[TYPE := Leaf(Text(SPOTIFY)), CLIENT_ID := Leaf(value)]
  }

  lemma FlatMerges(root: Table, value: Scalar, own: Table)
    requires root.Keys <= {PROVIDERS, CLIENT_ID} && CLIENT_ID in root && root[CLIENT_ID] == Leaf(value)
    requires own.Keys <= {TYPE} && (TYPE in own ==> own[TYPE] == Leaf(Text(SPOTIFY)))
    ensures HasLegacy(root) && MergedSpotify(root, own) == Ok(FlatProvider(value))
  {
    NamesDiffer();
    KeyLists();
    assert PLAYER != PROVIDERS && SPOTIFYD != PROVIDERS;
    FlatKeyIsLegacy(root, CLIENT_ID);
    assert PLAYER !in root && SPOTIFYD !in root;
    assert Restrict(root, ROOT_KEYS) == map[CLIENT_ID := Leaf(value)];
    var merged := Restrict(root, ROOT_KEYS) + own;
    assert map[TYPE := Leaf(Text(SPOTIFY))] + merged == FlatProvider(value);
  }

  lemma FlatProviderOk(id: string, value: Scalar)
    requires ValidProviderId(id)
    ensures ProviderOk(id, Branch(FlatProvider(value)))
  {
    hide ValidProviderId;
    KeyLists();
    var node := Branch(FlatProvider(value));
    assert KindOf(node) == Some(SPOTIFY);
    ExactIsTrimmed(node);
  }

  /** One provider, or none, and a flat client id: the provider takes it. */
  lemma FlatLoads(root: Table, value: Scalar, target: string, all: Table)
    requires root.Keys <= {PROVIDERS, CLIENT_ID} && CLIENT_ID in root && root[CLIENT_ID] == Leaf(value)
    requires ProviderValues(root) == Ok(all) && ValidProviderId(target) && target != DEFAULT
    requires (all == map[] && target == SPOTIFY) || (all == map[target := Branch(map[TYPE := Leaf(Text(SPOTIFY))])] && target != SPOTIFY)
    ensures LoadTree(root, NO_ENV).Ok?
  {
    hide DecodeSections, LoadTree, ProviderOk, CheckProviders, LegacyWarnings, HasLegacy, MergedSpotify, ValidProviderId, FlatProvider;
    BareSections(root);
    assert all - {DEFAULT} == all;
    FlatMerges(root, value, Entries(all, target));
    FlatTarget(all, target);
    FlatProviderOk(target, value);
    var node := Branch(FlatProvider(value));
    OneProviderPasses(target, node, None);
    assert all[target := node] == map[target := node];
    LoadsFromParts(root);
  }

  lemma FlatTarget(all: Table, target: string)
    requires (all == map[] && target == SPOTIFY) || (all == map[target := Branch(map[TYPE := Leaf(Text(SPOTIFY))])] && target != SPOTIFY)
    ensures LoadTarget(all) == Ok(target)
  {
    if all == map[] {
      assert SpotifyIds(all) == {};
    } else {
      assert KindOf(all[target]) == Some(SPOTIFY);
      assert SpotifyIds(all) == {target};
      assert TheOne(SpotifyIds(all)) == target;
    }
  }

  /** A flat client id loads, migrates, and loads under `providers.home.type =
      "spotify"`; its migrated form does not load under that. */
  lemma SecondSpotifySplitsTheMigration(value: Scalar, env: Env)
    ensures var document := FlatDocument(value); var overrides := [TypeOverride(ConfigEdit.HOME)];
      && LoadTree(document, NO_ENV).Ok? && HasLegacy(document) && Migrate(document).Ok? && Migrate(document).value.1 != []
      && Load(document, NO_ENV, overrides).Ok?
      && Load(Migrate(document).value.0, env, overrides).Err?
  {
    var document := FlatDocument(value);
    NamesAreNormal();
    NamesDiffer();
    var none: Table := map[];
    assert ProviderValues(document) == Ok(none);
    FlatKeyIsLegacy(document, CLIENT_ID);
    assert HookCanMove(document);
    FlatTarget(none, SPOTIFY);
    assert EditTarget(document) == Ok(SPOTIFY);
    hide LoadTree, HasLegacy, Migrate, ValidProviderId, EditTarget, Overridden, ProviderValues;
    FlatLoads(document, value, SPOTIFY, none);
    MigrationSucceedsIff(document);
    MigrationRecords(document);
    HomeIsOverridden(value);
    HomeIsValid();
    MigratedRefusesASecondSpotify(document, ConfigEdit.HOME, env);
  }

  lemma MigrationRecords(document: Table)
    requires LoadTree(document, NO_ENV).Ok? && HasLegacy(document) && Migrate(document).Ok?
    ensures Migrate(document).value.1 != []
  {
    hide LoadTree, HasLegacy, EditTarget, MovedAndCompleted, HookCanMove, SameMeaning;
    MigratedLoad(document, NO_ENV);
  }

  lemma HomeIsValid()
    ensures ValidProviderId(ConfigEdit.HOME) && ConfigEdit.HOME != DEFAULT && ConfigEdit.HOME != SPOTIFY
  {
  }

  lemma HomeIsOverridden(value: Scalar)
    ensures Load(FlatDocument(value), NO_ENV, [TypeOverride(ConfigEdit.HOME)]).Ok?
  {
    hide LoadTree, ValidProviderId;
    var document := FlatDocument(value);
    NamesDiffer();
    HomeIsValid();
    TypeOverrideApplies(document, ConfigEdit.HOME);
    Set3(document, PROVIDERS, ConfigEdit.HOME, TYPE, Leaf(Text(SPOTIFY)));
    var own: Table := map[TYPE := Leaf(Text(SPOTIFY))];
    var none: Table := map[];
    assert Entries(document, PROVIDERS) == none && Entries(none, ConfigEdit.HOME) == none;
    assert none[TYPE := Leaf(Text(SPOTIFY))] == own;
    var all: Table := map[ConfigEdit.HOME := Branch(own)];
    assert none[ConfigEdit.HOME := Branch(own)] == all;
    assert document[PROVIDERS := Branch(all)] == FlatWithHome(value);
    FlatLoads(FlatWithHome(value), value, ConfigEdit.HOME, all);
  }
}
