/** The document layer as it runs: one mutable document, edited step by step
    (crates/spotuify-config/src/document.rs), and the loader's merge of legacy
    tables (crates/spotuify-config/src/model.rs). Each method is tied to the
    function that specifies it. */
module ConfigDocument {
  import opened Wrappers
  import opened ConfigTree
  import opened ConfigPath
  import opened ConfigSections
  import opened ConfigLoad
  import Migration
  import ConfigEdit

  class Document {
    var root: Table
    var changes: seq<Migration.Change>

    constructor (root: Table)
      ensures this.root == root && changes == []
    {
      this.root := root;
      changes := [];
    }

    /** Goes down the path, making tables where there are none and stopping at a
        value; then puts the item in and the changed tables back. A failure changes
        nothing: what was made on the way is empty, so no value lies under it. */
    method SetItem(path: Path, item: Node) returns (error: Option<EditError>)
      modifies this`root
      ensures match ConfigTree.SetItem(old(root), path, item)
        case Ok(updated) => error == None && root == updated
        case Err(e) => error == Some(e) && root == old(root)
      ensures error == None <==> path != [] && forall n :: 0 < n < |path| ==> ScalarAt(old(root), path[..n]) == None
      ensures error == None ==> ItemAt(root, path) == Some(item)
      ensures error == None ==> forall other :: !(path <= other) ==> ScalarAt(root, other) == ScalarAt(old(root), other)
    {
      hide ScalarAt, ItemAt;
      var start := root;
      SetSucceedsIff(start, path, item);
      ghost var expected := ConfigTree.SetItem(start, path, item);
      if path == [] {
        return Some(BlankPath);
      }
      var last := |path| - 1;
      var parents: seq<Table> := [];
      var table := start;
      assert path[0..] == path;
      for i := 0 to last
        invariant |parents| == i && root == start
        invariant expected == PutBack(parents, path[..i], ConfigTree.SetItem(table, path[i..], item))
      {
        DownOne(parents, table, path, i, item);
        var child := if path[i] in table then table[path[i]] else Branch(map[]);
        if child.Leaf? {
          return Some(CrossesValue(path[i]));
        }
        parents := parents + [table];
        table := child.entries;
      }
      assert path[last..] == [path[last]];
      table := table[path[last] := item];
      for i := last downto 0
        invariant |parents| == i && root == start
        invariant expected == PutBack(parents, path[..i], Ok(table))
      {
        assert path[..i + 1][..i] == path[..i];
        table := parents[i][path[i] := Branch(table)];
        parents := parents[..i];
      }
      SetThenGet(start, path, item);
      forall other | !(path <= other)
        ensures ScalarAt(table, other) == ScalarAt(start, other)
      {
        SetFrame(start, path, item, other);
      }
      root := table;
      error := None;
    }

    /** Fills the canonical place unless taken, drops the legacy key, records the change. */
    method MovePath(move: Migration.Move) returns (error: Option<EditError>)
      modifies this
      ensures match Migration.MovePath(old(root), move)
        case Ok(moved) => error == None && root == moved.0 && changes == old(changes) + moved.1
        case Err(e) => error == Some(e) && root == old(root) && changes == old(changes)
    {
      var legacy := ItemAt(root, move.legacy);
      if legacy == None {
        return None;
      }
      var taken := ItemAt(root, move.canonical).Some?;
      if !taken {
        error := SetItem(move.canonical, legacy.value);
        if error.Some? {
          return;
        }
      }
      root := RemoveItem(root, move.legacy);
      changes := changes + [Migration.Change(move.legacy, move.canonical,
        if taken then Migration.RemovedDuplicate else Migration.Migrated)];
      error := None;
    }

    method SetIfMissing(path: Path, item: Node) returns (error: Option<EditError>)
      modifies this`root
      ensures match Migration.SetIfMissing(old(root), path, item)
        case Ok(updated) => error == None && root == updated
        case Err(e) => error == Some(e)
    {
      error := None;
      if ItemAt(root, path) == None {
        error := SetItem(path, item);
      }
    }

    /** The moves in order, up to the first that fails. */
    method RunMoves(moves: seq<Migration.Move>) returns (error: Option<EditError>)
      requires changes == []
      modifies this
      ensures match Migration.RunMoves(old(root), moves)
        case Ok(moved) => error == None && root == moved.0 && changes == moved.1
        case Err(e) => error == Some(e)
    {
      hide Migration.MovePath;
      ghost var start := root;
      for i := 0 to |moves|
        invariant Migration.RunMoves(start, moves[..i]) == Ok((root, changes))
      {
        error := MovePath(moves[i]);
        assert moves[..i + 1][..i] == moves[..i];
        if error.Some? {
          FailureStays(start, moves, i + 1);
          return;
        }
      }
      assert moves[..|moves|] == moves;
      error := None;
    }

    /** The migration, in the order the source makes its moves. */
    method Migrate() returns (r: Result<seq<Migration.Change>, Migration.MigrationError>)
      requires changes == []
      modifies this
      ensures match Migration.Migrate(old(root))
        case Ok(migrated) => r == Ok(migrated.1) && root == migrated.0
        case Err(e) => r == Err(e)
    {
      hide LoadTree, EditTarget, HasLegacy, Migration.Moves, Migration.RunMoves, Migration.SetIfMissing;
      var target := SPOTIFY;
      if HasLegacy(root) {
        match EditTarget(root)
        case Err(e) => return Err(Migration.NoTarget(e));
        case Ok(id) => target := id;
      }
      var error := RunMoves(Migration.Moves(target));
      if error.Some? {
        return Err(Migration.CannotMove(error.value));
      }
      if changes == [] {
        return Ok(changes);
      }
      error := SetIfMissing([PROVIDERS, DEFAULT], Leaf(Text(target)));
      if error.Some? {
        return Err(Migration.CannotMove(error.value));
      }
      error := SetIfMissing([PROVIDERS, target, TYPE], Leaf(Text(SPOTIFY)));
      if error.Some? {
        return Err(Migration.CannotMove(error.value));
      }
      match LoadTree(root, NO_ENV)
      case Err(e) => return Err(Migration.WouldNotLoad(e));
      case Ok(_) => return Ok(changes);
    }

    method RemoveAll(paths: seq<Path>)
      modifies this`root
      ensures root == ConfigEdit.RemoveAll(old(root), paths)
    {
      for i := 0 to |paths|
        invariant root == ConfigEdit.RemoveAll(old(root), paths[..i])
      {
        root := RemoveItem(root, paths[i]);
        assert paths[..i + 1][..i] == paths[..i];
      }
      assert paths[..|paths|] == paths;
    }

    /** Writes or clears one setting and drops its other spellings. */
    method SetValue(path: ConfigPath, item: Option<Scalar>) returns (error: Option<ConfigEdit.SetError>)
      modifies this`root
      ensures match ConfigEdit.SetValue(old(root), path, item)
        case Ok(edited) => error == None && root == edited
        case Err(e) => error == Some(e)
    {
      var target;
      match ResolveDocumentPath(root, path) {
        case Err(e) => return Some(ConfigEdit.NoTarget(e));
        case Ok(resolved) => target := resolved;
      }
      var aliases := ConfigEdit.AliasesToRemove(path, target);
      match item {
        case Some(value) =>
          var failed := SetItem(target, Leaf(value));
          if failed.Some? {
            return Some(ConfigEdit.CannotSet(failed.value));
          }
          RemoveAll(aliases);
        case None =>
          RemoveAll([target] + aliases);
      }
      match LoadTree(root, NO_ENV)
      case Err(e) => error := Some(ConfigEdit.WouldNotLoad(e));
      case Ok(_) => error := None;
    }
  }

  /** A table put back under its parents, the innermost first. */
  function PutBack(parents: seq<Table>, keys: Path, result: Result<Table, EditError>): (r: Result<Table, EditError>)
    requires |parents| == |keys|
  {
    if parents == [] || result.Err? then result
    else
      var last := |parents| - 1;
      PutBack(parents[..last], keys[..last], Ok(parents[last][keys[last] := Branch(result.value)]))
  }

  /** One level further down, the rest of the insertion happens in the child. */
  lemma DownOne(parents: seq<Table>, table: Table, path: Path, i: nat, item: Node)
    requires i == |parents| < |path| - 1
    ensures var child := if path[i] in table then table[path[i]] else Branch(map[]);
      var here := PutBack(parents, path[..i], ConfigTree.SetItem(table, path[i..], item));
      if child.Leaf? then here == Err(CrossesValue(path[i]))
      else here == PutBack(parents + [table], path[..i + 1], ConfigTree.SetItem(child.entries, path[i + 1..], item))
  {
    assert path[i..][0] == path[i] && path[i..][1..] == path[i + 1..];
    assert path[..i + 1][..i] == path[..i] && (parents + [table])[..i] == parents;
  }

  lemma {:induction false} FailureStays(start: Table, moves: seq<Migration.Move>, n: nat)
    requires n <= |moves| && Migration.RunMoves(start, moves[..n]).Err?
    ensures Migration.RunMoves(start, moves) == Migration.RunMoves(start, moves[..n])
    decreases |moves|
  {
    if n < |moves| {
      assert moves[..|moves| - 1][..n] == moves[..n];
      FailureStays(start, moves[..|moves| - 1], n);
    } else {
      assert moves[..n] == moves;
    }
  }

  // ---- The loader's merge, key by key ----

  function RootReport(root: Table, spotify: Table, target: string, key: string): (r: set<Warning>)
  {
    if key in root then {DeprecatedKey([key], [PROVIDERS, target, key], key in spotify)} else {}
  }

  /** A flat key fills its gap and is reported. */
  method MergeRootKey(root: Table, spotify: Table, target: string, key: string, warnings: set<Warning>)
    returns (merged: Table, reported: set<Warning>)
    ensures merged == Restrict(root, {key}) + spotify
    ensures reported == warnings + RootReport(root, spotify, target, key)
  {
    merged, reported := spotify, warnings;
    if key in root {
      var ignored := key in spotify;
      reported := reported + {DeprecatedKey([key], [PROVIDERS, target, key], ignored)};
      if !ignored {
        merged := merged[key := root[key]];
      }
    }
  }

  function PlayerReport(target: string, key: string, ignored: bool): (r: Warning)
  {
    DeprecatedKey([PLAYER, key], [PROVIDERS, target, PLAYER, key], ignored)
  }

  /** The reports for the entries named in `seen`: the movable ones, and the hook. */
  function PlayerReports(movable: set<string>, own: Table, target: string, hook: Warning, seen: set<string>): (r: set<Warning>)
  {
    (set key | key in movable && key in seen ::
      PlayerReport(target, key, key in own))
    + (if EVENT_HOOK in seen then {hook} else {})
  }

  /** Walks a legacy player table in any order, filling the gaps of `own`. */
  method MergeEntries(legacy: Table, own: Table, movable: set<string>, target: string, hook: Warning)
    returns (player: Table, reports: set<Warning>)
    requires EVENT_HOOK !in movable
    ensures player == Restrict(legacy, movable) + own
    ensures reports == PlayerReports(movable, own, target, hook, legacy.Keys)
  {
    hide Restrict, PlayerReports, PlayerReport;
    player, reports := own, {};
    var todo := legacy.Keys;
    WalkStarts(legacy, own, movable, target, hook);
    while todo != {}
      invariant todo <= legacy.Keys
      invariant player == Restrict(legacy, movable - todo) + own
      invariant reports == PlayerReports(movable, own, target, hook, legacy.Keys - todo)
      decreases todo
    {
      var key :| key in todo;
      OneKeyFurther(legacy, own, movable, todo, key);
      OneReportFurther(movable, own, target, hook, legacy.Keys - todo, key);
      assert legacy.Keys - (todo - {key}) == legacy.Keys - todo + {key};
      if key in movable {
        reports := reports + {PlayerReport(target, key, key in player)};
        if key !in player {
          player := player[key := legacy[key]];
        }
      } else if key == EVENT_HOOK {
        reports := reports + {hook};
      }
      todo := todo - {key};
    }
    assert movable - todo == movable && legacy.Keys - todo == legacy.Keys;
  }

  lemma WalkStarts(legacy: Table, own: Table, movable: set<string>, target: string, hook: Warning)
    ensures Restrict(legacy, movable - legacy.Keys) + own == own
    ensures PlayerReports(movable, own, target, hook, legacy.Keys - legacy.Keys) == {}
  {
    assert legacy.Keys - legacy.Keys == {};
    assert Restrict(legacy, movable - legacy.Keys) == map[];
  }

  lemma OneKeyFurther(legacy: Table, own: Table, movable: set<string>, todo: set<string>, key: string)
    requires key in todo && todo <= legacy.Keys
    ensures var player := Restrict(legacy, movable - todo) + own;
      Restrict(legacy, movable - (todo - {key})) + own ==
        (if key in movable && key !in player then player[key := legacy[key]] else player)
      && (key in player <==> key in own)
  {
  }

  lemma OneReportFurther(movable: set<string>, own: Table, target: string, hook: Warning, seen: set<string>, key: string)
    requires EVENT_HOOK !in movable
    ensures PlayerReports(movable, own, target, hook, seen + {key}) ==
      PlayerReports(movable, own, target, hook, seen) +
        (if key == EVENT_HOOK then {hook}
         else if key in movable then {PlayerReport(target, key, key in own)}
         else {})
  {
  }

  method MergePlayer(root: Table, spotify: Table, target: string, warnings: set<Warning>)
    returns (merged: Result<Table, LoadError>, reported: set<Warning>)
    ensures merged == MergedPlayer(root, spotify)
    ensures merged.Ok? ==> reported == warnings + PlayerWarnings(root, spotify, target)
  {
    hide Restrict;
    reported := warnings;
    if PLAYER !in root {
      assert PlayerWarnings(root, spotify, target) == {};
      return Ok(spotify), reported;
    }
    if root[PLAYER].Leaf? {
      return Err(LegacyNotTable(PLAYER)), reported;
    }
    if PLAYER in spotify && spotify[PLAYER].Leaf? {
      return Err(ScopedPlayerNotTable), reported;
    }
    var hook := DeprecatedKey([PLAYER, EVENT_HOOK], [ANALYTICS, HOOK_COMMAND], HOOK_COMMAND in Entries(root, ANALYTICS));
    assert EVENT_HOOK !in PLAYER_KEYS;
    var player, reports := MergeEntries(root[PLAYER].entries, Entries(spotify, PLAYER), PLAYER_KEYS, target, hook);
    reported := reported + reports;
    merged := Ok(spotify[PLAYER := Branch(player)]);
  }

  method MergeSpotifyd(root: Table, spotify: Table, target: string, warnings: set<Warning>)
    returns (merged: Result<Table, LoadError>, reported: set<Warning>)
    ensures merged == MergedSpotifyd(root, spotify)
    ensures merged.Ok? ==> reported == warnings + DeviceReports(root, spotify, target)
  {
    reported := warnings;
    if SPOTIFYD !in root {
      return Ok(spotify), reported;
    }
    if root[SPOTIFYD].Leaf? {
      return Err(LegacyNotTable(SPOTIFYD)), reported;
    }
    var legacy := root[SPOTIFYD].entries;
    if DEVICE_NAME !in legacy {
      return Ok(spotify), reported;
    }
    if PLAYER in spotify && spotify[PLAYER].Leaf? {
      return Err(ScopedPlayerNotTable), reported;
    }
    var player := Entries(spotify, PLAYER);
    reported := reported + {DeviceReport(target, DEVICE_NAME in player)};
    assert Restrict(legacy, {DEVICE_NAME}) == map[DEVICE_NAME := legacy[DEVICE_NAME]];
    if DEVICE_NAME !in player {
      assert player[DEVICE_NAME := legacy[DEVICE_NAME]] == Restrict(legacy, {DEVICE_NAME}) + player;
      player := player[DEVICE_NAME := legacy[DEVICE_NAME]];
    } else {
      assert Restrict(legacy, {DEVICE_NAME}) + player == player;
    }
    merged := Ok(spotify[PLAYER := Branch(player)]);
  }

  function DeviceReports(root: Table, spotify: Table, target: string): (r: set<Warning>)
  {
    if DEVICE_NAME in Entries(root, SPOTIFYD) then {DeviceReport(target, DEVICE_NAME in Entries(spotify, PLAYER))} else {}
  }

  function DeviceReport(target: string, ignored: bool): (r: Warning)
  {
    DeprecatedKey([SPOTIFYD, DEVICE_NAME], [PROVIDERS, target, PLAYER, DEVICE_NAME], ignored)
  }

  /** The merge in the loader's order: three flat keys, `player`, `spotifyd`, and
      the type if there is none. */
  method MergeLegacyTables(root: Table, spotify: Table, target: string)
    returns (merged: Result<Table, LoadError>, warnings: set<Warning>)
    ensures merged == MergedSpotify(root, spotify)
    ensures merged.Ok? ==> warnings == LegacyWarnings(root, spotify, target)
  {
    hide Restrict, PlayerWarnings, MergedPlayer, MergedSpotifyd, SpotifydWarnings, DeviceReports;
    var flat, reported;
    flat, reported := MergeRootKey(root, spotify, target, CLIENT_ID, {});
    flat, reported := MergeRootKey(root, flat, target, CLIENT_SECRET, reported);
    flat, reported := MergeRootKey(root, flat, target, REDIRECT_URI, reported);
    RootKeysTogether(root, spotify);
    RootReportsTogether(root, spotify, target);
    hide RootReport;
    var player, afterPlayer := MergePlayer(root, flat, target, reported);
    if player.Err? {
      return player, {};
    }
    var device, afterDevice := MergeSpotifyd(root, player.value, target, afterPlayer);
    if device.Err? {
      return device, {};
    }
    var table := device.value;
    if TYPE !in table {
      table := table[TYPE := Leaf(Text(SPOTIFY))];
    }
    assert table == map[TYPE := Leaf(Text(SPOTIFY))] + device.value;
    merged, warnings := Ok(table), afterDevice;
    ReportsTogether(root, spotify, flat, target, player.value);
  }

  lemma RootKeysTogether(root: Table, spotify: Table)
    ensures Restrict(root, {REDIRECT_URI}) + (Restrict(root, {CLIENT_SECRET}) + (Restrict(root, {CLIENT_ID}) + spotify)) ==
            Restrict(root, ROOT_KEYS) + spotify
    ensures CLIENT_SECRET in Restrict(root, {CLIENT_ID}) + spotify <==> CLIENT_SECRET in spotify
    ensures REDIRECT_URI in Restrict(root, {CLIENT_SECRET}) + (Restrict(root, {CLIENT_ID}) + spotify) <==> REDIRECT_URI in spotify
  {
  }

  lemma RootReportsTogether(root: Table, spotify: Table, target: string)
    ensures (set key | key in ROOT_KEYS && key in root :: DeprecatedKey([key], [PROVIDERS, target, key], key in spotify)) ==
      {} + RootReport(root, spotify, target, CLIENT_ID) + RootReport(root, spotify, target, CLIENT_SECRET)
      + RootReport(root, spotify, target, REDIRECT_URI)
  {
  }

  /** What the later steps see is what the reports are stated in. */
  lemma ReportsTogether(root: Table, spotify: Table, flat: Table, target: string, player: Table)
    requires flat == Restrict(root, ROOT_KEYS) + spotify && MergedPlayer(root, flat) == Ok(player)
    ensures PlayerWarnings(root, flat, target) == PlayerWarnings(root, spotify, target)
    ensures SpotifydWarnings(root, spotify, target) == DeviceReports(root, player, target)
  {
    NamesDiffer();
    assert Entries(flat, PLAYER) == Entries(spotify, PLAYER);
    assert DEVICE_NAME in PLAYER_KEYS;
  }
}
