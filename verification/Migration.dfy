/** Moving legacy keys to their canonical places
    (crates/spotuify-config/src/document.rs, `migrate_legacy_config_at`). */
module Migration {
  import opened Wrappers
  import opened ConfigTree
  import opened ConfigPath
  import opened ConfigSections
  import opened ConfigLoad

  datatype Outcome = Migrated | RemovedDuplicate

  datatype Change = Change(legacy: Path, canonical: Path, outcome: Outcome)

  datatype MigrationError = NoTarget(target: TargetError) | CannotMove(edit: EditError) | WouldNotLoad(load: LoadError)

  datatype Move = Move(legacy: Path, canonical: Path)

  /** One move: fill the canonical place unless it is taken, then drop the legacy key. */
  function MovePath(root: Table, move: Move): (r: Result<(Table, seq<Change>), EditError>)
  {
    match ItemAt(root, move.legacy)
    case None => Ok((root, []))
    case Some(item) =>
      var taken := ItemAt(root, move.canonical).Some?;
      var filled :- if taken then Ok(root) else SetItem(root, move.canonical, item);
      Ok((RemoveItem(filled, move.legacy),
          [Change(move.legacy, move.canonical, if taken then RemovedDuplicate else Migrated)]))
  }

  function RunMoves(root: Table, moves: seq<Move>): (r: Result<(Table, seq<Change>), EditError>)
    decreases |moves|
  {
    if moves == [] then Ok((root, []))
    else
      var before :- RunMoves(root, moves[..|moves| - 1]);
      var after :- MovePath(before.0, moves[|moves| - 1]);
      Ok((after.0, before.1 + after.1))
  }

  function RootMove(target: string, key: string): (r: Move)
  {
    Move([key], [PROVIDERS, target, key])
  }

  function PlayerMove(target: string, key: string): (r: Move)
  {
    Move([PLAYER, key], [PROVIDERS, target, PLAYER, key])
  }

  const HOOK_MOVE := Move([PLAYER, EVENT_HOOK], [ANALYTICS, HOOK_COMMAND])

  function DeviceMove(target: string): (r: Move)
  {
    Move([SPOTIFYD, DEVICE_NAME], [PROVIDERS, target, PLAYER, DEVICE_NAME])
  }

  const ROOT_KEY_LIST: seq<string> := [CLIENT_ID, CLIENT_SECRET, REDIRECT_URI]

  const PLAYER_KEY_LIST: seq<string> :=
    [BACKEND, BITRATE, DEVICE_NAME, AUDIO_OUTPUT_DEVICE, NORMALIZATION, AUDIO_CACHE_MIB, PULSE_PROPS]

  function RootMoves(target: string, keys: seq<string>): (r: seq<Move>)
  {
    seq(|keys|, i requires 0 <= i < |keys| => RootMove(target, keys[i]))
  }

  function PlayerMoves(target: string, keys: seq<string>): (r: seq<Move>)
  {
    seq(|keys|, i requires 0 <= i < |keys| => PlayerMove(target, keys[i]))
  }

  /** All moves, in the order they are made. */
  function Moves(target: string): (r: seq<Move>)
  {
    RootMoves(target, ROOT_KEY_LIST) + PlayerMoves(target, PLAYER_KEY_LIST) + [HOOK_MOVE] + [DeviceMove(target)]
  }

  function SetIfMissing(root: Table, path: Path, item: Node): (r: Result<Table, EditError>)
  {
    if ItemAt(root, path).Some? then Ok(root) else SetItem(root, path, item)
  }

  function MigrationTarget(root: Table): (r: Result<string, TargetError>)
  {
    if HasLegacy(root) then EditTarget(root) else Ok(SPOTIFY)
  }

  /** The default provider and its type, named once something has moved. */
  function Completed(root: Table, target: string): (r: Result<Table, EditError>)
  {
    var withDefault :- SetIfMissing(root, [PROVIDERS, DEFAULT], Leaf(Text(target)));
    SetIfMissing(withDefault, [PROVIDERS, target, TYPE], Leaf(Text(SPOTIFY)))
  }

  function MovedAndCompleted(root: Table, target: string): (r: Result<(Table, seq<Change>), EditError>)
  {
    var moved :- RunMoves(root, Moves(target));
    if moved.1 == [] then Ok(moved)
    else
      var completed :- Completed(moved.0, target);
      Ok((completed, moved.1))
  }

  /** The whole migration: a changed document must load before it is kept. */
  function Migrate(root: Table): (r: Result<(Table, seq<Change>), MigrationError>)
  {
    match MigrationTarget(root)
    case Err(error) => Err(NoTarget(error))
    case Ok(target) =>
      match MovedAndCompleted(root, target)
      case Err(error) => Err(CannotMove(error))
      case Ok(result) =>
        if result.1 == [] then Ok(result)
        else match LoadTree(result.0, NO_ENV)
          case Err(error) => Err(WouldNotLoad(error))
          case Ok(_) => Ok(result)
  }
}

/** A migrated document means what it meant before. */
module MigrationPreservesMeaning {
  import opened Wrappers
  import opened ConfigTree
  import opened ConfigPath
  import opened ConfigSections
  import opened ConfigLoad
  import opened LoadPrecedence
  import opened EnvironmentMerge
  import opened Migration

  /** What the loader can see of a document, with `target` as the Spotify provider. */
  datatype View = View(
    others: Table,      // the provider values other than the target's
    spotify: Table,     // the target's table
    flat: Table,        // the legacy root keys
    player: Table,      // the legacy player table
    spotifyd: Table,    // the legacy spotifyd table
    analytics: Table,
    rest: Table)        // everything else

  const TOUCHED: set<string> := ROOT_KEYS + {PROVIDERS, PLAYER, SPOTIFYD, ANALYTICS}

  function ViewOf(d: Table, target: string): (r: View)
  {
    View(Entries(d, PROVIDERS) - {target}, Entries(Entries(d, PROVIDERS), target), Restrict(d, ROOT_KEYS),
         Entries(d, PLAYER), Entries(d, SPOTIFYD), Entries(d, ANALYTICS), d - TOUCHED)
  }

  predicate TableOrAbsent(d: Table, key: string)
  {
    key in d ==> d[key].Branch?
  }

  /** Every table the migration goes through is a table. */
  predicate Shaped(d: Table, target: string)
  {
    && TableOrAbsent(d, PROVIDERS)
    && TableOrAbsent(Entries(d, PROVIDERS), target)
    && TableOrAbsent(Entries(Entries(d, PROVIDERS), target), PLAYER)
    && TableOrAbsent(d, PLAYER)
    && TableOrAbsent(d, SPOTIFYD)
    && TableOrAbsent(d, ANALYTICS)
  }

  /** `table` with the gaps filled from `extra`. */
  function Fill(table: Table, extra: Table): (r: Table)
  {
    extra + table
  }

  function FillPlayer(spotify: Table, extra: Table): (r: Table)
  {
    if extra == map[] then spotify else spotify[PLAYER := Branch(Fill(Entries(spotify, PLAYER), extra))]
  }

  // ---- Single moves ----

  lemma ItemAt1(d: Table, a: string)
    ensures ItemAt(d, [a]) == if a in d then Some(d[a]) else None
  {
  }

  lemma ItemAt2(d: Table, a: string, b: string)
    ensures ItemAt(d, [a, b]) == ItemAt(Entries(d, a), [b])
  {
    assert [a, b][1..] == [b];
  }

  lemma ItemAt3(d: Table, a: string, b: string, c: string)
    ensures ItemAt(d, [a, b, c]) == ItemAt(Entries(Entries(d, a), b), [c])
  {
    assert [a, b, c][1..] == [b, c];
    ItemAt2(Entries(d, a), b, c);
  }

  lemma ItemAt4(d: Table, a: string, b: string, c: string, e: string)
    ensures ItemAt(d, [a, b, c, e]) == ItemAt(Entries(Entries(Entries(d, a), b), c), [e])
  {
    assert [a, b, c, e][1..] == [b, c, e];
    ItemAt3(Entries(d, a), b, c, e);
  }

  lemma Set2(d: Table, a: string, b: string, item: Node)
    requires TableOrAbsent(d, a)
    ensures SetItem(d, [a, b], item) == Ok(d[a := Branch(Entries(d, a)[b := item])])
  {
    assert [a, b][1..] == [b];
  }

  lemma Set3(d: Table, a: string, b: string, c: string, item: Node)
    requires TableOrAbsent(d, a) && TableOrAbsent(Entries(d, a), b)
    ensures SetItem(d, [a, b, c], item) ==
            Ok(d[a := Branch(Entries(d, a)[b := Branch(Entries(Entries(d, a), b)[c := item])])])
  {
    assert [a, b, c][1..] == [b, c];
    Set2(Entries(d, a), b, c, item);
  }

  lemma Set4(d: Table, a: string, b: string, c: string, e: string, item: Node)
    requires TableOrAbsent(d, a) && TableOrAbsent(Entries(d, a), b) && TableOrAbsent(Entries(Entries(d, a), b), c)
    ensures SetItem(d, [a, b, c, e], item) ==
            Ok(d[a := Branch(Entries(d, a)[b := Branch(Entries(Entries(d, a), b)[c :=
               Branch(Entries(Entries(Entries(d, a), b), c)[e := item])])])])
  {
    assert [a, b, c, e][1..] == [b, c, e];
    Set3(Entries(d, a), b, c, e, item);
  }

  lemma Remove2(d: Table, a: string, b: string)
    requires TableOrAbsent(d, a)
    ensures var e := RemoveItem(d, [a, b]);
      TableOrAbsent(e, a) && Entries(e, a) == Entries(d, a) - {b} && e - {a} == d - {a}
  {
    assert [a, b][1..] == [b];
    if a in d {
      assert RemoveItem(Entries(d, a), [b]) == Entries(d, a) - {b};
    }
  }

  /** What a write under the target's table does to the view. */
  lemma WriteView(d: Table, target: string, spotify: Table)
    requires Shaped(d, target) && TableOrAbsent(spotify, PLAYER)
    ensures var e := d[PROVIDERS := Branch(Entries(d, PROVIDERS)[target := Branch(spotify)])];
      Shaped(e, target) && ViewOf(e, target) == ViewOf(d, target).(spotify := spotify)
  {
    NamesDiffer();
    var e := d[PROVIDERS := Branch(Entries(d, PROVIDERS)[target := Branch(spotify)])];
    assert Restrict(e, ROOT_KEYS) == Restrict(d, ROOT_KEYS);
    assert e - TOUCHED == d - TOUCHED;
    assert Entries(e, PROVIDERS) - {target} == Entries(d, PROVIDERS) - {target};
  }

  /** What dropping a legacy root key does to the view. */
  lemma DropRootView(d: Table, target: string, key: string)
    requires Shaped(d, target) && key in ROOT_KEYS
    ensures Shaped(d - {key}, target)
    ensures ViewOf(d - {key}, target) == ViewOf(d, target).(flat := ViewOf(d, target).flat - {key})
  {
    NamesDiffer();
    assert Restrict(d - {key}, ROOT_KEYS) == Restrict(d, ROOT_KEYS) - {key};
    assert (d - {key}) - TOUCHED == d - TOUCHED;
  }

  /** What dropping a key of a legacy table does to the view. */
  lemma DropTableView(d: Table, target: string, table: string, key: string)
    requires Shaped(d, target) && table in {PLAYER, SPOTIFYD}
    ensures var e := RemoveItem(d, [table, key]);
      Shaped(e, target) && ViewOf(e, target) ==
        if table == PLAYER then ViewOf(d, target).(player := ViewOf(d, target).player - {key})
        else ViewOf(d, target).(spotifyd := ViewOf(d, target).spotifyd - {key})
  {
    NamesDiffer();
    Remove2(d, table, key);
    var e := RemoveItem(d, [table, key]);
    assert forall k :: k != table ==> (k in e <==> k in d - {table}) && (k in e ==> e[k] == (d - {table})[k]) by {
      assert forall k :: k != table ==> (k in e <==> k in e - {table});
    }
    assert Restrict(e, ROOT_KEYS) == Restrict(d, ROOT_KEYS);
    assert e - TOUCHED == d - TOUCHED;
  }

  lemma MoveFills(d: Table, move: Move, item: Node, filled: Table)
    requires ItemAt(d, move.legacy) == Some(item) && ItemAt(d, move.canonical) == None
    requires SetItem(d, move.canonical, item) == Ok(filled)
    ensures MovePath(d, move) == Ok((RemoveItem(filled, move.legacy), [Change(move.legacy, move.canonical, Migrated)]))
  {
  }

  lemma MoveDrops(d: Table, move: Move)
    requires ItemAt(d, move.legacy).Some? && ItemAt(d, move.canonical).Some?
    ensures MovePath(d, move) == Ok((RemoveItem(d, move.legacy), [Change(move.legacy, move.canonical, RemovedDuplicate)]))
  {
  }

  lemma MoveNothing(d: Table, move: Move)
    requires ItemAt(d, move.legacy) == None
    ensures MovePath(d, move) == Ok((d, []))
  {
  }

  lemma Remove1(d: Table, a: string)
    ensures RemoveItem(d, [a]) == d - {a}
  {
  }

  lemma RootMoveView(d: Table, target: string, key: string)
    requires Shaped(d, target) && key in ROOT_KEYS
    ensures var r := MovePath(d, RootMove(target, key)); var v := ViewOf(d, target);
      && r.Ok? && Shaped(r.value.0, target)
      && ViewOf(r.value.0, target) == v.(flat := v.flat - {key}, spotify := Fill(v.spotify, Restrict(v.flat, {key})))
      && (r.value.1 == [] <==> key !in v.flat)
  {
    hide Shaped, ViewOf, MovePath, ItemAt, SetItem, RemoveItem;
    NamesDiffer();
    var move := RootMove(target, key);
    var v := ViewOf(d, target);
    ViewParts(d, target);
    ItemAt1(d, key);
    ItemAt3(d, PROVIDERS, target, key);
    ItemAt1(v.spotify, key);
    if key !in d {
      MoveNothing(d, move);
      assert v.flat - {key} == v.flat;
      assert Fill(v.spotify, Restrict(v.flat, {key})) == v.spotify;
    } else if key in v.spotify {
      MoveDrops(d, move);
      Remove1(d, key);
      DropRootView(d, target, key);
      assert Fill(v.spotify, Restrict(v.flat, {key})) == v.spotify;
    } else {
      Set3(d, PROVIDERS, target, key, d[key]);
      var filled := SetItem(d, [PROVIDERS, target, key], d[key]).value;
      MoveFills(d, move, d[key], filled);
      assert v.spotify[key := d[key]] == Fill(v.spotify, Restrict(v.flat, {key}));
      WriteView(d, target, v.spotify[key := d[key]]);
      Remove1(filled, key);
      DropRootView(filled, target, key);
    }
  }

  /** The definitions of `Shaped` and `ViewOf`, opened. */
  lemma ViewParts(d: Table, target: string)
    ensures Shaped(d, target) <==>
      && TableOrAbsent(d, PROVIDERS) && TableOrAbsent(Entries(d, PROVIDERS), target)
      && TableOrAbsent(Entries(Entries(d, PROVIDERS), target), PLAYER)
      && TableOrAbsent(d, PLAYER) && TableOrAbsent(d, SPOTIFYD) && TableOrAbsent(d, ANALYTICS)
    ensures var v := ViewOf(d, target);
      && v.others == Entries(d, PROVIDERS) - {target} && v.spotify == Entries(Entries(d, PROVIDERS), target)
      && v.flat == Restrict(d, ROOT_KEYS) && v.player == Entries(d, PLAYER) && v.spotifyd == Entries(d, SPOTIFYD)
      && v.analytics == Entries(d, ANALYTICS) && v.rest == d - TOUCHED
  {
  }

  /** The table a move out of `player` or `spotifyd` takes from. */
  function Source(v: View, table: string): (r: Table)
  {
    if table == PLAYER then v.player else v.spotifyd
  }

  function WithSource(v: View, table: string, source: Table): (r: View)
  {
    if table == PLAYER then v.(player := source) else v.(spotifyd := source)
  }

  /** A move of one key under the target's own `player` table. */
  lemma TableMoveView(d: Table, target: string, table: string, key: string)
    requires Shaped(d, target) && table in {PLAYER, SPOTIFYD}
    ensures var r := MovePath(d, Move([table, key], [PROVIDERS, target, PLAYER, key])); var v := ViewOf(d, target);
      && r.Ok? && Shaped(r.value.0, target)
      && ViewOf(r.value.0, target) ==
           WithSource(v.(spotify := FillPlayer(v.spotify, Restrict(Source(v, table), {key}))), table, Source(v, table) - {key})
      && (r.value.1 == [] <==> key !in Source(v, table))
  {
    hide Shaped, ViewOf, MovePath, ItemAt, SetItem, RemoveItem;
    var move := Move([table, key], [PROVIDERS, target, PLAYER, key]);
    var v := ViewOf(d, target);
    ViewParts(d, target);
    var source := Source(v, table);
    var own := Entries(v.spotify, PLAYER);
    ItemAt2(d, table, key);
    ItemAt1(source, key);
    ItemAt4(d, PROVIDERS, target, PLAYER, key);
    ItemAt1(own, key);
    FillOne(v.spotify, source, key);
    if key !in source {
      MoveNothing(d, move);
    } else if key in own {
      MoveDrops(d, move);
      DropTableView(d, target, table, key);
    } else {
      Set4(d, PROVIDERS, target, PLAYER, key, source[key]);
      var filled := SetItem(d, move.canonical, source[key]).value;
      MoveFills(d, move, source[key], filled);
      WriteView(d, target, v.spotify[PLAYER := Branch(own[key := source[key]])]);
      DropTableView(filled, target, table, key);
    }
  }

  /** Filling the target's player table from a single key. */
  lemma FillOne(spotify: Table, source: Table, key: string)
    requires TableOrAbsent(spotify, PLAYER)
    ensures key !in source ==> source - {key} == source && FillPlayer(spotify, Restrict(source, {key})) == spotify
    ensures key in source && key in Entries(spotify, PLAYER) ==> FillPlayer(spotify, Restrict(source, {key})) == spotify
    ensures key in source && key !in Entries(spotify, PLAYER) ==>
      FillPlayer(spotify, Restrict(source, {key})) == spotify[PLAYER := Branch(Entries(spotify, PLAYER)[key := source[key]])]
  {
    var own := Entries(spotify, PLAYER);
    if key in source {
      assert Restrict(source, {key}) == map[key := source[key]];
      if key in own {
        assert Fill(own, Restrict(source, {key})) == own;
        assert spotify[PLAYER := Branch(own)] == spotify;
      } else {
        assert Fill(own, Restrict(source, {key})) == own[key := source[key]];
      }
    } else {
      assert Restrict(source, {key}) == map[];
    }
  }

  lemma AnalyticsWriteView(d: Table, target: string, analytics: Table)
    requires Shaped(d, target)
    ensures var e := d[ANALYTICS := Branch(analytics)];
      Shaped(e, target) && ViewOf(e, target) == ViewOf(d, target).(analytics := analytics)
  {
    NamesDiffer();
    var e := d[ANALYTICS := Branch(analytics)];
    assert Restrict(e, ROOT_KEYS) == Restrict(d, ROOT_KEYS);
    assert e - TOUCHED == d - TOUCHED;
  }

  /** The legacy hook, as an analytics entry. */
  function HookEntry(player: Table): (r: Table)
  {
    if EVENT_HOOK in player then map[HOOK_COMMAND := player[EVENT_HOOK]] else map[]
  }

  lemma HookMoveView(d: Table, target: string)
    requires Shaped(d, target)
    ensures var r := MovePath(d, HOOK_MOVE); var v := ViewOf(d, target);
      && r.Ok? && Shaped(r.value.0, target)
      && ViewOf(r.value.0, target) ==
           v.(analytics := Fill(v.analytics, HookEntry(v.player)), player := v.player - {EVENT_HOOK})
      && (r.value.1 == [] <==> EVENT_HOOK !in v.player)
  {
    hide Shaped, ViewOf, MovePath, ItemAt, SetItem, RemoveItem;
    var v := ViewOf(d, target);
    ViewParts(d, target);
    ItemAt2(d, PLAYER, EVENT_HOOK);
    ItemAt1(v.player, EVENT_HOOK);
    ItemAt2(d, ANALYTICS, HOOK_COMMAND);
    ItemAt1(v.analytics, HOOK_COMMAND);
    if EVENT_HOOK !in v.player {
      MoveNothing(d, HOOK_MOVE);
      assert v.player - {EVENT_HOOK} == v.player && Fill(v.analytics, map[]) == v.analytics;
    } else if HOOK_COMMAND in v.analytics {
      MoveDrops(d, HOOK_MOVE);
      DropTableView(d, target, PLAYER, EVENT_HOOK);
      assert Fill(v.analytics, HookEntry(v.player)) == v.analytics;
    } else {
      var item := v.player[EVENT_HOOK];
      Set2(d, ANALYTICS, HOOK_COMMAND, item);
      var filled := SetItem(d, [ANALYTICS, HOOK_COMMAND], item).value;
      MoveFills(d, HOOK_MOVE, item, filled);
      assert v.analytics[HOOK_COMMAND := item] == Fill(v.analytics, HookEntry(v.player));
      AnalyticsWriteView(d, target, v.analytics[HOOK_COMMAND := item]);
      DropTableView(filled, target, PLAYER, EVENT_HOOK);
    }
  }

  // ---- Runs of moves ----

  lemma {:induction false} RunMovesInTwo(d: Table, first: seq<Move>, second: seq<Move>)
    requires RunMoves(d, first).Ok?
    ensures RunMoves(d, first + second) ==
      match RunMoves(RunMoves(d, first).value.0, second)
      case Err(error) => Err(error)
      case Ok(r) => Ok((r.0, RunMoves(d, first).value.1 + r.1))
    decreases |second|
  {
    if second == [] {
      assert first + second == first;
      assert RunMoves(d, first).value.1 + [] == RunMoves(d, first).value.1;
    } else {
      var n := |second| - 1;
      assert (first + second)[..|first + second| - 1] == first + second[..n];
      RunMovesInTwo(d, first, second[..n]);
      if RunMoves(d, first + second).Ok? {
        assert RunMoves(d, first).value.1 + RunMoves(RunMoves(d, first).value.0, second).value.1 ==
               RunMoves(d, first + second[..n]).value.1 + MovePath(RunMoves(d, first + second[..n]).value.0, second[n]).value.1;
      }
    }
  }

  lemma RunOneMore(d: Table, moves: seq<Move>, next: Move)
    requires RunMoves(d, moves).Ok? && MovePath(RunMoves(d, moves).value.0, next).Ok?
    ensures RunMoves(d, moves + [next]).Ok?
    ensures RunMoves(d, moves + [next]).value.0 == MovePath(RunMoves(d, moves).value.0, next).value.0
    ensures RunMoves(d, moves + [next]).value.1 == [] <==>
            RunMoves(d, moves).value.1 == [] && MovePath(RunMoves(d, moves).value.0, next).value.1 == []
  {
    hide MovePath;
    assert (moves + [next])[..|moves|] == moves;
  }

  lemma DisjointOneMore(keys: set<string>, done: set<string>, key: string)
    ensures keys !! done + {key} <==> keys !! done && key !in keys - done
  {
  }

  function Elements(keys: seq<string>): (r: set<string>)
  {
    set key | key in keys
  }

  lemma FillsCompose(table: Table, from: Table, done: set<string>, next: set<string>)
    ensures Fill(Fill(table, Restrict(from, done)), Restrict(from - done, next)) == Fill(table, Restrict(from, done + next))
    ensures Fill(table, Restrict(from, {})) == table
  {
    assert Restrict(from, {}) == map[];
    assert Restrict(from - done, next) + Restrict(from, done) == Restrict(from, done + next);
    var a, b, t := Restrict(from - done, next), Restrict(from, done), table;
    assert a + (b + t) == (a + b) + t;
  }

  lemma {:induction false} RootMovesView(d: Table, target: string, keys: seq<string>)
    requires Shaped(d, target) && Elements(keys) <= ROOT_KEYS
    ensures var r := RunMoves(d, RootMoves(target, keys)); var v := ViewOf(d, target);
      && r.Ok? && Shaped(r.value.0, target)
      && ViewOf(r.value.0, target) ==
           v.(flat := v.flat - Elements(keys), spotify := Fill(v.spotify, Restrict(v.flat, Elements(keys))))
      && (r.value.1 == [] <==> v.flat.Keys !! Elements(keys))
    decreases |keys|
  {
    hide Shaped, ViewOf, MovePath, Fill, Restrict;
    assert RunMoves(d, []) == Ok((d, []));
    hide RunMoves;
    var v := ViewOf(d, target);
    if keys == [] {
      assert Elements(keys) == {} && RootMoves(target, keys) == [];
      assert v.flat - {} == v.flat;
      assert Fill(v.spotify, Restrict(v.flat, {})) == v.spotify by { FillsCompose(v.spotify, v.flat, {}, {}); }
    } else {
      var n := |keys| - 1;
      var done := Elements(keys[..n]);
      assert keys == keys[..n] + [keys[n]];
      assert Elements(keys) == done + {keys[n]};
      RootMovesView(d, target, keys[..n]);
      var before := RunMoves(d, RootMoves(target, keys[..n])).value.0;
      assert RootMoves(target, keys) == RootMoves(target, keys[..n]) + [RootMove(target, keys[n])];
      RootMoveView(before, target, keys[n]);
      RunOneMore(d, RootMoves(target, keys[..n]), RootMove(target, keys[n]));
      DisjointOneMore(v.flat.Keys, done, keys[n]);
      assert v.flat - done - {keys[n]} == v.flat - Elements(keys);
      FillsCompose(v.spotify, v.flat, done, {keys[n]});
    }
  }

  lemma FillPlayerTwice(spotify: Table, player: Table, done: set<string>, key: string)
    ensures FillPlayer(FillPlayer(spotify, Restrict(player, done)), Restrict(player - done, {key})) ==
            FillPlayer(spotify, Restrict(player, done + {key}))
  {
    var first := Restrict(player, done);
    var second := Restrict(player - done, {key});
    assert Restrict(player, done + {key}) == second + first;
    hide FillPlayer, Restrict;
    FillPlayerComposes(spotify, first, second);
  }

  lemma FillPlayerComposes(spotify: Table, first: Table, second: Table)
    ensures FillPlayer(FillPlayer(spotify, first), second) == FillPlayer(spotify, second + first)
  {
    var own := Entries(spotify, PLAYER);
    if first == map[] {
      assert second + first == second;
    } else if second == map[] {
      assert second + first == first;
    } else {
      assert (second + first).Keys == second.Keys + first.Keys;
      assert second + first != map[];
      assert second + (first + own) == second + first + own;
    }
  }

  lemma {:induction false} PlayerMovesView(d: Table, target: string, keys: seq<string>)
    requires Shaped(d, target)
    ensures var r := RunMoves(d, PlayerMoves(target, keys)); var v := ViewOf(d, target);
      && r.Ok? && Shaped(r.value.0, target)
      && ViewOf(r.value.0, target) ==
           v.(player := v.player - Elements(keys), spotify := FillPlayer(v.spotify, Restrict(v.player, Elements(keys))))
      && (r.value.1 == [] <==> v.player.Keys !! Elements(keys))
    decreases |keys|
  {
    hide Shaped, ViewOf, MovePath, FillPlayer, Restrict;
    assert RunMoves(d, []) == Ok((d, []));
    hide RunMoves;
    var v := ViewOf(d, target);
    if keys == [] {
      assert Elements(keys) == {} && PlayerMoves(target, keys) == [];
      assert v.player - {} == v.player;
      FillNothing(v.spotify, v.player);
    } else {
      var n := |keys| - 1;
      var done := Elements(keys[..n]);
      assert keys == keys[..n] + [keys[n]];
      assert Elements(keys) == done + {keys[n]};
      PlayerMovesView(d, target, keys[..n]);
      var before := RunMoves(d, PlayerMoves(target, keys[..n])).value.0;
      assert PlayerMoves(target, keys) == PlayerMoves(target, keys[..n]) + [PlayerMove(target, keys[n])];
      TableMoveView(before, target, PLAYER, keys[n]);
      RunOneMore(d, PlayerMoves(target, keys[..n]), PlayerMove(target, keys[n]));
      DisjointOneMore(v.player.Keys, done, keys[n]);
      assert v.player - done - {keys[n]} == v.player - Elements(keys);
      FillPlayerTwice(v.spotify, v.player, done, keys[n]);
    }
  }

  lemma FillNothing(spotify: Table, player: Table)
    ensures FillPlayer(spotify, Restrict(player, {})) == spotify
  {
    assert Restrict(player, {}) == map[];
  }

  // ---- The whole migration ----

  function MovedView(v: View): (r: View)
  {
    v.(flat := map[],
       spotify := FillPlayer(FillPlayer(Fill(v.spotify, v.flat), Restrict(v.player, PLAYER_KEYS)),
                             Restrict(v.spotifyd, {DEVICE_NAME})),
       player := v.player - PLAYER_KEYS - {EVENT_HOOK},
       spotifyd := v.spotifyd - {DEVICE_NAME},
       analytics := Fill(v.analytics, HookEntry(v.player)))
  }

  predicate LegacyInView(v: View)
  {
    v.flat != map[] || v.player.Keys * (PLAYER_KEYS + {EVENT_HOOK}) != {} || DEVICE_NAME in v.spotifyd
  }

  lemma LegacyIsInView(d: Table, target: string)
    ensures HasLegacy(d) <==> LegacyInView(ViewOf(d, target))
  {
    var flat := Restrict(d, ROOT_KEYS);
    assert flat.Keys == d.Keys * ROOT_KEYS;
    assert flat == map[] <==> flat.Keys == {};
  }

  lemma KeyLists()
    ensures Elements(ROOT_KEY_LIST) == ROOT_KEYS && Elements(PLAYER_KEY_LIST) == PLAYER_KEYS
    ensures EVENT_HOOK !in PLAYER_KEYS && TYPE !in ROOT_KEYS && PLAYER !in ROOT_KEYS && TYPE != PLAYER
    ensures DEFAULT != SPOTIFY && DEFAULT != TYPE
  {
    NamesDiffer();
    assert forall key :: key in ROOT_KEY_LIST <==> key == CLIENT_ID || key == CLIENT_SECRET || key == REDIRECT_URI;
    assert forall key :: key in PLAYER_KEY_LIST <==>
      key == BACKEND || key == BITRATE || key == DEVICE_NAME || key == AUDIO_OUTPUT_DEVICE || key == NORMALIZATION
      || key == AUDIO_CACHE_MIB || key == PULSE_PROPS;
  }

  /** The first two groups of moves. */
  lemma ScalarMovesView(d: Table, target: string)
    requires Shaped(d, target)
    ensures var r := RunMoves(d, RootMoves(target, ROOT_KEY_LIST) + PlayerMoves(target, PLAYER_KEY_LIST));
      var v := ViewOf(d, target);
      && r.Ok? && Shaped(r.value.0, target)
      && ViewOf(r.value.0, target) ==
           v.(flat := map[], player := v.player - PLAYER_KEYS,
              spotify := FillPlayer(Fill(v.spotify, v.flat), Restrict(v.player, PLAYER_KEYS)))
      && (r.value.1 == [] <==> v.flat == map[] && v.player.Keys !! PLAYER_KEYS)
  {
    hide Shaped, RunMoves, FillPlayer, Fill;
    KeyLists();
    var v := ViewOf(d, target);
    FlatIsRestricted(d, target);
    hide ViewOf;
    RootMovesView(d, target, ROOT_KEY_LIST);
    var rooted := RunMoves(d, RootMoves(target, ROOT_KEY_LIST)).value;
    PlayerMovesView(rooted.0, target, PLAYER_KEY_LIST);
    RunMovesInTwo(d, RootMoves(target, ROOT_KEY_LIST), PlayerMoves(target, PLAYER_KEY_LIST));
  }

  lemma FlatIsRestricted(d: Table, target: string)
    ensures var flat := ViewOf(d, target).flat;
      flat - ROOT_KEYS == map[] && Restrict(flat, ROOT_KEYS) == flat && (flat == map[] <==> flat.Keys !! ROOT_KEYS)
  {
    var flat := ViewOf(d, target).flat;
    assert flat.Keys <= ROOT_KEYS;
    assert flat == map[] <==> flat.Keys == {};
  }

  /** Every move succeeds on a well-shaped document, and together they empty the
      legacy places into the canonical ones. */
  lemma AllMovesView(d: Table, target: string)
    requires Shaped(d, target)
    ensures var r := RunMoves(d, Moves(target));
      && r.Ok? && Shaped(r.value.0, target)
      && ViewOf(r.value.0, target) == MovedView(ViewOf(d, target))
      && (r.value.1 == [] <==> !LegacyInView(ViewOf(d, target)))
  {
    hide Shaped, RunMoves, FillPlayer, Fill, MovePath, ViewOf;
    KeyLists();
    var v := ViewOf(d, target);
    var first := RootMoves(target, ROOT_KEY_LIST) + PlayerMoves(target, PLAYER_KEY_LIST);
    ScalarMovesView(d, target);
    var d1 := RunMoves(d, first).value.0;
    HookMoveView(d1, target);
    RunOneMore(d, first, HOOK_MOVE);
    assert HookEntry(v.player - PLAYER_KEYS) == HookEntry(v.player);
    var d2 := RunMoves(d, first + [HOOK_MOVE]).value.0;
    TableMoveView(d2, target, SPOTIFYD, DEVICE_NAME);
    RunOneMore(d, first + [HOOK_MOVE], DeviceMove(target));
    assert Moves(target) == first + [HOOK_MOVE] + [DeviceMove(target)];
    assert v.player.Keys * (PLAYER_KEYS + {EVENT_HOOK}) == {} <==> v.player.Keys !! PLAYER_KEYS && EVENT_HOOK !in v.player;
  }

  function CompletedView(v: View, target: string): (r: View)
  {
    v.(others := Fill(v.others, map[DEFAULT := Leaf(Text(target))]),
       spotify := Fill(v.spotify, map[TYPE := Leaf(Text(SPOTIFY))]))
  }

  lemma CompletionView(d: Table, target: string)
    requires Shaped(d, target) && target != DEFAULT
    ensures var r := Completed(d, target);
      && r.Ok? && Shaped(r.value, target) && target in Entries(r.value, PROVIDERS)
      && ViewOf(r.value, target) == CompletedView(ViewOf(d, target), target)
  {
    hide ItemAt, SetItem;
    var v := ViewOf(d, target);
    ItemAt2(d, PROVIDERS, DEFAULT);
    ItemAt1(Entries(d, PROVIDERS), DEFAULT);
    var e := d;
    if DEFAULT !in Entries(d, PROVIDERS) {
      Set2(d, PROVIDERS, DEFAULT, Leaf(Text(target)));
      e := SetItem(d, [PROVIDERS, DEFAULT], Leaf(Text(target))).value;
      DefaultWriteView(d, target);
    } else {
      assert Fill(v.others, map[DEFAULT := Leaf(Text(target))]) == v.others;
    }
    TypeWriteView(e, target);
  }

  lemma DefaultWriteView(d: Table, target: string)
    requires Shaped(d, target) && target != DEFAULT && DEFAULT !in Entries(d, PROVIDERS)
    ensures var e := d[PROVIDERS := Branch(Entries(d, PROVIDERS)[DEFAULT := Leaf(Text(target))])];
      Shaped(e, target) && ViewOf(e, target) ==
        ViewOf(d, target).(others := Fill(ViewOf(d, target).others, map[DEFAULT := Leaf(Text(target))]))
  {
    NamesDiffer();
    var e := d[PROVIDERS := Branch(Entries(d, PROVIDERS)[DEFAULT := Leaf(Text(target))])];
    assert Restrict(e, ROOT_KEYS) == Restrict(d, ROOT_KEYS);
    assert e - TOUCHED == d - TOUCHED;
    assert Entries(e, PROVIDERS) - {target} ==
           Fill(Entries(d, PROVIDERS) - {target}, map[DEFAULT := Leaf(Text(target))]);
  }

  lemma TypeWriteView(d: Table, target: string)
    requires Shaped(d, target)
    ensures var r := SetIfMissing(d, [PROVIDERS, target, TYPE], Leaf(Text(SPOTIFY)));
      && r.Ok? && Shaped(r.value, target) && target in Entries(r.value, PROVIDERS)
      && ViewOf(r.value, target) ==
           ViewOf(d, target).(spotify := Fill(ViewOf(d, target).spotify, map[TYPE := Leaf(Text(SPOTIFY))]))
  {
    hide ItemAt, SetItem, Shaped, ViewOf, Restrict;
    var v := ViewOf(d, target);
    ViewParts(d, target);
    assert TYPE != PLAYER;
    ItemAt3(d, PROVIDERS, target, TYPE);
    ItemAt1(v.spotify, TYPE);
    if TYPE in v.spotify {
      assert Fill(v.spotify, map[TYPE := Leaf(Text(SPOTIFY))]) == v.spotify;
    } else {
      Set3(d, PROVIDERS, target, TYPE, Leaf(Text(SPOTIFY)));
      assert v.spotify[TYPE := Leaf(Text(SPOTIFY))] == Fill(v.spotify, map[TYPE := Leaf(Text(SPOTIFY))]);
      WriteView(d, target, v.spotify[TYPE := Leaf(Text(SPOTIFY))]);
    }
  }

  /** What a migration that moves something leaves behind. */
  lemma MigratedDocument(d: Table, target: string)
    requires Shaped(d, target) && target != DEFAULT && HasLegacy(d)
    ensures var r := MovedAndCompleted(d, target);
      && r.Ok? && r.value.1 != [] && Shaped(r.value.0, target) && target in Entries(r.value.0, PROVIDERS)
      && ViewOf(r.value.0, target) == CompletedView(MovedView(ViewOf(d, target)), target)
      && !HasLegacy(r.value.0)
  {
    hide Shaped, RunMoves, ViewOf, MovedView, CompletedView, Completed, HasLegacy;
    AllMovesView(d, target);
    LegacyIsInView(d, target);
    CompletionView(RunMoves(d, Moves(target)).value.0, target);
    LegacyIsInView(MovedAndCompleted(d, target).value.0, target);
    MovedHasNoLegacy(ViewOf(d, target), target);
  }

  lemma MovedHasNoLegacy(v: View, target: string)
    ensures !LegacyInView(CompletedView(MovedView(v), target))
  {
    hide FillPlayer, Fill;
    var moved := v.player - PLAYER_KEYS - {EVENT_HOOK};
    assert moved.Keys !! PLAYER_KEYS + {EVENT_HOOK};
  }

  lemma {:induction false} QuietMoves(d: Table, moves: seq<Move>)
    requires forall i :: 0 <= i < |moves| ==> ItemAt(d, moves[i].legacy) == None
    ensures RunMoves(d, moves) == Ok((d, []))
    decreases |moves|
  {
    if moves != [] {
      QuietMoves(d, moves[..|moves| - 1]);
      var none: seq<Change> := [];
      assert none + none == none;
      assert MovePath(d, moves[|moves| - 1]) == Ok((d, none));
    }
  }

  lemma NoLegacyNoMoves(d: Table, target: string, i: nat)
    requires !HasLegacy(d) && i < |Moves(target)|
    ensures ItemAt(d, Moves(target)[i].legacy) == None
  {
    hide ItemAt;
    KeyLists();
    var move := Moves(target)[i];
    if i < 3 {
      assert move == RootMove(target, ROOT_KEY_LIST[i]) && ROOT_KEY_LIST[i] in Elements(ROOT_KEY_LIST);
      ItemAt1(d, ROOT_KEY_LIST[i]);
      assert ROOT_KEY_LIST[i] !in d.Keys * ROOT_KEYS;
    } else if i < 10 {
      var key := PLAYER_KEY_LIST[i - 3];
      assert move == PlayerMove(target, key) && key in Elements(PLAYER_KEY_LIST);
      ItemAt2(d, PLAYER, key);
      ItemAt1(Entries(d, PLAYER), key);
      assert key !in Entries(d, PLAYER).Keys * (PLAYER_KEYS + {EVENT_HOOK});
    } else {
      ItemAt2(d, PLAYER, EVENT_HOOK);
      ItemAt1(Entries(d, PLAYER), EVENT_HOOK);
      assert EVENT_HOOK !in Entries(d, PLAYER).Keys * (PLAYER_KEYS + {EVENT_HOOK});
      ItemAt2(d, SPOTIFYD, DEVICE_NAME);
      ItemAt1(Entries(d, SPOTIFYD), DEVICE_NAME);
    }
  }

  // ---- The loader on both documents ----

  /** Equal, but for an empty `player` table the loader may have created. */
  predicate SameButEmptyPlayer(a: Table, b: Table)
  {
    a == b || (PLAYER !in b && a == b[PLAYER := Branch(map[])])
  }

  /** The loader's merge and the migration's moves build the same table. */
  lemma MergeMatchesMoves(root: Table, target: string)
    requires Shaped(root, target) && MergedSpotify(root, ViewOf(root, target).spotify).Ok?
    ensures SameButEmptyPlayer(MergedSpotify(root, ViewOf(root, target).spotify).value,
                               CompletedView(MovedView(ViewOf(root, target)), target).spotify)
  {
    hide Shaped, ViewOf, Restrict, HookEntry;
    KeyLists();
    ViewParts(root, target);
    var v := ViewOf(root, target);
    var start := Fill(v.spotify, v.flat);
    assert Entries(start, PLAYER) == Entries(v.spotify, PLAYER) by { FlatIsRestricted(root, target); }
    var withPlayer := MergedPlayer(root, start).value;
    var withDevice := MergedSpotifyd(root, withPlayer).value;
    var moved := FillPlayer(start, Restrict(v.player, PLAYER_KEYS));
    PlayerMergeMatches(root, start);
    DeviceMergeMatches(root, withPlayer, moved);
    TypeMatches(withDevice, FillPlayer(moved, Restrict(v.spotifyd, {DEVICE_NAME})));
  }

  lemma PlayerMergeMatches(root: Table, spotify: Table)
    requires MergedPlayer(root, spotify).Ok?
    ensures SameButEmptyPlayer(MergedPlayer(root, spotify).value, FillPlayer(spotify, Restrict(Entries(root, PLAYER), PLAYER_KEYS)))
  {
    hide Restrict;
    if PLAYER in root {
      var extra := Restrict(Entries(root, PLAYER), PLAYER_KEYS);
      if extra == map[] {
        assert extra + Entries(spotify, PLAYER) == Entries(spotify, PLAYER);
      }
    } else {
      assert Restrict(map[], PLAYER_KEYS) == map[] by { RestrictNothing(PLAYER_KEYS); }
    }
  }

  lemma RestrictNothing(keys: set<string>)
    ensures Restrict(map[], keys) == map[]
  {
  }

  lemma DeviceMergeMatches(root: Table, a: Table, b: Table)
    requires SameButEmptyPlayer(a, b) && MergedSpotifyd(root, a).Ok?
    ensures SameButEmptyPlayer(MergedSpotifyd(root, a).value, FillPlayer(b, Restrict(Entries(root, SPOTIFYD), {DEVICE_NAME})))
  {
    var extra := Restrict(Entries(root, SPOTIFYD), {DEVICE_NAME});
    if DEVICE_NAME in Entries(root, SPOTIFYD) {
      assert DEVICE_NAME in extra;
      assert Entries(a, PLAYER) == Entries(b, PLAYER);
    } else {
      assert extra == map[];
    }
  }

  lemma TypeMatches(a: Table, b: Table)
    requires SameButEmptyPlayer(a, b)
    ensures SameButEmptyPlayer(map[TYPE := Leaf(Text(SPOTIFY))] + a, Fill(b, map[TYPE := Leaf(Text(SPOTIFY))]))
  {
    assert TYPE != PLAYER;
  }

  /** The checks cannot tell the two tables apart. */
  lemma ChecksAgree(rest: Table, target: string, a: Table, b: Table, default: Option<string>)
    requires SameButEmptyPlayer(a, b)
    ensures CheckProviders(rest[target := Branch(a)], default) == CheckProviders(rest[target := Branch(b)], default)
  {
    hide ProviderOk, TrimmedKind, CheckProviders, SameButEmptyPlayer;
    EmptyPlayerDoesNotMatter(target, a, b);
    ChecksSeeOnly(rest[target := Branch(a)], rest[target := Branch(b)], default);
  }

  lemma EmptyPlayerDoesNotMatter(id: string, a: Table, b: Table)
    requires SameButEmptyPlayer(a, b)
    ensures ProviderOk(id, Branch(a)) <==> ProviderOk(id, Branch(b))
    ensures TrimmedKind(Branch(a)) == TrimmedKind(Branch(b))
  {
    hide ValidProviderId;
    assert TYPE != PLAYER;
    assert KindOf(Branch(a)) == KindOf(Branch(b));
    assert PlayerOk(Branch(map[]));
  }

  /** ... and neither can anyone who reads scalars. */
  lemma ScalarsAgree(a: Table, b: Table, path: Path)
    requires SameButEmptyPlayer(a, b)
    ensures ScalarAt(a, path) == ScalarAt(b, path)
  {
    if a != b && path != [] && path[0] == PLAYER && |path| > 1 {
      assert ItemAt(map[], path[1..]) == None;
    }
  }

  // ---- Sections ----

  /** The legacy hook can move: it is a string, or the analytics section already has one. */
  predicate HookCanMove(root: Table)
  {
    var player := Entries(root, PLAYER);
    EVENT_HOOK in player && HOOK_COMMAND !in Entries(root, ANALYTICS) ==>
      player[EVENT_HOOK].Leaf? && player[EVENT_HOOK].value.Text?
  }

  lemma OthersDecodeAlike(a: Table, b: Table)
    requires a - TOUCHED == b - TOUCHED
    ensures DecodeOthers(a) == DecodeOthers(b)
  {
    hide DecodeCache, DecodeNotifications, DecodeDiscord, DecodeViz, DecodeTui, SectionTable;
    SectionUntouched(a, b, "cache");
    SectionUntouched(a, b, "notifications");
    SectionUntouched(a, b, "discord");
    SectionUntouched(a, b, "viz");
    SectionUntouched(a, b, "tui");
  }

  lemma SectionUntouched(a: Table, b: Table, name: string)
    requires a - TOUCHED == b - TOUCHED && name in {"cache", "notifications", "discord", "viz", "tui"}
    ensures SectionTable(a, name) == SectionTable(b, name)
  {
    assert name !in TOUCHED by {
      assert "notifications"[0] != CLIENT_SECRET[0];
    }
    assert name in a <==> name in a - TOUCHED;
    assert name in b <==> name in b - TOUCHED;
  }

  lemma FieldsElsewhere(t: Table, node: Node, key: string, flag: bool, number: nat, max: nat)
    requires key != HOOK_COMMAND
    ensures FlagField(t[HOOK_COMMAND := node], key, flag) == FlagField(t, key, flag)
    ensures NatField(t[HOOK_COMMAND := node], key, number, max) == NatField(t, key, number, max)
    ensures OptionalTextField(t[HOOK_COMMAND := node], key) == OptionalTextField(t, key)
  {
  }

  /** No analytics field but the hook reads the hook's key. */
  lemma HookKeyIsSeparate(t: Table, node: Node, hook: Option<string>)
    ensures DecodeAnalyticsWithHook(t[HOOK_COMMAND := node], hook) == DecodeAnalyticsWithHook(t, hook)
  {
    hide FlagField, NatField, OptionalTextField;
    FieldsElsewhere(t, node, "store_raw_queries", true, 0, 0);
    FieldsElsewhere(t, node, "retention_progress_days", true, 90, U32_MAX);
    FieldsElsewhere(t, node, "retention_events_days", true, 365, U32_MAX);
    FieldsElsewhere(t, node, "retention_operations_days", true, 90, U32_MAX);
    FieldsElsewhere(t, node, "daily_rollup_hour", true, 3, U8_MAX);
    FieldsElsewhere(t, node, "hook_timeout_ms", true, 5000, U64_MAX);
    FieldsElsewhere(t, node, "allow_file_credentials", false, 0, 0);
    FieldsElsewhere(t, node, "lastfm_api_key", true, 0, 0);
    FieldsElsewhere(t, node, "lastfm_user", true, 0, 0);
  }

  /** The hook only passes through. */
  lemma HookValueIsSeparate(t: Table, hook: Option<string>, other: Option<string>)
    ensures DecodeAnalyticsWithHook(t, hook).Ok? <==> DecodeAnalyticsWithHook(t, other).Ok?
    ensures DecodeAnalyticsWithHook(t, hook).Ok? ==>
      DecodeAnalyticsWithHook(t, hook).value == DecodeAnalyticsWithHook(t, other).value.(hookCommand := hook)
  {
    hide FlagField, NatField, OptionalTextField;
  }

  /** An analytics section and its fallback hook, decoded. */
  function DecodeHooked(analytics: Table, fallback: Option<string>): (r: Result<Analytics, DecodeError>)
  {
    var decoded :- DecodeAnalytics(analytics);
    Ok(if decoded.hookCommand.None? then decoded.(hookCommand := fallback) else decoded)
  }

  lemma HookFills(analytics: Table, player: Table)
    ensures Fill(analytics, HookEntry(player)) ==
            if EVENT_HOOK in player && HOOK_COMMAND !in analytics then analytics[HOOK_COMMAND := player[EVENT_HOOK]]
            else analytics
  {
  }

  lemma HookedDecodes(analytics: Table, fallback: Option<string>)
    ensures DecodeHooked(analytics, fallback).Ok? <==> DecodeAnalytics(analytics).Ok?
  {
    hide DecodeAnalytics;
  }

  /** Moving the hook into the section, where the section has none. */
  lemma HookedAgree(analytics: Table, node: Node)
    requires HOOK_COMMAND !in analytics && DecodeAnalytics(analytics).Ok?
    ensures node.Leaf? && node.value.Text? ==>
      DecodeHooked(analytics[HOOK_COMMAND := node], None) == DecodeHooked(analytics, Some(node.value.text))
    ensures !(node.Leaf? && node.value.Text?) ==> DecodeHooked(analytics[HOOK_COMMAND := node], None).Err?
  {
    hide DecodeAnalyticsWithHook;
    if node.Leaf? && node.value.Text? {
      HookKeyIsSeparate(analytics, node, Some(node.value.text));
      HookValueIsSeparate(analytics, Some(node.value.text), None);
      HookValueIsSeparate(analytics, None, None);
    }
  }

  lemma SectionsInParts(root: Table, target: string)
    requires Shaped(root, target)
    ensures DecodeSections(root).Ok? <==>
      DecodeOthers(root).Ok? && DecodeHooked(ViewOf(root, target).analytics, LegacyHook(root)).Ok?
    ensures DecodeSections(root).Ok? ==>
      var o := DecodeOthers(root).value;
      DecodeSections(root).value ==
        Sections(o.0, DecodeHooked(ViewOf(root, target).analytics, LegacyHook(root)).value, o.1, o.2, o.3, o.4)
  {
    hide DecodeOthers, DecodeAnalytics, LegacyHook;
  }

  lemma HookInView(root: Table)
    ensures LegacyHook(root) ==
      var player := Entries(root, PLAYER);
      if EVENT_HOOK in player && player[EVENT_HOOK].Leaf? && player[EVENT_HOOK].value.Text?
      then Some(player[EVENT_HOOK].value.text) else None
  {
    ItemAt2(root, PLAYER, EVENT_HOOK);
  }

  lemma SectionsAgree(root: Table, moved: Table, target: string)
    requires Shaped(root, target) && Shaped(moved, target)
    requires ViewOf(moved, target).rest == ViewOf(root, target).rest
    requires ViewOf(moved, target).analytics == Fill(ViewOf(root, target).analytics, HookEntry(ViewOf(root, target).player))
    requires EVENT_HOOK !in ViewOf(moved, target).player
    requires DecodeSections(root).Ok?
    ensures DecodeSections(moved).Ok? <==> HookCanMove(root)
    ensures HookCanMove(root) ==> DecodeSections(moved) == DecodeSections(root)
  {
    hide DecodeSections, DecodeOthers, DecodeHooked, DecodeAnalytics, Shaped, ViewOf, LegacyHook, Fill, HookEntry;
    ViewParts(root, target);
    ViewParts(moved, target);
    OthersDecodeAlike(root, moved);
    SectionsInParts(root, target);
    SectionsInParts(moved, target);
    HookInView(root);
    HookInView(moved);
    var analytics := Entries(root, ANALYTICS);
    var player := Entries(root, PLAYER);
    HookedDecodes(analytics, LegacyHook(root));
    HookFills(analytics, player);
    if EVENT_HOOK in player && HOOK_COMMAND !in analytics {
      HookedAgree(analytics, player[EVENT_HOOK]);
    } else if HOOK_COMMAND in analytics {
      PresentHookIsKept(analytics, LegacyHook(root), LegacyHook(moved));
    }
  }

  lemma PresentHookIsKept(analytics: Table, a: Option<string>, b: Option<string>)
    requires HOOK_COMMAND in analytics
    ensures DecodeHooked(analytics, a) == DecodeHooked(analytics, b)
  {
    hide FlagField, NatField;
  }

  // ---- The theorem ----

  lemma AnalyticsIsATable(root: Table)
    requires DecodeSections(root).Ok?
    ensures TableOrAbsent(root, ANALYTICS)
  {
    hide DecodeOthers, DecodeAnalytics, LegacyHook;
  }

  /** A document that loads is well shaped for its migration. */
  lemma LoadedIsShaped(root: Table, target: string)
    requires ResolveProviders(root, NO_ENV).Ok? && DecodeSections(root).Ok? && HasLegacy(root)
    requires EditTarget(root) == Ok(target)
    ensures Shaped(root, target) && target != DEFAULT && ValidProviderId(target)
    ensures var values := ProviderValues(root).value - {DEFAULT};
      && LoadTarget(values) == Ok(target)
      && MergedSpotify(root, ViewOf(root, target).spotify).Ok?
      && MergeLegacy(root, values).value.0 == values[target := Branch(MergedSpotify(root, ViewOf(root, target).spotify).value)]
  {
    hide ResolveProviders, FinalValues, CheckProviders, EditTarget, LegacyWarnings, DecodeSections, MergedSpotify, LoadTarget,
      ValidProviderId;
    AnalyticsIsATable(root);
    TargetsAgree(root, NO_ENV);
    var all, legacy, final := LoadChecks(root, NO_ENV);
    var values := all - {DEFAULT};
    TargetIsNotDefault(values, target);
    assert Entries(values, target) == Entries(all, target);
    MergedTargetIsSpotify(root, values, DefaultOf(all).value, NO_ENV);
    ExactIsTrimmed(final[target]);
    assert ProviderOk(target, final[target]);
    MergeLeavesTables(root, Entries(all, target));
  }

  lemma TargetIsNotDefault(values: Table, target: string)
    requires LoadTarget(values) == Ok(target) && DEFAULT !in values
    ensures target != DEFAULT
  {
    NamesDiffer();
  }

  /** Where the merge succeeds, the legacy tables are tables, and a `player` value
      under the provider survives. */
  lemma MergeLeavesTables(root: Table, spotify: Table)
    requires MergedSpotify(root, spotify).Ok?
    ensures TableOrAbsent(root, PLAYER) && TableOrAbsent(root, SPOTIFYD)
    ensures PLAYER in spotify && spotify[PLAYER].Leaf? ==>
      PLAYER in MergedSpotify(root, spotify).value && MergedSpotify(root, spotify).value[PLAYER].Leaf?
  {
    NamesDiffer();
    assert TYPE != PLAYER;
    var start := Restrict(root, ROOT_KEYS) + spotify;
    assert PLAYER in spotify ==> start[PLAYER] == spotify[PLAYER];
  }

  lemma InEnvAgrees(a: Table, b: Table, env: Env)
    requires SameButEmptyPlayer(a, b)
    ensures SameButEmptyPlayer(InEnv(a, env), InEnv(b, env))
  {
    NamesDiffer();
    assert PLAYER !in ROOT_KEYS;
    InEnvKeeps(b, env, PLAYER);
    if a != b {
      EnvKeyCommutes(b, CLIENT_ID, env.clientId);
      var first := WithEnvKey(b, CLIENT_ID, env.clientId);
      EnvKeyCommutes(first, CLIENT_SECRET, env.clientSecret);
      EnvKeyCommutes(WithEnvKey(first, CLIENT_SECRET, env.clientSecret), REDIRECT_URI, env.redirectUri);
    }
  }

  lemma EnvKeyCommutes(table: Table, key: string, value: Option<string>)
    requires key != PLAYER
    ensures WithEnvKey(table[PLAYER := Branch(map[])], key, value) == WithEnvKey(table, key, value)[PLAYER := Branch(map[])]
  {
  }

  /** The same providers before and after, whatever the environment. */
  lemma ProvidersAgree(root: Table, moved: Table, target: string, env: Env)
    requires ResolveProviders(root, NO_ENV).Ok? && DecodeSections(root).Ok? && HasLegacy(root)
    requires EditTarget(root) == Ok(target)
    requires Shaped(moved, target) && target in Entries(moved, PROVIDERS) && !HasLegacy(moved)
    requires ViewOf(moved, target) == CompletedView(MovedView(ViewOf(root, target)), target)
    ensures var before, after := ResolveProviders(root, env), ResolveProviders(moved, env);
      && before.Ok? && after.Ok? && after.value.default == before.value.default && after.value.warnings == {}
      && after.value.tables.Keys == before.value.tables.Keys
      && forall id :: id in before.value.tables ==> SameButEmptyPlayer(before.value.tables[id], after.value.tables[id])
  {
    hide Shaped, ViewOf, MovedView, HasLegacy, CheckProviders, MergedSpotify, LoadTarget, EditTarget, LegacyWarnings,
      DecodeSections, SameButEmptyPlayer, ResolveProviders, FinalValues, MergeLegacy, ChecksPass, Restrict, DefaultOf,
      CompletedView, ValidProviderId, Tables, IsSpotify, InEnv;
    LoadedIsShaped(root, target);
    var all, legacy, final := LoadChecks(root, NO_ENV);
    ViewParts(root, target);
    ViewParts(moved, target);
    var rest := all - {DEFAULT} - {target};
    var a := MergedSpotify(root, Entries(all, target)).value;
    MergeMatchesMoves(root, target);
    assert final == rest[target := Branch(a)];
    MergedTargetIsSpotify(root, all - {DEFAULT}, DefaultOf(all).value, NO_ENV);
    MovedKeepsSections(ViewOf(root, target), target);
    var effective := ResolveProviders(root, NO_ENV).value.default;
    ResolvesInEveryEnvironment(root, env, all, rest, target, a, legacy.1, effective);
    var b := Entries(Entries(moved, PROVIDERS), target);
    MovedResolvesInEveryEnvironment(moved, target, all, rest, a, b, effective, env);
    InEnvAgrees(a, b, env);
    TablesAgree(rest, target, InEnv(a, env), InEnv(b, env));
  }

  lemma MovedResolvesInEveryEnvironment(
    moved: Table, target: string, all: Table, rest: Table, a: Table, b: Table, effective: Option<string>, env: Env)
    requires DefaultOf(all).Ok? && rest == all - {DEFAULT} - {target} && IsSpotify(Branch(a))
    requires CheckProviders(rest[target := Branch(a)], DefaultOf(all).value) == Ok(effective)
    requires TableOrAbsent(moved, PROVIDERS) && target in Entries(moved, PROVIDERS) && !HasLegacy(moved)
    requires TableOrAbsent(Entries(moved, PROVIDERS), target) && target != DEFAULT && ValidProviderId(target)
    requires Entries(moved, PROVIDERS) - {target} == Fill(all - {target}, map[DEFAULT := Leaf(Text(target))])
    requires b == Entries(Entries(moved, PROVIDERS), target) && SameButEmptyPlayer(a, b)
    ensures ResolveProviders(moved, env) == Ok(Providers(effective, Tables(rest[target := Branch(InEnv(b, env))]), {}))
  {
    hide HasLegacy, CheckProviders, SameButEmptyPlayer, DefaultOf, ValidProviderId, ResolveProviders, Tables, IsSpotify, InEnv,
      MergeLegacy, ProviderValues;
    SameKind(a, b);
    var all' := Entries(moved, PROVIDERS);
    QuietMerge(moved, all');
    OthersAfter(all, all', target);
    assert all' - {DEFAULT} == rest[target := Branch(b)];
    ChecksAgree(rest, target, a, b, DefaultOf(all).value);
    DefaultAgrees(rest[target := Branch(b)], target, DefaultOf(all).value, effective);
    ResolvesInEveryEnvironment(moved, env, all', rest, target, b, {}, effective);
  }

  lemma QuietMerge(root: Table, all: Table)
    requires !HasLegacy(root) && TableOrAbsent(root, PROVIDERS) && all == Entries(root, PROVIDERS)
    ensures ProviderValues(root) == Ok(all) && MergeLegacy(root, all - {DEFAULT}) == Ok((all - {DEFAULT}, {}))
  {
    hide HasLegacy, MergedSpotify, LoadTarget;
  }

  lemma SameKind(a: Table, b: Table)
    requires SameButEmptyPlayer(a, b) && IsSpotify(Branch(a))
    ensures IsSpotify(Branch(b))
  {
    assert TYPE != PLAYER;
  }

  lemma TablesAgree(rest: Table, target: string, a: Table, b: Table)
    requires SameButEmptyPlayer(a, b)
    ensures var before, after := Tables(rest[target := Branch(a)]), Tables(rest[target := Branch(b)]);
      && before.Keys == after.Keys
      && forall id :: id in before ==> SameButEmptyPlayer(before[id], after[id])
  {
    hide SameButEmptyPlayer;
    var before, after := Tables(rest[target := Branch(a)]), Tables(rest[target := Branch(b)]);
    forall id | id in before
      ensures SameButEmptyPlayer(before[id], after[id])
    {
      SameAsItself(before[id]);
    }
  }

  /** Resolution without legacy keys and environment is just the checks. */
  lemma QuietResolve(root: Table, all: Table, effective: Option<string>)
    requires ProviderValues(root) == Ok(all) && DefaultOf(all).Ok? && !HasLegacy(root)
    requires CheckProviders(all - {DEFAULT}, DefaultOf(all).value) == Ok(effective)
    ensures ResolveProviders(root, NO_ENV) == Ok(Providers(effective, Tables(all - {DEFAULT}), {}))
  {
    hide HasLegacy, CheckProviders, DefaultOf, LoadTarget, MergedSpotify;
  }

  lemma SameAsItself(a: Table)
    ensures SameButEmptyPlayer(a, a)
  {
  }

  lemma OthersAfter(all: Table, all': Table, target: string)
    requires target != DEFAULT && ValidProviderId(target) && DefaultOf(all).Ok?
    requires all' - {target} == Fill(all - {target}, map[DEFAULT := Leaf(Text(target))])
    ensures all' - {DEFAULT} - {target} == all - {DEFAULT} - {target}
    ensures DefaultOf(all') == Ok(Some(if DefaultOf(all).value.Some? then DefaultOf(all).value.value else target))
  {
    var others' := all' - {target};
    assert DEFAULT in others';
    assert all'[DEFAULT] == others'[DEFAULT];
    assert others' - {DEFAULT} == all - {target} - {DEFAULT};
    assert all' - {DEFAULT} - {target} == others' - {DEFAULT};
    assert all - {DEFAULT} - {target} == all - {target} - {DEFAULT};
  }

  /** Naming the target as default changes nothing when it was the only choice. */
  lemma DefaultAgrees(values: Table, target: string, default: Option<string>, effective: Option<string>)
    requires target in values && CheckProviders(values, default) == Ok(effective)
    ensures CheckProviders(values, Some(if default.Some? then default.value else target)) == Ok(effective)
  {
    hide ProviderOk, SpotifyOwners;
    if default.None? {
      assert target in values.Keys && values.Keys != {};
      if |values.Keys| == 1 {
        assert TheOne(values.Keys) == target;
      }
    }
  }

  /** The two loads agree on everything a reader of settings can see. */
  ghost predicate SameMeaning(before: Loaded, after: Loaded)
  {
    && after.default == before.default
    && after.sections == before.sections
    && after.providers.Keys == before.providers.Keys
    && forall id, path :: id in before.providers ==>
         ScalarAt(after.providers[id], path) == ScalarAt(before.providers[id], path)
  }

  /** The core of the theorems below: a document with legacy keys and any document
      that has the migrated view load alike, in every environment. */
  lemma LoadAlike(d: Table, e: Table, target: string, env: Env)
    requires LoadTree(d, NO_ENV).Ok? && HasLegacy(d) && EditTarget(d) == Ok(target)
    requires Shaped(e, target) && target in Entries(e, PROVIDERS) && !HasLegacy(e)
    requires ViewOf(e, target) == CompletedView(MovedView(ViewOf(d, target)), target)
    ensures LoadTree(d, env).Ok? && (LoadTree(e, env).Ok? <==> HookCanMove(d))
    ensures HookCanMove(d) ==>
      SameMeaning(LoadTree(d, env).value, LoadTree(e, env).value) && LoadTree(e, env).value.warnings == {}
  {
    hide DecodeSections, ResolveProviders, Repair, Valid, HasLegacy, EditTarget, Shaped, ViewOf, SameButEmptyPlayer,
      HookCanMove, ScalarAt;
    LoadedIsShaped(d, target);
    ProvidersAgree(d, e, target, env);
    MovedKeepsSections(ViewOf(d, target), target);
    SectionsAgree(d, e, target);
    RepairAlwaysValidates(DecodeSections(d).value, env);
    var before, after := ResolveProviders(d, env).value.tables, ResolveProviders(e, env).value.tables;
    forall id, path | id in before
      ensures ScalarAt(after[id], path) == ScalarAt(before[id], path)
    {
      ScalarsAgree(before[id], after[id], path);
    }
  }

  lemma MigratedLoad(root: Table, env: Env)
    requires LoadTree(root, NO_ENV).Ok? && HasLegacy(root)
    ensures EditTarget(root).Ok? && MovedAndCompleted(root, EditTarget(root).value).Ok?
    ensures var r := MovedAndCompleted(root, EditTarget(root).value).value;
      && r.1 != [] && !HasLegacy(r.0)
      && LoadTree(root, env).Ok? && (LoadTree(r.0, env).Ok? <==> HookCanMove(root))
      && (HookCanMove(root) ==>
            SameMeaning(LoadTree(root, env).value, LoadTree(r.0, env).value)
            && LoadTree(r.0, env).value.warnings == {})
  {
    hide DecodeSections, ResolveProviders, Repair, Valid, HasLegacy, EditTarget, MovedAndCompleted, Shaped, ViewOf,
      HookCanMove, SameMeaning;
    TargetsAgree(root, NO_ENV);
    var target := EditTarget(root).value;
    LoadedIsShaped(root, target);
    MigratedDocument(root, target);
    hide LoadTree;
    LoadAlike(root, MovedAndCompleted(root, target).value.0, target, env);
  }

  lemma MovedKeepsSections(v: View, target: string)
    ensures var w := CompletedView(MovedView(v), target);
      && w.others == Fill(v.others, map[DEFAULT := Leaf(Text(target))])
      && w.rest == v.rest && EVENT_HOOK !in w.player && w.analytics == Fill(v.analytics, HookEntry(v.player))
  {
  }

  /** Without legacy keys there is nothing to do, whatever else the document holds. */
  lemma NothingToMigrate(root: Table)
    requires !HasLegacy(root)
    ensures Migrate(root) == Ok((root, []))
  {
    hide LoadTree, HasLegacy, ItemAt, Moves, Completed;
    forall i | 0 <= i < |Moves(SPOTIFY)|
      ensures ItemAt(root, Moves(SPOTIFY)[i].legacy) == None
    {
      NoLegacyNoMoves(root, SPOTIFY, i);
    }
    QuietMoves(root, Moves(SPOTIFY));
  }

  /** Whatever credentials the environment brings, the migrated document loads if and
      only if the original does, to the same default provider, sections and scalars,
      and without deprecation warnings; where there was something to migrate, both load. */
  lemma MigrationPreservesEveryLoad(root: Table, env: Env)
    requires LoadTree(root, NO_ENV).Ok? && Migrate(root).Ok?
    ensures var moved := Migrate(root).value.0;
      && (LoadTree(moved, env).Ok? <==> LoadTree(root, env).Ok?)
      && (LoadTree(root, env).Ok? ==>
            SameMeaning(LoadTree(root, env).value, LoadTree(moved, env).value)
            && LoadTree(moved, env).value.warnings == {})
      && (HasLegacy(root) ==> LoadTree(root, env).Ok? && LoadTree(moved, env).Ok?)
  {
    hide LoadTree, HasLegacy, MovedAndCompleted, EditTarget, HookCanMove, SameMeaning;
    if HasLegacy(root) {
      MigratedLoad(root, NO_ENV);
      MigratedLoad(root, env);
    } else {
      NothingToMigrate(root);
      if LoadTree(root, env).Ok? {
        SameMeaningReflexive(LoadTree(root, env).value);
        NoLegacyNoWarnings(root, env);
      }
    }
  }

  /** Migration preserves meaning: the new document loads with the same default
      provider, the same sections and the same scalar at every provider path, it
      has nothing deprecated left, and migrating it again changes nothing. */
  lemma MigrationPreservesLoad(root: Table)
    requires LoadTree(root, NO_ENV).Ok? && Migrate(root).Ok?
    ensures var moved := Migrate(root).value.0;
      && LoadTree(moved, NO_ENV).Ok?
      && SameMeaning(LoadTree(root, NO_ENV).value, LoadTree(moved, NO_ENV).value)
      && LoadTree(moved, NO_ENV).value.warnings == {}
      && Migrate(moved) == Ok((moved, []))
  {
    hide LoadTree, HasLegacy, MovedAndCompleted, EditTarget, HookCanMove, SameMeaning;
    MigrationPreservesEveryLoad(root, NO_ENV);
    if HasLegacy(root) {
      MigratedLoad(root, NO_ENV);
      NothingToMigrate(Migrate(root).value.0);
    } else {
      NothingToMigrate(root);
    }
  }

  lemma SameMeaningReflexive(loaded: Loaded)
    ensures SameMeaning(loaded, loaded)
  {
  }

  lemma NoLegacyNoWarnings(root: Table, env: Env)
    requires LoadTree(root, env).Ok? && !HasLegacy(root)
    ensures LoadTree(root, env).value.warnings == {}
  {
    hide DecodeSections, Repair, Valid, HasLegacy, MergedSpotify, CheckProviders, MergeEnv;
  }

  /** A document that loads can be migrated exactly when its legacy hook can move:
      the one failure is a non-string `player.event_hook`, which the loader ignores
      and `analytics.hook_command` cannot hold. */
  lemma MigrationSucceedsIff(root: Table)
    requires LoadTree(root, NO_ENV).Ok?
    ensures Migrate(root).Ok? <==> HookCanMove(root)
  {
    hide LoadTree, MovedAndCompleted, EditTarget, SameMeaning;
    if HasLegacy(root) {
      hide HasLegacy;
      MigratedLoad(root, NO_ENV);
    } else {
      NothingToMigrate(root);
      assert EVENT_HOOK !in Entries(root, PLAYER).Keys * (PLAYER_KEYS + {EVENT_HOOK});
    }
  }

  // ---- The documents that load and may not be migrated ----

  /** A document with a legacy hook and nothing else. */
  function HookDocument(hook: Scalar): (r: Table)
  {
    map[PLAYER := Branch(map[EVENT_HOOK := Leaf(hook)])]
  }

  lemma HookDocumentSections(hook: Scalar)
    ensures DecodeSections(HookDocument(hook)).Ok?
  {
    hide LegacyHook, DecodeCache, DecodeAnalytics, DecodeNotifications, DecodeDiscord, DecodeViz, DecodeTui;
    EmptySectionsDecode();
  }

  lemma EmptySectionsDecode()
    ensures DecodeCache(map[]).Ok? && DecodeAnalytics(map[]).Ok? && DecodeNotifications(map[]).Ok?
    ensures DecodeDiscord(map[]).Ok? && DecodeViz(map[]).Ok? && DecodeTui(map[]).Ok?
  {
  }

  lemma HookDocumentProviders(hook: Scalar)
    ensures HasLegacy(HookDocument(hook)) && ResolveProviders(HookDocument(hook), NO_ENV).Ok?
  {
    hide ProviderOk, CheckProviders, LegacyWarnings;
    var player := Entries(HookDocument(hook), PLAYER);
    assert EVENT_HOOK in player.Keys * (PLAYER_KEYS + {EVENT_HOOK});
    var none: Table := map[];
    assert none - {DEFAULT} == none;
    assert SpotifyIds(none) == {};
    var start := Restrict(HookDocument(hook), ROOT_KEYS) + none;
    NamesDiffer();
    assert start == none;
    assert Restrict(player, PLAYER_KEYS) + none == none by {
      KeyLists();
      assert Restrict(player, PLAYER_KEYS) == none;
    }
    var merged: Table := map[TYPE := Leaf(Text(SPOTIFY))] + map[PLAYER := Branch(none)];
    assert MergedSpotify(HookDocument(hook), none) == Ok(merged);
    assert ProviderOk(SPOTIFY, Branch(merged)) by { MinimalProviderOk(merged); }
    OneProviderPasses(SPOTIFY, Branch(merged), None);
    assert none[SPOTIFY := Branch(merged)] == map[SPOTIFY := Branch(merged)];
  }

  lemma MinimalProviderOk(table: Table)
    requires table == map[TYPE := Leaf(Text(SPOTIFY))] + map[PLAYER := Branch(map[])]
    ensures ProviderOk(SPOTIFY, Branch(table))
  {
    NamesAreNormal();
    assert TYPE != PLAYER;
    assert KindOf(Branch(table)) == Some(SPOTIFY);
    ExactIsTrimmed(Branch(table));
    assert PlayerOk(Branch(map[]));
  }

  /** Every such document loads, and it can be migrated if and only if the hook is
      a string: `player.event_hook = 5` loads and cannot be migrated. */
  lemma HookDocumentMigratesIff(hook: Scalar)
    ensures LoadTree(HookDocument(hook), NO_ENV).Ok? && HasLegacy(HookDocument(hook))
    ensures Migrate(HookDocument(hook)).Ok? <==> hook.Text?
  {
    hide LoadTree, DecodeSections, ResolveProviders, Migrate, HasLegacy;
    HookDocumentSections(hook);
    HookDocumentProviders(hook);
    LoadsFromParts(HookDocument(hook));
    MigrationSucceedsIff(HookDocument(hook));
  }
}
