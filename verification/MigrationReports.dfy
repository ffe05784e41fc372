/** What a load warns of and what a migration reports are the same
    (crates/spotuify-config/src/document.rs, crates/spotuify-config/src/model.rs). */
module MigrationReports {
  import opened Wrappers
  import opened ConfigTree
  import opened ConfigPath
  import opened ConfigSections
  import opened ConfigLoad
  import opened LoadPrecedence
  import opened Migration
  import opened MigrationPreservesMeaning
  import opened EnvironmentLoads
  import opened LoadMeaning
  import opened ConfigReads

  /** A change as the warning it answers: a duplicate was ignored, the rest was in force. */
  function Report(change: Change): (r: Warning)
  {
    DeprecatedKey(change.legacy, change.canonical, change.outcome == RemovedDuplicate)
  }

  function Reports(changes: seq<Change>): (r: set<Warning>)
  {
    set i | 0 <= i < |changes| :: Report(changes[i])
  }

  lemma ReportsOfTwo(a: seq<Change>, b: seq<Change>)
    ensures Reports(a + b) == Reports(a) + Reports(b)
  {
    var both := a + b;
    forall w | w in Reports(a) + Reports(b)
      ensures w in Reports(both)
    {
      if w in Reports(a) {
        var i :| 0 <= i < |a| && w == Report(a[i]);
        assert both[i] == a[i];
      } else {
        var i :| 0 <= i < |b| && w == Report(b[i]);
        assert both[|a| + i] == b[i];
      }
    }
    forall w | w in Reports(both)
      ensures w in Reports(a) + Reports(b)
    {
      var i :| 0 <= i < |both| && w == Report(both[i]);
      assert both[i] == if i < |a| then a[i] else b[i - |a|];
    }
  }

  /** One move reports its key, if it is there, and whether its place was taken. */
  lemma MoveReports(d: Table, move: Move)
    requires MovePath(d, move).Ok?
    ensures Reports(MovePath(d, move).value.1) ==
      if ItemAt(d, move.legacy) == None then {} else {DeprecatedKey(move.legacy, move.canonical, ItemAt(d, move.canonical).Some?)}
  {
    hide ItemAt, SetItem, RemoveItem;
    if ItemAt(d, move.legacy).Some? {
      var changes := MovePath(d, move).value.1;
      assert |changes| == 1;
      assert Report(changes[0]) == DeprecatedKey(move.legacy, move.canonical, ItemAt(d, move.canonical).Some?);
    }
  }

  lemma RunReports(d: Table, moves: seq<Move>, next: Move)
    requires RunMoves(d, moves).Ok? && MovePath(RunMoves(d, moves).value.0, next).Ok?
    ensures RunMoves(d, moves + [next]).Ok?
    ensures Reports(RunMoves(d, moves + [next]).value.1) ==
      Reports(RunMoves(d, moves).value.1) + Reports(MovePath(RunMoves(d, moves).value.0, next).value.1)
  {
    hide MovePath, Reports;
    assert (moves + [next])[..|moves|] == moves;
    ReportsOfTwo(RunMoves(d, moves).value.1, MovePath(RunMoves(d, moves).value.0, next).value.1);
  }

  // ---- The flat keys ----

  function RootReports(v: View, target: string, keys: set<string>): (r: set<Warning>)
  {
    set key | key in keys && key in v.flat :: DeprecatedKey([key], [PROVIDERS, target, key], key in v.spotify)
  }

  lemma RootMoveReports(d: Table, target: string, key: string)
    requires Shaped(d, target) && key in ROOT_KEYS
    ensures MovePath(d, RootMove(target, key)).Ok?
    ensures Reports(MovePath(d, RootMove(target, key)).value.1) == RootReports(ViewOf(d, target), target, {key})
  {
    hide Shaped, ViewOf, ItemAt, MovePath, Reports;
    RootMoveView(d, target, key);
    MoveReports(d, RootMove(target, key));
    ViewParts(d, target);
    ItemAt1(d, key);
    ItemAt3(d, PROVIDERS, target, key);
    ItemAt1(Entries(Entries(d, PROVIDERS), target), key);
    var v := ViewOf(d, target);
    assert key in v.flat <==> key in d;
    assert RootReports(v, target, {key}) ==
      if key in v.flat then {DeprecatedKey([key], [PROVIDERS, target, key], key in v.spotify)} else {};
  }

  predicate NoRepeats(keys: seq<string>)
  {
    forall i, j :: 0 <= i < j < |keys| ==> keys[i] != keys[j]
  }

  lemma {:induction false} RootMovesReport(d: Table, target: string, keys: seq<string>)
    requires Shaped(d, target) && Elements(keys) <= ROOT_KEYS && NoRepeats(keys)
    ensures RunMoves(d, RootMoves(target, keys)).Ok?
    ensures Reports(RunMoves(d, RootMoves(target, keys)).value.1) == RootReports(ViewOf(d, target), target, Elements(keys))
    decreases |keys|
  {
    hide Shaped, ViewOf, MovePath, Reports;
    var v := ViewOf(d, target);
    if keys == [] {
      assert RootMoves(target, keys) == [] && Elements(keys) == {};
      assert Reports([]) == {} by {
        NoReports();
      }
    } else {
      var n := |keys| - 1;
      var front, key := keys[..n], keys[n];
      assert Elements(keys) == Elements(front) + {key} && key in Elements(keys) && key !in Elements(front) by {
        LastIsNew(keys);
      }
      RootMovesReport(d, target, front);
      RootMovesView(d, target, front);
      var before := RunMoves(d, RootMoves(target, front)).value.0;
      assert RootMoves(target, keys) == RootMoves(target, front) + [RootMove(target, key)];
      RootMoveReports(before, target, key);
      hide RunMoves;
      RunReports(d, RootMoves(target, front), RootMove(target, key));
      RootReportsGrow(v, ViewOf(before, target), target, Elements(front), key);
    }
  }

  lemma NoReports()
    ensures Reports([]) == {}
  {
  }

  lemma LastIsNew(keys: seq<string>)
    requires keys != [] && NoRepeats(keys)
    ensures var front, key := keys[..|keys| - 1], keys[|keys| - 1];
      Elements(keys) == Elements(front) + {key} && key in Elements(keys) && key !in Elements(front)
  {
    assert keys == keys[..|keys| - 1] + [keys[|keys| - 1]];
  }

  lemma RootReportsGrow(v: View, w: View, target: string, done: set<string>, key: string)
    requires key !in done
    requires w.flat == v.flat - done && w.spotify == Fill(v.spotify, Restrict(v.flat, done))
    ensures RootReports(v, target, done + {key}) == RootReports(v, target, done) + RootReports(w, target, {key})
  {
    assert key in w.flat <==> key in v.flat;
    assert key in w.spotify <==> key in v.spotify;
  }

  // ---- The player keys ----

  function PlayerReports(v: View, target: string, keys: set<string>): (r: set<Warning>)
  {
    set key | key in keys && key in v.player ::
      DeprecatedKey([PLAYER, key], [PROVIDERS, target, PLAYER, key], key in Entries(v.spotify, PLAYER))
  }

  lemma TableMoveReports(d: Table, target: string, table: string, key: string)
    requires Shaped(d, target) && table in {PLAYER, SPOTIFYD}
    ensures var move := Move([table, key], [PROVIDERS, target, PLAYER, key]); var v := ViewOf(d, target);
      && MovePath(d, move).Ok?
      && Reports(MovePath(d, move).value.1) ==
           if key in Source(v, table) then {DeprecatedKey(move.legacy, move.canonical, key in Entries(v.spotify, PLAYER))} else {}
  {
    hide Shaped, ViewOf, ItemAt, MovePath, Reports;
    var move := Move([table, key], [PROVIDERS, target, PLAYER, key]);
    TableMoveView(d, target, table, key);
    MoveReports(d, move);
    ViewParts(d, target);
    ItemAt2(d, table, key);
    ItemAt1(Entries(d, table), key);
    ItemAt4(d, PROVIDERS, target, PLAYER, key);
    ItemAt1(Entries(Entries(Entries(d, PROVIDERS), target), PLAYER), key);
  }

  lemma {:induction false} PlayerMovesReport(d: Table, target: string, keys: seq<string>)
    requires Shaped(d, target) && NoRepeats(keys)
    ensures RunMoves(d, PlayerMoves(target, keys)).Ok?
    ensures Reports(RunMoves(d, PlayerMoves(target, keys)).value.1) == PlayerReports(ViewOf(d, target), target, Elements(keys))
    decreases |keys|
  {
    hide Shaped, ViewOf, MovePath, Reports;
    var v := ViewOf(d, target);
    if keys == [] {
      assert PlayerMoves(target, keys) == [] && Elements(keys) == {};
      NoReports();
    } else {
      var n := |keys| - 1;
      var front, key := keys[..n], keys[n];
      LastIsNew(keys);
      PlayerMovesReport(d, target, front);
      PlayerMovesView(d, target, front);
      var before := RunMoves(d, PlayerMoves(target, front)).value.0;
      assert PlayerMoves(target, keys) == PlayerMoves(target, front) + [PlayerMove(target, key)];
      TableMoveReports(before, target, PLAYER, key);
      ViewParts(d, target);
      hide RunMoves;
      RunReports(d, PlayerMoves(target, front), PlayerMove(target, key));
      PlayerReportsGrow(v, ViewOf(before, target), target, Elements(front), key);
    }
  }

  lemma PlayerReportsGrow(v: View, w: View, target: string, done: set<string>, key: string)
    requires key !in done
    requires w.player == v.player - done && w.spotify == FillPlayer(v.spotify, Restrict(v.player, done))
    requires TableOrAbsent(v.spotify, PLAYER)
    ensures PlayerReports(v, target, done + {key}) == PlayerReports(v, target, done) +
      if key in w.player then {DeprecatedKey([PLAYER, key], [PROVIDERS, target, PLAYER, key], key in Entries(w.spotify, PLAYER))} else {}
  {
    assert key in w.player <==> key in v.player;
    assert key in Entries(w.spotify, PLAYER) <==> key in Entries(v.spotify, PLAYER);
  }

  // ---- All moves ----

  lemma HookMoveReports(d: Table, target: string)
    requires Shaped(d, target)
    ensures MovePath(d, HOOK_MOVE).Ok?
    ensures var v := ViewOf(d, target);
      Reports(MovePath(d, HOOK_MOVE).value.1) ==
        if EVENT_HOOK in v.player then {DeprecatedKey([PLAYER, EVENT_HOOK], [ANALYTICS, HOOK_COMMAND], HOOK_COMMAND in v.analytics)} else {}
  {
    hide Shaped, ViewOf, ItemAt, MovePath, Reports;
    HookMoveView(d, target);
    MoveReports(d, HOOK_MOVE);
    ViewParts(d, target);
    ItemAt2(d, PLAYER, EVENT_HOOK);
    ItemAt1(Entries(d, PLAYER), EVENT_HOOK);
    ItemAt2(d, ANALYTICS, HOOK_COMMAND);
    ItemAt1(Entries(d, ANALYTICS), HOOK_COMMAND);
  }

  lemma KeyListsHaveNoRepeats()
    ensures NoRepeats(ROOT_KEY_LIST) && NoRepeats(PLAYER_KEY_LIST)
  {
    assert BACKEND[0] == 'b' && BACKEND[1] == 'a' && BITRATE[1] == 'i' && DEVICE_NAME[0] == 'd' && AUDIO_OUTPUT_DEVICE[0] == 'a'
      && NORMALIZATION[0] == 'n' && AUDIO_CACHE_MIB[0] == 'a' && PULSE_PROPS[0] == 'p';
    assert AUDIO_OUTPUT_DEVICE[6] == 'o' && AUDIO_CACHE_MIB[6] == 'c';
    assert CLIENT_ID[7] == 'i' && CLIENT_SECRET[7] == 's' && REDIRECT_URI[0] == 'r';
  }

  /** All moves together report every legacy key, and whether it was in force. */
  lemma MovesReport(d: Table, target: string)
    requires Shaped(d, target)
    ensures RunMoves(d, Moves(target)).Ok?
    ensures Reports(RunMoves(d, Moves(target)).value.1) == LegacyWarnings(d, ViewOf(d, target).spotify, target)
  {
    hide Shaped, RunMoves, FillPlayer, Fill, MovePath, ViewOf, Reports, Restrict, LegacyWarnings;
    KeyLists();
    KeyListsHaveNoRepeats();
    var v := ViewOf(d, target);
    var roots, players := RootMoves(target, ROOT_KEY_LIST), PlayerMoves(target, PLAYER_KEY_LIST);
    RootMovesReport(d, target, ROOT_KEY_LIST);
    RootMovesView(d, target, ROOT_KEY_LIST);
    var d0 := RunMoves(d, roots).value;
    PlayerMovesReport(d0.0, target, PLAYER_KEY_LIST);
    PlayerMovesView(d0.0, target, PLAYER_KEY_LIST);
    RunMovesInTwo(d, roots, players);
    var first := roots + players;
    ReportsOfTwo(d0.1, RunMoves(d0.0, players).value.1);
    var d1 := RunMoves(d, first).value.0;
    HookMoveReports(d1, target);
    HookMoveView(d1, target);
    RunReports(d, first, HOOK_MOVE);
    RunOneMore(d, first, HOOK_MOVE);
    var d2 := RunMoves(d, first + [HOOK_MOVE]).value.0;
    TableMoveReports(d2, target, SPOTIFYD, DEVICE_NAME);
    RunReports(d, first + [HOOK_MOVE], DeviceMove(target));
    ViewParts(d, target);
    ReportsTogether(d, v, target, ViewOf(d0.0, target), ViewOf(d2, target));
  }

  lemma ReportsTogether(d: Table, v: View, target: string, w: View, x: View)
    requires v.flat == Restrict(d, ROOT_KEYS) && v.player == Entries(d, PLAYER) && v.spotifyd == Entries(d, SPOTIFYD)
    requires v.analytics == Entries(d, ANALYTICS) && TableOrAbsent(v.spotify, PLAYER)
    requires w.player == v.player && w.spotify == Fill(v.spotify, Restrict(v.flat, ROOT_KEYS))
    requires x.spotifyd == v.spotifyd && x.spotify == FillPlayer(w.spotify, Restrict(v.player, PLAYER_KEYS))
    ensures LegacyWarnings(d, v.spotify, target) ==
      RootReports(v, target, ROOT_KEYS) + PlayerReports(w, target, PLAYER_KEYS)
      + (if EVENT_HOOK in v.player - PLAYER_KEYS
         then {DeprecatedKey([PLAYER, EVENT_HOOK], [ANALYTICS, HOOK_COMMAND], HOOK_COMMAND in v.analytics)} else {})
      + (if DEVICE_NAME in x.spotifyd
         then {DeprecatedKey([SPOTIFYD, DEVICE_NAME], [PROVIDERS, target, PLAYER, DEVICE_NAME], DEVICE_NAME in Entries(x.spotify, PLAYER))}
         else {})
  {
    hide RootReports, PlayerReports, Fill, FillPlayer, Restrict, TableOrAbsent;
    KeyLists();
    RootsTogether(d, v, target, ROOT_KEYS);
    PlayersTogether(v, w, target, ROOT_KEYS, PLAYER_KEYS);
    KnownAfterFill(v, w, x, ROOT_KEYS, PLAYER_KEYS, DEVICE_NAME);
  }

  lemma RootsTogether(d: Table, v: View, target: string, keys: set<string>)
    requires v.flat == Restrict(d, keys)
    ensures RootReports(v, target, keys) ==
      set key | key in keys && key in d :: DeprecatedKey([key], [PROVIDERS, target, key], key in v.spotify)
  {
    assert forall key :: key in keys ==> (key in v.flat <==> key in d);
  }

  lemma PlayersTogether(v: View, w: View, target: string, roots: set<string>, keys: set<string>)
    requires w.player == v.player && PLAYER !in roots
    requires w.spotify == Fill(v.spotify, Restrict(v.flat, roots))
    ensures PlayerReports(w, target, keys) == set key | key in keys && key in v.player ::
      DeprecatedKey([PLAYER, key], [PROVIDERS, target, PLAYER, key], key in Entries(v.spotify, PLAYER))
  {
    hide Fill;
    EntriesAfterFill(v.spotify, Restrict(v.flat, roots), PLAYER);
  }

  /** A player setting is there after the moves of `player` when it was there before or moved. */
  lemma KnownAfterFill(v: View, w: View, x: View, roots: set<string>, keys: set<string>, key: string)
    requires PLAYER !in roots && key in keys && TableOrAbsent(v.spotify, PLAYER)
    requires w.spotify == Fill(v.spotify, Restrict(v.flat, roots))
    requires x.spotify == FillPlayer(w.spotify, Restrict(v.player, keys))
    ensures key in Entries(x.spotify, PLAYER) <==> key in Entries(v.spotify, PLAYER) || key in v.player
  {
    hide FillPlayer, TableOrAbsent;
    EntriesAfterFill(v.spotify, Restrict(v.flat, roots), PLAYER);
    PlayerAfterFill(w.spotify, Restrict(v.player, keys));
  }

  /** A load's deprecation warnings are the changes its migration reports: the same
      keys, the same places, and ignored exactly where a duplicate was removed. */
  lemma WarningsAreTheChanges(root: Table)
    requires LoadTree(root, NO_ENV).Ok? && Migrate(root).Ok?
    ensures Reports(Migrate(root).value.1) == LoadTree(root, NO_ENV).value.warnings
  {
    hide LoadTree, HasLegacy, RunMoves, Completed, Moves, EditTarget, Reports, LegacyWarnings, DecodeSections, ResolveProviders,
      Shaped, ViewOf, MergedSpotify, LoadTarget, Repair, CheckProviders, ChecksPass, ValidProviderId, MergeEnv;
    if HasLegacy(root) {
      LoadsIffParts(root, NO_ENV);
      TargetsAgree(root, NO_ENV);
      var target := EditTarget(root).value;
      LoadedIsShaped(root, target);
      MovesReport(root, target);
      var all, legacy, final := LoadParts(root, NO_ENV);
      ViewParts(root, target);
      WarningsOf(root, all - {DEFAULT}, target, legacy);
      assert Entries(all - {DEFAULT}, target) == Entries(all, target);
    } else {
      NothingToMigrate(root);
      NoReports();
      NoLegacyNoWarnings(root, NO_ENV);
    }
  }

  lemma WarningsOf(root: Table, values: Table, target: string, legacy: (Table, set<Warning>))
    requires HasLegacy(root) && LoadTarget(values) == Ok(target) && MergeLegacy(root, values) == Ok(legacy)
    ensures legacy.1 == LegacyWarnings(root, Entries(values, target), target)
  {
    hide HasLegacy, LoadTarget, MergedSpotify, LegacyWarnings;
  }

  // ---- What a warning means ----

  /** A legacy key and the place it belongs in. */
  predicate Belongs(target: string, legacy: Path, canonical: Path)
  {
    || (exists key :: key in ROOT_KEYS && legacy == [key] && canonical == [PROVIDERS, target, key])
    || (exists key :: key in PLAYER_KEYS && legacy == [PLAYER, key] && canonical == [PROVIDERS, target, PLAYER, key])
    || (legacy == ["player", "event_hook"] && canonical == ["analytics", "hook_command"])
    || (legacy == ["spotifyd", "device_name"] && canonical == [PROVIDERS, target, "player", "device_name"])
  }

  /** A warning names a legacy key that is there, and says whether something came before it. */
  predicate Warns(root: Table, target: string, w: Warning)
  {
    && Belongs(target, w.legacy, w.canonical) && ItemAt(root, w.legacy).Some?
    && w.ignored == (ItemAt(root, w.canonical).Some?
                     || (w.legacy == ["spotifyd", "device_name"] && ItemAt(root, ["player", "device_name"]).Some?))
  }

  lemma RootWarning(root: Table, target: string, key: string)
    ensures ItemAt(root, [key]).Some? <==> key in root
    ensures ItemAt(root, [PROVIDERS, target, key]).Some? <==> key in Entries(Entries(root, PROVIDERS), target)
  {
    hide ItemAt;
    ItemAt1(root, key);
    ItemAt3(root, PROVIDERS, target, key);
    ItemAt1(Entries(Entries(root, PROVIDERS), target), key);
  }

  lemma TableWarning(root: Table, target: string, table: string, key: string)
    ensures ItemAt(root, [table, key]).Some? <==> key in Entries(root, table)
    ensures ItemAt(root, [PROVIDERS, target, PLAYER, key]).Some? <==> key in Entries(Entries(Entries(root, PROVIDERS), target), PLAYER)
  {
    hide ItemAt;
    ItemAt2(root, table, key);
    ItemAt1(Entries(root, table), key);
    ItemAt4(root, PROVIDERS, target, PLAYER, key);
    ItemAt1(Entries(Entries(Entries(root, PROVIDERS), target), PLAYER), key);
  }

  lemma LegacyWarningsMean(root: Table, target: string, w: Warning)
    ensures w in LegacyWarnings(root, Entries(Entries(root, PROVIDERS), target), target) <==> Warns(root, target, w)
  {
    hide ItemAt, Entries;
    forall key
      ensures ItemAt(root, [key]).Some? <==> key in root
      ensures ItemAt(root, [PROVIDERS, target, key]).Some? <==> key in Entries(Entries(root, PROVIDERS), target)
    {
      RootWarning(root, target, key);
    }
    forall key
      ensures ItemAt(root, [PLAYER, key]).Some? <==> key in Entries(root, PLAYER)
      ensures ItemAt(root, [PROVIDERS, target, PLAYER, key]).Some? <==> key in Entries(Entries(Entries(root, PROVIDERS), target), PLAYER)
    {
      TableWarning(root, target, PLAYER, key);
    }
    TableWarning(root, target, SPOTIFYD, DEVICE_NAME);
    TableWarning(root, target, ANALYTICS, HOOK_COMMAND);
  }

  /** A load warns of every legacy key in the document and of nothing else, with the
      place the key belongs in, and says whether something came before it. */
  lemma WarningsMean(root: Table, target: string, w: Warning)
    requires LoadTree(root, NO_ENV).Ok? && HasLegacy(root) && EditTarget(root) == Ok(target)
    ensures w in LoadTree(root, NO_ENV).value.warnings <==> Warns(root, target, w)
  {
    hide LoadTree, HasLegacy, EditTarget, LegacyWarnings, DecodeSections, ResolveProviders, LoadTarget, CheckProviders, ChecksPass,
      MergeEnv, Repair, Warns, MergeLegacy;
    LoadsIffParts(root, NO_ENV);
    TargetsAgree(root, NO_ENV);
    TargetIsNotDefault(Named(root), target);
    var all, legacy, final := LoadParts(root, NO_ENV);
    WarningsOf(root, all - {DEFAULT}, target, legacy);
    assert Entries(all - {DEFAULT}, target) == Entries(all, target);
    LegacyWarningsMean(root, target, w);
  }

  // ---- Nothing legacy is left ----

  /** A move out of the legacy places and into the canonical ones. */
  predicate MovesOut(move: Move)
  {
    && move.legacy != [] && move.canonical != []
    && move.legacy[0] !in {PROVIDERS, ANALYTICS} && move.canonical[0] in {PROVIDERS, ANALYTICS}
  }

  lemma MoveClears(d: Table, move: Move, other: Path)
    requires MovePath(d, move).Ok? && MovesOut(move) && other != [] && other[0] !in {PROVIDERS, ANALYTICS}
    ensures other == move.legacy || ItemAt(d, other) == None ==> ItemAt(MovePath(d, move).value.0, other) == None
    ensures MovePath(d, move).value.1 == [] ==> MovePath(d, move).value.0 == d && ItemAt(d, move.legacy) == None
  {
    hide ItemAt, SetItem, RemoveItem;
    var item := ItemAt(d, move.legacy);
    if item.Some? {
      var filled := if ItemAt(d, move.canonical).Some? then d else SetItem(d, move.canonical, item.value).value;
      if ItemAt(d, move.canonical) == None {
        SetFrame(d, move.canonical, item.value, other);
      }
      if other == move.legacy {
        RemoveThenGet(filled, other);
      } else if ItemAt(d, other) == None {
        RemoveNeverAdds(filled, move.legacy, other);
      }
    }
  }

  lemma {:induction false} RunClears(d: Table, moves: seq<Move>, i: nat)
    requires RunMoves(d, moves).Ok? && i < |moves| && forall j :: 0 <= j < |moves| ==> MovesOut(moves[j])
    ensures ItemAt(RunMoves(d, moves).value.0, moves[i].legacy) == None
    ensures RunMoves(d, moves).value.1 == [] ==> RunMoves(d, moves).value.0 == d && ItemAt(d, moves[i].legacy) == None
    decreases |moves|
  {
    hide ItemAt, MovePath;
    var front, last := moves[..|moves| - 1], moves[|moves| - 1];
    var before := RunMoves(d, front).value;
    MoveClears(before.0, last, moves[i].legacy);
    if i < |front| {
      RunClears(d, front, i);
    } else if front != [] {
      RunClears(d, front, 0);
    }
  }

  lemma AllMoveOut(target: string, i: nat)
    requires i < |Moves(target)|
    ensures MovesOut(Moves(target)[i])
  {
    NamesDiffer();
    KeyLists();
    if i < 3 {
      assert Moves(target)[i] == RootMove(target, ROOT_KEY_LIST[i]) && ROOT_KEY_LIST[i] in Elements(ROOT_KEY_LIST);
    } else if i < 10 {
      assert Moves(target)[i] == PlayerMove(target, PLAYER_KEY_LIST[i - 3]);
    }
  }

  lemma RootKeyIsMoved(d: Table, target: string, key: string) returns (i: nat)
    requires key in ROOT_KEYS && key in d
    ensures i < |Moves(target)| && ItemAt(d, Moves(target)[i].legacy).Some?
  {
    hide ItemAt;
    KeyLists();
    assert key in Elements(ROOT_KEY_LIST);
    i :| 0 <= i < |ROOT_KEY_LIST| && ROOT_KEY_LIST[i] == key;
    ItemAt1(d, key);
    assert Moves(target)[i] == RootMove(target, key);
  }

  lemma PlayerKeyIsMoved(d: Table, target: string, key: string) returns (i: nat)
    requires key in PLAYER_KEYS + {EVENT_HOOK} && key in Entries(d, PLAYER)
    ensures i < |Moves(target)| && ItemAt(d, Moves(target)[i].legacy).Some?
  {
    hide ItemAt;
    ItemAt2(d, PLAYER, key);
    ItemAt1(Entries(d, PLAYER), key);
    if key == EVENT_HOOK {
      i := 10;
      assert Moves(target)[i] == HOOK_MOVE;
    } else {
      KeyLists();
      assert key in Elements(PLAYER_KEY_LIST);
      var j :| 0 <= j < |PLAYER_KEY_LIST| && PLAYER_KEY_LIST[j] == key;
      i := 3 + j;
      assert Moves(target)[i] == PlayerMove(target, key);
    }
  }

  /** A legacy key is the source of one of the moves. */
  lemma LegacyIsMoved(d: Table, target: string) returns (i: nat)
    requires HasLegacy(d)
    ensures i < |Moves(target)| && ItemAt(d, Moves(target)[i].legacy).Some?
  {
    hide ItemAt;
    if d.Keys * ROOT_KEYS != {} {
      var key :| key in d.Keys * ROOT_KEYS;
      i := RootKeyIsMoved(d, target, key);
    } else if Entries(d, PLAYER).Keys * (PLAYER_KEYS + {EVENT_HOOK}) != {} {
      var key :| key in Entries(d, PLAYER).Keys * (PLAYER_KEYS + {EVENT_HOOK});
      i := PlayerKeyIsMoved(d, target, key);
    } else {
      i := 11;
      ItemAt2(d, SPOTIFYD, DEVICE_NAME);
      ItemAt1(Entries(d, SPOTIFYD), DEVICE_NAME);
      assert Moves(target)[i] == DeviceMove(target);
    }
  }

  lemma CompletedAddsNoLegacy(d: Table, target: string, other: Path)
    requires Completed(d, target).Ok? && other != [] && other[0] !in {PROVIDERS, ANALYTICS}
    ensures ItemAt(Completed(d, target).value, other) == ItemAt(d, other)
  {
    hide ItemAt, SetItem;
    var withDefault := SetIfMissing(d, [PROVIDERS, DEFAULT], Leaf(Text(target))).value;
    if ItemAt(d, [PROVIDERS, DEFAULT]) == None {
      SetFrame(d, [PROVIDERS, DEFAULT], Leaf(Text(target)), other);
    }
    if ItemAt(withDefault, [PROVIDERS, target, TYPE]) == None {
      SetFrame(withDefault, [PROVIDERS, target, TYPE], Leaf(Text(SPOTIFY)), other);
    }
  }

  /** Whatever it is given, a migration that succeeds leaves no legacy key, and reports
      nothing exactly where there was none. */
  lemma MigrationClears(root: Table)
    requires Migrate(root).Ok?
    ensures !HasLegacy(Migrate(root).value.0)
    ensures Migrate(root).value.1 == [] <==> !HasLegacy(root)
  {
    hide LoadTree, HasLegacy, RunMoves, Completed, Moves, EditTarget, ItemAt, MovesOut;
    if !HasLegacy(root) {
      NothingToMigrate(root);
    } else {
      var target := MigrationTarget(root).value;
      var moved := RunMoves(root, Moves(target)).value;
      forall i | 0 <= i < |Moves(target)|
        ensures MovesOut(Moves(target)[i])
      {
        AllMoveOut(target, i);
      }
      var first := LegacyIsMoved(root, target);
      RunClears(root, Moves(target), first);
      var written := Migrate(root).value.0;
      if HasLegacy(written) {
        var i := LegacyIsMoved(written, target);
        RunClears(root, Moves(target), i);
        OutOfTheWay(Moves(target)[i]);
        CompletedAddsNoLegacy(moved.0, target, Moves(target)[i].legacy);
      }
    }
  }

  lemma OutOfTheWay(move: Move)
    requires MovesOut(move)
    ensures move.legacy != [] && move.legacy[0] !in {PROVIDERS, ANALYTICS}
  {
  }
}
