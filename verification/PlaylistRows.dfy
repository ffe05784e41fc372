/** Removing playlist rows by number: the occurrence groups sent to the daemon
    (crates/spotuify-cli/src/commands.rs). */
module PlaylistRows {
  import opened Wrappers
  import opened ResourceUris

  datatype Occurrences = Occurrences(uri: Uri, positions: seq<nat>)

  datatype RowError =
    | NoRows
    | RowZero
    | DuplicateRows
    | InvalidPlaylist
    | OutOfRange(row: nat)
    | InvalidUri(row: nat)
    | SchemeConflict(row: nat)

  // ---- What each row must satisfy ----

  function RowProblem(row: nat, scheme: string, tracks: seq<string>): (r: Option<RowError>)
    requires row >= 1
  {
    if row > |tracks| then Some(OutOfRange(row))
    else if Parse(tracks[row - 1]).Err? then Some(InvalidUri(row))
    else if Parse(tracks[row - 1]).value.scheme != scheme then Some(SchemeConflict(row))
    else None
  }

  predicate Positive(rows: seq<nat>)
  {
    forall i :: 0 <= i < |rows| ==> rows[i] >= 1
  }

  predicate Distinct<T(==)>(s: seq<T>)
  {
    forall i, j :: 0 <= i < j < |s| ==> s[i] != s[j]
  }

  /** Every row is on the playlist and holds a URI of its scheme. */
  predicate AllResolve(rows: seq<nat>, scheme: string, tracks: seq<string>)
  {
    forall i :: 0 <= i < |rows| ==> rows[i] >= 1 && RowProblem(rows[i], scheme, tracks) == None
  }

  /** The complaint about the first bad row. */
  function FirstProblem(rows: seq<nat>, scheme: string, tracks: seq<string>): (r: Option<RowError>)
    requires Positive(rows)
    ensures r == None <==> AllResolve(rows, scheme, tracks)
  {
    if rows == [] then None
    else
      var problem := FirstProblem(rows[..|rows| - 1], scheme, tracks);
      if problem.Some? then problem else RowProblem(rows[|rows| - 1], scheme, tracks)
  }

  function UriAt(row: nat, scheme: string, tracks: seq<string>): (r: Uri)
    requires row >= 1 && RowProblem(row, scheme, tracks) == None
    ensures Print(r) == tracks[row - 1] && r.scheme == scheme
  {
    ParsesIff(tracks[row - 1], Parse(tracks[row - 1]).value);
    Parse(tracks[row - 1]).value
  }

  // ---- Grouping ----

  function Find(groups: seq<Occurrences>, uri: Uri): (r: Option<nat>)
    ensures r.Some? ==> r.value < |groups| && groups[r.value].uri == uri
    ensures r.None? ==> forall i :: 0 <= i < |groups| ==> groups[i].uri != uri
  {
    if groups == [] then None
    else if groups[0].uri == uri then Some(0)
    else
      match Find(groups[1..], uri)
      case None => (assert forall i :: 1 <= i < |groups| ==> groups[i] == groups[1..][i - 1]; None)
      case Some(i) => Some(i + 1)
  }

  function Added(groups: seq<Occurrences>, uri: Uri, position: nat): (r: seq<Occurrences>)
  {
    match Find(groups, uri)
    case Some(i) => groups[i := Occurrences(uri, groups[i].positions + [position])]
    case None => groups + [Occurrences(uri, [position])]
  }

  function Grouped(rows: seq<nat>, scheme: string, tracks: seq<string>): (r: seq<Occurrences>)
    requires AllResolve(rows, scheme, tracks)
  {
    if rows == [] then []
    else
      var last := rows[|rows| - 1];
      Added(Grouped(rows[..|rows| - 1], scheme, tracks), UriAt(last, scheme, tracks), last - 1)
  }

  function Plan(rows: seq<nat>, playlist: string, tracks: seq<string>): (r: Result<seq<Occurrences>, RowError>)
  {
    if rows == [] then Err(NoRows)
    else if 0 in rows then Err(RowZero)
    else if !Distinct(rows) then Err(DuplicateRows)
    else if Parse(playlist).Err? then Err(InvalidPlaylist)
    else
      var scheme := Parse(playlist).value.scheme;
      var problem := FirstProblem(rows, scheme, tracks);
      if problem.Some? then Err(problem.value) else Ok(Grouped(rows, scheme, tracks))
  }

  /** The command's loop, which stops at the first bad row. */
  method RemoveAt(rows: seq<nat>, playlist: string, tracks: seq<string>)
    returns (result: Result<seq<Occurrences>, RowError>)
    ensures result == Plan(rows, playlist, tracks)
  {
    hide Parse, RowProblem;
    if rows == [] {
      return Err(NoRows);
    }
    if 0 in rows {
      return Err(RowZero);
    }
    var unique := Elements(rows);
    UniqueIff(rows);
    if |unique| != |rows| {
      return Err(DuplicateRows);
    }
    if Parse(playlist).Err? {
      return Err(InvalidPlaylist);
    }
    var scheme := Parse(playlist).value.scheme;
    var groups: seq<Occurrences> := [];
    for i := 0 to |rows|
      invariant FirstProblem(rows[..i], scheme, tracks) == None
      invariant groups == Grouped(rows[..i], scheme, tracks)
    {
      var row := rows[i];
      assert rows[..i + 1][..i] == rows[..i];
      if RowProblem(row, scheme, tracks).Some? {
        EarlierProblemStays(rows, i + 1, scheme, tracks);
        return Err(RowProblem(row, scheme, tracks).value);
      }
      var uri := UriAt(row, scheme, tracks);
      var found := Find(groups, uri);
      if found.Some? {
        groups := groups[found.value := Occurrences(uri, groups[found.value].positions + [row - 1])];
      } else {
        groups := groups + [Occurrences(uri, [row - 1])];
      }
    }
    assert rows[..|rows|] == rows;
    return Ok(groups);
  }

  lemma {:induction false} EarlierProblemStays(rows: seq<nat>, n: nat, scheme: string, tracks: seq<string>)
    requires Positive(rows) && n <= |rows| && FirstProblem(rows[..n], scheme, tracks).Some?
    ensures FirstProblem(rows, scheme, tracks) == FirstProblem(rows[..n], scheme, tracks)
    decreases |rows|
  {
    hide RowProblem;
    if n < |rows| {
      var most := rows[..|rows| - 1];
      assert most[..n] == rows[..n];
      EarlierProblemStays(most, n, scheme, tracks);
    } else {
      assert rows[..n] == rows;
    }
  }

  function Elements<T(==)>(s: seq<T>): (r: set<T>)
  {
    set x | x in s
  }

  /** Comparing a list's length with its set's size finds duplicates. */
  lemma {:induction false} UniqueIff<T(!new)>(s: seq<T>)
    ensures |Elements(s)| <= |s|
    ensures |Elements(s)| == |s| <==> Distinct(s)
  {
    if s != [] {
      var most, last := s[..|s| - 1], s[|s| - 1];
      UniqueIff(most);
      assert s == most + [last];
      assert Elements(s) == Elements(most) + {last};
      if Distinct(s) {
        assert last !in most;
      } else if last !in most {
        assert !Distinct(most);
      }
    }
  }

  // ---- What the groups say ----

  /** The requested positions that hold `uri`, in the order requested. */
  function Holding(rows: seq<nat>, scheme: string, tracks: seq<string>, uri: Uri): (r: seq<nat>)
    requires AllResolve(rows, scheme, tracks)
  {
    if rows == [] then []
    else
      var last := rows[|rows| - 1];
      Holding(rows[..|rows| - 1], scheme, tracks, uri)
      + if UriAt(last, scheme, tracks) == uri then [last - 1] else []
  }

  /** One group a URI, holding exactly that URI's requested positions. */
  predicate Exact(groups: seq<Occurrences>, rows: seq<nat>, scheme: string, tracks: seq<string>)
    requires AllResolve(rows, scheme, tracks)
  {
    && (forall i, j :: 0 <= i < j < |groups| ==> groups[i].uri != groups[j].uri)
    && (forall i :: 0 <= i < |groups| ==>
          groups[i].positions == Holding(rows, scheme, tracks, groups[i].uri) && groups[i].positions != [])
    && (forall k :: 0 <= k < |rows| ==> Find(groups, UriAt(rows[k], scheme, tracks)).Some?)
  }

  lemma {:induction false} GroupsAreExact(rows: seq<nat>, scheme: string, tracks: seq<string>)
    requires AllResolve(rows, scheme, tracks)
    ensures Exact(Grouped(rows, scheme, tracks), rows, scheme, tracks)
    decreases |rows|
  {
    hide RowProblem, UriAt;
    if rows != [] {
      var most, last := rows[..|rows| - 1], rows[|rows| - 1];
      GroupsAreExact(most, scheme, tracks);
      AddedIsExact(Grouped(most, scheme, tracks), rows, scheme, tracks);
    }
  }

  lemma {:induction false} NotHeld(rows: seq<nat>, scheme: string, tracks: seq<string>, uri: Uri)
    requires AllResolve(rows, scheme, tracks)
    requires forall k :: 0 <= k < |rows| ==> UriAt(rows[k], scheme, tracks) != uri
    ensures Holding(rows, scheme, tracks, uri) == []
  {
    hide RowProblem, UriAt;
    if rows != [] {
      NotHeld(rows[..|rows| - 1], scheme, tracks, uri);
    }
  }

  lemma AddedIsExact(groups: seq<Occurrences>, rows: seq<nat>, scheme: string, tracks: seq<string>)
    requires rows != [] && AllResolve(rows, scheme, tracks)
    requires Exact(groups, rows[..|rows| - 1], scheme, tracks)
    ensures Exact(Added(groups, UriAt(rows[|rows| - 1], scheme, tracks), rows[|rows| - 1] - 1), rows, scheme, tracks)
  {
    hide RowProblem, UriAt, Find, Holding;
    var most, last := rows[..|rows| - 1], rows[|rows| - 1];
    var uri := UriAt(last, scheme, tracks);
    var after := Added(groups, uri, last - 1);
    AddedMembers(groups, uri, last - 1);
    if Find(groups, uri).None? {
      forall k | 0 <= k < |most|
        ensures UriAt(most[k], scheme, tracks) != uri
      {
        assert Find(groups, UriAt(most[k], scheme, tracks)).Some?;
      }
      NotHeld(most, scheme, tracks, uri);
    }
    AddedHolds(groups, rows, scheme, tracks);
    forall k | 0 <= k < |rows|
      ensures Find(after, UriAt(rows[k], scheme, tracks)).Some?
    {
      if k < |most| {
        assert rows[k] == most[k];
        assert Find(groups, UriAt(most[k], scheme, tracks)).Some?;
      }
    }
  }

  lemma AddedHolds(groups: seq<Occurrences>, rows: seq<nat>, scheme: string, tracks: seq<string>)
    requires rows != [] && AllResolve(rows, scheme, tracks)
    requires forall i :: 0 <= i < |groups| ==>
      groups[i].positions == Holding(rows[..|rows| - 1], scheme, tracks, groups[i].uri)
    requires forall i, j :: 0 <= i < j < |groups| ==> groups[i].uri != groups[j].uri
    requires var uri := UriAt(rows[|rows| - 1], scheme, tracks);
      Find(groups, uri).None? ==> Holding(rows[..|rows| - 1], scheme, tracks, uri) == []
    ensures var last := rows[|rows| - 1]; var after := Added(groups, UriAt(last, scheme, tracks), last - 1);
      && (forall i :: 0 <= i < |after| ==> after[i].positions == Holding(rows, scheme, tracks, after[i].uri))
      && (forall i, j :: 0 <= i < j < |after| ==> after[i].uri != after[j].uri)
  {
    hide RowProblem, UriAt, Find, Holding;
    var last := rows[|rows| - 1];
    var after := Added(groups, UriAt(last, scheme, tracks), last - 1);
    forall i | 0 <= i < |after|
      ensures after[i].positions == Holding(rows, scheme, tracks, after[i].uri)
    {
      HoldingLast(rows, scheme, tracks, after[i].uri);
    }
  }

  lemma HoldingLast(rows: seq<nat>, scheme: string, tracks: seq<string>, uri: Uri)
    requires rows != [] && AllResolve(rows, scheme, tracks)
    ensures var most, last := rows[..|rows| - 1], rows[|rows| - 1];
      Holding(rows, scheme, tracks, uri)
        == Holding(most, scheme, tracks, uri) + if UriAt(last, scheme, tracks) == uri then [last - 1] else []
  {
  }

  /** Adding a position changes the group of its URI and finds every URI found before. */
  lemma AddedMembers(groups: seq<Occurrences>, uri: Uri, position: nat)
    ensures var after := Added(groups, uri, position);
      && |groups| <= |after|
      && Find(after, uri).Some?
      && forall other {:trigger Find(after, other)} :: Find(groups, other).Some? ==> Find(after, other).Some?
  {
    var after := Added(groups, uri, position);
    forall other | other == uri || Find(groups, other).Some?
      ensures Find(after, other).Some?
    {
      var i := if Find(groups, other).Some? then Find(groups, other).value else |groups|;
      assert after[i].uri == other;
    }
  }

  lemma {:induction false} HoldingMembers(rows: seq<nat>, scheme: string, tracks: seq<string>, uri: Uri, p: nat)
    requires AllResolve(rows, scheme, tracks)
    ensures p in Holding(rows, scheme, tracks, uri) <==> p + 1 in rows && UriAt(p + 1, scheme, tracks) == uri
    decreases |rows|
  {
    hide RowProblem, UriAt;
    if rows != [] {
      var most := rows[..|rows| - 1];
      HoldingMembers(most, scheme, tracks, uri, p);
      assert rows == most + [rows[|rows| - 1]];
    }
  }

  lemma {:induction false} HoldingIsDistinct(rows: seq<nat>, scheme: string, tracks: seq<string>, uri: Uri)
    requires AllResolve(rows, scheme, tracks) && Distinct(rows)
    ensures Distinct(Holding(rows, scheme, tracks, uri))
    decreases |rows|
  {
    hide RowProblem, UriAt;
    if rows != [] {
      var most, last := rows[..|rows| - 1], rows[|rows| - 1];
      HoldingIsDistinct(most, scheme, tracks, uri);
      HoldingMembers(most, scheme, tracks, uri, last - 1);
    }
  }

  /** A position is named by some group if and only if its row was requested. */
  lemma NamedIff(rows: seq<nat>, scheme: string, tracks: seq<string>, p: nat)
    requires AllResolve(rows, scheme, tracks)
    ensures Named(Grouped(rows, scheme, tracks), p) <==> p + 1 in rows
  {
    hide RowProblem, UriAt;
    var groups := Grouped(rows, scheme, tracks);
    GroupsAreExact(rows, scheme, tracks);
    forall i | 0 <= i < |groups|
      ensures p in groups[i].positions ==> p + 1 in rows
    {
      HoldingMembers(rows, scheme, tracks, groups[i].uri, p);
    }
    if p + 1 in rows {
      var uri := UriAt(p + 1, scheme, tracks);
      var i := Find(groups, uri).value;
      HoldingMembers(rows, scheme, tracks, uri, p);
      assert p in groups[i].positions;
    }
  }

  predicate Named(groups: seq<Occurrences>, p: nat)
  {
    exists i :: 0 <= i < |groups| && p in groups[i].positions
  }

  // ---- Deleting the occurrences ----

  /** The playlist while occurrences are deleted; positions keep their numbers. */
  type Slots = seq<Option<string>>

  /** Deletes a group's occurrences; refuses a position that is not on the
      playlist, is gone already or holds something else. */
  function Delete(slots: Slots, uri: string, positions: seq<nat>): (r: Option<Slots>)
    decreases |positions|
  {
    if positions == [] then Some(slots)
    else if positions[0] < |slots| && slots[positions[0]] == Some(uri) then
      Delete(slots[positions[0] := None], uri, positions[1..])
    else None
  }

  function DeleteAll(slots: Slots, groups: seq<Occurrences>): (r: Option<Slots>)
    decreases |groups|
  {
    if groups == [] then Some(slots)
    else
      match Delete(slots, Print(groups[0].uri), groups[0].positions)
      case None => None
      case Some(left) => DeleteAll(left, groups[1..])
  }

  function Full(tracks: seq<string>): (r: Slots)
  {
    seq(|tracks|, i requires 0 <= i < |tracks| => Some(tracks[i]))
  }

  function Compact(slots: Slots): (r: seq<string>)
  {
    if slots == [] then []
    else
      var last := slots[|slots| - 1];
      Compact(slots[..|slots| - 1]) + if last.Some? then [last.value] else []
  }

  /** The rows nobody asked to remove, in order. */
  function Unrequested(tracks: seq<string>, rows: seq<nat>): (r: seq<string>)
  {
    if tracks == [] then []
    else
      Unrequested(tracks[..|tracks| - 1], rows)
      + if |tracks| in rows then [] else [tracks[|tracks| - 1]]
  }

  predicate Holds(slots: Slots, uri: string, positions: seq<nat>)
  {
    forall k :: 0 <= k < |positions| ==> positions[k] < |slots| && slots[positions[k]] == Some(uri)
  }

  lemma {:induction false} DeleteBlanks(slots: Slots, uri: string, positions: seq<nat>)
    requires Distinct(positions) && Holds(slots, uri, positions)
    ensures var left := Delete(slots, uri, positions);
      && left.Some? && |left.value| == |slots|
      && forall i :: 0 <= i < |slots| ==> left.value[i] == if i in positions then None else slots[i]
    decreases |positions|
  {
    if positions != [] {
      var rest := positions[1..];
      assert positions == [positions[0]] + rest;
      forall k | 0 <= k < |rest|
        ensures rest[k] < |slots| && slots[positions[0] := None][rest[k]] == Some(uri)
      {
        assert rest[k] == positions[k + 1];
      }
      DeleteBlanks(slots[positions[0] := None], uri, rest);
    }
  }

  predicate GroupsHold(slots: Slots, groups: seq<Occurrences>)
  {
    forall i :: 0 <= i < |groups| ==>
      Distinct(groups[i].positions) && Holds(slots, Print(groups[i].uri), groups[i].positions)
  }

  predicate PrintDifferently(groups: seq<Occurrences>)
  {
    forall i, j :: 0 <= i < j < |groups| ==> Print(groups[i].uri) != Print(groups[j].uri)
  }

  lemma {:induction false} DeleteAllBlanks(slots: Slots, groups: seq<Occurrences>)
    requires GroupsHold(slots, groups) && PrintDifferently(groups)
    ensures var left := DeleteAll(slots, groups);
      && left.Some? && |left.value| == |slots|
      && forall i :: 0 <= i < |slots| ==> left.value[i] == if Named(groups, i) then None else slots[i]
    decreases |groups|
  {
    hide Print;
    if groups != [] {
      var first, rest := groups[0], groups[1..];
      DeleteBlanks(slots, Print(first.uri), first.positions);
      var left := Delete(slots, Print(first.uri), first.positions).value;
      forall i | 0 <= i < |rest|
        ensures Distinct(rest[i].positions) && Holds(left, Print(rest[i].uri), rest[i].positions)
      {
        OthersStillHold(slots, left, first, groups[i + 1]);
      }
      assert PrintDifferently(rest);
      DeleteAllBlanks(left, rest);
      forall p | 0 <= p < |slots|
        ensures Named(groups, p) <==> p in first.positions || Named(rest, p)
      {
        NamedSplits(groups, p);
      }
    }
  }

  lemma NamedSplits(groups: seq<Occurrences>, p: nat)
    requires groups != []
    ensures Named(groups, p) <==> p in groups[0].positions || Named(groups[1..], p)
  {
    if Named(groups[1..], p) {
      var i :| 0 <= i < |groups[1..]| && p in groups[1..][i].positions;
      assert p in groups[i + 1].positions;
    }
    if Named(groups, p) && p !in groups[0].positions {
      var i :| 0 <= i < |groups| && p in groups[i].positions;
      assert p in groups[1..][i - 1].positions;
    }
  }

  /** Deleting one group leaves the positions of another alone. */
  lemma OthersStillHold(slots: Slots, left: Slots, first: Occurrences, other: Occurrences)
    requires |left| == |slots| && Print(first.uri) != Print(other.uri)
    requires Holds(slots, Print(first.uri), first.positions) && Holds(slots, Print(other.uri), other.positions)
    requires forall i :: 0 <= i < |slots| ==> left[i] == if i in first.positions then None else slots[i]
    ensures Holds(left, Print(other.uri), other.positions)
  {
    hide Print;
  }

  lemma {:induction false} CompactKeepsUnrequested(slots: Slots, tracks: seq<string>, rows: seq<nat>)
    requires |slots| == |tracks|
    requires forall i :: 0 <= i < |slots| ==> slots[i] == if i + 1 in rows then None else Some(tracks[i])
    ensures Compact(slots) == Unrequested(tracks, rows)
    decreases |slots|
  {
    if slots != [] {
      CompactKeepsUnrequested(slots[..|slots| - 1], tracks[..|tracks| - 1], rows);
    }
  }

  /** The groups of distinct rows delete without refusal, and what is left is
      exactly the unrequested rows in order. */
  lemma DeletingLeavesTheUnrequested(rows: seq<nat>, playlist: string, tracks: seq<string>)
    requires Plan(rows, playlist, tracks).Ok?
    ensures var left := DeleteAll(Full(tracks), Plan(rows, playlist, tracks).value);
      left.Some? && Compact(left.value) == Unrequested(tracks, rows)
  {
    hide RowProblem, Parse;
    var scheme := Parse(playlist).value.scheme;
    var groups, slots := Grouped(rows, scheme, tracks), Full(tracks);
    GroupsHoldTheirUris(rows, scheme, tracks);
    DeleteAllBlanks(slots, groups);
    var left := DeleteAll(slots, groups).value;
    forall p | 0 <= p < |tracks|
      ensures left[p] == if p + 1 in rows then None else Some(tracks[p])
    {
      NamedIff(rows, scheme, tracks, p);
    }
    CompactKeepsUnrequested(left, tracks, rows);
  }

  lemma GroupsHoldTheirUris(rows: seq<nat>, scheme: string, tracks: seq<string>)
    requires AllResolve(rows, scheme, tracks) && Distinct(rows)
    ensures GroupsHold(Full(tracks), Grouped(rows, scheme, tracks))
    ensures PrintDifferently(Grouped(rows, scheme, tracks))
  {
    hide Print;
    var groups := Grouped(rows, scheme, tracks);
    GroupsAreExact(rows, scheme, tracks);
    forall i | 0 <= i < |groups|
      ensures Distinct(groups[i].positions) && Holds(Full(tracks), Print(groups[i].uri), groups[i].positions)
    {
      var uri := groups[i].uri;
      HoldingIsDistinct(rows, scheme, tracks, uri);
      forall k | 0 <= k < |groups[i].positions|
        ensures groups[i].positions[k] < |tracks| && tracks[groups[i].positions[k]] == Print(uri)
      {
        HoldingMembers(rows, scheme, tracks, uri, groups[i].positions[k]);
      }
    }
    forall i, j | 0 <= i < j < |groups|
      ensures Print(groups[i].uri) != Print(groups[j].uri)
    {
      GroupUriParses(rows, scheme, tracks, i);
      GroupUriParses(rows, scheme, tracks, j);
    }
  }

  lemma GroupUriParses(rows: seq<nat>, scheme: string, tracks: seq<string>, i: nat)
    requires AllResolve(rows, scheme, tracks) && i < |Grouped(rows, scheme, tracks)|
    ensures var uri := Grouped(rows, scheme, tracks)[i].uri; Parse(Print(uri)) == Ok(uri)
  {
    hide Print, Parse;
    GroupsAreExact(rows, scheme, tracks);
    var group := Grouped(rows, scheme, tracks)[i];
    HoldingMembers(rows, scheme, tracks, group.uri, group.positions[0]);
    ParsesIff(tracks[group.positions[0]], group.uri);
  }

  // ---- Which requests are refused, and how ----

  /** The complaint is about the first bad row. */
  lemma FirstBadRowIsReported(rows: seq<nat>, scheme: string, tracks: seq<string>, i: nat)
    requires Positive(rows) && i < |rows| && AllResolve(rows[..i], scheme, tracks) && RowProblem(rows[i], scheme, tracks).Some?
    ensures FirstProblem(rows, scheme, tracks) == RowProblem(rows[i], scheme, tracks)
  {
    hide RowProblem;
    assert rows[..i + 1][..i] == rows[..i];
    EarlierProblemStays(rows, i + 1, scheme, tracks);
  }

  /** A row that exists and holds a valid URI of the scheme. */
  ghost predicate HoldsUri(row: nat, scheme: string, tracks: seq<string>)
  {
    1 <= row <= |tracks| && exists uri :: Valid(uri) && uri.scheme == scheme && tracks[row - 1] == Print(uri)
  }

  lemma RowResolvesIff(row: nat, scheme: string, tracks: seq<string>)
    requires row >= 1
    ensures RowProblem(row, scheme, tracks) == None <==> HoldsUri(row, scheme, tracks)
  {
    hide Parse, Print, Valid;
    if row <= |tracks| {
      var text := tracks[row - 1];
      forall uri
        ensures Parse(text) == Ok(uri) <==> Valid(uri) && text == Print(uri)
      {
        ParsesIff(text, uri);
      }
      if Parse(text).Ok? {
        assert Valid(Parse(text).value) && text == Print(Parse(text).value);
      }
    }
  }

  /** A removal is planned if and only if rows are given, none twice, each on the
      playlist, and playlist and rows hold valid URIs of one scheme. */
  lemma PlanSucceedsIff(rows: seq<nat>, playlist: string, tracks: seq<string>)
    ensures Plan(rows, playlist, tracks).Ok? <==>
      && rows != [] && Distinct(rows) && Parse(playlist).Ok?
      && forall i :: 0 <= i < |rows| ==> HoldsUri(rows[i], Parse(playlist).value.scheme, tracks)
  {
    hide Parse, RowProblem, HoldsUri;
    if Parse(playlist).Ok? {
      var scheme := Parse(playlist).value.scheme;
      forall i | 0 <= i < |rows| && rows[i] >= 1
        ensures RowProblem(rows[i], scheme, tracks) == None <==> HoldsUri(rows[i], scheme, tracks)
      {
        RowResolvesIff(rows[i], scheme, tracks);
      }
      forall i | 0 <= i < |rows| && rows[i] == 0
        ensures !HoldsUri(rows[i], scheme, tracks)
      {
        NoRowZero(scheme, tracks);
      }
    }
  }

  lemma NoRowZero(scheme: string, tracks: seq<string>)
    ensures !HoldsUri(0, scheme, tracks)
  {
  }
}
