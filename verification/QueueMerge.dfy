/** Merging a fetched queue window with the cached queue
    (crates/spotuify-core/src/queue_merge.rs). */
module QueueMerge {
  import opened Wrappers

  /** A media item: its URI and everything else about it. */
  datatype Item = Item(uri: string, details: int)

  datatype Queue = Queue(current: Option<Item>, items: seq<Item>, sessionActive: bool, asOfMs: int)

  const PRESERVE_WINDOW_MS := 10_000
  const I64_MIN := -0x8000_0000_0000_0000
  const I64_MAX := 0x7FFF_FFFF_FFFF_FFFF

  function SaturatingSub(a: int, b: int): (r: int)
  {
    var d := a - b;
    if d < I64_MIN then I64_MIN else if d > I64_MAX then I64_MAX else d
  }

  /** The URI the cached tail is looked up by. */
  function TailAnchor(fetched: Queue): (r: Option<string>)
  {
    if fetched.items != [] then Some(fetched.items[|fetched.items| - 1].uri)
    else if fetched.current.Some? then Some(fetched.current.value.uri)
    else None
  }

  predicate HasUri(items: seq<Item>, uri: string)
  {
    exists i :: 0 <= i < |items| && items[i].uri == uri
  }

  /** The first position of a URI. */
  function Position(items: seq<Item>, uri: string): (r: Option<nat>)
    ensures r.None? <==> !HasUri(items, uri)
    ensures r.Some? ==> r.value < |items| && items[r.value].uri == uri
                        && forall j :: 0 <= j < r.value ==> items[j].uri != uri
  {
    if items == [] then None
    else if items[0].uri == uri then Some(0)
    else
      var rest := Position(items[1..], uri);
      assert forall j :: 0 < j < |items| ==> items[j] == items[1..][j - 1];
      if rest.None? then None else Some(rest.value + 1)
  }

  /** The items whose URI is not among `known`, in order. */
  function Unknown(items: seq<Item>, known: set<string>): (r: seq<Item>)
    ensures forall x :: x in r <==> x in items && x.uri !in known
  {
    if items == [] then []
    else
      assert items == [items[0]] + items[1..];
      (if items[0].uri in known then [] else [items[0]]) + Unknown(items[1..], known)
  }

  function UriSet(items: seq<Item>): (r: set<string>)
  {
    set i | 0 <= i < |items| :: items[i].uri
  }

  /** Where the cached tail starts: after the anchor, which may be playing or upcoming. */
  function TailStart(cached: Queue, anchor: string): (r: Option<nat>)
  {
    if cached.current.Some? && cached.current.value.uri == anchor then Some(0)
    else
      var at := Position(cached.items, anchor);
      if at.None? then None else Some(at.value + 1)
  }

  /** The merge as a function. */
  function Merged(queue: Queue, anchor: Option<string>, cached: Queue, shuffle: bool, nowMs: int): (r: Queue)
  {
    if shuffle || anchor.None? then queue
    else
      match TailStart(cached, anchor.value)
      case Some(start) =>
        assert start <= |cached.items|;
        queue.(items := queue.items + Unknown(cached.items[start..], UriSet(queue.items)), asOfMs := nowMs)
      case None =>
        if queue.items == [] && SaturatingSub(nowMs, cached.asOfMs) < PRESERVE_WINDOW_MS && cached.items != [] then
          queue.(items := Unknown(cached.items, if queue.current.Some? then {queue.current.value.uri} else {}),
                 sessionActive := true, asOfMs := nowMs)
        else queue
  }

  /** The filter loop of both branches. */
  method FilterKnown(items: seq<Item>, known: set<string>) returns (kept: seq<Item>)
    ensures kept == Unknown(items, known)
  {
    kept := [];
    var i := |items|;
    while i > 0
      invariant 0 <= i <= |items| && kept == Unknown(items[i..], known)
    {
      i := i - 1;
      assert items[i..][1..] == items[i + 1..];
      if items[i].uri !in known {
        kept := [items[i]] + kept;
      }
    }
  }

  /** The merge as it runs, on an owned queue whose fields it replaces. */
  method ReattachCachedTail(fetched: Queue, anchor: Option<string>, cached: Queue, shuffle: bool, nowMs: int)
    returns (queue: Queue)
    ensures queue == Merged(fetched, anchor, cached, shuffle, nowMs)
    ensures shuffle || anchor == None ==> queue == fetched
  {
    queue := fetched;
    if shuffle || anchor.None? {
      return;
    }
    var start := TailStart(cached, anchor.value);
    if start.None? {
      if queue.items == [] && SaturatingSub(nowMs, cached.asOfMs) < PRESERVE_WINDOW_MS && cached.items != [] {
        var kept := FilterKnown(cached.items, if queue.current.Some? then {queue.current.value.uri} else {});
        queue := queue.(items := kept);
        queue := queue.(sessionActive := true);
        queue := queue.(asOfMs := nowMs);
      }
      return;
    }
    var tail := FilterKnown(cached.items[start.value..], UriSet(queue.items));
    queue := queue.(items := queue.items + tail);
    queue := queue.(asOfMs := nowMs);
  }

  /** Complete snapshots are authoritative; windows borrow the tail. */
  function Reconciled(queue: Queue, anchor: Option<string>, cached: Queue, shuffle: bool, nowMs: int, complete: bool): (r: Queue)
  {
    if complete then queue else Merged(queue, anchor, cached, shuffle, nowMs)
  }

  // ---- Laws of one merge ----

  predicate DistinctUris(items: seq<Item>)
  {
    forall i, j :: 0 <= i < j < |items| ==> items[i].uri != items[j].uri
  }

  lemma {:induction false} UnknownKeepsDistinct(items: seq<Item>, known: set<string>)
    requires DistinctUris(items)
    ensures DistinctUris(Unknown(items, known))
  {
    if items != [] {
      UnknownKeepsDistinct(items[1..], known);
      var rest := Unknown(items[1..], known);
      forall j | 0 <= j < |rest|
        ensures rest[j].uri != items[0].uri
      {
        assert rest[j] in items[1..];
      }
    }
  }

  /** A complete snapshot, a shuffled fetch and one without an anchor are what they
      were fetched as, whatever the cache and the time. */
  lemma UntouchedFetches(queue: Queue, anchor: Option<string>, cached: Queue, shuffle: bool, nowMs: int, complete: bool)
    requires complete || shuffle || anchor == None
    ensures Reconciled(queue, anchor, cached, shuffle, nowMs, complete) == queue
  {
  }

  /** The cache knows the anchor, as its playing track or as an upcoming one. */
  predicate KnowsAnchor(cached: Queue, anchor: string)
  {
    (cached.current.Some? && cached.current.value.uri == anchor) || HasUri(cached.items, anchor)
  }

  /** An empty fetch has lost the anchor while the cache is less than ten seconds old
      and has something to show. */
  predicate KeepsCache(queue: Queue, anchor: string, cached: Queue, nowMs: int)
  {
    !KnowsAnchor(cached, anchor) && queue.items == [] && cached.items != [] && nowMs - cached.asOfMs < 10_000
  }

  /** What an unshuffled window becomes: the playing track is the fetched one, the
      time stamp is new exactly where the cache was used, the session is switched on
      only where the cache was kept, and what is added is what the cache lists after
      the anchor, or all it lists, without what is there already. */
  lemma MergedWindow(queue: Queue, anchor: string, cached: Queue, nowMs: int)
    ensures var merged := Reconciled(queue, Some(anchor), cached, false, nowMs, false);
      var found, kept := KnowsAnchor(cached, anchor), KeepsCache(queue, anchor, cached, nowMs);
      && merged.current == queue.current
      && merged.asOfMs == (if found || kept then nowMs else queue.asOfMs)
      && merged.sessionActive == (queue.sessionActive || kept)
      && (!found && !kept ==> merged.items == queue.items)
      && (found ==> queue.items <= merged.items)
      && (found ==> forall x :: x in merged.items[|queue.items|..] ==> x in cached.items && !HasUri(queue.items, x.uri))
      && (kept ==> forall x :: x in merged.items <==>
            x in cached.items && !(queue.current.Some? && queue.current.value.uri == x.uri))
  {
    var merged := Reconciled(queue, Some(anchor), cached, false, nowMs, false);
    match TailStart(cached, anchor)
    case Some(start) =>
      var tail := Unknown(cached.items[start..], UriSet(queue.items));
      assert merged.items[|queue.items|..] == tail;
    case None =>
  }

  /** The `j`-th cached item comes after the anchor, which may be playing or upcoming. */
  predicate ListedAfter(cached: Queue, anchor: string, j: nat)
    requires j < |cached.items|
  {
    (cached.current.Some? && cached.current.value.uri == anchor) || HasUri(cached.items[..j], anchor)
  }

  lemma TailIsListed(cached: Queue, anchor: string, j: nat)
    requires j < |cached.items| && TailStart(cached, anchor).Some?
    ensures ListedAfter(cached, anchor, j) <==> TailStart(cached, anchor).value <= j
  {
    if !(cached.current.Some? && cached.current.value.uri == anchor) {
      var at := Position(cached.items, anchor).value;
      if at < j {
        assert cached.items[..j][at].uri == anchor;
      }
    }
  }

  /** A cached item is added to a window if and only if the cache lists it after the
      anchor and the window does not have it. */
  lemma AddedIff(queue: Queue, anchor: string, cached: Queue, nowMs: int, j: nat)
    requires KnowsAnchor(cached, anchor) && j < |cached.items| && DistinctUris(cached.items)
    ensures var merged := Reconciled(queue, Some(anchor), cached, false, nowMs, false);
      && queue.items <= merged.items
      && (cached.items[j] in merged.items[|queue.items|..] <==>
            ListedAfter(cached, anchor, j) && !HasUri(queue.items, cached.items[j].uri))
  {
    var start := TailStart(cached, anchor).value;
    TailIsListed(cached, anchor, j);
    hide ListedAfter;
    var rest, known := cached.items[start..], UriSet(queue.items);
    assert Reconciled(queue, Some(anchor), cached, false, nowMs, false).items[|queue.items|..] == Unknown(rest, known);
    assert start <= j ==> rest[j - start] == cached.items[j];
    assert cached.items[j].uri in known <==> HasUri(queue.items, cached.items[j].uri);
  }

  /** A queue is a set: merging distinct lists never duplicates a URI. */
  lemma MergeKeepsDistinct(queue: Queue, anchor: Option<string>, cached: Queue, shuffle: bool, nowMs: int)
    requires DistinctUris(queue.items) && DistinctUris(cached.items)
    ensures DistinctUris(Merged(queue, anchor, cached, shuffle, nowMs).items)
  {
    UnknownKeepsDistinct(cached.items, if queue.current.Some? then {queue.current.value.uri} else {});
    if anchor.Some? && TailStart(cached, anchor.value).Some? {
      var start := TailStart(cached, anchor.value).value;
      UnknownKeepsDistinct(cached.items[start..], UriSet(queue.items));
      var tail := Unknown(cached.items[start..], UriSet(queue.items));
      forall i, j | 0 <= i < |queue.items| && 0 <= j < |tail|
        ensures queue.items[i].uri != tail[j].uri
      {
        assert queue.items[i].uri in UriSet(queue.items);
        assert tail[j] in tail;
      }
    }
  }

  lemma {:induction false} UnknownOfStrangers(items: seq<Item>, known: set<string>)
    requires forall i :: 0 <= i < |items| ==> items[i].uri !in known
    ensures Unknown(items, known) == items
  {
    if items != [] {
      UnknownOfStrangers(items[1..], known);
    }
  }

  lemma {:induction false} UnknownAppends(a: seq<Item>, b: seq<Item>, known: set<string>)
    ensures Unknown(a + b, known) == Unknown(a, known) + Unknown(b, known)
  {
    if a == [] {
      assert a + b == b;
    } else {
      assert (a + b)[1..] == a[1..] + b;
      UnknownAppends(a[1..], b, known);
    }
  }

  lemma {:induction false} UnknownOfFriends(items: seq<Item>, known: set<string>)
    requires forall i :: 0 <= i < |items| ==> items[i].uri in known
    ensures Unknown(items, known) == []
  {
    if items != [] {
      UnknownOfFriends(items[1..], known);
    }
  }

  /** Merging a list that starts with the fetched items adds back just the rest. */
  lemma RestIsAddedBack(fetched: seq<Item>, tail: seq<Item>, start: nat)
    requires start <= |fetched|
    requires forall i :: 0 <= i < |tail| ==> tail[i].uri !in UriSet(fetched)
    ensures Unknown((fetched + tail)[start..], UriSet(fetched)) == tail
  {
    assert (fetched + tail)[start..] == fetched[start..] + tail;
    UnknownAppends(fetched[start..], tail, UriSet(fetched));
    UnknownOfFriends(fetched[start..], UriSet(fetched));
    UnknownOfStrangers(tail, UriSet(fetched));
  }

  /** The anchor of a nonempty fetch is found inside the fetched part. */
  lemma AnchorInside(merged: Queue, fetched: seq<Item>, tail: seq<Item>)
    requires fetched != [] && merged.items == fetched + tail
    ensures TailStart(merged, fetched[|fetched| - 1].uri).Some?
    ensures TailStart(merged, fetched[|fetched| - 1].uri).value <= |fetched|
  {
    var last := |fetched| - 1;
    assert merged.items[last] == fetched[last];
    assert HasUri(merged.items, fetched[last].uri);
  }

  /** Merging the same fetch again, with the merged queue as the cache, changes
      nothing about what is playing and what is next. */
  lemma RemergeIsIdempotent(fetched: Queue, cached: Queue, shuffle: bool, nowMs: int, laterMs: int)
    ensures var merged := Merged(fetched, TailAnchor(fetched), cached, shuffle, nowMs);
      var again := Merged(fetched, TailAnchor(fetched), merged, shuffle, laterMs);
      again.items == merged.items && again.current == merged.current
  {
    var anchor := TailAnchor(fetched);
    var merged := Merged(fetched, anchor, cached, shuffle, nowMs);
    if !shuffle && anchor.Some? {
      if fetched.items == [] {
        assert merged.items[0..] == merged.items;
        UnknownOfStrangers(merged.items, UriSet(fetched.items));
        assert TailStart(merged, anchor.value) == Some(0);
        assert fetched.items + merged.items == merged.items;
      } else {
        var tail := MergeAddsATail(fetched, cached, nowMs);
        AnchorInside(merged, fetched.items, tail);
        hide TailStart, Unknown, UriSet;
        RestIsAddedBack(fetched.items, tail, TailStart(merged, anchor.value).value);
      }
    }
  }

  lemma MergeAddsATail(fetched: Queue, cached: Queue, nowMs: int) returns (tail: seq<Item>)
    requires fetched.items != []
    ensures Merged(fetched, TailAnchor(fetched), cached, false, nowMs).items == fetched.items + tail
    ensures Merged(fetched, TailAnchor(fetched), cached, false, nowMs).current == fetched.current
    ensures forall i :: 0 <= i < |tail| ==> tail[i].uri !in UriSet(fetched.items)
  {
    var anchor := TailAnchor(fetched).value;
    var start := TailStart(cached, anchor);
    tail := if start.Some? then Unknown(cached.items[start.value..], UriSet(fetched.items)) else [];
    forall i | 0 <= i < |tail|
      ensures tail[i].uri !in UriSet(fetched.items)
    {
      assert tail[i] in tail;
    }
  }

  // ---- Whole runs against the true queue ----

  /** The server plays `tracks` in order and is at `at`; the client has a cache. */
  datatype World = World(tracks: seq<Item>, at: nat, cache: Queue)

  datatype Step =
    | Advance(count: nat)
    | Fetch(window: nat, sessionActive: bool, asOfMs: int, nowMs: int)   // a window of any length, merged and cached

  predicate Enabled(w: World, step: Step)
  {
    match step
    case Advance(count) => w.at + count < |w.tracks|
    case Fetch(window, _, _, _) => w.at < |w.tracks| && window <= |w.tracks| - w.at - 1
  }

  /** What the endpoint answers: the playing track and the next few. */
  function Fetched(w: World, step: Step): (r: Queue)
    requires step.Fetch? && Enabled(w, step)
  {
    Queue(Some(w.tracks[w.at]), w.tracks[w.at + 1..w.at + 1 + step.window], step.sessionActive, step.asOfMs)
  }

  function Next(w: World, step: Step): (r: World)
    requires Enabled(w, step)
  {
    match step
    case Advance(count) => w.(at := w.at + count)
    case Fetch(_, _, _, nowMs) =>
      var fetched := Fetched(w, step);
      w.(cache := Reconciled(fetched, TailAnchor(fetched), w.cache, false, nowMs, false))
  }

  /** The cache is the whole true queue as of some track not after the playing one. */
  ghost predicate FullCache(w: World)
  {
    exists p :: 0 <= p <= w.at < |w.tracks| && CachedFrom(w, p)
  }

  predicate CachedFrom(w: World, p: nat)
    requires p < |w.tracks|
  {
    w.cache.current == Some(w.tracks[p]) && w.cache.items == w.tracks[p + 1..]
  }

  /** The anchor is in the cache, just before what the window left out. */
  lemma AnchorFound(w: World, p: nat, anchorAt: nat)
    requires DistinctUris(w.tracks) && p <= anchorAt < |w.tracks| && CachedFrom(w, p)
    ensures TailStart(w.cache, w.tracks[anchorAt].uri) == Some(anchorAt - p)
    ensures w.cache.items[anchorAt - p..] == w.tracks[anchorAt + 1..]
  {
    hide Position;
    if anchorAt > p {
      PositionInTail(w.tracks, p + 1, anchorAt);
      assert w.tracks[p].uri != w.tracks[anchorAt].uri;
    }
  }

  lemma PositionInTail(tracks: seq<Item>, from: nat, to: nat)
    requires DistinctUris(tracks) && from <= to < |tracks|
    ensures Position(tracks[from..], tracks[to].uri) == Some(to - from)
  {
    var items, uri := tracks[from..], tracks[to].uri;
    assert items[to - from].uri == uri;
    assert HasUri(items, uri);
    var at := Position(items, uri).value;
    assert items[at] == tracks[from + at];
    assert from + at == to;
  }

  /** Nothing after the window is in it. */
  lemma TailIsStrange(tracks: seq<Item>, from: nat, to: nat)
    requires DistinctUris(tracks) && from <= to <= |tracks|
    ensures Unknown(tracks[to..], UriSet(tracks[from..to])) == tracks[to..]
  {
    var tail, window := tracks[to..], tracks[from..to];
    forall i | 0 <= i < |tail|
      ensures tail[i].uri !in UriSet(window)
    {
      assert tail[i] == tracks[to + i];
      forall j | 0 <= j < |window|
        ensures window[j].uri != tail[i].uri
      {
        assert window[j] == tracks[from + j];
      }
    }
    UnknownOfStrangers(tail, UriSet(window));
  }

  /** The heart: a window of any length plus a full, possibly outdated cache is
      exactly the server's remaining list. */
  lemma MergeRestoresTheTail(w: World, step: Step, p: nat)
    requires DistinctUris(w.tracks) && step.Fetch? && Enabled(w, step)
    requires p <= w.at && CachedFrom(w, p)
    ensures Next(w, step).cache.current == Some(w.tracks[w.at])
    ensures Next(w, step).cache.items == w.tracks[w.at + 1..]
  {
    hide TailStart, Unknown, UriSet, DistinctUris, CachedFrom;
    var fetched := Fetched(w, step);
    var anchorAt := w.at + step.window;
    assert TailAnchor(fetched) == Some(w.tracks[anchorAt].uri);
    AnchorFound(w, p, anchorAt);
    TailIsStrange(w.tracks, w.at + 1, anchorAt + 1);
    assert fetched.items + w.tracks[anchorAt + 1..] == w.tracks[w.at + 1..];
  }

  predicate IsRun(w: World, steps: seq<Step>)
    decreases |steps|, 0
  {
    steps == [] || (IsRun(w, steps[..|steps| - 1]) && Enabled(After(w, steps[..|steps| - 1]), steps[|steps| - 1]))
  }

  function After(w: World, steps: seq<Step>): (r: World)
    requires IsRun(w, steps)
    decreases |steps|, 1
  {
    if steps == [] then w else Next(After(w, steps[..|steps| - 1]), steps[|steps| - 1])
  }

  lemma {:induction false} CacheStaysFull(w: World, steps: seq<Step>)
    requires DistinctUris(w.tracks) && FullCache(w) && IsRun(w, steps)
    ensures After(w, steps).tracks == w.tracks && FullCache(After(w, steps))
    decreases |steps|
  {
    if steps != [] {
      var before, step := After(w, steps[..|steps| - 1]), steps[|steps| - 1];
      CacheStaysFull(w, steps[..|steps| - 1]);
      var p :| 0 <= p <= before.at < |before.tracks| && CachedFrom(before, p);
      var after := Next(before, step);
      if step.Fetch? {
        MergeRestoresTheTail(before, step, p);
        assert CachedFrom(after, before.at);
      } else {
        assert CachedFrom(after, p);
      }
    }
  }

  /** Over every unshuffled run of advances and fetches of any window length, from
      a full cache of distinct tracks, the merged list after each fetch is the
      server's true remaining list. */
  lemma EveryFetchShowsTheTrueQueue(w: World, steps: seq<Step>)
    requires DistinctUris(w.tracks) && FullCache(w) && IsRun(w, steps)
    requires steps != [] && steps[|steps| - 1].Fetch?
    ensures var end := After(w, steps);
      end.at < |w.tracks| && end.cache.current == Some(w.tracks[end.at]) && end.cache.items == w.tracks[end.at + 1..]
  {
    hide DistinctUris, Reconciled, CachedFrom;
    var before, step := After(w, steps[..|steps| - 1]), steps[|steps| - 1];
    CacheStaysFull(w, steps[..|steps| - 1]);
    var p :| 0 <= p <= before.at < |before.tracks| && CachedFrom(before, p);
    MergeRestoresTheTail(before, step, p);
  }

  // ---- Caches that do not know the whole queue ----

  /** The cache knows the true queue from `p` up to, but not including, `q`. */
  predicate CachedPart(w: World, p: nat, q: nat)
    requires p < q <= |w.tracks|
  {
    w.cache.current == Some(w.tracks[p]) && w.cache.items == w.tracks[p + 1..q]
  }

  /** A fresh cache is kept under an empty fetch that has moved past it. */
  predicate KeepsStale(w: World, step: Step, p: nat, q: nat)
    requires step.Fetch?
  {
    step.window == 0 && q <= w.at && p + 1 < q && SaturatingSub(step.nowMs, w.cache.asOfMs) < PRESERVE_WINDOW_MS
  }

  /** Exactly when the merged list is the true remaining list: the known part, cache
      and window together, reaches the end of the queue without a gap, and no stale
      cache is kept in its place. */
  predicate KnowsTheRest(w: World, step: Step, p: nat, q: nat)
    requires step.Fetch?
  {
    !KeepsStale(w, step, p, q) &&
    (if w.at + step.window < q then q == |w.tracks| else w.at + step.window + 1 == |w.tracks|)
  }

  lemma PartAnchor(w: World, p: nat, q: nat, anchorAt: nat)
    requires DistinctUris(w.tracks) && p < q <= |w.tracks| && p <= anchorAt < |w.tracks| && CachedPart(w, p, q)
    ensures TailStart(w.cache, w.tracks[anchorAt].uri) == (if anchorAt < q then Some(anchorAt - p) else None)
    ensures anchorAt < q ==> w.cache.items[anchorAt - p..] == w.tracks[anchorAt + 1..q]
  {
    var anchor := w.tracks[anchorAt].uri;
    if anchorAt < q && anchorAt > p {
      assert w.cache.items[anchorAt - p - 1] == w.tracks[anchorAt];
      assert HasUri(w.cache.items, anchor);
      var at := Position(w.cache.items, anchor).value;
      assert w.cache.items[at] == w.tracks[p + 1 + at];
    } else if anchorAt >= q {
      assert forall i :: 0 <= i < |w.cache.items| ==> w.cache.items[i] == w.tracks[p + 1 + i];
      assert !HasUri(w.cache.items, anchor);
    }
  }

  lemma PartIsStrange(tracks: seq<Item>, from: nat, to: nat, q: nat)
    requires DistinctUris(tracks) && from <= to <= q <= |tracks|
    ensures Unknown(tracks[to..q], UriSet(tracks[from..to])) == tracks[to..q]
  {
    var known := tracks[..q];
    assert known[to..] == tracks[to..q] && known[from..to] == tracks[from..to];
    TailIsStrange(known, from, to);
  }

  lemma StaleIsKept(tracks: seq<Item>, p: nat, q: nat, at: nat)
    requires DistinctUris(tracks) && p + 1 < q <= at < |tracks|
    ensures Unknown(tracks[p + 1..q], {tracks[at].uri}) == tracks[p + 1..q] != tracks[at + 1..]
  {
    var stale := tracks[p + 1..q];
    assert forall i :: 0 <= i < |stale| ==> stale[i] == tracks[p + 1 + i];
    UnknownOfStrangers(stale, {tracks[at].uri});
    if |tracks[at + 1..]| > 0 {
      assert tracks[at + 1..][0] == tracks[at + 1];
      assert stale[0] == tracks[p + 1];
    }
  }

  /** What the merge gives in each case. */
  lemma MergedFromPart(w: World, step: Step, p: nat, q: nat)
    requires DistinctUris(w.tracks) && step.Fetch? && Enabled(w, step)
    requires p <= w.at && p < q <= |w.tracks| && CachedPart(w, p, q)
    ensures Next(w, step).cache.items ==
            if w.at + step.window < q then w.tracks[w.at + 1..q]
            else if KeepsStale(w, step, p, q) then w.tracks[p + 1..q]
            else w.tracks[w.at + 1..w.at + 1 + step.window]
  {
    hide TailStart, Unknown, UriSet, DistinctUris;
    var fetched := Fetched(w, step);
    var anchorAt := w.at + step.window;
    assert TailAnchor(fetched) == Some(w.tracks[anchorAt].uri);
    PartAnchor(w, p, q, anchorAt);
    if anchorAt < q {
      PartIsStrange(w.tracks, w.at + 1, anchorAt + 1, q);
      assert w.tracks[w.at + 1..anchorAt + 1] + w.tracks[anchorAt + 1..q] == w.tracks[w.at + 1..q];
    } else if KeepsStale(w, step, p, q) {
      StaleIsKept(w.tracks, p, q, w.at);
    }
  }

  /** The same merge with a cache that knows only part of the queue: it shows the
      true remaining list if and only if that part and the window reach its end. */
  lemma MergeShowsTruthIff(w: World, step: Step, p: nat, q: nat)
    requires DistinctUris(w.tracks) && step.Fetch? && Enabled(w, step)
    requires p <= w.at && p < q <= |w.tracks| && CachedPart(w, p, q)
    ensures Next(w, step).cache.items == w.tracks[w.at + 1..] <==> KnowsTheRest(w, step, p, q)
  {
    hide Next, CachedPart, DistinctUris, UriSet, Unknown;
    MergedFromPart(w, step, p, q);
    if w.at + step.window >= q && KeepsStale(w, step, p, q) {
      StaleIsKept(w.tracks, p, q, w.at);
    }
  }

  /** It can fail: the last track is playing and a fresh cache still lists the
      track before it; the empty fetch keeps that list, although nothing is left. */
  lemma StaleCacheIsShown(a: Item, b: Item, c: Item, nowMs: int) returns (w: World, step: Step)
    requires DistinctUris([a, b, c]) && I64_MIN <= nowMs <= I64_MAX
    ensures step.Fetch? && Enabled(w, step) && w.tracks == [a, b, c] && CachedPart(w, 0, 2)
    ensures Next(w, step).cache.items == [b] && w.tracks[w.at + 1..] == []
  {
    w := World([a, b, c], 2, Queue(Some(a), [b], true, nowMs));
    step := Fetch(0, true, nowMs, nowMs);
    hide Next, DistinctUris;
    assert w.tracks[1..2] == [b];
    MergedFromPart(w, step, 0, 2);
  }

  /** And so can a window that leaves a gap behind the cache: the rest is missing. */
  lemma GapIsShown(a: Item, b: Item, c: Item, nowMs: int) returns (w: World, step: Step)
    requires DistinctUris([a, b, c])
    ensures step.Fetch? && Enabled(w, step) && w.tracks == [a, b, c] && CachedPart(w, 0, 1)
    ensures Next(w, step).cache.items == [] && w.tracks[w.at + 1..] == [c]
  {
    w := World([a, b, c], 1, Queue(Some(a), [], true, nowMs));
    step := Fetch(0, true, nowMs, nowMs);
    hide Next, DistinctUris;
    MergedFromPart(w, step, 0, 1);
  }
}
