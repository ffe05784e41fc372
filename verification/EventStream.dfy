/** `spotuify events`: the reconnecting event loop and its silence budget
    (crates/spotuify-cli/src/commands.rs). What the network, the clock and the
    output pipe do is a list of turns, one per pass through the loop; times are
    in milliseconds. */
module EventStream {
  import opened Wrappers

  const MAX_RECONNECTS := 5
  const BASE_DELAY := 200

  datatype Event = Event(kind: string, body: int)

  /** How the wait for the next event ends, and how long that takes. */
  datatype Incoming = Frame(event: Event, after: nat) | Drop(after: nat) | Interrupt(after: nat)

  datatype Output = Written | PipeClosed | WriteFailed

  /** One pass: the read, how long the reconnect attempt takes if it was a drop,
      and the write if it matched. Whether the attempt succeeds makes no difference
      here: after a failed one the next read is another drop. */
  datatype Turn = Turn(read: Incoming, reconnect: nat, output: Output)

  datatype End = Running | TimedOut | Interrupted | Finished | Closed | GaveUp | Broken

  predicate Matches(filter: set<string>, event: Event)
  {
    filter == {} || event.kind in filter
  }

  /** The events of the wanted kinds, in order. */
  function Selected(filter: set<string>, events: seq<Event>): (r: seq<Event>)
  {
    if events == [] then []
    else
      var front := Selected(filter, events[..|events| - 1]);
      if Matches(filter, events[|events| - 1]) then front + [events[|events| - 1]] else front
  }

  /** The frames among the first turns. */
  function Frames(turns: seq<Turn>): (r: seq<Event>)
  {
    if turns == [] then []
    else
      var front := Frames(turns[..|turns| - 1]);
      var read := turns[|turns| - 1].read;
      if read.Frame? then front + [read.event] else front
  }

  /** Without a filter every event is wanted; with one, those of its kinds, and each as
      often as it came. */
  lemma {:induction false} SelectedEvents(filter: set<string>, events: seq<Event>)
    ensures filter == {} ==> Selected(filter, events) == events
    ensures forall e :: e in Selected(filter, events) <==> e in events && (filter == {} || e.kind in filter)
    ensures forall e :: multiset(Selected(filter, events))[e] == (if filter == {} || e.kind in filter then multiset(events)[e] else 0)
  {
    if events != [] {
      var front, last := events[..|events| - 1], events[|events| - 1];
      SelectedEvents(filter, front);
      assert events == front + [last];
    }
  }

  /** How many drops the turns end in. */
  function DropsAtEnd(turns: seq<Turn>): (r: nat)
  {
    if turns != [] && turns[|turns| - 1].read.Drop? then 1 + DropsAtEnd(turns[..|turns| - 1]) else 0
  }

  function Pow2(n: nat): (r: nat)
  {
    if n == 0 then 1 else 2 * Pow2(n - 1)
  }

  function Backoff(reconnects: nat): (r: nat)
    requires reconnects > 0
  {
    BASE_DELAY * Pow2(reconnects - 1)
  }

  /** Everything an outage of `drops` drops sleeps. */
  function TotalBackoff(drops: nat): (r: nat)
  {
    if drops == 0 then 0 else TotalBackoff(drops - 1) + Backoff(drops)
  }

  lemma {:induction false} TotalBackoffIs(drops: nat)
    ensures TotalBackoff(drops) == BASE_DELAY * (Pow2(drops) - 1)
  {
    if drops > 0 {
      TotalBackoffIs(drops - 1);
    }
  }

  /** An outage that ends in a reconnect sleeps at most 6.2 s. */
  lemma BackoffBudget(drops: nat)
    requires drops <= MAX_RECONNECTS
    ensures TotalBackoff(drops) <= 6_200 && (drops == 5 ==> TotalBackoff(drops) == 6_200)
  {
    TotalBackoffIs(drops);
    assert Pow2(5) == 32;
    Pow2Monotonic(drops, 5);
  }

  lemma {:induction false} Pow2Monotonic(a: nat, b: nat)
    requires a <= b
    ensures Pow2(a) <= Pow2(b)
    decreases b - a
  {
    if a < b {
      Pow2Monotonic(a, b - 1);
    }
  }

  /** `within_deadline`: whether the work gets done, and when the wait is over. */
  function Within(deadline: Option<nat>, now: nat, work: nat): (r: (bool, nat))
    ensures r.0 <==> deadline.None? || (now < deadline.value && now + work <= deadline.value)
    ensures r.0 ==> r.1 == now + work
    ensures deadline.Some? && now <= deadline.value ==> r.1 <= deadline.value && (!r.0 ==> r.1 == deadline.value)
    ensures deadline.None? ==> r.0
    ensures deadline.Some? && deadline.value <= now ==> r == (false, now)
    ensures now <= r.1
  {
    if deadline.None? then (true, now + work)
    else if deadline.value <= now then (false, now)
    else if work <= deadline.value - now then (true, now + work)
    else (false, deadline.value)
  }

  function Deadline(silence: Option<nat>, now: nat): (r: Option<nat>)
  {
    if silence.Some? then Some(now + silence.value) else None
  }

  /** What a drop leads to: whether the loop goes on, when, and how long it slept. */
  datatype Recovery = Recovery(alive: bool, later: nat, slept: nat)

  function Recovered(deadline: Option<nat>, now: nat, reconnects: nat, attempt: nat): (r: Recovery)
    requires reconnects > 0
    ensures now <= r.later && r.slept <= Backoff(reconnects)
    ensures deadline.None? ==> r.slept == Backoff(reconnects)
    ensures deadline.Some? && now <= deadline.value ==> r.later <= deadline.value && (!r.alive ==> r.later == deadline.value)
  {
    var rest := Within(deadline, now, Backoff(reconnects));
    var tried := Within(deadline, rest.1, attempt);
    if rest.0 then Recovery(tried.0, tried.1, rest.1 - now) else Recovery(false, rest.1, rest.1 - now)
  }

  /** After a drop: back off, then try to reconnect, both inside what is left of
      the budget. `alive` is false when the budget ran out. */
  method Recover(deadline: Option<nat>, now: nat, reconnects: nat, attempt: nat)
    returns (alive: bool, later: nat, slept: nat)
    requires 0 < reconnects <= MAX_RECONNECTS && (deadline.Some? ==> now <= deadline.value)
    ensures Recovery(alive, later, slept) == Recovered(deadline, now, reconnects, attempt)
    ensures now <= later && slept <= Backoff(reconnects)
    ensures deadline.Some? ==> later <= deadline.value
    ensures !alive ==> deadline.Some? && later == deadline.value
  {
    var rest := Within(deadline, now, Backoff(reconnects));
    slept, later := rest.1 - now, rest.1;
    if !rest.0 {
      return false, later, slept;
    }
    var tried := Within(deadline, later, attempt);
    alive, later := tried.0, tried.1;
  }

  // ---- The clock ----

  /** The time, when the last line was written, and how long the present outage has slept. */
  datatype Pace = Pace(now: nat, lastWrite: nat, outage: nat)

  /** One turn's passing of time. `drops` counts the consecutive drops, this turn's included. */
  function PaceTurn(pace: Pace, turn: Turn, drops: nat, filter: set<string>, silence: Option<nat>): (r: Pace)
    requires turn.read.Drop? ==> drops > 0
  {
    var deadline := Deadline(silence, pace.lastWrite);
    var read := Within(deadline, pace.now, turn.read.after);
    var there := pace.(now := read.1);
    if !read.0 then there
    else
      match turn.read
      case Interrupt(_) => there.(outage := 0)
      case Drop(_) =>
        if drops > MAX_RECONNECTS then there
        else
          var recovery := Recovered(deadline, read.1, drops, turn.reconnect);
          there.(now := recovery.later, outage := pace.outage + recovery.slept)
      case Frame(event, _) =>
        if Matches(filter, event) && turn.output.Written? then Pace(read.1, read.1, 0) else there.(outage := 0)
  }

  function Paced(turns: seq<Turn>, filter: set<string>, silence: Option<nat>, start: nat): (r: Pace)
  {
    if turns == [] then Pace(start, start, 0)
    else
      PaceTurn(Paced(turns[..|turns| - 1], filter, silence, start), turns[|turns| - 1], DropsAtEnd(turns), filter, silence)
  }

  /** The longest any outage so far has slept. */
  function LongestOutage(turns: seq<Turn>, filter: set<string>, silence: Option<nat>, start: nat): (r: nat)
  {
    if turns == [] then 0
    else
      var before, outage := LongestOutage(turns[..|turns| - 1], filter, silence, start), Paced(turns, filter, silence, start).outage;
      if before < outage then outage else before
  }

  predicate OutOfTime(pace: Pace, silence: Option<nat>)
  {
    silence.Some? && pace.now >= pace.lastWrite + silence.value
  }

  function Survived(drops: nat): (r: nat)
  {
    if drops < MAX_RECONNECTS then drops else MAX_RECONNECTS
  }

  predicate Rested(pace: Pace, silence: Option<nat>, drops: nat)
  {
    && pace.outage <= 6_200
    && (!OutOfTime(pace, silence) ==> pace.outage <= TotalBackoff(Survived(drops)))
    && (silence.None? ==> pace.outage == TotalBackoff(Survived(drops)))
  }

  lemma TurnRests(pace: Pace, turn: Turn, drops: nat, filter: set<string>, silence: Option<nat>)
    requires Rested(pace, silence, drops)
    ensures var after := if turn.read.Drop? then drops + 1 else 0;
      Rested(PaceTurn(pace, turn, after, filter, silence), silence, after)
  {
    hide Backoff, Matches, Recovered, Within;
    if turn.read.Drop? {
      BackoffBudget(Survived(drops + 1));
    }
    assert TotalBackoff(0) == 0;
  }

  /** An outage sleeps at most what the drops it survived allow, exactly that
      without a silence limit, and never more than 6.2 s. */
  lemma {:induction false} OutageSleeps(turns: seq<Turn>, filter: set<string>, silence: Option<nat>, start: nat)
    ensures Rested(Paced(turns, filter, silence, start), silence, DropsAtEnd(turns))
    ensures LongestOutage(turns, filter, silence, start) <= 6_200
    decreases |turns|
  {
    hide PaceTurn;
    if turns != [] {
      var front := turns[..|turns| - 1];
      OutageSleeps(front, filter, silence, start);
      TurnRests(Paced(front, filter, silence, start), turns[|turns| - 1], DropsAtEnd(front), filter, silence);
    }
  }

  /** The lines are the wanted events received, in order: all of them, but for the
      one whose write failed; a read that ran out of time received nothing. */
  predicate LinesAre(written: seq<Event>, end: End, turns: seq<Turn>, filter: set<string>)
  {
    if end.TimedOut? then turns != [] && written == Selected(filter, Frames(turns[..|turns| - 1]))
    else if end.Closed? || end.Broken? then
      turns != [] && turns[|turns| - 1].read.Frame? && Matches(filter, turns[|turns| - 1].read.event)
      && written + [turns[|turns| - 1].read.event] == Selected(filter, Frames(turns))
    else written == Selected(filter, Frames(turns))
  }

  /** What one more turn adds to the lines. */
  lemma OneLineMore(turns: seq<Turn>, n: nat, filter: set<string>, written: seq<Event>, end: End, wrote: bool)
    requires n < |turns| && LinesAre(written, Running, turns[..n], filter)
    requires end.TimedOut? ==> !wrote
    requires end.Closed? || end.Broken? ==> !wrote && turns[n].read.Frame? && Matches(filter, turns[n].read.event)
    requires !end.TimedOut? && !end.Closed? && !end.Broken? ==>
      (wrote <==> turns[n].read.Frame? && Matches(filter, turns[n].read.event))
    ensures LinesAre(if wrote then written + [turns[n].read.event] else written, end, turns[..n + 1], filter)
  {
    hide Matches;
    assert turns[..n + 1][..n] == turns[..n];
    var read := turns[n].read;
    if read.Frame? {
      var frames := Frames(turns[..n]);
      assert Frames(turns[..n + 1]) == frames + [read.event];
      assert (frames + [read.event])[..|frames|] == frames;
    }
  }

  lemma OneDropMore(turns: seq<Turn>, n: nat)
    requires n < |turns|
    ensures DropsAtEnd(turns[..n + 1]) == if turns[n].read.Drop? then DropsAtEnd(turns[..n]) + 1 else 0
  {
    assert turns[..n + 1][..n] == turns[..n];
  }

  lemma OnePaceMore(turns: seq<Turn>, n: nat, filter: set<string>, silence: Option<nat>, start: nat)
    requires n < |turns|
    ensures turns[n].read.Drop? ==> DropsAtEnd(turns[..n + 1]) > 0
    ensures var before, after := Paced(turns[..n], filter, silence, start), Paced(turns[..n + 1], filter, silence, start);
      && after == PaceTurn(before, turns[n], DropsAtEnd(turns[..n + 1]), filter, silence)
      && LongestOutage(turns[..n + 1], filter, silence, start) ==
           (if LongestOutage(turns[..n], filter, silence, start) < after.outage then after.outage
            else LongestOutage(turns[..n], filter, silence, start))
  {
    hide PaceTurn;
    assert turns[..n + 1][..n] == turns[..n];
  }

  lemma BeforeTheFirstTurn(turns: seq<Turn>, filter: set<string>, silence: Option<nat>, start: nat)
    ensures LinesAre([], Running, turns[..0], filter) && DropsAtEnd(turns[..0]) == 0
    ensures Paced(turns[..0], filter, silence, start) == Pace(start, start, 0)
    ensures LongestOutage(turns[..0], filter, silence, start) == 0
  {
  }

  /** How a turn ends the loop, if its read is in time: an interrupt, a sixth drop, a
      line that could not be written, or the one line that was asked for. */
  function EndBy(turn: Turn, drops: nat, filter: set<string>, once: bool): (r: End)
  {
    match turn.read
    case Interrupt(_) => Interrupted
    case Drop(_) => if drops > MAX_RECONNECTS then GaveUp else Running
    case Frame(event, _) =>
      if filter != {} && event.kind !in filter then Running
      else match turn.output
        case PipeClosed => Closed
        case WriteFailed => Broken
        case Written => if once then Finished else Running
  }

  /** No turn before the last one ended the loop. */
  predicate AllGoOn(turns: seq<Turn>, n: nat, filter: set<string>, once: bool)
    requires n <= |turns|
  {
    forall k :: 0 <= k < n ==> EndBy(turns[k], DropsAtEnd(turns[..k + 1]), filter, once) == Running
  }

  /** One pass through the loop body: the read, then recovery or the write. */
  method TakeTurn(turn: Turn, filter: set<string>, once: bool, silence: Option<nat>, before: Pace, reconnects: nat)
    returns (end: End, wrote: bool, pace: Pace, drops: nat)
    requires reconnects <= MAX_RECONNECTS && before.lastWrite <= before.now
    requires silence.Some? ==> before.now <= before.lastWrite + silence.value
    ensures drops == if turn.read.Drop? then reconnects + 1 else 0
    ensures pace == PaceTurn(before, turn, drops, filter, silence)
    ensures before.lastWrite <= pace.lastWrite <= pace.now
    ensures silence.Some? ==> pace.now <= pace.lastWrite + silence.value
    ensures end.TimedOut? ==> !wrote && silence.Some? && pace.now == pace.lastWrite + silence.value
    ensures end.GaveUp? <==> drops > MAX_RECONNECTS && !end.TimedOut?
    ensures end.Closed? || end.Broken? ==> !wrote && turn.read.Frame? && Matches(filter, turn.read.event)
    ensures !end.TimedOut? && !end.Closed? && !end.Broken? ==>
      (wrote <==> turn.read.Frame? && Matches(filter, turn.read.event))
    ensures wrote ==> end == if once then Finished else Running
    ensures end.Finished? ==> once && wrote
    ensures end.TimedOut? || end == EndBy(turn, drops, filter, once)
  {
    hide Backoff, Recovered, Within;
    wrote, pace := false, before;
    drops := if turn.read.Drop? then reconnects + 1 else 0;
    var deadline := Deadline(silence, before.lastWrite);
    var next := Within(deadline, before.now, turn.read.after);
    pace := pace.(now := next.1);
    if !next.0 {
      return TimedOut, false, pace, drops;
    }
    match turn.read {
      case Interrupt(_) =>
        end, pace := Interrupted, pace.(outage := 0);
      case Drop(_) =>
        if drops > MAX_RECONNECTS {
          return GaveUp, false, pace, drops;
        }
        var alive, later, slept := Recover(deadline, pace.now, drops, turn.reconnect);
        pace := pace.(now := later, outage := pace.outage + slept);
        end := if alive then Running else TimedOut;
      case Frame(event, _) =>
        pace := pace.(outage := 0);
        end := Running;
        if Matches(filter, event) {
          match turn.output {
            case PipeClosed =>
              end := Closed;
            case WriteFailed =>
              end := Broken;
            case Written =>
              wrote, pace := true, pace.(lastWrite := pace.now);
              end := if once then Finished else Running;
          }
        }
    }
  }

  /** The loop. It consumes the turns in order and stops at its first return.
      `lastWrite` is when the last line was written, or the start. */
  method StreamEvents(turns: seq<Turn>, filter: set<string>, once: bool, silence: Option<nat>, start: nat)
    returns (end: End, written: seq<Event>, used: nat, now: nat, lastWrite: nat, longestOutage: nat)
    ensures used <= |turns| && (end.Running? ==> used == |turns|)
    ensures LinesAre(written, end, turns[..used], filter)
    // It stops at the first turn that ends it, the way that turn says, or when time is up.
    ensures used > 0 ==> AllGoOn(turns, used - 1, filter, once)
    ensures end.TimedOut? || end == if used == 0 then Running else EndBy(turns[used - 1], DropsAtEnd(turns[..used]), filter, once)
    // The silence limit: never later than the limit after the last line, and on time when it is what ended the loop.
    ensures start <= lastWrite <= now
    ensures silence.Some? ==> now <= lastWrite + silence.value
    ensures end.TimedOut? ==> silence.Some? && now == lastWrite + silence.value
    // Giving up takes exactly six drops in a row, and six drops in a row are always given up on.
    ensures end.GaveUp? <==> DropsAtEnd(turns[..used]) >= 6 && !end.TimedOut?
    ensures end.GaveUp? ==> DropsAtEnd(turns[..used]) == 6
    // The clock runs as the turns say, and no outage sleeps more than 6.2 s in total.
    ensures now == Paced(turns[..used], filter, silence, start).now
    ensures lastWrite == Paced(turns[..used], filter, silence, start).lastWrite
    ensures longestOutage == LongestOutage(turns[..used], filter, silence, start) <= 6_200
    // `--once` writes at most one line.
    ensures once ==> |written| <= 1
    ensures end.Finished? ==> once && |written| == 1
  {
    BeforeTheFirstTurn(turns, filter, silence, start);
    hide Matches, LinesAre, DropsAtEnd, Paced, PaceTurn, LongestOutage, Selected, Frames, Rested, EndBy;
    var reconnects := 0;
    var pace := Pace(start, start, 0);
    end, written, used, longestOutage := Running, [], 0, 0;
    while used < |turns| && end.Running?
      invariant used <= |turns|
      invariant used > 0 ==> AllGoOn(turns, used - 1, filter, once)
      invariant end.Running? ==> AllGoOn(turns, used, filter, once)
      invariant end.TimedOut? || end == if used == 0 then Running else EndBy(turns[used - 1], DropsAtEnd(turns[..used]), filter, once)
      invariant LinesAre(written, end, turns[..used], filter)
      invariant start <= pace.lastWrite <= pace.now
      invariant silence.Some? ==> pace.now <= pace.lastWrite + silence.value
      invariant end.TimedOut? ==> silence.Some? && pace.now == pace.lastWrite + silence.value
      invariant reconnects == DropsAtEnd(turns[..used]) <= MAX_RECONNECTS + 1
      invariant end.GaveUp? <==> reconnects > MAX_RECONNECTS && !end.TimedOut?
      invariant pace == Paced(turns[..used], filter, silence, start)
      invariant longestOutage == LongestOutage(turns[..used], filter, silence, start)
      invariant once ==> if end.Finished? then |written| == 1 else written == []
      invariant end.Finished? ==> once
      decreases |turns| - used
    {
      var turn := turns[used];
      OneDropMore(turns, used);
      OnePaceMore(turns, used, filter, silence, start);
      var wrote;
      end, wrote, pace, reconnects := TakeTurn(turn, filter, once, silence, pace, reconnects);
      OneLineMore(turns, used, filter, written, end, wrote);
      if wrote {
        written := written + [turn.read.event];
      }
      longestOutage := if longestOutage < pace.outage then pace.outage else longestOutage;
      used := used + 1;
    }
    now, lastWrite := pace.now, pace.lastWrite;
    OutageSleeps(turns[..used], filter, silence, start);
  }
}
