/** The command-line client waiting for a mutation to be finalised
    (crates/spotuify-cli/src/commands.rs), against a daemon that either
    deduplicates by mutation id or executes every copy it receives. Every message
    the daemon takes, every event and every timeout is a step; time is in
    milliseconds. */
module FinalizeProtocol {
  import opened Wrappers

  datatype Status = Pending | Confirmed | Failed

  predicate IsTerminal(status: Option<Status>)
  {
    status == Some(Confirmed) || status == Some(Failed)
  }

  datatype Receipt = Receipt(id: Option<nat>, status: Option<Status>)

  datatype Data = Mutation(receipt: Receipt) | OtherData

  datatype Response = Success(data: Data) | Error(authRevoked: bool)

  datatype Event = Finalized(receiptId: nat, status: Status) | OtherEvent

  datatype CallResult = Returned(data: Data) | Raised

  const REQUEST_TIMEOUT := 30_000
  const POLL_TIMEOUT := 2_000
  const EVENT_WAIT := 100
  const POLL_INTERVAL := 500
  const FINALIZE_LIMIT := 60_000

  datatype Phase =
    | Ready
    | AwaitFirst
    | AwaitRetry                                                                   // a read, once more after logging in
    | Top(id: nat, receipt: Receipt, deadline: nat, lastReplay: nat)               // before waiting for an event
    | Bottom(id: nat, receipt: Receipt, deadline: nat, lastReplay: nat)            // after an event that was not ours
    | AwaitPoll(id: nat, receipt: Receipt, deadline: nat, lastReplay: nat)
    | AwaitTerminal
    | Done(result: CallResult)

  /** The fixed facts of one request. `wait` tells the finalising call from the
      plain one; `catalog` is what the client believes about deduplication. */
  datatype Setup = Setup(wait: bool, mutating: bool, catalog: bool, dedupes: bool, receiptId: nat) {
    /** Only daemons that deduplicate serve a provider catalog. */
    predicate Valid() { catalog ==> dedupes }

    predicate Replays() { mutating && catalog }
  }

  datatype State = State(
    phase: Phase, clock: nat, sent: nat, inFlight: nat, reply: Option<Response>, events: seq<Event>,
    executed: nat, outcome: Option<bool>, entered: Option<nat>,
    answer: Option<Data>,  // the data of the daemon's first successful answer
    began: nat)            // when the first copy was sent

  datatype Step =
    | Send(elapsed: nat)                                               // after starting, connecting and subscribing
    | Take(executes: bool, verdict: Option<bool>, response: Response)  // the daemon takes one copy and answers
    | Finalize(ok: bool)                                               // the write's background body ends
    | Broadcast(event: Event)                                          // an event about something else
    | Answer(elapsed: nat)
    | AnswerLost(elapsed: nat)
    | SeeEvent(elapsed: nat)
    | NoEvent
    | Disconnected(elapsed: nat)
    | DeadlinePassed
    | GoRound

  const START := State(Ready, 0, 0, 0, None, [], 0, None, None, None, 0)

  // ---- The daemon ----

  /** What the daemon may say when it executes a copy. `verdict` is the outcome if
      the write was finished before answering. */
  predicate ExecutionAnswer(c: Setup, verdict: Option<bool>, response: Response)
  {
    match verdict
    case None =>
      response.Success? && response.data.Mutation? && !IsTerminal(response.data.receipt.status)
      && response.data.receipt.id in {None, Some(c.receiptId)}
    case Some(true) =>
      response.Success? && (response.data.Mutation? ==> response.data.receipt.status == Some(Confirmed))
    case Some(false) =>
      response.Error? || (response.data.Mutation? && response.data.receipt.status == Some(Failed))
  }

  /** What a deduplicating daemon says about a mutation it has already claimed. */
  predicate ReplayAnswer(c: Setup, outcome: Option<bool>, response: Response)
  {
    match outcome
    case None =>
      response.Error? || response.data == Mutation(Receipt(Some(c.receiptId), Some(Pending)))
    case Some(_) => ExecutionAnswer(c, outcome, response)
  }

  predicate IsReplay(c: Setup, s: State)
  {
    c.dedupes && c.mutating && s.executed > 0
  }

  predicate Awaiting(phase: Phase)
  {
    phase.AwaitFirst? || phase.AwaitRetry? || phase.AwaitPoll? || phase.AwaitTerminal?
  }

  // ---- The client ----

  /** `terminal_mutation_result`. */
  function TerminalResult(data: Data): (r: CallResult)
  {
    if data.Mutation? && data.receipt.status == Some(Failed) then Raised else Returned(data)
  }

  function Limit(phase: Phase): (r: nat)
  {
    if phase.AwaitPoll? then POLL_TIMEOUT else REQUEST_TIMEOUT
  }

  predicate Enabled(c: Setup, s: State, step: Step)
  {
    match step
    case Send(_) => s.phase.Ready?
    case Take(executes, verdict, response) =>
      s.inFlight > 0 &&
      (if IsReplay(c, s) then !executes && ReplayAnswer(c, s.outcome, response)
       else if executes then ExecutionAnswer(c, verdict, response)
       else response.Error?)
    case Finalize(ok) => s.executed > 0 && s.outcome == None
    case Broadcast(event) => !(event.Finalized? && event.receiptId == c.receiptId)
    case Answer(elapsed) => Awaiting(s.phase) && s.reply.Some? && elapsed <= Limit(s.phase)
    case AnswerLost(elapsed) => Awaiting(s.phase) && elapsed <= Limit(s.phase)
    case SeeEvent(elapsed) => s.phase.Top? && s.clock < s.phase.deadline && s.events != [] && elapsed <= EVENT_WAIT
    case NoEvent => s.phase.Top? && s.clock < s.phase.deadline
    case Disconnected(elapsed) => s.phase.Top? && s.clock < s.phase.deadline && elapsed <= EVENT_WAIT
    case DeadlinePassed => s.phase.Top? && s.clock >= s.phase.deadline
    case GoRound => s.phase.Bottom?
  }

  function SendCopy(s: State, next: Phase): (r: State)
  {
    s.(phase := next, sent := s.sent + 1, inFlight := s.inFlight + 1, reply := None)
  }

  /** The first answer to a finalising call. */
  function AfterFirst(c: Setup, s: State, data: Data): (r: State)
  {
    if data.Mutation? && IsTerminal(data.receipt.status) then
      s.(phase := Done(TerminalResult(data)))
    else if data.Mutation? && data.receipt.id.Some? then
      s.(phase := Top(data.receipt.id.value, data.receipt, s.clock + FINALIZE_LIMIT, s.clock), entered := Some(s.clock))
    else
      s.(phase := Done(Returned(data)))
  }

  function Received(c: Setup, s: State, response: Response): (r: State)
  {
    match s.phase
    case AwaitFirst =>
      (match response
       case Error(authRevoked) =>
         if authRevoked && !c.wait && !c.mutating then SendCopy(s, AwaitRetry) else s.(phase := Done(Raised))
       case Success(data) =>
         var heard := s.(answer := Some(data));
         if c.wait then AfterFirst(c, heard, data) else heard.(phase := Done(Returned(data))))
    case AwaitRetry =>
      if response.Success? then s.(phase := Done(Returned(response.data)), answer := Some(response.data))
      else s.(phase := Done(Raised))
    case AwaitPoll(id, receipt, deadline, lastReplay) =>
      if response.Error? then s.(phase := Done(Raised))
      else if response.data.Mutation? && IsTerminal(response.data.receipt.status) then
        s.(phase := Done(TerminalResult(response.data)))
      else s.(phase := Top(id, receipt, deadline, lastReplay))
    case AwaitTerminal => s.(phase := Done(if response.Success? then TerminalResult(response.data) else Raised))
    case _ => s
  }

  function AfterEvent(c: Setup, s: State, event: Event): (r: State)
    requires s.phase.Top?
  {
    var p := s.phase;
    if event.Finalized? && event.receiptId == p.id then
      if c.Replays() then SendCopy(s, AwaitTerminal)
      else s.(phase := Done(TerminalResult(Mutation(p.receipt.(status := Some(event.status))))))
    else s.(phase := Bottom(p.id, p.receipt, p.deadline, p.lastReplay))
  }

  function Next(c: Setup, s: State, step: Step): (r: State)
    requires Enabled(c, s, step)
  {
    match step
    case Send(elapsed) => SendCopy(s, AwaitFirst).(clock := s.clock + elapsed, began := s.clock + elapsed)
    case Take(executes, verdict, response) =>
      var answered := s.(inFlight := s.inFlight - 1, reply := if Awaiting(s.phase) then Some(response) else None);
      if executes then answered.(executed := s.executed + 1, outcome := verdict) else answered
    case Finalize(ok) =>
      s.(outcome := Some(ok), events := s.events + [Finalized(c.receiptId, if ok then Confirmed else Failed)])
    case Broadcast(event) => s.(events := s.events + [event])
    case Answer(elapsed) => Received(c, s.(clock := s.clock + elapsed, reply := None), s.reply.value)
    case AnswerLost(elapsed) => s.(clock := s.clock + elapsed, phase := Done(Raised), reply := None)
    case SeeEvent(elapsed) => AfterEvent(c, s.(clock := s.clock + elapsed, events := s.events[1..]), s.events[0])
    case NoEvent =>
      s.(clock := s.clock + EVENT_WAIT, phase := Bottom(s.phase.id, s.phase.receipt, s.phase.deadline, s.phase.lastReplay))
    case Disconnected(elapsed) => s.(clock := s.clock + elapsed, phase := Done(Raised))
    case DeadlinePassed => s.(phase := Done(Raised))
    case GoRound =>
      var p := s.phase;
      if s.clock - p.lastReplay < POLL_INTERVAL then s.(phase := Top(p.id, p.receipt, p.deadline, p.lastReplay))
      else if c.Replays() then SendCopy(s, AwaitPoll(p.id, p.receipt, p.deadline, s.clock))
      else s.(phase := Top(p.id, p.receipt, p.deadline, s.clock))
  }

  predicate IsRun(c: Setup, steps: seq<Step>)
    decreases |steps|, 0
  {
    steps == [] || (IsRun(c, steps[..|steps| - 1]) && Enabled(c, After(c, steps[..|steps| - 1]), steps[|steps| - 1]))
  }

  function After(c: Setup, steps: seq<Step>): (r: State)
    requires IsRun(c, steps)
    decreases |steps|, 1
  {
    if steps == [] then START else Next(c, After(c, steps[..|steps| - 1]), steps[|steps| - 1])
  }

  // ---- What every step keeps ----

  /** Copies are accounted for: each was taken or is still in flight, a copy is
      outstanding only while the client waits for it or has stopped waiting, and
      only a client entitled to replay has sent a second one. */
  predicate CopiesInvariant(c: Setup, s: State)
  {
    && s.executed + s.inFlight <= s.sent
    && (s.phase.Ready? ==> s.sent == 0)
    && (!s.phase.Ready? && !s.phase.Done? && !Awaiting(s.phase) ==> s.inFlight == 0 && s.reply == None)
    && (Awaiting(s.phase) ==> s.inFlight + (if s.reply.Some? then 1 else 0) <= 1)
    && (s.sent > 1 ==> c.Replays() || (!c.mutating && !c.wait))
    && (c.dedupes && c.mutating ==> s.executed <= 1)
    && (s.phase.AwaitFirst? ==> s.sent == 1)
    && (s.phase.AwaitPoll? || s.phase.AwaitTerminal? ==> c.Replays() && c.wait)
    && (s.phase.AwaitRetry? ==> !c.mutating && !c.wait)
    && (s.phase.Top? || s.phase.Bottom? ==> c.wait)
    && (s.phase.Top? || s.phase.Bottom? || Awaiting(s.phase) ==> s.sent >= 1)
    && (c.wait && !c.Replays() ==> s.sent <= 1)
  }

  lemma StepKeepsCopies(c: Setup, s: State, step: Step)
    requires c.Valid() && CopiesInvariant(c, s) && Enabled(c, s, step)
    ensures CopiesInvariant(c, Next(c, s, step))
  {
  }

  predicate FailedReceipt(data: Data)
  {
    data.Mutation? && data.receipt.status == Some(Failed)
  }

  /** The plain call hands on the daemon's answer as it is. */
  predicate PlainInvariant(c: Setup, s: State)
  {
    && (s.phase.Ready? || s.phase.AwaitFirst? || s.phase.AwaitRetry? ==> s.answer == None)
    && (!c.wait && s.answer.Some? ==> s.phase == Done(Returned(s.answer.value)))
    && (!c.wait && s.phase.Done? && s.phase.result.Returned? ==> s.answer.Some?)
  }

  lemma StepKeepsPlain(c: Setup, s: State, step: Step)
    requires CopiesInvariant(c, s) && PlainInvariant(c, s) && Enabled(c, s, step)
    ensures PlainInvariant(c, Next(c, s, step))
  {
  }

  /** A request whose outcome is one thing: a write, or a call that waits for one. */
  predicate Tracked(c: Setup)
  {
    c.wait || c.mutating
  }

  /** What the daemon says is true of the write, and a wait is for our own receipt. */
  predicate TruthInvariant(c: Setup, s: State)
  {
    && (s.executed == 0 ==> s.outcome == None)
    && (forall i :: 0 <= i < |s.events| ==> TrueEvent(c, s, s.events[i]))
    && (s.reply.Some? ==> TrueReply(c, s, s.reply.value))
    && (s.phase.Top? || s.phase.Bottom? || s.phase.AwaitPoll? ==> s.phase.id == c.receiptId && s.executed > 0)
    && (s.phase.AwaitTerminal? ==> s.outcome.Some? && s.executed > 0)
    && (s.phase.AwaitTerminal? && s.reply.Some? && s.reply.value.Success? ==>
          s.outcome == Some(true) || TerminalResult(s.reply.value.data) == Raised)
    && (s.phase.Done? && s.phase.result.Returned? ==> TrueResult(c, s, s.phase.result.data))
  }

  predicate TrueEvent(c: Setup, s: State, event: Event)
  {
    event.Finalized? && event.receiptId == c.receiptId ==>
      s.outcome == Some(event.status == Confirmed) && event.status != Pending
  }

  predicate TrueReply(c: Setup, s: State, response: Response)
  {
    && (response.Success? && response.data.OtherData? ==> s.outcome == Some(true))
    && (response.Success? && response.data.Mutation? ==>
      && (response.data.receipt.status == Some(Confirmed) ==> s.outcome == Some(true))
      && (!IsTerminal(response.data.receipt.status) ==>
            s.executed > 0 && response.data.receipt.id in {None, Some(c.receiptId)}))
  }

  predicate TrueResult(c: Setup, s: State, data: Data)
  {
    && (c.wait ==> !FailedReceipt(data))
    && (data.Mutation? && data.receipt.status == Some(Confirmed) ==> s.outcome == Some(true))
    && (s.entered.Some? ==> s.outcome == Some(true))
    && (s.outcome != Some(true) ==> s.answer == Some(data) && Blind(c, data))
  }

  /** An answer after which the client reports success without knowing how the
      write ends: for a finalising call a receipt that is neither final nor can be
      waited for, for a plain call any receipt that is not confirmed. */
  predicate Blind(c: Setup, data: Data)
  {
    data.Mutation? &&
    if c.wait then !IsTerminal(data.receipt.status) && data.receipt.id == None
    else data.receipt.status != Some(Confirmed)
  }

  predicate EnteredInvariant(c: Setup, s: State)
  {
    s.phase.Ready? || s.phase.AwaitFirst? || !c.wait ==> s.entered == None
  }

  /** The daemon's steps leave what has been said true. */
  lemma DaemonStepKeepsTruth(c: Setup, s: State, step: Step)
    requires c.Valid() && Tracked(c) && CopiesInvariant(c, s) && EnteredInvariant(c, s) && TruthInvariant(c, s)
    requires Enabled(c, s, step) && (step.Take? || step.Finalize? || step.Broadcast?)
    ensures TruthInvariant(c, Next(c, s, step))
  {
    var t := Next(c, s, step);
    if step.Take? && step.executes {
      assert s.executed == 0;
    }
    forall i | 0 <= i < |t.events|
      ensures TrueEvent(c, t, t.events[i])
    {
      if i < |s.events| {
        assert t.events[i] == s.events[i];
        assert TrueEvent(c, s, s.events[i]);
      }
    }
  }

  /** The client's steps draw only true conclusions. */
  lemma ClientStepKeepsTruth(c: Setup, s: State, step: Step)
    requires c.Valid() && Tracked(c) && CopiesInvariant(c, s) && EnteredInvariant(c, s) && TruthInvariant(c, s)
    requires Enabled(c, s, step) && !(step.Take? || step.Finalize? || step.Broadcast?)
    ensures TruthInvariant(c, Next(c, s, step))
  {
    var t := Next(c, s, step);
    assert t.executed == s.executed && t.outcome == s.outcome;
    forall i | 0 <= i < |t.events|
      ensures TrueEvent(c, t, t.events[i])
    {
      if step.SeeEvent? {
        assert t.events[i] == s.events[i + 1];
        assert TrueEvent(c, s, s.events[i + 1]);
      } else {
        assert TrueEvent(c, s, s.events[i]);
      }
    }
    if step.SeeEvent? {
      assert TrueEvent(c, s, s.events[0]);
    }
  }

  /** The wait ends, and polling keeps its distance. */
  predicate TimeInvariant(c: Setup, s: State)
  {
    && (s.phase.Ready? || s.phase.AwaitFirst? ==> s.clock == s.began)
    && (s.entered == None ==> s.clock <= s.began + REQUEST_TIMEOUT && s.sent <= 1)
    && (s.entered.Some? ==>
        && s.entered.value <= s.began + REQUEST_TIMEOUT && !s.phase.AwaitRetry?
        && s.clock <= s.entered.value + FINALIZE_LIMIT + EVENT_WAIT + REQUEST_TIMEOUT
        && POLL_INTERVAL * (s.sent - 2) <= FINALIZE_LIMIT + EVENT_WAIT)
    && (s.phase.Top? || s.phase.Bottom? || s.phase.AwaitPoll? ==>
        && s.entered.Some? && s.phase.deadline == s.entered.value + FINALIZE_LIMIT
        && s.entered.value <= s.phase.lastReplay <= s.clock && s.phase.lastReplay <= s.phase.deadline + EVENT_WAIT
        && POLL_INTERVAL * (s.sent - 1) <= s.phase.lastReplay - s.entered.value
        && s.clock <= s.phase.deadline + EVENT_WAIT + (if s.phase.Top? then POLL_TIMEOUT else 0))
    && (s.phase.AwaitTerminal? ==> s.entered.Some? && s.clock <= s.entered.value + FINALIZE_LIMIT + EVENT_WAIT)
  }

  lemma StepKeepsTime(c: Setup, s: State, step: Step)
    requires c.wait && CopiesInvariant(c, s) && EnteredInvariant(c, s) && TimeInvariant(c, s) && Enabled(c, s, step)
    ensures TimeInvariant(c, Next(c, s, step))
  {
    hide CopiesInvariant, EnteredInvariant, TimeInvariant, Enabled, Next;
    if step.Take? || step.Finalize? || step.Broadcast? {
      DaemonStepKeepsTime(c, s, step);
    } else {
      ClientStepKeepsTime(c, s, step);
    }
  }

  lemma DaemonStepKeepsTime(c: Setup, s: State, step: Step)
    requires c.wait && CopiesInvariant(c, s) && EnteredInvariant(c, s) && TimeInvariant(c, s) && Enabled(c, s, step)
    requires step.Take? || step.Finalize? || step.Broadcast?
    ensures TimeInvariant(c, Next(c, s, step))
  {
  }

  lemma ClientStepKeepsTime(c: Setup, s: State, step: Step)
    requires c.wait && CopiesInvariant(c, s) && EnteredInvariant(c, s) && TimeInvariant(c, s) && Enabled(c, s, step)
    requires !(step.Take? || step.Finalize? || step.Broadcast?)
    ensures TimeInvariant(c, Next(c, s, step))
  {
  }

  predicate Invariant(c: Setup, s: State)
  {
    && CopiesInvariant(c, s) && PlainInvariant(c, s) && EnteredInvariant(c, s)
    && (Tracked(c) ==> TruthInvariant(c, s))
    && (c.wait ==> TimeInvariant(c, s))
  }

  lemma {:induction false} EveryRunKeepsTheInvariant(c: Setup, steps: seq<Step>)
    requires c.Valid() && IsRun(c, steps)
    ensures Invariant(c, After(c, steps))
    decreases |steps|
  {
    if steps != [] {
      var s, step := After(c, steps[..|steps| - 1]), steps[|steps| - 1];
      EveryRunKeepsTheInvariant(c, steps[..|steps| - 1]);
      hide Next, Enabled, TruthInvariant, TimeInvariant, CopiesInvariant, EnteredInvariant, PlainInvariant, Tracked;
      StepKeepsCopies(c, s, step);
      StepKeepsPlain(c, s, step);
      StepKeepsEntered(c, s, step);
      if c.wait {
        StepKeepsTime(c, s, step);
      }
      if Tracked(c) {
        if step.Take? || step.Finalize? || step.Broadcast? {
          DaemonStepKeepsTruth(c, s, step);
        } else {
          ClientStepKeepsTruth(c, s, step);
        }
      }
    }
  }

  lemma StepKeepsEntered(c: Setup, s: State, step: Step)
    requires CopiesInvariant(c, s) && EnteredInvariant(c, s) && Enabled(c, s, step)
    ensures EnteredInvariant(c, Next(c, s, step))
  {
  }

  // ---- The theorems ----

  /** The write happens at most once in every run, with a daemon that deduplicates
      and with one that executes every copy, whether or not the caller waits. */
  lemma AtMostOnce(c: Setup, steps: seq<Step>)
    requires c.Valid() && c.mutating && IsRun(c, steps)
    ensures After(c, steps).executed <= 1
    ensures !c.dedupes ==> After(c, steps).sent <= 1
  {
    hide Next, Enabled, IsRun, After;
    EveryRunKeepsTheInvariant(c, steps);
  }

  /** What success means: a confirmed receipt is returned only for a confirmed
      write, a call that waited returns only after one, and in every other case the
      result is the daemon's own answer, of the blind kind. So a failed write is
      reported as a success only after such an answer. */
  lemma SuccessMeansConfirmed(c: Setup, steps: seq<Step>)
    requires c.Valid() && Tracked(c) && IsRun(c, steps)
    requires After(c, steps).phase.Done? && After(c, steps).phase.result.Returned?
    ensures var s := After(c, steps); var data := s.phase.result.data;
      && (data.Mutation? && data.receipt.status == Some(Confirmed) ==> s.outcome == Some(true))
      && (s.entered.Some? ==> s.outcome == Some(true))
      && (s.outcome != Some(true) ==> s.answer == Some(data) && Blind(c, data))
  {
    hide Next, Enabled, IsRun, After;
    EveryRunKeepsTheInvariant(c, steps);
  }

  /** A failed receipt is returned as a success exactly by the plain call, and
      exactly when the daemon answered with one. */
  lemma FailedReceiptIsReturnedIff(c: Setup, steps: seq<Step>)
    requires c.Valid() && IsRun(c, steps)
    ensures var s := After(c, steps);
      (s.phase.Done? && s.phase.result.Returned? && FailedReceipt(s.phase.result.data))
      <==> (!c.wait && s.answer.Some? && FailedReceipt(s.answer.value))
  {
    hide Next, Enabled, IsRun, After;
    EveryRunKeepsTheInvariant(c, steps);
  }

  /** A receipt the daemon can give: a final one, or one that is unnumbered or ours. */
  predicate Sayable(c: Setup, data: Data)
  {
    data.Mutation? && (IsTerminal(data.receipt.status) || data.receipt.id in {None, Some(c.receiptId)})
  }

  /** And every blind answer does mislead: in some run it is returned as a success
      although the write failed. */
  lemma BlindAnswersMislead(c: Setup, data: Data) returns (steps: seq<Step>)
    requires c.Valid() && Blind(c, data) && Sayable(c, data)
    ensures IsRun(c, steps)
    ensures var s := After(c, steps);
      s.phase == Done(Returned(data)) && s.answer == Some(data) && s.outcome == Some(false)
  {
    var verdict := if IsTerminal(data.receipt.status) then Some(false) else None;
    var taken := SENT.(inFlight := 0, reply := Some(Success(data)), executed := 1, outcome := verdict);
    NoSteps(c);
    FirstSend(c);
    FirstTake(c, data, verdict);
    BlindReturn(c, data, taken);
    var returned := taken.(phase := Done(Returned(data)), reply := None, answer := Some(data));
    if verdict == None {
      FailsLater(c, returned);
    }
    hide IsRun, After, Leads;
    steps := [];
    OneStepMore(c, steps, Send(0), SENT);
    steps := steps + [Send(0)];
    OneStepMore(c, steps, Take(true, verdict, Success(data)), taken);
    steps := steps + [Take(true, verdict, Success(data))];
    OneStepMore(c, steps, Answer(0), returned);
    steps := steps + [Answer(0)];
    if verdict == None {
      var failed := returned.(outcome := Some(false), events := [Finalized(c.receiptId, Failed)]);
      OneStepMore(c, steps, Finalize(false), failed);
      steps := steps + [Finalize(false)];
    }
  }

  lemma FirstTake(c: Setup, data: Data, verdict: Option<bool>)
    requires Sayable(c, data) && data.receipt.status != Some(Confirmed)
    requires verdict == if IsTerminal(data.receipt.status) then Some(false) else None
    ensures Leads(c, SENT, Take(true, verdict, Success(data)),
                  SENT.(inFlight := 0, reply := Some(Success(data)), executed := 1, outcome := verdict))
  {
    assert !IsReplay(c, SENT);
    assert ExecutionAnswer(c, verdict, Success(data));
  }

  lemma BlindReturn(c: Setup, data: Data, s: State)
    requires Blind(c, data) && s.phase.AwaitFirst? && s.reply == Some(Success(data))
    ensures Leads(c, s, Answer(0), s.(phase := Done(Returned(data)), reply := None, answer := Some(data)))
  {
    var heard := s.(reply := None);
    assert Received(c, heard, Success(data)) == s.(phase := Done(Returned(data)), reply := None, answer := Some(data));
  }

  lemma FailsLater(c: Setup, s: State)
    requires s.executed > 0 && s.outcome == None && s.events == []
    ensures Leads(c, s, Finalize(false), s.(outcome := Some(false), events := [Finalized(c.receiptId, Failed)]))
  {
  }

  /** A daemon that numbers no receipts: the finalising call returns a pending
      receipt at once, and the write then fails. */
  lemma UnnumberedReceiptHidesAFailure() returns (c: Setup, steps: seq<Step>)
    ensures c.Valid() && c.wait && c.mutating && IsRun(c, steps)
    ensures After(c, steps).phase.Done? && After(c, steps).phase.result.Returned? && After(c, steps).outcome == Some(false)
  {
    c := Setup(true, true, false, false, 7);
    steps := BlindAnswersMislead(c, Mutation(Receipt(None, Some(Pending))));
  }

  /** The plain call returns a failed receipt as a success. */
  lemma PlainCallReturnsAFailedReceipt() returns (c: Setup, steps: seq<Step>)
    ensures c.Valid() && !c.wait && c.mutating && IsRun(c, steps)
    ensures After(c, steps).phase == Done(Returned(Mutation(Receipt(Some(7), Some(Failed)))))
  {
    c := Setup(false, true, false, false, 7);
    steps := BlindAnswersMislead(c, Mutation(Receipt(Some(7), Some(Failed))));
  }

  // ---- What the client hears decides what it returns ----

  datatype Heard = Told(data: Data) | Refused | Cut | Nothing

  /** What the client hears in a step: an answer, an error, the end of its patience or
      of the connection, or the news of its own receipt. */
  function HeardIn(s: State, step: Step): (r: Heard)
  {
    match step
    case Answer(_) =>
      if s.reply == None then Nothing else if s.reply.value.Error? then Refused else Told(s.reply.value.data)
    case AnswerLost(_) => Cut
    case Disconnected(_) => Cut
    case DeadlinePassed => Cut
    case SeeEvent(_) =>
      if s.phase.Top? && s.events != [] && s.events[0].Finalized? && s.events[0].receiptId == s.phase.id then
        Told(Mutation(Receipt(s.phase.receipt.id, Some(s.events[0].status))))
      else Nothing
    case _ => Nothing
  }

  predicate ConfirmedReceipt(data: Data)
  {
    data.Mutation? && data.receipt.status == Some(Confirmed)
  }

  /** A call ends in the step in which its phase becomes `Done`. */
  predicate Ends(c: Setup, s: State, step: Step)
    requires Enabled(c, s, step)
  {
    !s.phase.Done? && Next(c, s, step).phase.Done?
  }

  /** A call that ends returns what it has just been told, word for word, unless it
      waits and was told of a failure; and it raises exactly then, or when it was
      refused or cut off. */
  lemma EndsWithWhatItHeard(c: Setup, s: State, step: Step)
    requires Enabled(c, s, step) && CopiesInvariant(c, s) && Ends(c, s, step)
    ensures var heard, result := HeardIn(s, step), Next(c, s, step).phase.result;
      && (result.Raised? <==> heard.Refused? || heard.Cut? || (c.wait && heard.Told? && FailedReceipt(heard.data)))
      && (result.Returned? ==> heard == Told(result.data))
  {
  }

  /** A waiting call that is told its write is confirmed returns that at once, unless
      the news is an event and it is entitled to ask for the final receipt; a plain
      call returns whatever it is told. */
  lemma ConfirmationIsReturned(c: Setup, s: State, step: Step)
    requires Enabled(c, s, step) && CopiesInvariant(c, s) && HeardIn(s, step).Told?
    ensures var data := HeardIn(s, step).data;
      && (c.wait && ConfirmedReceipt(data) && !(step.SeeEvent? && c.Replays()) ==>
            Next(c, s, step).phase == Done(Returned(data)))
      && (!c.wait ==> Next(c, s, step).phase == Done(Returned(data)))
  {
  }

  /** A replay is asked for exactly when an event brings the news. */
  lemma NewsIsReplayed(c: Setup, s: State, step: Step)
    requires Enabled(c, s, step) && step.SeeEvent? && HeardIn(s, step).Told? && c.Replays()
    ensures Next(c, s, step).phase == AwaitTerminal && Next(c, s, step).sent == s.sent + 1
  {
  }

  /** Whatever else is heard, the client knows what to do: a refusal ends the call with
      an error, but for a read that has to log in, which asks once more; being cut off
      ends it; anything that is not final is waited on, under the receipt's number and
      the deadline it began with. */
  lemma NothingHeardIsIgnored(c: Setup, s: State, step: Step)
    requires Enabled(c, s, step) && CopiesInvariant(c, s)
    ensures var heard, t := HeardIn(s, step), Next(c, s, step);
      && (heard.Cut? ==> t.phase == Done(Raised))
      && (heard.Refused? ==>
            if s.phase.AwaitFirst? && s.reply == Some(Error(true)) && !c.wait && !c.mutating
            then t.phase == AwaitRetry && t.sent == s.sent + 1 else t.phase == Done(Raised))
      && (heard.Told? && c.wait && FailedReceipt(heard.data) && !(step.SeeEvent? && c.Replays()) ==> t.phase == Done(Raised))
      && (heard.Told? && c.wait && heard.data.Mutation? && !IsTerminal(heard.data.receipt.status) && s.phase.AwaitFirst?
          && heard.data.receipt.id.Some? ==>
            t.phase == Top(heard.data.receipt.id.value, heard.data.receipt, t.clock + 60_000, t.clock))
      && (heard.Told? && s.phase.AwaitPoll? && !(heard.data.Mutation? && IsTerminal(heard.data.receipt.status)) ==>
            t.phase == Top(s.phase.id, s.phase.receipt, s.phase.deadline, s.phase.lastReplay))
  {
  }

  /** A waiting call gives up at the deadline only, and that is a minute after the
      answer it began to wait on. */
  lemma PatienceLastsAMinute(c: Setup, steps: seq<Step>)
    requires c.Valid() && c.wait && IsRun(c, steps) && Enabled(c, After(c, steps), DeadlinePassed)
    ensures var s := After(c, steps); s.entered.Some? && s.clock >= s.entered.value + 60_000
  {
    hide Next, IsRun, After;
    EveryRunKeepsTheInvariant(c, steps);
  }

  lemma DoneStays(c: Setup, s: State, step: Step)
    requires Enabled(c, s, step) && s.phase.Done?
    ensures Next(c, s, step).phase == s.phase
  {
  }

  /** Every run that has ended ended in one step, and its result is what that step
      brought. */
  lemma {:induction false} ResultIsTheLastThingHeard(c: Setup, steps: seq<Step>) returns (k: nat)
    requires c.Valid() && IsRun(c, steps) && After(c, steps).phase.Done?
    ensures k < |steps| && IsRun(c, steps[..k]) && Enabled(c, After(c, steps[..k]), steps[k])
    ensures Ends(c, After(c, steps[..k]), steps[k]) && Next(c, After(c, steps[..k]), steps[k]).phase == After(c, steps).phase
    ensures var heard, result := HeardIn(After(c, steps[..k]), steps[k]), After(c, steps).phase.result;
      && (result.Raised? <==> heard.Refused? || heard.Cut? || (c.wait && heard.Told? && FailedReceipt(heard.data)))
      && (result.Returned? ==> heard == Told(result.data))
    decreases |steps|
  {
    var last := |steps| - 1;
    var front := steps[..last];
    var s := After(c, front);
    EveryRunKeepsTheInvariant(c, front);
    if s.phase.Done? {
      hide Next, Enabled, Invariant, HeardIn;
      DoneStays(c, s, steps[last]);
      k := ResultIsTheLastThingHeard(c, front);
      assert front[..k] == steps[..k];
    } else {
      hide Next, Enabled, HeardIn, CopiesInvariant, PlainInvariant, EnteredInvariant, TruthInvariant, TimeInvariant;
      k := last;
      EndsWithWhatItHeard(c, s, steps[last]);
    }
  }

  /** A call that has ended stays as it ended. */
  lemma {:induction false} EndedStaysEnded(c: Setup, steps: seq<Step>, k: nat)
    requires IsRun(c, steps) && k <= |steps|
    ensures IsRun(c, steps[..k]) && (After(c, steps[..k]).phase.Done? ==> After(c, steps).phase == After(c, steps[..k]).phase)
    decreases |steps|
  {
    hide Next, Enabled;
    if k == |steps| {
      assert steps[..k] == steps;
    } else {
      var last := |steps| - 1;
      var front := steps[..last];
      EndedStaysEnded(c, front, k);
      assert front[..k] == steps[..k];
      if After(c, front).phase.Done? {
        DoneStays(c, After(c, front), steps[last]);
      }
    }
  }

  /** Every run in which a waiting call is so told that its write is confirmed ends in
      success, with that receipt. */
  lemma ConfirmedRunsSucceed(c: Setup, steps: seq<Step>, k: nat)
    requires c.Valid() && c.wait && IsRun(c, steps) && k < |steps|
    requires IsRun(c, steps[..k]) && HeardIn(After(c, steps[..k]), steps[k]).Told?
    requires ConfirmedReceipt(HeardIn(After(c, steps[..k]), steps[k]).data) && !(steps[k].SeeEvent? && c.Replays())
    ensures After(c, steps).phase == Done(Returned(HeardIn(After(c, steps[..k]), steps[k]).data))
  {
    hide Next, Enabled, HeardIn, CopiesInvariant, PlainInvariant, EnteredInvariant, TruthInvariant, TimeInvariant, ConfirmedReceipt;
    EndedStaysEnded(c, steps, k + 1);
    EveryRunKeepsTheInvariant(c, steps[..k]);
    OneStepOn(c, steps, k);
    ConfirmationIsReturned(c, After(c, steps[..k]), steps[k]);
  }

  lemma OneStepOn(c: Setup, steps: seq<Step>, k: nat)
    requires k < |steps| && IsRun(c, steps[..k + 1])
    ensures IsRun(c, steps[..k]) && Enabled(c, After(c, steps[..k]), steps[k])
    ensures After(c, steps[..k + 1]) == Next(c, After(c, steps[..k]), steps[k])
  {
    hide Next, Enabled;
    assert steps[..k + 1][..k] == steps[..k];
  }

  /** However long it took to reach the daemon, the client is busy for at most
      120.1 s after sending its request, and never sends more than 122 copies. */
  lemma BoundedWait(c: Setup, steps: seq<Step>)
    requires c.Valid() && c.wait && IsRun(c, steps)
    ensures After(c, steps).clock <= After(c, steps).began + 120_100 && After(c, steps).sent <= 122
  {
    hide Next, Enabled, IsRun, After;
    EveryRunKeepsTheInvariant(c, steps);
  }

  predicate Leads(c: Setup, s: State, step: Step, t: State)
  {
    Enabled(c, s, step) && Next(c, s, step) == t
  }

  lemma NoSteps(c: Setup)
    ensures IsRun(c, []) && After(c, []) == START
  {
  }

  lemma OneStepMore(c: Setup, steps: seq<Step>, step: Step, t: State)
    requires IsRun(c, steps) && Leads(c, After(c, steps), step, t)
    ensures IsRun(c, steps + [step]) && After(c, steps + [step]) == t
  {
    assert (steps + [step])[..|steps|] == steps;
  }

  const PENDING_7 := Receipt(Some(7), Some(Pending))
  const FIRST_ANSWER := Success(Mutation(PENDING_7))
  const SECOND_ANSWER := Success(Mutation(Receipt(Some(7), Some(Confirmed))))
  const TOO_TRUSTING := Setup(true, true, true, false, 7)
  const SENT := State(AwaitFirst, 0, 1, 1, None, [], 0, None, None, None, 0)
  const TAKEN := State(AwaitFirst, 0, 1, 0, Some(FIRST_ANSWER), [], 1, None, None, None, 0)
  const LOOPING := State(Top(7, PENDING_7, 60_000, 0), 0, 1, 0, None, [], 1, None, Some(0), Some(FIRST_ANSWER.data), 0)
  const FINALIZED := State(Top(7, PENDING_7, 60_000, 0), 0, 1, 0, None, [Finalized(7, Confirmed)], 1, Some(true), Some(0), Some(FIRST_ANSWER.data), 0)
  const REPLAYED := State(AwaitTerminal, 0, 2, 1, None, [], 1, Some(true), Some(0), Some(FIRST_ANSWER.data), 0)
  const TWICE := State(AwaitTerminal, 0, 2, 0, Some(SECOND_ANSWER), [], 2, Some(true), Some(0), Some(FIRST_ANSWER.data), 0)

  lemma FirstSend(c: Setup)
    ensures Leads(c, START, Send(0), SENT)
  {
  }

  lemma FirstExecution()
    ensures Leads(TOO_TRUSTING, SENT, Take(true, None, FIRST_ANSWER), TAKEN)
  {
    assert !IsReplay(TOO_TRUSTING, SENT);
    assert ExecutionAnswer(TOO_TRUSTING, None, FIRST_ANSWER);
  }

  lemma FirstWait()
    ensures Leads(TOO_TRUSTING, TAKEN, Answer(0), LOOPING)
  {
    var s := TAKEN.(reply := None);
    assert AfterFirst(TOO_TRUSTING, s.(answer := Some(FIRST_ANSWER.data)), FIRST_ANSWER.data) == LOOPING;
  }

  lemma SecondExecution()
    ensures Leads(TOO_TRUSTING, LOOPING, Finalize(true), FINALIZED)
    ensures Leads(TOO_TRUSTING, FINALIZED, SeeEvent(0), REPLAYED)
    ensures Leads(TOO_TRUSTING, REPLAYED, Take(true, Some(true), SECOND_ANSWER), TWICE)
  {
  }

  /** Why only a catalog entitles a client to replay: replaying to a daemon that
      does not deduplicate executes the write a second time. */
  lemma ReplayToLegacyDaemonExecutesTwice() returns (steps: seq<Step>)
    ensures !TOO_TRUSTING.Valid() && IsRun(TOO_TRUSTING, steps) && After(TOO_TRUSTING, steps).executed == 2
  {
    hide IsRun, After, Leads, Enabled, Next;
    var c := TOO_TRUSTING;
    NoSteps(c);
    FirstSend(c);
    FirstExecution();
    FirstWait();
    SecondExecution();
    steps := [];
    OneStepMore(c, steps, Send(0), SENT);
    steps := steps + [Send(0)];
    OneStepMore(c, steps, Take(true, None, FIRST_ANSWER), TAKEN);
    steps := steps + [Take(true, None, FIRST_ANSWER)];
    OneStepMore(c, steps, Answer(0), LOOPING);
    steps := steps + [Answer(0)];
    OneStepMore(c, steps, Finalize(true), FINALIZED);
    steps := steps + [Finalize(true)];
    OneStepMore(c, steps, SeeEvent(0), REPLAYED);
    steps := steps + [SeeEvent(0)];
    OneStepMore(c, steps, Take(true, Some(true), SECOND_ANSWER), TWICE);
    steps := steps + [Take(true, Some(true), SECOND_ANSWER)];
  }

  // ---- Polling keeps up ----

  /** No wait for an event begins more than two seconds after the last poll was due. */
  predicate PollInvariant(s: State)
  {
    && (s.phase.Top? ==> s.clock - s.phase.lastReplay <= POLL_TIMEOUT)
    && (s.phase.Bottom? ==> s.clock - s.phase.lastReplay <= POLL_TIMEOUT + EVENT_WAIT)
    && (s.phase.AwaitPoll? ==> s.clock == s.phase.lastReplay)
  }

  lemma StepKeepsPolls(c: Setup, s: State, step: Step)
    requires CopiesInvariant(c, s) && PollInvariant(s) && Enabled(c, s, step)
    ensures PollInvariant(Next(c, s, step))
  {
  }

  lemma {:induction false} PollsKeepUp(c: Setup, steps: seq<Step>)
    requires c.Valid() && IsRun(c, steps)
    ensures PollInvariant(After(c, steps))
    decreases |steps|
  {
    if steps != [] {
      var front := steps[..|steps| - 1];
      PollsKeepUp(c, front);
      EveryRunKeepsTheInvariant(c, front);
      hide Next, Enabled, PollInvariant, CopiesInvariant, PlainInvariant, EnteredInvariant, TruthInvariant, TimeInvariant;
      StepKeepsPolls(c, After(c, front), steps[|steps| - 1]);
    }
  }

  /** Half a second after the last one a client that may replay sends a poll, with its
      own mutation. */
  lemma PollIsSent(c: Setup, s: State)
    requires s.phase.Bottom? && c.Replays() && s.clock - s.phase.lastReplay >= 500
    ensures Enabled(c, s, GoRound) && Next(c, s, GoRound).phase.AwaitPoll? && Next(c, s, GoRound).sent == s.sent + 1
  {
  }
}
