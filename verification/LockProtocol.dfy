/** Any number of processes editing one file under its lock
    (crates/spotuify-config/src/document.rs). The rename is one step, the lock is
    a holder, and every other step of every process may come in between. `F` is
    what the file holds, `R` what a process was asked to do, and the planner says
    what a request makes of the file it read. */
module LockProtocol {
  import opened Wrappers

  const LOCK_TIMEOUT_MS := 10_000

  datatype Plan<F> = Write(contents: F) | Keep | Refuse

  type Planner<!F, !R> = (Option<F>, R) -> Plan<F>

  datatype EditResult = Succeeded | TimedOut | Failed | FailedAfterRename | Crashed

  datatype Phase<F> =
    | Idle
    | Waiting(since: nat)
    | Holding
    | Planned(base: Option<F>, plan: Plan<F>)
    | Renamed
    | Done(result: EditResult)

  datatype Process<F, R> = Process(request: R, phase: Phase<F>)

  datatype Commit<F, R> = Commit(pid: nat, request: R, base: Option<F>, contents: F)

  datatype State<F, R> = State(
    initial: Option<F>, file: Option<F>, holder: Option<nat>, processes: map<nat, Process<F, R>>,
    clock: nat, log: seq<Commit<F, R>>)

  datatype Step =
    | Tick(ms: nat)
    | Start(pid: nat)
    | Acquire(pid: nat)
    | GiveUp(pid: nat)
    | Read(pid: nat)
    | Decline(pid: nat)      // a refused plan, or nothing to write
    | BreakDown(pid: nat)    // an I/O error before the rename
    | Rename(pid: nat)
    | Finish(pid: nat, ok: bool)  // permissions and directory sync, after the rename
    | Crash(pid: nat)

  ghost function PhaseOf<F, R>(s: State<F, R>, pid: nat): (r: Phase<F>)
  {
    if pid in s.processes then s.processes[pid].phase else Done(Crashed)
  }

  ghost predicate Enabled<F, R>(s: State<F, R>, step: Step)
  {
    match step
    case Tick(_) => true
    case Start(p) => PhaseOf(s, p).Idle?
    case Acquire(p) => PhaseOf(s, p).Waiting? && s.holder == None
    case GiveUp(p) => PhaseOf(s, p).Waiting? && s.holder.Some? && s.clock - PhaseOf(s, p).since >= LOCK_TIMEOUT_MS
    case Read(p) => PhaseOf(s, p).Holding?
    case Decline(p) => PhaseOf(s, p).Planned? && !PhaseOf(s, p).plan.Write?
    case BreakDown(p) => PhaseOf(s, p).Waiting? || PhaseOf(s, p).Holding? || PhaseOf(s, p).Planned?
    case Rename(p) => PhaseOf(s, p).Planned? && PhaseOf(s, p).plan.Write?
    case Finish(p, _) => PhaseOf(s, p).Renamed?
    case Crash(p) => p in s.processes && !PhaseOf(s, p).Done?
  }

  ghost function WithPhase<F, R>(s: State<F, R>, pid: nat, phase: Phase<F>): (r: State<F, R>)
    requires pid in s.processes
  {
    s.(processes := s.processes[pid := s.processes[pid].(phase := phase)])
  }

  /** The process ends, and the lock goes with it if it was holding. */
  ghost function Ended<F, R>(s: State<F, R>, pid: nat, result: EditResult): (r: State<F, R>)
    requires pid in s.processes
  {
    WithPhase(s, pid, Done(result)).(holder := if s.holder == Some(pid) then None else s.holder)
  }

  ghost function Next<F, R>(planner: Planner<F, R>, s: State<F, R>, step: Step): (r: State<F, R>)
    requires Enabled(s, step)
  {
    match step
    case Tick(ms) => s.(clock := s.clock + ms)
    case Start(p) => WithPhase(s, p, Waiting(s.clock))
    case Acquire(p) => WithPhase(s, p, Holding).(holder := Some(p))
    case GiveUp(p) => Ended(s, p, TimedOut)
    case Read(p) => WithPhase(s, p, Planned(s.file, planner(s.file, s.processes[p].request)))
    case Decline(p) => Ended(s, p, if PhaseOf(s, p).plan.Refuse? then Failed else Succeeded)
    case BreakDown(p) => Ended(s, p, Failed)
    case Rename(p) =>
      var planned := PhaseOf(s, p);
      WithPhase(s, p, Renamed).(
        file := Some(planned.plan.contents),
        log := s.log + [Commit(p, s.processes[p].request, planned.base, planned.plan.contents)])
    case Finish(p, ok) => Ended(s, p, if ok then Succeeded else FailedAfterRename)
    case Crash(p) => Ended(s, p, Crashed)
  }

  ghost predicate Initial<F, R>(s: State<F, R>)
  {
    && s.file == s.initial && s.holder == None && s.log == []
    && forall p :: p in s.processes ==> s.processes[p].phase == Idle
  }

  /** Every step of the run is possible when it is taken. */
  ghost predicate IsRun<F, R>(planner: Planner<F, R>, s: State<F, R>, steps: seq<Step>)
    decreases |steps|, 0
  {
    steps == [] ||
    (IsRun(planner, s, steps[..|steps| - 1]) && Enabled(After(planner, s, steps[..|steps| - 1]), steps[|steps| - 1]))
  }

  ghost function After<F, R>(planner: Planner<F, R>, s: State<F, R>, steps: seq<Step>): (r: State<F, R>)
    requires IsRun(planner, s, steps)
    decreases |steps|, 1
  {
    if steps == [] then s else Next(planner, After(planner, s, steps[..|steps| - 1]), steps[|steps| - 1])
  }

  // ---- What every step keeps ----

  /** The file before the `i`-th commit. */
  ghost function Version<F, R>(s: State<F, R>, i: nat): (r: Option<F>)
    requires i <= |s.log|
  {
    if i == 0 then s.initial else Some(s.log[i - 1].contents)
  }

  ghost predicate Critical<F>(phase: Phase<F>)
  {
    phase.Holding? || phase.Planned? || phase.Renamed?
  }

  /** The lock is held by the one process that is in its critical section. */
  ghost predicate LockInvariant<F, R>(s: State<F, R>)
  {
    forall p :: p in s.processes ==> (Critical(s.processes[p].phase) <==> s.holder == Some(p))
  }

  /** A plan is about the file as it is now. */
  ghost predicate PlanInvariant<F, R>(planner: Planner<F, R>, s: State<F, R>)
  {
    forall p :: p in s.processes && s.processes[p].phase.Planned? ==>
      s.processes[p].phase.base == s.file
      && s.processes[p].phase.plan == planner(s.file, s.processes[p].request)
  }

  /** The file is the newest version, and every version was computed from the one before. */
  ghost predicate LogInvariant<F, R>(planner: Planner<F, R>, s: State<F, R>)
  {
    && s.file == Version(s, |s.log|)
    && forall i :: 0 <= i < |s.log| ==> ComputedFromPrevious(planner, s, i)
  }

  /** The `i`-th commit is what its request makes of the version before it. */
  ghost predicate ComputedFromPrevious<F, R>(planner: Planner<F, R>, s: State<F, R>, i: nat)
    requires i < |s.log|
  {
    s.log[i].base == Version(s, i) && planner(Version(s, i), s.log[i].request) == Write(s.log[i].contents)
  }

  /** Who has committed: only processes that renamed, and each at most once. */
  ghost predicate OwnerInvariant<F, R>(s: State<F, R>)
  {
    && (forall i :: 0 <= i < |s.log| ==> s.log[i].pid in s.processes && HasCommitted(s.processes[s.log[i].pid].phase))
    && (forall i, j :: 0 <= i < j < |s.log| ==> s.log[i].pid != s.log[j].pid)
    && (forall p :: p in s.processes && s.processes[p].phase in {Renamed, Done(FailedAfterRename)} ==> Committed(s, p))
  }

  ghost predicate Committed<F, R>(s: State<F, R>, pid: nat)
  {
    exists i :: 0 <= i < |s.log| && s.log[i].pid == pid
  }

  ghost predicate HasCommitted<F>(phase: Phase<F>)
  {
    phase == Renamed || (phase.Done? && phase.result in {Succeeded, FailedAfterRename, Crashed})
  }

  ghost predicate Invariant<F, R>(planner: Planner<F, R>, s: State<F, R>)
  {
    LockInvariant(s) && PlanInvariant(planner, s) && LogInvariant(planner, s) && OwnerInvariant(s)
  }

  lemma StepKeepsLock<F, R>(planner: Planner<F, R>, s: State<F, R>, step: Step)
    requires LockInvariant(s) && Enabled(s, step)
    ensures LockInvariant(Next(planner, s, step))
  {
  }

  lemma StepKeepsPlans<F, R>(planner: Planner<F, R>, s: State<F, R>, step: Step)
    requires LockInvariant(s) && PlanInvariant(planner, s) && Enabled(s, step)
    ensures PlanInvariant(planner, Next(planner, s, step))
  {
  }

  lemma StepKeepsLog<F, R>(planner: Planner<F, R>, s: State<F, R>, step: Step)
    requires PlanInvariant(planner, s) && LogInvariant(planner, s) && Enabled(s, step)
    ensures LogInvariant(planner, Next(planner, s, step)) && Next(planner, s, step).initial == s.initial
  {
    var t := Next(planner, s, step);
    if !step.Rename? {
      assert t.log == s.log;
      assert forall i :: 0 <= i < |s.log| && ComputedFromPrevious(planner, s, i) ==> ComputedFromPrevious(planner, t, i);
    } else {
      assert t.log[..|s.log|] == s.log;
      forall i | 0 <= i < |t.log|
        ensures ComputedFromPrevious(planner, t, i)
      {
        assert Version(t, i) == Version(s, i);
        if i < |s.log| {
          assert ComputedFromPrevious(planner, s, i);
        }
      }
    }
  }

  lemma StepKeepsOwners<F, R>(planner: Planner<F, R>, s: State<F, R>, step: Step)
    requires OwnerInvariant(s) && Enabled(s, step)
    ensures OwnerInvariant(Next(planner, s, step))
  {
    var t := Next(planner, s, step);
    assert s.log <= t.log;
    forall p | Committed(s, p)
      ensures Committed(t, p)
    {
      var i :| 0 <= i < |s.log| && s.log[i].pid == p;
      assert t.log[i] == s.log[i];
    }
    if step.Rename? {
      assert t.log[|s.log|].pid == step.pid;
    }
  }

  lemma EveryStepKeepsTheInvariant<F, R>(planner: Planner<F, R>, s: State<F, R>, step: Step)
    requires Invariant(planner, s) && Enabled(s, step)
    ensures Invariant(planner, Next(planner, s, step)) && Next(planner, s, step).initial == s.initial
  {
    hide Next, Enabled, LockInvariant, PlanInvariant, LogInvariant, OwnerInvariant;
    StepKeepsLock(planner, s, step);
    StepKeepsPlans(planner, s, step);
    StepKeepsLog(planner, s, step);
    StepKeepsOwners(planner, s, step);
  }

  // ---- Whole runs ----

  lemma {:induction false} EveryRunKeepsTheInvariant<F, R>(planner: Planner<F, R>, s: State<F, R>, steps: seq<Step>)
    requires Initial(s) && IsRun(planner, s, steps)
    ensures Invariant(planner, After(planner, s, steps)) && After(planner, s, steps).initial == s.initial
    decreases |steps|
  {
    if steps != [] {
      hide Next, Enabled, Invariant, Initial;
      var front := steps[..|steps| - 1];
      EveryRunKeepsTheInvariant(planner, s, front);
      EveryStepKeepsTheInvariant(planner, After(planner, s, front), steps[|steps| - 1]);
    }
  }

  /** No lost update: in every state of every interleaving the file is the newest
      committed version (or the initial one), and each commit is what its request
      makes of the version just before it. */
  lemma NoLostUpdate<F, R>(planner: Planner<F, R>, s: State<F, R>, steps: seq<Step>)
    requires Initial(s) && IsRun(planner, s, steps)
    ensures var t := After(planner, s, steps);
      && t.initial == s.initial && t.file == Version(t, |t.log|)
      && forall i :: 0 <= i < |t.log| ==> ComputedFromPrevious(planner, t, i)
  {
    hide Next, Enabled, Initial, IsRun, After;
    EveryRunKeepsTheInvariant(planner, s, steps);
  }

  /** Two processes are never between acquiring and releasing at once. */
  lemma MutualExclusion<F, R>(planner: Planner<F, R>, s: State<F, R>, steps: seq<Step>, p: nat, q: nat)
    requires Initial(s) && IsRun(planner, s, steps)
    requires Critical(PhaseOf(After(planner, s, steps), p)) && Critical(PhaseOf(After(planner, s, steps), q))
    ensures p == q
  {
    hide Next, Enabled, Initial, IsRun, After;
    EveryRunKeepsTheInvariant(planner, s, steps);
  }

  /** Whether a process was stopped by what follows its rename can be read off the run. */
  lemma {:induction false} FailedAfterRenameIff<F, R>(planner: Planner<F, R>, s: State<F, R>, steps: seq<Step>, pid: nat)
    requires Initial(s) && IsRun(planner, s, steps) && pid in s.processes
    ensures pid in After(planner, s, steps).processes
    ensures After(planner, s, steps).processes[pid].phase == Done(FailedAfterRename) <==> Finish(pid, false) in steps
    decreases |steps|
  {
    if steps != [] {
      FailedAfterRenameIff(planner, s, steps[..|steps| - 1], pid);
      assert steps == steps[..|steps| - 1] + [steps[|steps| - 1]];
    }
  }

  /** A process has committed if and only if it has taken its rename. */
  lemma {:induction false} CommittedIffRenamed<F, R>(planner: Planner<F, R>, s: State<F, R>, steps: seq<Step>, pid: nat)
    requires Initial(s) && IsRun(planner, s, steps)
    ensures Committed(After(planner, s, steps), pid) <==> Rename(pid) in steps
    decreases |steps|
  {
    if steps != [] {
      var front, step := steps[..|steps| - 1], steps[|steps| - 1];
      CommittedIffRenamed(planner, s, front, pid);
      assert steps == front + [step];
      CommitsWith(planner, After(planner, s, front), step, pid);
    }
  }

  lemma CommitsWith<F, R>(planner: Planner<F, R>, s: State<F, R>, step: Step, pid: nat)
    requires Enabled(s, step)
    ensures Committed(Next(planner, s, step), pid) <==> Committed(s, pid) || step == Rename(pid)
  {
    var t := Next(planner, s, step);
    assert t.log[..|s.log|] == s.log;
    if Committed(s, pid) {
      var i :| 0 <= i < |s.log| && s.log[i].pid == pid;
      assert t.log[i].pid == pid;
    }
    if step.Rename? {
      assert t.log[|s.log|].pid == step.pid;
    }
  }

  /** An edit that reports failure has changed the file exactly when the run took
      its failing step after the rename; a refusal, a timeout or an earlier I/O
      error never has. No process commits twice. */
  lemma FailedEditsAndTheFile<F, R>(planner: Planner<F, R>, s: State<F, R>, steps: seq<Step>, pid: nat)
    requires Initial(s) && IsRun(planner, s, steps) && pid in s.processes
    ensures var t := After(planner, s, steps);
      && pid in t.processes
      && (t.processes[pid].phase.Done? && t.processes[pid].phase.result in {Failed, TimedOut, FailedAfterRename} ==>
            (Committed(t, pid) <==> Finish(pid, false) in steps))
      && (forall i, j :: 0 <= i < |t.log| && 0 <= j < |t.log| && t.log[i].pid == pid && t.log[j].pid == pid ==> i == j)
  {
    hide Next, Enabled, Initial, IsRun, After;
    EveryRunKeepsTheInvariant(planner, s, steps);
    FailedAfterRenameIff(planner, s, steps, pid);
  }

  /** What a process that reports success has done: its write is in the log, under
      its own request, or its request left some version as it is. */
  ghost predicate SuccessInvariant<F, R>(planner: Planner<F, R>, s: State<F, R>)
  {
    && (forall i :: 0 <= i < |s.log| ==>
          s.log[i].pid in s.processes && s.log[i].request == s.processes[s.log[i].pid].request)
    && (forall p :: p in s.processes && s.processes[p].phase == Renamed ==> Committed(s, p))
    && (forall p :: p in s.processes && s.processes[p].phase == Done(Succeeded) ==>
          Committed(s, p) || LeftAlone(planner, s, s.processes[p].request))
  }

  ghost predicate LeftAlone<F, R>(planner: Planner<F, R>, s: State<F, R>, request: R)
  {
    exists i: nat :: i <= |s.log| && planner(Version(s, i), request) == Keep
  }

  lemma LeftAloneStays<F, R>(planner: Planner<F, R>, s: State<F, R>, t: State<F, R>, request: R)
    requires LeftAlone(planner, s, request) && t.initial == s.initial && s.log <= t.log
    ensures LeftAlone(planner, t, request)
  {
    var i: nat :| i <= |s.log| && planner(Version(s, i), request) == Keep;
    assert Version(t, i) == Version(s, i);
  }

  lemma StepKeepsSuccess<F, R>(planner: Planner<F, R>, s: State<F, R>, step: Step)
    requires PlanInvariant(planner, s) && LogInvariant(planner, s) && SuccessInvariant(planner, s) && Enabled(s, step)
    ensures SuccessInvariant(planner, Next(planner, s, step))
  {
    var t := Next(planner, s, step);
    assert t.log[..|s.log|] == s.log && t.initial == s.initial;
    forall p | p in t.processes && t.processes[p].phase == Done(Succeeded)
      ensures Committed(t, p) || LeftAlone(planner, t, t.processes[p].request)
    {
      CommitsWith(planner, s, step, p);
      var request := s.processes[p].request;
      if s.processes[p].phase == Done(Succeeded) {
        if LeftAlone(planner, s, request) {
          LeftAloneStays(planner, s, t, request);
        }
      } else if step.Decline? {
        assert planner(Version(s, |s.log|), request) == Keep;
        assert LeftAlone(planner, s, request);
        LeftAloneStays(planner, s, t, request);
      }
    }
    forall p | p in t.processes && t.processes[p].phase == Renamed
      ensures Committed(t, p)
    {
      CommitsWith(planner, s, step, p);
    }
  }

  lemma {:induction false} RunsKeepSuccess<F, R>(planner: Planner<F, R>, s: State<F, R>, steps: seq<Step>)
    requires Initial(s) && IsRun(planner, s, steps)
    ensures SuccessInvariant(planner, After(planner, s, steps))
    decreases |steps|
  {
    if steps != [] {
      var front := steps[..|steps| - 1];
      RunsKeepSuccess(planner, s, front);
      EveryRunKeepsTheInvariant(planner, s, front);
      hide Next, Enabled, Initial, SuccessInvariant, PlanInvariant, LogInvariant;
      StepKeepsSuccess(planner, After(planner, s, front), steps[|steps| - 1]);
    }
  }

  lemma {:induction false} RequestsStay<F, R>(planner: Planner<F, R>, s: State<F, R>, steps: seq<Step>, pid: nat)
    requires IsRun(planner, s, steps) && pid in s.processes
    ensures pid in After(planner, s, steps).processes
    ensures After(planner, s, steps).processes[pid].request == s.processes[pid].request
    decreases |steps|
  {
    if steps != [] {
      RequestsStay(planner, s, steps[..|steps| - 1], pid);
    }
  }

  /** A process that reports success has its request's write in the log, computed
      from the version before it, or there is a version its request leaves as it is. */
  lemma SuccessMeansDone<F, R>(planner: Planner<F, R>, s: State<F, R>, steps: seq<Step>, pid: nat)
    requires Initial(s) && IsRun(planner, s, steps) && pid in s.processes
    ensures var t := After(planner, s, steps); var request := s.processes[pid].request;
      && pid in t.processes
      && (t.processes[pid].phase == Done(Succeeded) ==>
            || (exists i :: 0 <= i < |t.log| && t.log[i].pid == pid && t.log[i].request == request
                            && ComputedFromPrevious(planner, t, i))
            || LeftAlone(planner, t, request))
  {
    hide Next, Enabled, Initial, IsRun, After, LeftAlone;
    RunsKeepSuccess(planner, s, steps);
    RequestsStay(planner, s, steps, pid);
    NoLostUpdate(planner, s, steps);
  }

  // ---- Why a process fails ----

  ghost predicate RefusedSomewhere<F, R>(planner: Planner<F, R>, s: State<F, R>, request: R)
  {
    exists i: nat :: i <= |s.log| && planner(Version(s, i), request) == Refuse
  }

  lemma RefusalStays<F, R>(planner: Planner<F, R>, s: State<F, R>, t: State<F, R>, request: R)
    requires RefusedSomewhere(planner, s, request) && t.initial == s.initial && s.log <= t.log
    ensures RefusedSomewhere(planner, t, request)
  {
    var i: nat :| i <= |s.log| && planner(Version(s, i), request) == Refuse;
    assert Version(t, i) == Version(s, i);
  }

  lemma StepFailsForAReason<F, R>(planner: Planner<F, R>, s: State<F, R>, step: Step, pid: nat)
    requires PlanInvariant(planner, s) && LogInvariant(planner, s) && Enabled(s, step) && pid in s.processes
    requires PhaseOf(s, pid) != Done(Failed) && PhaseOf(Next(planner, s, step), pid) == Done(Failed)
    ensures step == BreakDown(pid) || RefusedSomewhere(planner, s, s.processes[pid].request)
  {
    if step.Decline? {
      assert planner(Version(s, |s.log|), s.processes[pid].request) == Refuse;
    }
  }

  lemma NextGrows<F, R>(planner: Planner<F, R>, s: State<F, R>, step: Step)
    requires Enabled(s, step)
    ensures Next(planner, s, step).initial == s.initial && s.log <= Next(planner, s, step).log
  {
  }

  /** A failure before the rename is an I/O error of the process itself, or its request
      refused a version of the file. */
  lemma {:induction false} FailureHasAReason<F, R>(planner: Planner<F, R>, s: State<F, R>, steps: seq<Step>, pid: nat)
    requires Initial(s) && IsRun(planner, s, steps) && pid in s.processes
    ensures var t := After(planner, s, steps);
      PhaseOf(t, pid) == Done(Failed) ==>
        BreakDown(pid) in steps || RefusedSomewhere(planner, t, s.processes[pid].request)
    decreases |steps|
  {
    if steps != [] {
      var front, step := steps[..|steps| - 1], steps[|steps| - 1];
      assert steps == front + [step];
      var before := After(planner, s, front);
      FailureHasAReason(planner, s, front, pid);
      RequestsStay(planner, s, front, pid);
      EveryRunKeepsTheInvariant(planner, s, front);
      hide Next, Enabled, Initial, PlanInvariant, LogInvariant, RefusedSomewhere, LockInvariant, OwnerInvariant;
      NextGrows(planner, before, step);
      if PhaseOf(After(planner, s, steps), pid) == Done(Failed) && PhaseOf(before, pid) != Done(Failed) {
        StepFailsForAReason(planner, before, step, pid);
      }
      if RefusedSomewhere(planner, before, s.processes[pid].request) {
        RefusalStays(planner, before, After(planner, s, steps), s.processes[pid].request);
      }
    }
  }

  lemma StepKeepsWaiting<F, R>(planner: Planner<F, R>, s: State<F, R>, step: Step, pid: nat)
    requires Enabled(s, step) && PhaseOf(Next(planner, s, step), pid).Waiting?
    ensures if step == Start(pid) then PhaseOf(Next(planner, s, step), pid).since == s.clock
      else PhaseOf(s, pid).Waiting? && PhaseOf(s, pid).since == PhaseOf(Next(planner, s, step), pid).since
  {
  }

  /** Who is waiting asked for the lock when the wait says. */
  lemma {:induction false} WaitingSince<F, R>(planner: Planner<F, R>, s: State<F, R>, steps: seq<Step>, pid: nat)
    returns (start: nat)
    requires Initial(s) && IsRun(planner, s, steps) && PhaseOf(After(planner, s, steps), pid).Waiting?
    ensures start < |steps| && steps[start] == Start(pid) && IsRun(planner, s, steps[..start])
    ensures After(planner, s, steps[..start]).clock == PhaseOf(After(planner, s, steps), pid).since
    decreases |steps|
  {
    var last := |steps| - 1;
    var front := steps[..last];
    hide Next, Enabled;
    StepKeepsWaiting(planner, After(planner, s, front), steps[last], pid);
    if steps[last] == Start(pid) {
      start := last;
    } else {
      start := WaitingSince(planner, s, front, pid);
      assert front[..start] == steps[..start];
    }
  }

  /** A process that gives up on the lock has waited for ten seconds, and even then
      only while another process holds it. */
  lemma TimeoutTakesTenSeconds<F, R>(planner: Planner<F, R>, s: State<F, R>, steps: seq<Step>, pid: nat) returns (start: nat)
    requires Initial(s) && IsRun(planner, s, steps) && Enabled(After(planner, s, steps), GiveUp(pid))
    ensures start < |steps| && steps[start] == Start(pid) && IsRun(planner, s, steps[..start])
    ensures After(planner, s, steps[..start]).clock + 10_000 <= After(planner, s, steps).clock
    ensures After(planner, s, steps).holder.Some? && After(planner, s, steps).holder != Some(pid)
  {
    start := WaitingSince(planner, s, steps, pid);
    EveryRunKeepsTheInvariant(planner, s, steps);
  }

  lemma OneStepMore<F, R>(planner: Planner<F, R>, s: State<F, R>, steps: seq<Step>, step: Step)
    requires IsRun(planner, s, steps) && Enabled(After(planner, s, steps), step)
    ensures IsRun(planner, s, steps + [step])
    ensures After(planner, s, steps + [step]) == Next(planner, After(planner, s, steps), step)
  {
    assert (steps + [step])[..|steps|] == steps;
  }

  /** That a failed edit leaves the file alone is not true of every failure: here a
      first write is renamed into place and its directory sync then fails. */
  lemma FailureAfterRenameKeepsTheWrite<F, R>(planner: Planner<F, R>, request: R, contents: F)
    returns (start: State<F, R>, steps: seq<Step>)
    requires planner(None, request) == Write(contents)
    ensures Initial(start) && IsRun(planner, start, steps) && start.file == None
    ensures var t := After(planner, start, steps);
      0 in t.processes && t.processes[0].phase == Done(FailedAfterRename) && t.file == Some(contents)
  {
    start := State(None, None, None, map[0 := Process(request, Idle)], 0, []);
    OneStepMore(planner, start, [], Start(0));
    OneStepMore(planner, start, [] + [Start(0)], Acquire(0));
    OneStepMore(planner, start, [] + [Start(0)] + [Acquire(0)], Read(0));
    OneStepMore(planner, start, [] + [Start(0)] + [Acquire(0)] + [Read(0)], Rename(0));
    OneStepMore(planner, start, [] + [Start(0)] + [Acquire(0)] + [Read(0)] + [Rename(0)], Finish(0, false));
    steps := [] + [Start(0)] + [Acquire(0)] + [Read(0)] + [Rename(0)] + [Finish(0, false)];
  }
}
