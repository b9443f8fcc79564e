/** Over runs of TaskState: for how long a finished task's process group counts as not empty. */
module TaskLeftovers {
  import opened Options
  import opened TaskState
  import opened TaskRuns

  /** Whether the step says that something is left of the task, or that nothing is. */
  function SaidBy(e: Entry, step: Step, id: Id): Option<bool> {
    if !step.At? || step.id != id then None
    else
      match step.step
      case ReportSeen(_, linger, _) => if e.record.status.Running? then Some(linger) else None
      case RunnerGone(_, leftover, others, _) =>
        if e.record.status.Running? then Some(leftover == Guarded || (leftover == Probe && others)) else None
      case GuardianExits => if e.exitPhase == AwaitRunnerExit then Some(false) else None
      case GroupEmptied => Some(false)
      case _ => None
  }

  /** What was last said. */
  ghost function LeftOver(ms: seq<Manager>, steps: seq<Step>, i: nat, id: Id): bool
    requires i <= |steps| < |ms|
  {
    if i == 0 || id !in ms[i].tasks || id !in ms[i - 1].tasks || steps[i - 1].Crash? then false
    else
      match SaidBy(ms[i - 1].tasks[id], steps[i - 1], id)
      case Some(left) => left
      case None => LeftOver(ms, steps, i - 1, id)
  }

  function Or(said: Option<bool>, before: bool): bool {
    if said.Some? then said.value else before
  }

  lemma AfterLingers(e: Entry, file: nat, step: TaskStep, id: Id)
    requires EntryOk(e)
    ensures After(e, file, step).lingering == Or(SaidBy(e, At(id, step), id), e.lingering)
  {
    hide CarryWatch, DropWatch, EndReasonForStop, OwnsLiveGroup, Explained, IsKill, Finalize, RequestKill;
    match step
    case StopAsked(reason) => KillLingers(e, EndReasonForStop(reason));
    case TimeoutFires => KillLingers(e.(timedOut := true), TimedOut);
    case ReportSeen(o, linger, now) => FinalizeLingers(e, file, o, if linger then Guarded else Nothing, false, now);
    case RunnerGone(o, leftover, others, now) => FinalizeLingers(e, file, o, leftover, others, now);
    case _ =>
  }

  lemma KillLingers(e: Entry, r: Reason)
    ensures RequestKill(e, r).lingering == e.lingering
  {}

  lemma FinalizeLingers(e: Entry, file: nat, o: Outcome, leftover: Leftover, others: bool, now: nat)
    requires e.record.status.Running? ==> !e.lingering
    ensures Finalize(e, file, o, leftover, others, now).lingering ==
            if e.record.status.Running? then leftover == Guarded || (leftover == Probe && others) else e.lingering
  {}

  lemma SweptLingers(e: Entry, file: nat, r: Reason, now: nat)
    ensures RequestKill(e, r).lingering == ForceFinalize(e, file, now).lingering == Reloaded(e, file).lingering
            == e.lingering
  {}

  lemma StepLingers(m: Manager, step: Step, id: Id)
    requires Inv(m) && id in m.tasks && id in Do(m, step).tasks && !step.Crash?
    ensures Do(m, step).tasks[id].lingering == Or(SaidBy(m.tasks[id], step, id), m.tasks[id].lingering)
  {
    hide EntryOk, After, RequestKill, ForceFinalize, Persists, Reloaded, Restore, Snapshot, EndSession, BeginShutdown,
         ForceAll, SameOutcome, ParkTask, RestartTask, OwnsLiveGroup;
    assert TaskOk(m, id);
    var e, file := m.tasks[id], m.files[id];
    match step
    case At(task, s) => if task == id { AfterLingers(e, file, s, id); }
    case SessionEnds(session) => EndSessionAt(m, session, id); SweptLingers(e, file, SessionEnd, 0);
    case ShutdownBegins => BeginShutdownAt(m, id); SweptLingers(e, file, ManagerShutdown, 0);
    case ShutdownForces(now) => ForceAllAt(m, id, now); SweptLingers(e, file, ManagerShutdown, now);
    case Upgrade(now) => UpgradeStutters(m, now); SweptLingers(e, file, ManagerShutdown, now);
    case UpgradeFails => FailedUpgradeStutters(m);
    case _ =>
  }

  lemma NothingYet(m: Manager, step: Step, id: Id)
    requires Inv(m) && id in Do(m, step).tasks && (id !in m.tasks || step.Crash?)
    ensures !Do(m, step).tasks[id].lingering
  {
    hide EntryOk, After, Persists, TaskOk, Scanned, SameOutcome;
    if step.Upgrade? { UpgradeKeys(m, step.now); }
    if step.Crash? {
      ScanKeys(m, {}, step.now);
      ScanAt(m, {}, id, step.now);
    }
  }

  /** Over every run: a task lingers if and only if its end left a guardian or others in its group,
      and no guardian's exit or empty group has been seen since; upgrades keep that, and a crash
      forgets it. */
  lemma {:induction false} LingersIff(ms: seq<Manager>, steps: seq<Step>, i: nat, id: Id)
    requires Run(ms, steps) && i <= |steps| && id in ms[i].tasks
    ensures ms[i].tasks[id].lingering == LeftOver(ms, steps, i, id)
  {
    hide Inv, Do, SaidBy;
    if i > 0 {
      var m, step := ms[i - 1], steps[i - 1];
      RunKeeps(ms, steps, i - 1);
      assert ms[i - 1 + 1] == Do(m, step);
      if id !in m.tasks || step.Crash? {
        NothingYet(m, step, id);
      } else {
        LingersIff(ms, steps, i - 1, id);
        StepLingers(m, step, id);
      }
    }
  }
}
