/** Over runs of TaskState: which deadline a task has, and whether it has passed. */
module TaskDeadlines {
  import opened Options
  import opened TaskState
  import opened TaskRuns

  /** The deadline the task was spawned with. */
  ghost function DeadlineSet(ms: seq<Manager>, steps: seq<Step>, i: nat, id: Id): Option<nat>
    requires i <= |steps| < |ms|
  {
    if i == 0 || id !in ms[i].tasks then None
    else if id in ms[i - 1].tasks then DeadlineSet(ms, steps, i - 1, id)
    else if steps[i - 1].Spawn? && steps[i - 1].timeout.Some?
    then Some(steps[i - 1].record.startedAt + steps[i - 1].timeout.value) else None
  }

  predicate PassedBy(step: Step, id: Id) {
    step.At? && step.id == id && step.step.TimeoutFires?
  }

  /** A timer went off since the task was spawned with a deadline. */
  ghost predicate Passed(ms: seq<Manager>, steps: seq<Step>, i: nat, id: Id)
    requires i <= |steps| < |ms|
  {
    && i > 0 && id in ms[i].tasks && id in ms[i - 1].tasks
    && (Passed(ms, steps, i - 1, id) || (PassedBy(steps[i - 1], id) && DeadlineSet(ms, steps, i - 1, id).Some?))
  }

  ghost predicate Timed(e: Entry, deadline: Option<nat>, passed: bool) {
    e.record.status.Running? ==> e.deadline == deadline && e.timedOut == passed
  }

  lemma AfterTimed(e: Entry, file: nat, step: TaskStep)
    requires EntryOk(e) && e.record.status.Running?
    ensures Timed(After(e, file, step), e.deadline, e.timedOut || (step.TimeoutFires? && e.deadline.Some?))
  {
    hide CarryWatch, DropWatch;
  }

  lemma SweptTimed(e: Entry, file: nat, r: Reason, now: nat)
    ensures Timed(RequestKill(e, r), e.deadline, e.timedOut)
    ensures Timed(ForceFinalize(e, file, now), e.deadline, e.timedOut)
    ensures e.record.status.Running? ==> Timed(Reloaded(e, file), e.deadline, e.timedOut)
  {}

  lemma ScannedTimed(r: Record, file: nat, now: nat, deadline: Option<nat>, passed: bool)
    ensures Timed(Bare(Scanned(r, file, now)), deadline, passed)
  {}

  lemma StepTimed(m: Manager, step: Step, id: Id)
    requires Inv(m) && id in m.tasks && id in Do(m, step).tasks
    ensures var e := m.tasks[id];
      Timed(Do(m, step).tasks[id], e.deadline, e.timedOut || (PassedBy(step, id) && e.deadline.Some?))
  {
    hide EntryOk, After, Timed, RequestKill, ForceFinalize, Scanned, Persists, Reloaded, Restore, Snapshot, Bare,
         EndSession, BeginShutdown, ForceAll, ScanExcept, SameOutcome, ParkTask, RestartTask, Follows, OwnsLiveGroup;
    assert TaskOk(m, id);
    var e, file := m.tasks[id], m.files[id];
    StepFollows(m, step, id);
    OnceOver(e, Do(m, step).tasks[id], step.Crash?, e.deadline, e.timedOut || (PassedBy(step, id) && e.deadline.Some?));
    SameTimed(e);
    if e.record.status.Running? {
      match step
      case At(task, s) => if task == id { AfterTimed(e, file, s); }
      case SessionEnds(session) => EndSessionAt(m, session, id); SweptTimed(e, file, SessionEnd, 0);
      case ShutdownBegins => BeginShutdownAt(m, id); SweptTimed(e, file, ManagerShutdown, 0);
      case ShutdownForces(now) => ForceAllAt(m, id, now); SweptTimed(e, file, ManagerShutdown, now);
      case Upgrade(now) => UpgradeStutters(m, now); SweptTimed(e, file, ManagerShutdown, now);
      case UpgradeFails => FailedUpgradeStutters(m);
      case Crash(now) => ScanAt(m, {}, id, now); ScannedTimed(m.disk[id], file, now, e.deadline, e.timedOut);
      case _ =>
    }
  }

  lemma SameTimed(e: Entry)
    ensures Timed(e, e.deadline, e.timedOut)
  {}

  lemma OnceOver(e: Entry, later: Entry, crashed: bool, deadline: Option<nat>, passed: bool)
    requires Follows(e, later, crashed)
    ensures !e.record.status.Running? ==> Timed(later, deadline, passed)
  {}

  lemma SpawnedTimed(m: Manager, step: Step, id: Id)
    requires Inv(m) && id !in m.tasks && id in Do(m, step).tasks
    ensures step.Spawn?
    ensures var deadline := if step.timeout.Some? then Some(step.record.startedAt + step.timeout.value) else None;
      Timed(Do(m, step).tasks[id], deadline, false)
  {
    hide EntryOk, After, Persists, TaskOk;
    if step.Upgrade? { UpgradeKeys(m, step.now); }
  }

  /** Over every run: a running task has the deadline it was spawned with, its start plus the
      timeout that was asked for, across upgrades too; and it is marked as timed out if and only
      if its timer went off. */
  lemma {:induction false} DeadlineKept(ms: seq<Manager>, steps: seq<Step>, i: nat, id: Id)
    requires Run(ms, steps) && i <= |steps| && id in ms[i].tasks
    ensures Timed(ms[i].tasks[id], DeadlineSet(ms, steps, i, id), Passed(ms, steps, i, id))
  {
    hide Inv, Do, Timed;
    if i > 0 {
      var m, step := ms[i - 1], steps[i - 1];
      RunKeeps(ms, steps, i - 1);
      assert ms[i - 1 + 1] == Do(m, step);
      if id !in m.tasks {
        SpawnedTimed(m, step, id);
      } else {
        DeadlineKept(ms, steps, i - 1, id);
        StepTimed(m, step, id);
        GoesOn(m, step, id, DeadlineSet(ms, steps, i - 1, id), Passed(ms, steps, i - 1, id));
      }
    }
  }

  lemma GoesOn(m: Manager, step: Step, id: Id, deadline: Option<nat>, passed: bool)
    requires Inv(m) && id in m.tasks && id in Do(m, step).tasks && Timed(m.tasks[id], deadline, passed)
    ensures Timed(Do(m, step).tasks[id], deadline, passed || (PassedBy(step, id) && deadline.Some?))
  {
    hide Inv, Do;
    StepTimed(m, step, id);
    StepFollows(m, step, id);
  }
}
