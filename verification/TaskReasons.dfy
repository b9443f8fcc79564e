/** Over runs of TaskState: which step a record's end reason and its marks come from. */
module TaskReasons {
  import opened Options
  import opened TaskState
  import opened TaskRuns

  /** What a stop with this reason is recorded as; other reasons are refused. */
  function StopReason(reason: Option<string>): Option<Reason> {
    match reason
    case None => Some(Stopped("tool"))
    case Some(r) =>
      if r == "tui" || r == "cli" || r == "tool" then Some(Stopped(r))
      else if r == "timeout" then Some(TimedOut)
      else if r == "rate-limit" then Some(RateLimit)
      else if r == "session-end" then Some(SessionEnd)
      else None
  }

  /** The reason for which the step asks the running task to be killed, if it does. */
  function AskedBy(e: Entry, step: Step, id: Id): Option<Reason> {
    if !e.record.status.Running? then None
    else
      match step
      case At(task, s) =>
        if task != id then None
        else if s.StopAsked? then StopReason(s.reason)
        else if s.TimeoutFires? && e.deadline.Some? && !e.timedOut then Some(TimedOut)
        else None
      case SessionEnds(session) => if session == e.record.session then Some(SessionEnd) else None
      case ShutdownBegins => Some(ManagerShutdown)
      case ShutdownForces(_) => Some(ManagerShutdown)
      case _ => None
  }

  function MarkedBy(e: Entry, step: Step, id: Id): Option<nat> {
    if e.record.status.Running? && step.At? && step.id == id && step.step.MarkBackground?
    then Some(step.step.now) else None
  }

  function Or<T>(first: Option<T>, then_: Option<T>): Option<T> {
    if first.Some? then first else then_
  }

  /** The first reason for which the task was asked to be killed since it was spawned. */
  ghost function FirstAsked(ms: seq<Manager>, steps: seq<Step>, i: nat, id: Id): Option<Reason>
    requires i <= |steps| < |ms|
  {
    if i == 0 || id !in ms[i].tasks || id !in ms[i - 1].tasks then None
    else Or(FirstAsked(ms, steps, i - 1, id), AskedBy(ms[i - 1].tasks[id], steps[i - 1], id))
  }

  ghost function FirstMarked(ms: seq<Manager>, steps: seq<Step>, i: nat, id: Id): Option<nat>
    requires i <= |steps| < |ms|
  {
    if i == 0 || id !in ms[i].tasks || id !in ms[i - 1].tasks then None
    else Or(FirstMarked(ms, steps, i - 1, id), MarkedBy(ms[i - 1].tasks[id], steps[i - 1], id))
  }

  /** A running task remembers what was first asked, a killed one was killed for it, and of one
      that completed or failed nothing was asked. */
  ghost predicate Because(e: Entry, asked: Option<Reason>, marked: Option<nat>) {
    && (e.record.status.Running? ==> e.killReason == asked)
    && (e.record.status.Killed? ==> asked.Some? && e.record.endReason == asked)
    && (e.record.status.Completed? || e.record.status.Failed? ==> asked.None?)
    && e.record.backgroundedAt == marked
  }

  lemma StopTable(reason: Option<string>)
    ensures StopReason(reason) ==
            if reason.Some? && reason.value !in STOP_REASONS then None else Some(EndReasonForStop(reason))
  {}

  lemma AfterBecause(e: Entry, file: nat, step: TaskStep, id: Id)
    requires EntryOk(e) && e.record.status.Running?
    ensures Because(After(e, file, step), Or(e.killReason, AskedBy(e, At(id, step), id)),
                    Or(e.record.backgroundedAt, MarkedBy(e, At(id, step), id)))
  {
    hide CarryWatch, DropWatch, StopReason, EndReasonForStop;
    if step.StopAsked? { StopTable(step.reason); }
  }

  lemma KillBecause(e: Entry, r: Reason)
    requires EntryOk(e) && e.record.status.Running?
    ensures Because(RequestKill(e, r), Or(e.killReason, Some(r)), e.record.backgroundedAt)
  {}

  lemma ForceBecause(e: Entry, file: nat, now: nat)
    requires EntryOk(e) && e.record.status.Running?
    ensures Because(ForceFinalize(e, file, now), Or(e.killReason, Some(ManagerShutdown)), e.record.backgroundedAt)
  {}

  lemma CrashBecause(r: Record, e: Entry, file: nat, now: nat, asked: Option<Reason>)
    requires e.record.status.Running? && SameOutcome(r, e.record)
    ensures Because(Bare(Scanned(r, file, now)), asked, e.record.backgroundedAt)
  {}

  lemma SameBecause(e: Entry, later: Entry, asked: Option<Reason>, marked: Option<nat>)
    requires Because(e, asked, marked) && IsTerminal(e.record.status) && SameOutcome(later.record, e.record)
    ensures Because(later, asked, marked)
  {}

  lemma ReloadedBecause(e: Entry, file: nat)
    requires e.record.status.Running?
    ensures Because(Reloaded(e, file), e.killReason, e.record.backgroundedAt)
  {}

  lemma StepBecause(m: Manager, step: Step, id: Id)
    requires Inv(m) && id in m.tasks && id in Do(m, step).tasks && m.tasks[id].record.status.Running?
    ensures var e := m.tasks[id];
      Because(Do(m, step).tasks[id], Or(e.killReason, AskedBy(e, step, id)),
              Or(e.record.backgroundedAt, MarkedBy(e, step, id)))
  {
    hide EntryOk, After, Because, RequestKill, ForceFinalize, Scanned, Persists, Reloaded, Restore, Snapshot, Bare,
         EndSession, BeginShutdown, ForceAll, ScanExcept, SameOutcome, ParkTask, RestartTask, StopReason;
    assert TaskOk(m, id);
    var e, file := m.tasks[id], m.files[id];
    KeptBecause(e);
    match step
    case At(task, s) => if task == id { AfterBecause(e, file, s, id); }
    case SessionEnds(session) => EndSessionAt(m, session, id); KillBecause(e, SessionEnd);
    case ShutdownBegins => BeginShutdownAt(m, id); KillBecause(e, ManagerShutdown);
    case ShutdownForces(now) => ForceAllAt(m, id, now); ForceBecause(e, file, now);
    case Upgrade(now) => UpgradeStutters(m, now); ReloadedBecause(e, file);
    case UpgradeFails => FailedUpgradeStutters(m);
    case Crash(now) => ScanAt(m, {}, id, now); CrashBecause(m.disk[id], e, file, now, e.killReason);
    case _ =>
  }

  lemma KeptBecause(e: Entry)
    requires e.record.status.Running?
    ensures Because(e, e.killReason, e.record.backgroundedAt)
  {}

  lemma SpawnedBecause(m: Manager, step: Step, id: Id)
    requires Inv(m) && id !in m.tasks && id in Do(m, step).tasks
    ensures Because(Do(m, step).tasks[id], None, None)
  {
    hide EntryOk, After, Persists, TaskOk;
    if step.Upgrade? { UpgradeKeys(m, step.now); }
  }

  /** Over every run: a task is recorded as killed for the reason of the step that first asked for
      it while it ran; one that completed or failed was never asked; and it is marked as
      backgrounded at the first mark, in memory and on disk. */
  lemma {:induction false} KilledForFirstAsked(ms: seq<Manager>, steps: seq<Step>, i: nat, id: Id)
    requires Run(ms, steps) && i <= |steps| && id in ms[i].tasks
    ensures Because(ms[i].tasks[id], FirstAsked(ms, steps, i, id), FirstMarked(ms, steps, i, id))
    ensures id in ms[i].disk && SameOutcome(ms[i].disk[id], ms[i].tasks[id].record)
  {
    hide Inv, Do, Because, AskedBy, MarkedBy, SameOutcome;
    RunKeeps(ms, steps, i);
    OnDisk(ms[i], id);
    if i > 0 {
      var m, step := ms[i - 1], steps[i - 1];
      RunKeeps(ms, steps, i - 1);
      assert ms[i - 1 + 1] == Do(m, step);
      if id !in m.tasks {
        SpawnedBecause(m, step, id);
      } else {
        KilledForFirstAsked(ms, steps, i - 1, id);
        GoesOn(m, step, id, FirstAsked(ms, steps, i - 1, id), FirstMarked(ms, steps, i - 1, id));
      }
    }
  }

  lemma OnDisk(m: Manager, id: Id)
    requires Inv(m) && id in m.tasks
    ensures id in m.disk && SameOutcome(m.disk[id], m.tasks[id].record)
  {
    assert TaskOk(m, id);
  }

  lemma GoesOn(m: Manager, step: Step, id: Id, asked: Option<Reason>, marked: Option<nat>)
    requires Inv(m) && id in m.tasks && id in Do(m, step).tasks && Because(m.tasks[id], asked, marked)
    ensures var e := m.tasks[id];
      Because(Do(m, step).tasks[id], Or(asked, AskedBy(e, step, id)), Or(marked, MarkedBy(e, step, id)))
  {
    hide Inv, Do, SameOutcome, StopReason;
    var e := m.tasks[id];
    if e.record.status.Running? {
      StepBecause(m, step, id);
    } else {
      StepFollows(m, step, id);
      SameBecause(e, Do(m, step).tasks[id], asked, marked);
    }
  }
}
