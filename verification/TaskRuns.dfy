/** Runs of TaskState: a task finishes once, for the reason its record gives, and an
    in-place upgrade goes unnoticed. */
module TaskRuns {
  import opened Options
  import opened TaskState

  /** Status and reason explain each other. */
  ghost predicate Explained(r: Record) {
    && (r.status.Running? <==> r.endReason.None?)
    && (r.status.Killed? <==> r.endReason.Some? && IsKill(r.endReason.value))
    && (r.status.Completed? || r.status.Failed? <==> r.endReason == Some(Exited))
    && (r.status.Orphaned? <==> r.endReason == Some(ManagerCrash))
    && (r.status.Running? <==> r.endedAt.None?)
    && (r.status.Completed? || r.status.Failed? ==>
          (r.status.Completed? <==> r.exitCode == Some(0) || (r.exitCode.None? && r.signal.None?)))
  }

  ghost predicate EntryOk(e: Entry) {
    && Explained(e.record)
    && (e.killRequested <==> e.killReason.Some?)
    && (e.killReason.Some? ==> IsKill(e.killReason.value))
    && (e.exitPhase.Done? <==> e.child.None?)
    && (e.exitPhase.AwaitReport? <==> e.statusFd)
    && (!e.exitPhase.AwaitReport? ==> e.statusPartial == [])
    && (e.record.status.Running? ==> e.exitPhase.AwaitReport? && !e.lingering)
  }

  /** The outcome a client can see; the output size may still grow. */
  predicate SameOutcome(a: Record, b: Record) {
    a.(outputSize := 0) == b.(outputSize := 0)
  }

  ghost predicate TaskOk(m: Manager, id: Id)
    requires id in m.tasks && id in m.disk && id in m.files
  {
    && EntryOk(m.tasks[id]) && SameOutcome(m.disk[id], m.tasks[id].record)
    && m.tasks[id].record.outputSize <= m.files[id] && m.disk[id].outputSize <= m.files[id]
  }

  ghost predicate Inv(m: Manager) {
    && m.tasks.Keys == m.disk.Keys && m.disk.Keys <= m.files.Keys
    && forall id | id in m.tasks :: TaskOk(m, id)
  }

  // ---- one entry ----

  lemma KillKeeps(e: Entry, r: Reason)
    requires EntryOk(e) && IsKill(r)
    ensures EntryOk(RequestKill(e, r)) && RequestKill(e, r).record == e.record
  {}

  lemma StopIsKill(reason: Option<string>)
    ensures IsKill(EndReasonForStop(reason))
  {}

  /** Finishing explains the record: by the first requested kill, or as an exit. What was observed
      is recorded as it was, except that a killed shell's 143 and 137 are the signals they
      stand for. The task lingers if a guardian stays or others are found in its group. */
  lemma FinalizeKeeps(e: Entry, file: nat, o: Outcome, leftover: Leftover, others: bool, now: nat)
    requires EntryOk(e) && e.record.status.Running?
    ensures var e' := Finalize(e, file, o, leftover, others, now);
      && Explained(e'.record) && IsTerminal(e'.record.status) && e'.record.outputSize == file
      && e'.record.endReason == (if e.killReason.Some? then e.killReason else Some(Exited))
      && (e'.record.status.Killed? <==> e.killRequested)
      && e'.record.endedAt == Some(now)
      && Outcome(e'.record.exitCode, e'.record.signal) ==
         (if e.killRequested && o == Outcome(Some(143), None) then Outcome(None, Some(15))
          else if e.killRequested && o == Outcome(Some(137), None) then Outcome(None, Some(9))
          else o)
      && (e'.lingering <==> leftover.Guarded? || (leftover.Probe? && others))
  {}

  lemma ForceKeeps(e: Entry, file: nat, now: nat)
    requires EntryOk(e)
    ensures var r := ForceFinalize(e, file, now).record;
      && Explained(r) && IsTerminal(r.status)
      && (e.record.status.Running? ==>
            r.status.Killed? && r.endReason == (if e.killReason.Some? then e.killReason else Some(ManagerShutdown)))
  {}

  // ---- upgrade ----

  /** The handover file loses nothing: the restored entry is the parked one. */
  lemma RestoreUndoesSnap(e: Entry, file: nat)
    requires EntryOk(e)
    ensures Restored(Snap(e, file), file) == e.(record := e.record.(outputSize := file))
  {}

  /** The upgrade is a stutter step: every live task keeps its whole entry and every other
      its record, but for an output size brought up to the file's; no task is orphaned. */
  lemma UpgradeStutters(m: Manager, now: nat)
    requires Inv(m)
    ensures var m' := Do(m, Upgrade(now));
      && m'.tasks.Keys == m.tasks.Keys && m'.disk == m.disk && m'.files == m.files
      && forall id | id in m.tasks :: m'.tasks[id] == Reloaded(m.tasks[id], m.files[id])
  {
    hide TaskOk, Reloaded, Snapshot, Restore;
    UpgradeKeys(m, now);
    var m' := Restore(m, Snapshot(m), now);
    forall id | id in m.tasks ensures m'.tasks[id] == Reloaded(m.tasks[id], m.files[id]) && m'.disk[id] == m.disk[id] {
      UpgradeAt(m, id, now);
    }
    assert m'.disk == m.disk;
  }

  /** In particular an entry with a runner to be reaped, a pipe, a leftover group or a running
      record comes through whole, and of any other the record alone. */
  lemma AliveIsKept(m: Manager, id: Id, now: nat)
    requires Inv(m) && id in m.tasks
    ensures var e, m' := m.tasks[id], Do(m, Upgrade(now));
      var alive := e.stdoutFd || e.stderrFd || e.lingering || e.record.status.Running?
                   || (e.child.Some? && !e.exitPhase.Done?);
      && id in m.files && id in m'.tasks
      && var record := e.record.(outputSize := m.files[id]);
         m'.tasks[id] == if alive then e.(record := record) else Bare(record)
  {
    hide TaskOk, Restore, Snapshot;
    UpgradeStutters(m, now);
  }

  /** What resuming a parked task takes from its entry, the next park puts back; it is at work
      on its pipes if it has any and on its runner if that is to be reaped. */
  lemma ParkUndoesRestart(e: Entry)
    requires EntryOk(e)
    ensures ParkTask(RestartTask(e)) == e
    ensures RestartTask(e).pumps.Some? <==> e.stdoutFd || e.stderrFd
    ensures RestartTask(e).watch.Some? <==> !e.exitPhase.Done?
  {
    RunnerIsWatched(e);
    hide EntryOk, HasRunner;
    PutBack(e);
  }

  lemma RunnerIsWatched(e: Entry)
    requires EntryOk(e)
    ensures HasRunner(e) <==> !e.exitPhase.Done?
    ensures HasRunner(e) && e.exitPhase.AwaitReport? ==> e.statusFd
  {
    hide Explained, IsKill;
  }

  lemma PutBack(e: Entry)
    requires HasRunner(e) && e.exitPhase.AwaitReport? ==> e.statusFd
    ensures ParkTask(RestartTask(e)) == e
  {
    var io := e.stdoutFd || e.stderrFd;
    var piped := if io then e.(stdoutFd := false, stderrFd := false) else e;
    assert piped.(stdoutFd := e.stdoutFd, stderrFd := e.stderrFd) == e;
  }

  /** An upgrade that fails once the tasks are parked, in the snapshot, in writing it or in the
      exec, resumes them: nothing at all has changed. */
  lemma FailedUpgradeStutters(m: Manager)
    requires Inv(m)
    ensures Do(m, UpgradeFails) == m
  {
    hide EntryOk, RestartTask, ParkTask;
    var m' := Do(m, UpgradeFails);
    forall id | id in m.tasks ensures m'.tasks[id] == m.tasks[id] {
      assert TaskOk(m, id);
      ParkUndoesRestart(m.tasks[id]);
    }
    assert m'.tasks == m.tasks;
  }

  /** What an upgrade makes of a parked entry. */
  function Reloaded(e: Entry, file: nat): Entry {
    var record := e.record.(outputSize := file);
    if IsLive(e) then e.(record := record) else Bare(record)
  }

  lemma UpgradeKeys(m: Manager, now: nat)
    requires m.tasks.Keys == m.disk.Keys
    ensures var m' := Restore(m, Snapshot(m), now);
      m'.tasks.Keys == m.tasks.Keys && m'.disk.Keys == m.disk.Keys && m'.files == m.files
  {
    hide IsLive, Snap, Restored, Scanned, Bare;
  }

  lemma UpgradeAt(m: Manager, id: Id, now: nat)
    requires m.tasks.Keys == m.disk.Keys <= m.files.Keys && id in m.tasks && TaskOk(m, id)
    ensures var m' := Restore(m, Snapshot(m), now);
      && id in m'.tasks && m'.tasks[id] == Reloaded(m.tasks[id], m.files[id])
      && id in m'.disk && m'.disk[id] == m.disk[id]
  {
    hide IsLive, Snap, Restored, Scanned, Bare, EntryOk, SameOutcome;
    var e, file := m.tasks[id], m.files[id];
    if IsLive(e) {
      assert id in Snapshot(m);
      RestoreUndoesSnap(e, file);
    } else {
      assert id !in Snapshot(m);
      IdleIsFinished(e, m.disk[id]);
      ScanOfFinished(m.disk[id], e.record, file, now);
    }
  }

  lemma IdleIsFinished(e: Entry, onDisk: Record)
    requires !IsLive(e) && SameOutcome(onDisk, e.record)
    ensures IsTerminal(onDisk.status)
  {}

  lemma ScanOfFinished(r: Record, inMemory: Record, file: nat, now: nat)
    requires SameOutcome(r, inMemory) && IsTerminal(r.status) && r.outputSize <= file
    ensures Scanned(r, file, now) == inMemory.(outputSize := file)
  {}

  // ---- every step ----

  ghost predicate Kept(e: Entry, file: nat, step: TaskStep) {
    var e' := After(e, file, step);
    EntryOk(e') && e'.record.outputSize <= file && (Persists(e, step) || SameOutcome(e'.record, e.record))
  }

  lemma AfterKeeps(e: Entry, file: nat, step: TaskStep)
    requires EntryOk(e) && e.record.outputSize <= file
    ensures Kept(e, file, step)
  {
    hide EntryOk, Kept;
    match step
    case StopAsked(_) => KillStepKeeps(e, file, step);
    case TimeoutFires => KillStepKeeps(e, file, step);
    case ReportSeen(_, _, _) => FinishStepKeeps(e, file, step);
    case RunnerGone(_, _, _, _) => FinishStepKeeps(e, file, step);
    case _ => OtherStepKeeps(e, file, step);
  }

  lemma KillStepKeeps(e: Entry, file: nat, step: TaskStep)
    requires EntryOk(e) && e.record.outputSize <= file && (step.StopAsked? || step.TimeoutFires?)
    ensures Kept(e, file, step)
  {
    hide RequestKill, EndReasonForStop, OwnsLiveGroup;
    if step.StopAsked? {
      StopIsKill(step.reason);
      KillKeeps(e, EndReasonForStop(step.reason));
    } else {
      KillKeeps(e.(timedOut := true), TimedOut);
    }
  }

  lemma FinishStepKeeps(e: Entry, file: nat, step: TaskStep)
    requires EntryOk(e) && e.record.outputSize <= file && (step.ReportSeen? || step.RunnerGone?)
    ensures Kept(e, file, step)
  {}

  lemma OtherStepKeeps(e: Entry, file: nat, step: TaskStep)
    requires EntryOk(e) && e.record.outputSize <= file
    requires !step.StopAsked? && !step.TimeoutFires? && !step.ReportSeen? && !step.RunnerGone?
    ensures Kept(e, file, step)
  {
    hide CarryWatch, DropWatch;
  }

  lemma OnTaskKeeps(m: Manager, id: Id, step: TaskStep)
    requires Inv(m)
    ensures Inv(OnTask(m, id, step))
  {
    hide EntryOk, After, Persists;
    if id in m.tasks {
      var m' := OnTask(m, id, step);
      assert TaskOk(m, id);
      AfterKeeps(m.tasks[id], m.files[id], step);
      forall other | other in m'.tasks ensures TaskOk(m', other) {
        if other != id { assert TaskOk(m, other); }
      }
    }
  }

  lemma SpawnKeeps(m: Manager, id: Id, record: Record, timeout: Option<nat>)
    requires Inv(m)
    ensures Inv(Do(m, Spawn(id, record, timeout)))
  {
    hide EntryOk;
    var m' := Do(m, Spawn(id, record, timeout));
    forall other | other in m'.tasks ensures TaskOk(m', other) {
      if other in m.tasks { assert TaskOk(m, other); } else { SpawnedOk(m'.tasks[other].record, timeout); }
    }
  }

  lemma SpawnedOk(r: Record, timeout: Option<nat>)
    requires r.status.Running? && r.endReason.None? && r.endedAt.None?
    ensures EntryOk(NewRunning(r, timeout))
  {}

  lemma FileStepKeeps(m: Manager, step: Step)
    requires Inv(m) && (step.Grows? || step.Forget?)
    ensures Inv(Do(m, step))
  {
    hide EntryOk;
    var m' := Do(m, step);
    forall id | id in m'.tasks ensures id in m'.disk && id in m'.files && TaskOk(m', id) { assert TaskOk(m, id); }
  }

  /** Session end, shutdown and its last pass, over all tasks at once. */
  lemma SweepKeeps(m: Manager, step: Step)
    requires Inv(m) && (step.SessionEnds? || step.ShutdownBegins? || step.ShutdownForces?)
    ensures Inv(Do(m, step))
  {
    hide EntryOk, RequestKill, ForceFinalize, EndSession, BeginShutdown, ForceAll, OwnsLiveGroup;
    var m' := Do(m, step);
    SweepKeys(m, step);
    forall id | id in m'.tasks ensures TaskOk(m', id) {
      assert TaskOk(m, id);
      SweptEntry(m.tasks[id], m.files[id], step);
      match step
      case SessionEnds(session) => EndSessionAt(m, session, id);
      case ShutdownBegins => BeginShutdownAt(m, id);
      case ShutdownForces(now) => ForceAllAt(m, id, now);
    }
  }

  lemma SweepKeys(m: Manager, step: Step)
    requires step.SessionEnds? || step.ShutdownBegins? || step.ShutdownForces?
    ensures var m' := Do(m, step); m'.tasks.Keys == m.tasks.Keys && m'.disk.Keys == m.disk.Keys && m'.files == m.files
  {
    hide RequestKill, ForceFinalize;
  }

  lemma SweptEntry(e: Entry, file: nat, step: Step)
    requires EntryOk(e) && e.record.outputSize <= file
    ensures EntryOk(RequestKill(e, SessionEnd)) && RequestKill(e, SessionEnd).record == e.record
    ensures EntryOk(RequestKill(e, ManagerShutdown)) && RequestKill(e, ManagerShutdown).record == e.record
    ensures step.ShutdownForces? ==>
              var f := ForceFinalize(e, file, step.now);
              EntryOk(f) && f.record.outputSize <= file && (!e.record.status.Running? ==> f == e)
  {}

  lemma StepKeeps(m: Manager, step: Step)
    requires Inv(m)
    ensures Inv(Do(m, step))
  {
    hide Inv;
    match step
    case Spawn(id, record, timeout) => SpawnKeeps(m, id, record, timeout);
    case At(id, taskStep) => OnTaskKeeps(m, id, taskStep);
    case Grows(_, _) => FileStepKeeps(m, step);
    case Forget(_) => FileStepKeeps(m, step);
    case SessionEnds(_) => SweepKeeps(m, step);
    case ShutdownBegins => SweepKeeps(m, step);
    case ShutdownForces(_) => SweepKeeps(m, step);
    case Upgrade(now) => UpgradeKeeps(m, now);
    case UpgradeFails => FailedUpgradeStutters(m);
    case Crash(now) => CrashKeeps(m, now);
  }

  lemma UpgradeKeeps(m: Manager, now: nat)
    requires Inv(m)
    ensures Inv(Do(m, Upgrade(now)))
  {
    hide Do, EntryOk, Reloaded;
    UpgradeStutters(m, now);
    var m' := Do(m, Upgrade(now));
    forall id | id in m'.tasks ensures id in m'.disk && id in m'.files && TaskOk(m', id) {
      assert TaskOk(m, id);
      ReloadedOk(m.tasks[id], m.files[id]);
    }
  }

  lemma ReloadedOk(e: Entry, file: nat)
    requires EntryOk(e)
    ensures EntryOk(Reloaded(e, file)) && Reloaded(e, file).record == e.record.(outputSize := file)
  {}

  lemma CrashKeeps(m: Manager, now: nat)
    requires Inv(m)
    ensures Inv(Do(m, Crash(now)))
  {
    hide EntryOk, Scanned, ScanExcept, Bare;
    var m' := ScanExcept(m, {}, now);
    ScanKeys(m, {}, now);
    forall id | id in m'.tasks ensures TaskOk(m', id) {
      assert TaskOk(m, id);
      ScanAt(m, {}, id, now);
      ScannedOk(m.disk[id], m.tasks[id], m.files[id], now);
    }
  }

  lemma ScannedOk(r: Record, e: Entry, file: nat, now: nat)
    requires EntryOk(e) && SameOutcome(r, e.record) && r.outputSize <= file
    ensures EntryOk(Bare(Scanned(r, file, now))) && Scanned(r, file, now).outputSize <= file
    ensures IsTerminal(r.status) ==> SameOutcome(r, Scanned(r, file, now))
    ensures Bare(Scanned(r, file, now)).record == Scanned(r, file, now)
  {}

  // ---- runs ----

  lemma {:induction false} RunKeeps(ms: seq<Manager>, steps: seq<Step>, i: nat)
    requires Run(ms, steps) && i <= |steps|
    ensures Inv(ms[i])
  {
    hide Inv, Do;
    if i == 0 {
      EmptyOk();
    } else {
      RunKeeps(ms, steps, i - 1);
      StepKeeps(ms[i - 1], steps[i - 1]);
      assert ms[i - 1 + 1] == Do(ms[i - 1], steps[i - 1]);
    }
  }

  lemma EmptyOk()
    ensures Inv(Empty())
  {}

  /** `later` may follow `earlier` in a run that keeps the task. */
  ghost predicate Follows(earlier: Entry, later: Entry, crashed: bool) {
    && (IsTerminal(earlier.record.status) ==> SameOutcome(later.record, earlier.record))
    && (earlier.record.status.Running? && earlier.killReason.Some? ==>
          if later.record.status.Running? then later.killReason == earlier.killReason
          else
            || later.record.endReason == earlier.killReason
            || (crashed && later.record.endReason == Some(ManagerCrash)))
    && (later.record.status.Running? ==> earlier.record.status.Running?)
  }

  lemma AfterFollows(e: Entry, file: nat, step: TaskStep)
    requires EntryOk(e)
    ensures Follows(e, After(e, file, step), false)
  {
    hide CarryWatch, DropWatch;
  }

  lemma KillFollows(e: Entry, r: Reason)
    requires EntryOk(e)
    ensures Follows(e, RequestKill(e, r), false)
  {}

  lemma ForceFollows(e: Entry, file: nat, now: nat)
    requires EntryOk(e)
    ensures Follows(e, ForceFinalize(e, file, now), false)
  {}

  lemma ReloadFollows(e: Entry, file: nat)
    requires EntryOk(e)
    ensures Follows(e, Reloaded(e, file), false)
  {}

  lemma CrashFollows(e: Entry, r: Record, file: nat, now: nat)
    requires EntryOk(e) && SameOutcome(r, e.record)
    ensures Follows(e, Bare(Scanned(r, file, now)), true)
  {}

  lemma StepFollows(m: Manager, step: Step, id: Id)
    requires Inv(m) && id in m.tasks && id in Do(m, step).tasks
    ensures Follows(m.tasks[id], Do(m, step).tasks[id], step.Crash?)
  {
    hide EntryOk, After, Follows, RequestKill, ForceFinalize, Scanned, Persists, Reloaded, Restore, Snapshot, Bare,
         EndSession, BeginShutdown, ForceAll, ScanExcept, OwnsLiveGroup, ParkTask, RestartTask, SameOutcome;
    assert TaskOk(m, id);
    var e, file := m.tasks[id], m.files[id];
    SameFollows(e);
    match step
    case At(_, taskStep) => AfterFollows(e, file, taskStep);
    case SessionEnds(session) => EndSessionAt(m, session, id); KillFollows(e, SessionEnd);
    case ShutdownBegins => BeginShutdownAt(m, id); KillFollows(e, ManagerShutdown);
    case ShutdownForces(now) => ForceAllAt(m, id, now); ForceFollows(e, file, now);
    case Upgrade(now) => UpgradeStutters(m, now); ReloadFollows(e, file);
    case UpgradeFails => FailedUpgradeStutters(m);
    case Crash(now) => ScanAt(m, {}, id, now); CrashFollows(e, m.disk[id], file, now);
    case _ =>
  }

  lemma SameFollows(e: Entry)
    ensures Follows(e, e, false)
  {}

  lemma FollowsTransitive(a: Entry, b: Entry, c: Entry, x: bool, y: bool)
    requires Follows(a, b, x) && Follows(b, c, y)
    ensures Follows(a, c, x || y)
  {}

  ghost predicate CrashBetween(steps: seq<Step>, i: nat, j: nat) {
    exists k :: i <= k < j && k < |steps| && steps[k].Crash?
  }

  /** Over every run: a finished task never changes its outcome, nothing runs again, and the
      first requested kill is the reason recorded unless the daemon crashes first. */
  lemma {:induction false} FinishesOnce(ms: seq<Manager>, steps: seq<Step>, i: nat, j: nat, id: Id)
    requires Run(ms, steps) && i <= j <= |steps| && forall k | i <= k <= j :: id in ms[k].tasks
    ensures Follows(ms[i].tasks[id], ms[j].tasks[id], CrashBetween(steps, i, j))
    decreases j - i
  {
    hide Inv, Do, Follows;
    if i == j {
      SameFollows(ms[i].tasks[id]);
      FollowsWeaken(ms[i].tasks[id], ms[j].tasks[id], CrashBetween(steps, i, j));
    } else {
      FinishesOnce(ms, steps, i, j - 1, id);
      RunKeeps(ms, steps, j - 1);
      assert ms[j - 1 + 1] == Do(ms[j - 1], steps[j - 1]);
      StepFollows(ms[j - 1], steps[j - 1], id);
      FollowsTransitive(ms[i].tasks[id], ms[j - 1].tasks[id], ms[j].tasks[id],
                        CrashBetween(steps, i, j - 1), steps[j - 1].Crash?);
      FollowsWeaken(ms[i].tasks[id], ms[j].tasks[id], CrashBetween(steps, i, j));
    }
  }

  lemma FollowsWeaken(a: Entry, b: Entry, crashed: bool)
    requires Follows(a, b, crashed) || Follows(a, b, false)
    ensures Follows(a, b, crashed)
  {}

  /** A task is forgotten only when asked for, once it is over and nothing is left in its group. */
  lemma ForgottenWhenIdle(m: Manager, step: Step, id: Id)
    requires Inv(m) && id in m.tasks
    ensures id !in Do(m, step).tasks <==>
            step == Forget(id) && !m.tasks[id].record.status.Running? && !m.tasks[id].lingering
  {
    hide After, Persists, TaskOk, Snapshot, Restore, ScanExcept, EndSession, BeginShutdown, ForceAll;
    match step
    case Upgrade(now) => UpgradeStutters(m, now);
    case Crash(now) => ScanKeys(m, {}, now);
    case SessionEnds(_) => SweepKeys(m, step);
    case ShutdownBegins => SweepKeys(m, step);
    case ShutdownForces(_) => SweepKeys(m, step);
    case _ =>
  }

  // ---- carried subscriptions ----

  /** The cursor a session's subscription was carried from. */
  function CarriedFrom(ws: seq<(string, nat)>, session: string): Option<nat> {
    if ws == [] then None else if ws[0].0 == session then Some(ws[0].1) else CarriedFrom(ws[1..], session)
  }

  ghost predicate OneEach(ws: seq<(string, nat)>) {
    forall i, j | 0 <= i < j < |ws| :: ws[i].0 != ws[j].0
  }

  /** A session that two connections watched is carried from the lower of their cursors, and no other
      is touched. */
  lemma {:induction false} CarriedLowest(ws: seq<(string, nat)>, session: string, cursor: nat, other: string)
    ensures var before, more := CarriedFrom(ws, session), CarryWatch(ws, session, cursor);
      && CarriedFrom(more, session) == Some(if before.Some? && before.value < cursor then before.value else cursor)
      && (other != session ==> CarriedFrom(more, other) == CarriedFrom(ws, other))
  {
    if ws != [] { CarriedLowest(ws[1..], session, cursor, other); }
  }

  lemma {:induction false} OneEachStays(ws: seq<(string, nat)>, session: string, cursor: nat)
    requires OneEach(ws)
    ensures var more := CarryWatch(ws, session, cursor);
      OneEach(more) && forall w | w in more :: w.0 == session || exists v :: v in ws && v.0 == w.0
  {
    if ws != [] && ws[0].0 != session {
      OneEachStays(ws[1..], session, cursor);
      var rest := CarryWatch(ws[1..], session, cursor);
      forall w | w in rest ensures w.0 != ws[0].0 {
        if w.0 != session {
          var v :| v in ws[1..] && v.0 == w.0;
        }
      }
      assert CarryWatch(ws, session, cursor)[1..] == rest;
    }
  }

  /** Resuming takes the session's cursor out, and no other. */
  lemma {:induction false} ResumedOnce(ws: seq<(string, nat)>, session: string, other: string)
    requires OneEach(ws)
    ensures var fewer := DropWatch(ws, session);
      && CarriedFrom(fewer, session).None?
      && (other != session ==> CarriedFrom(fewer, other) == CarriedFrom(ws, other))
  {
    if ws != [] {
      if ws[0].0 == session { NotCarried(ws[1..], session); } else { ResumedOnce(ws[1..], session, other); }
    }
  }

  lemma {:induction false} NotCarried(ws: seq<(string, nat)>, session: string)
    requires forall i | 0 <= i < |ws| :: ws[i].0 != session
    ensures CarriedFrom(ws, session).None?
  {
    if ws != [] { NotCarried(ws[1..], session); }
  }

  /** In every state of every run each task's record, in memory and on disk, says why it is
      as it is. */
  lemma AlwaysExplained(ms: seq<Manager>, steps: seq<Step>, i: nat, id: Id)
    requires Run(ms, steps) && i <= |steps| && id in ms[i].tasks
    ensures id in ms[i].disk && Explained(ms[i].tasks[id].record) && SameOutcome(ms[i].disk[id], ms[i].tasks[id].record)
  {
    RunKeeps(ms, steps, i);
    assert TaskOk(ms[i], id);
  }
}
