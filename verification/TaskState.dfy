/** The task state machine: what stop, timeout, session end, shutdown, natural exit, an
    in-place upgrade and a crash do to a task's entry and to its record on disk. One step
    is one critical section of the daemon's state lock. */
module TaskState {
  import opened Options
  import opened Utf8

  type Id = string

  datatype Status = Running | Completed | Failed | Killed | Orphaned

  datatype Reason =
    | Exited | TimedOut | RateLimit | SessionEnd | ManagerShutdown | ManagerCrash
    | Stopped(via: string)

  datatype ExitPhase = AwaitReport | AwaitRunnerExit | Done

  /** The record kept on disk, as far as it explains what became of the task. */
  datatype Record = Record(
    session: string,
    pid: nat,
    status: Status,
    exitCode: Option<int>,
    signal: Option<int>,
    startedAt: nat,
    endedAt: Option<nat>,
    outputSize: nat,
    backgroundedAt: Option<nat>,
    endReason: Option<Reason>)

  /** A task in memory. `child` is its runner while that is still to be reaped. */
  datatype Entry = Entry(
    record: Record,
    child: Option<nat>,
    statusFd: bool,
    statusPartial: seq<Byte>,
    stdoutFd: bool,
    stderrFd: bool,
    killRequested: bool,
    killReason: Option<Reason>,
    deadline: Option<nat>,
    timedOut: bool,
    killGraceUntil: Option<nat>,
    exitPhase: ExitPhase,
    lingering: bool,
    delivered: nat,
    watchSessions: seq<(string, nat)>)

  /** How a command ended, as far as it could be observed. */
  datatype Outcome = Outcome(code: Option<int>, signal: Option<int>)

  datatype Leftover = Nothing | Guarded | Probe

  const SIGKILL := 9
  const SIGTERM := 15
  const STOP_REASONS := ["tui", "cli", "tool", "timeout", "rate-limit", "session-end"]

  function EndReasonForStop(reason: Option<string>): Reason {
    match reason
    case Some("timeout") => TimedOut
    case Some("rate-limit") => RateLimit
    case Some("session-end") => SessionEnd
    case Some(r) => Stopped(r)
    case None => Stopped("tool")
  }

  predicate IsKill(r: Reason) {
    !r.Exited? && !r.ManagerCrash?
  }

  predicate IsTerminal(s: Status) {
    !s.Running?
  }

  function OwnsLiveGroup(e: Entry): bool {
    e.record.status.Running? || e.lingering
  }

  /** First reason wins; nothing happens to a finished task. */
  function RequestKill(e: Entry, r: Reason): Entry {
    if !e.record.status.Running? then e
    else e.(killRequested := true, killReason := if e.killReason.None? then Some(r) else e.killReason)
  }

  function TerminalStatus(killRequested: bool, o: Outcome): Status {
    if killRequested then Killed
    else
      match (o.code, o.signal)
      case (Some(c), _) => if c == 0 then Completed else Failed
      case (None, Some(_)) => Failed
      case (None, None) => Completed
  }

  /** A shell that reports 128 + signal after our own kill died of that signal. */
  function Normalized(killRequested: bool, o: Outcome): Outcome {
    if !killRequested || o.signal.Some? then o
    else
      match o.code
      case Some(c) =>
        if c == 128 + SIGTERM then Outcome(None, Some(SIGTERM))
        else if c == 128 + SIGKILL then Outcome(None, Some(SIGKILL))
        else o
      case None => o
  }

  function Finalize(e: Entry, file: nat, o: Outcome, leftover: Leftover, others: bool, now: nat): Entry {
    if IsTerminal(e.record.status) then e
    else
      var n := Normalized(e.killRequested, o);
      e.(record := e.record.(
           exitCode := n.code, signal := n.signal, endedAt := Some(now), outputSize := file,
           status := TerminalStatus(e.killRequested, n),
           endReason := Some(if e.killReason.Some? then e.killReason.value else Exited)),
         lingering := if leftover.Guarded? || (leftover.Probe? && others) then true else e.lingering)
  }

  /** The shutdown's last pass over whatever still runs. */
  function ForceFinalize(e: Entry, file: nat, now: nat): Entry {
    if IsTerminal(e.record.status) then e
    else e.(record := e.record.(
              status := Killed, endedAt := Some(now), outputSize := file,
              endReason := Some(if e.killReason.Some? then e.killReason.value else ManagerShutdown)))
  }

  /** An entry with no runner, pipes or timers. */
  function Bare(record: Record): Entry {
    Entry(record, None, false, [], false, false, false, None, None, false, None, Done, false, 0, [])
  }

  function NewRunning(record: Record, timeout: Option<nat>): Entry {
    Bare(record).(child := Some(record.pid), statusFd := true, stdoutFd := true, stderrFd := true,
                  deadline := if timeout.Some? then Some(record.startedAt + timeout.value) else None,
                  exitPhase := AwaitReport)
  }

  // ---- workers ----

  function HasRunner(e: Entry): bool {
    e.child.Some? && !e.exitPhase.Done?
  }

  /** The runner an exit watch waits for, with the status pipe and the bytes read from it. */
  datatype Watch = Watch(child: nat, statusFd: bool, statusPartial: seq<Byte>)

  /** A task at work: its pumps hold the pipes and its exit watch the runner, which its entry is
      without meanwhile. Everywhere else an entry stands for the task with all put back. */
  datatype Working = Working(entry: Entry, pumps: Option<(bool, bool)>, watch: Option<Watch>)

  /** `restart_task`: pumps if a pipe is left, an exit watch if there is a runner to be reaped. */
  function RestartTask(e: Entry): Working {
    var io, watched := e.stdoutFd || e.stderrFd, HasRunner(e);
    var entry := if io then e.(stdoutFd := false, stderrFd := false) else e;
    Working(
      if watched then entry.(child := None, statusFd := false, statusPartial := []) else entry,
      if io then Some((e.stdoutFd, e.stderrFd)) else None,
      if watched && (e.exitPhase.AwaitReport? ==> e.statusFd)
      then Some(Watch(e.child.value, e.statusFd, e.statusPartial)) else None)
  }

  /** `park_all`, for one task: everything is put back. */
  function ParkTask(w: Working): Entry {
    var e := if w.pumps.Some? then w.entry.(stdoutFd := w.pumps.value.0, stderrFd := w.pumps.value.1) else w.entry;
    match w.watch
    case None => e
    case Some(watch) =>
      e.(child := Some(watch.child), statusFd := watch.statusFd, statusPartial := watch.statusPartial)
  }

  // ---- the handover file ----

  datatype TaskSnap = TaskSnap(
    record: Record,
    killRequested: bool,
    killReason: Option<Reason>,
    deadline: Option<nat>,
    timedOut: bool,
    killGraceUntil: Option<nat>,
    exitPhase: ExitPhase,
    lingering: bool,
    runnerPid: Option<nat>,
    statusFd: bool,
    statusPartial: seq<Byte>,
    stdoutFd: bool,
    stderrFd: bool,
    delivered: nat,
    watchSessions: seq<(string, nat)>)

  /** Tasks with something alive go into the handover; the rest reload from disk. */
  function IsLive(e: Entry): bool {
    HasRunner(e) || e.stdoutFd || e.stderrFd || e.lingering || e.record.status.Running?
  }

  function Snap(e: Entry, file: nat): TaskSnap {
    TaskSnap(e.record.(outputSize := file), e.killRequested, e.killReason, e.deadline, e.timedOut,
             e.killGraceUntil, e.exitPhase, e.lingering, if HasRunner(e) then e.child else None,
             e.statusFd, e.statusPartial, e.stdoutFd, e.stderrFd, e.delivered, e.watchSessions)
  }

  function Restored(t: TaskSnap, file: nat): Entry {
    var e := Bare(t.record.(outputSize := file)).(
      killRequested := t.killRequested, killReason := t.killReason, deadline := t.deadline,
      timedOut := t.timedOut, killGraceUntil := t.killGraceUntil, exitPhase := t.exitPhase,
      lingering := t.lingering, child := t.runnerPid);
    e.(exitPhase := if e.child.None? then Done else e.exitPhase,
       statusFd := t.statusFd, statusPartial := t.statusPartial, stdoutFd := t.stdoutFd,
       stderrFd := t.stderrFd, delivered := t.delivered, watchSessions := t.watchSessions)
  }

  /** What the startup scan makes of a record it finds on disk. */
  function Scanned(r: Record, file: nat, now: nat): Record {
    var sized := r.(outputSize := if r.outputSize < file then file else r.outputSize);
    if r.status.Running?
    then sized.(status := Orphaned, endReason := Some(ManagerCrash), endedAt := Some(now))
    else sized
  }

  // ---- the daemon ----

  /** `files` are the lengths of the output files. */
  datatype Manager = Manager(tasks: map<Id, Entry>, disk: map<Id, Record>, files: map<Id, nat>)

  function Update(m: Manager, id: Id, e: Entry): Manager {
    m.(tasks := m.tasks[id := e], disk := m.disk[id := e.record])
  }

  function FileLen(m: Manager, id: Id): nat {
    if id in m.files then m.files[id] else 0
  }

  /** `carry_watches`: a session keeps the smaller of the cursors it was written up to. */
  function CarryWatch(ws: seq<(string, nat)>, session: string, cursor: nat): seq<(string, nat)> {
    if ws == [] then [(session, cursor)]
    else if ws[0].0 == session then [(session, if cursor < ws[0].1 then cursor else ws[0].1)] + ws[1..]
    else [ws[0]] + CarryWatch(ws[1..], session, cursor)
  }

  function DropWatch(ws: seq<(string, nat)>, session: string): seq<(string, nat)> {
    if ws == [] then []
    else if ws[0].0 == session then ws[1..]
    else [ws[0]] + DropWatch(ws[1..], session)
  }

  function EndSession(m: Manager, session: string): Manager {
    m.(tasks := map id | id in m.tasks ::
       if m.tasks[id].record.session == session && OwnsLiveGroup(m.tasks[id])
       then RequestKill(m.tasks[id], SessionEnd) else m.tasks[id])
  }

  function BeginShutdown(m: Manager): Manager {
    m.(tasks := map id | id in m.tasks :: RequestKill(m.tasks[id], ManagerShutdown))
  }

  function ForceAll(m: Manager, now: nat): Manager {
    m.(tasks := map id | id in m.tasks :: ForceFinalize(m.tasks[id], FileLen(m, id), now),
       disk := map id | id in m.disk ::
         if id in m.tasks && m.tasks[id].record.status.Running?
         then ForceFinalize(m.tasks[id], FileLen(m, id), now).record else m.disk[id])
  }

  /** Load what is on disk except `live`; running records are marked orphaned. */
  function ScanExcept(m: Manager, live: set<Id>, now: nat): Manager {
    m.(tasks := map id | id in m.disk.Keys - live :: Bare(Scanned(m.disk[id], FileLen(m, id), now)),
       disk := map id | id in m.disk ::
         if id !in live && m.disk[id].status.Running? then Scanned(m.disk[id], FileLen(m, id), now) else m.disk[id])
  }

  /** Everything the handover file carries. */
  function Snapshot(m: Manager): map<Id, TaskSnap> {
    map id | id in m.tasks && IsLive(m.tasks[id]) :: Snap(m.tasks[id], FileLen(m, id))
  }

  /** The new image: scan what is not live, then insert the restored entries. */
  function Restore(m: Manager, snaps: map<Id, TaskSnap>, now: nat): Manager {
    var scanned := ScanExcept(m, snaps.Keys, now);
    scanned.(tasks := scanned.tasks + map id | id in snaps :: Restored(snaps[id], FileLen(m, id)))
  }

  /** What can happen to one task. */
  datatype TaskStep =
    | StopAsked(reason: Option<string>)
    | MarkBackground(now: nat)
    | TimeoutFires
    | StatusRead(bytes: seq<Byte>)
    | ReportSeen(outcome: Outcome, linger: bool, now: nat)
    | RunnerGone(outcome: Outcome, leftover: Leftover, others: bool, now: nat)
    | GuardianExits
    | PipesEnd
    | GroupEmptied
    | Delivers(received: nat, delivered: nat)
    | GraceSet(due: Option<nat>)
    | WatchCarried(session: string, cursor: nat)
    | WatchResumed(session: string)

  function After(e: Entry, file: nat, step: TaskStep): Entry {
    match step
    case StopAsked(reason) =>
      if (reason.Some? && reason.value !in STOP_REASONS) || !OwnsLiveGroup(e) then e
      else RequestKill(e, EndReasonForStop(reason))
    case MarkBackground(now) =>
      if !e.record.status.Running? || e.record.backgroundedAt.Some? then e
      else e.(record := e.record.(backgroundedAt := Some(now)))
    case TimeoutFires =>
      if !e.exitPhase.AwaitReport? || e.timedOut || e.deadline.None? then e
      else RequestKill(e.(timedOut := true), TimedOut)
    case StatusRead(bytes) =>
      if !e.exitPhase.AwaitReport? then e else e.(statusPartial := e.statusPartial + bytes)
    case ReportSeen(outcome, linger, now) =>
      if !e.exitPhase.AwaitReport? then e
      else Finalize(e, file, outcome, if linger then Guarded else Nothing, false, now)
           .(exitPhase := AwaitRunnerExit, statusFd := false, statusPartial := [])
    case RunnerGone(outcome, leftover, others, now) =>
      if !e.exitPhase.AwaitReport? then e
      else Finalize(e, file, outcome, leftover, others, now)
           .(exitPhase := Done, child := None, statusFd := false, statusPartial := [])
    case GuardianExits =>
      if !e.exitPhase.AwaitRunnerExit? then e else e.(exitPhase := Done, child := None, lingering := false)
    case PipesEnd => e.(stdoutFd := false, stderrFd := false)
    case GroupEmptied => e.(lingering := false)
    case Delivers(received, delivered) =>
      if received > file then e
      else
        var size := e.record.outputSize;
        e.(delivered := delivered, record := e.record.(outputSize := if size < received then received else size))
    case GraceSet(due) => e.(killGraceUntil := due)
    case WatchCarried(session, cursor) => e.(watchSessions := CarryWatch(e.watchSessions, session, cursor))
    case WatchResumed(session) => e.(watchSessions := DropWatch(e.watchSessions, session))
  }

  /** The record is written with the steps that change what it says. */
  predicate Persists(e: Entry, step: TaskStep) {
    match step
    case MarkBackground(_) => e.record.status.Running? && e.record.backgroundedAt.None?
    case ReportSeen(_, _, _) => e.exitPhase.AwaitReport? && e.record.status.Running?
    case RunnerGone(_, _, _, _) => e.exitPhase.AwaitReport? && e.record.status.Running?
    case _ => false
  }

  datatype Step =
    | Spawn(id: Id, record: Record, timeout: Option<nat>)
    | At(id: Id, step: TaskStep)
    | Grows(id: Id, size: nat)
    | SessionEnds(session: string)
    | ShutdownBegins
    | ShutdownForces(now: nat)
    | Upgrade(now: nat)
    | UpgradeFails
    | Crash(now: nat)
    | Forget(id: Id)

  function OnTask(m: Manager, id: Id, step: TaskStep): Manager {
    if id !in m.tasks then m
    else
      var e := After(m.tasks[id], FileLen(m, id), step);
      if Persists(m.tasks[id], step) then Update(m, id, e) else m.(tasks := m.tasks[id := e])
  }

  function Do(m: Manager, step: Step): Manager {
    match step
    case Spawn(id, record, timeout) =>
      if id in m.tasks || id in m.disk then m
      else
        var r := record.(status := Running, exitCode := None, signal := None, endedAt := None, outputSize := 0,
                         backgroundedAt := None, endReason := None);
        Update(m.(files := m.files[id := 0]), id, NewRunning(r, timeout))
    case At(id, taskStep) => OnTask(m, id, taskStep)
    case Grows(id, size) => m.(files := m.files[id := FileLen(m, id) + size])
    case SessionEnds(session) => EndSession(m, session)
    case ShutdownBegins => BeginShutdown(m)
    case ShutdownForces(now) => ForceAll(m, now)
    case Upgrade(now) => Restore(m, Snapshot(m), now)
    case UpgradeFails => m.(tasks := map id | id in m.tasks :: ParkTask(RestartTask(m.tasks[id])))
    case Crash(now) => ScanExcept(m, {}, now)
    case Forget(id) =>
      if id !in m.tasks || OwnsLiveGroup(m.tasks[id]) then m
      else m.(tasks := m.tasks - {id}, disk := m.disk - {id})
  }

  function Empty(): Manager {
    Manager(map[], map[], map[])
  }

  ghost predicate Run(ms: seq<Manager>, steps: seq<Step>) {
    && |ms| == |steps| + 1 && ms[0] == Empty()
    && forall i | 0 <= i < |steps| :: ms[i + 1] == Do(ms[i], steps[i])
  }

  // ---- the sweeps, one task at a time ----

  function SizeOf(files: map<Id, nat>, id: Id): nat {
    if id in files then files[id] else 0
  }

  lemma ForceAllKeys(m: Manager, now: nat)
    ensures var t := ForceAll(m, now); t.tasks.Keys == m.tasks.Keys && t.disk.Keys == m.disk.Keys && t.files == m.files
  {}

  lemma ForceAllAt(m: Manager, id: Id, now: nat)
    requires id in m.tasks && id in m.disk
    ensures FileLen(m, id) == SizeOf(m.files, id)
    ensures var t := ForceAll(m, now);
      && id in t.tasks && t.tasks[id] == ForceFinalize(m.tasks[id], FileLen(m, id), now)
      && id in t.disk && t.disk[id] == if m.tasks[id].record.status.Running?
                                       then ForceFinalize(m.tasks[id], FileLen(m, id), now).record else m.disk[id]
  {
    hide ForceFinalize;
  }

  lemma EndSessionAt(m: Manager, session: string, id: Id)
    requires id in m.tasks
    ensures var t := EndSession(m, session);
      && t.tasks.Keys == m.tasks.Keys && t.disk == m.disk && t.files == m.files
      && t.tasks[id] == if m.tasks[id].record.session == session && OwnsLiveGroup(m.tasks[id])
                        then RequestKill(m.tasks[id], SessionEnd) else m.tasks[id]
  {
    hide RequestKill, OwnsLiveGroup;
  }

  lemma EndSessionKeys(m: Manager, session: string)
    ensures var t := EndSession(m, session); t.tasks.Keys == m.tasks.Keys && t.disk == m.disk && t.files == m.files
  {}

  lemma ScanKeys(m: Manager, live: set<Id>, now: nat)
    ensures var t := ScanExcept(m, live, now);
      t.tasks.Keys == m.disk.Keys - live && t.disk.Keys == m.disk.Keys && t.files == m.files
  {}

  lemma ScanAt(m: Manager, live: set<Id>, id: Id, now: nat)
    requires id in m.disk
    ensures FileLen(m, id) == SizeOf(m.files, id)
    ensures var t := ScanExcept(m, live, now);
      && (id !in live ==> id in t.tasks && t.tasks[id] == Bare(Scanned(m.disk[id], FileLen(m, id), now)))
      && id in t.disk && t.disk[id] == if id !in live && m.disk[id].status.Running?
                                       then Scanned(m.disk[id], FileLen(m, id), now) else m.disk[id]
  {
    hide Bare, Scanned;
  }

  lemma BeginShutdownAt(m: Manager, id: Id)
    requires id in m.tasks
    ensures var t := BeginShutdown(m);
      && t.tasks.Keys == m.tasks.Keys && t.disk == m.disk && t.files == m.files
      && t.tasks[id] == RequestKill(m.tasks[id], ManagerShutdown)
  {
    hide RequestKill;
  }
}
