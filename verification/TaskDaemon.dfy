/** The daemon's task table as it runs: each method is one handler or pass that updates the
    table and the records on disk in place, proved against TaskState. */
module TaskDaemon {
  import opened Options
  import opened TaskReasons
  import opened TaskState

  datatype StopAnswer = Ok | UnknownReason | NoSuchTask | Forbidden

  datatype Access = Extension(session: string) | Cli

  class Daemon {
    var tasks: map<Id, Entry>
    var disk: map<Id, Record>
    var files: map<Id, nat>

    function View(): Manager
      reads this
    {
      Manager(tasks, disk, files)
    }

    /** `handle_stop`; an extension's connection reaches its own session's tasks only. */
    method HandleStop(access: Access, id: Id, reason: Option<string>) returns (answer: StopAnswer)
      modifies this`tasks
      ensures View() == if answer.Ok? then OnTask(old(View()), id, StopAsked(reason)) else old(View())
      ensures answer.UnknownReason? <==> reason.Some? && reason.value !in STOP_REASONS
      ensures answer.NoSuchTask? <==> !answer.UnknownReason? && id !in old(tasks)
      ensures answer.Forbidden? <==>
              !answer.UnknownReason? && id in old(tasks)
              && access.Extension? && old(tasks)[id].record.session != access.session
      ensures answer.Ok? && old(tasks)[id].record.status.Running? ==>
                var first := old(tasks)[id].killReason;
                StopReason(reason).Some? && tasks[id].killRequested
                && tasks[id].killReason == (if first.Some? then first else StopReason(reason))
    {
      StopTable(reason);
      hide StopReason;
      if reason.Some? && reason.value !in STOP_REASONS {
        return UnknownReason;
      }
      if id !in tasks {
        return NoSuchTask;
      }
      if access.Extension? && tasks[id].record.session != access.session {
        return Forbidden;
      }
      var e := tasks[id];
      if !OwnsLiveGroup(e) {
        Unchanged(tasks, id);
        return Ok;
      }
      if e.record.status.Running? {
        var killReason := e.killReason;
        if killReason.None? {
          killReason := Some(EndReasonForStop(reason));
        }
        tasks := tasks[id := e.(killRequested := true, killReason := killReason)];
      } else {
        Unchanged(tasks, id);
      }
      return Ok;
    }

    /** `finalize_exit`, then `set_exit_phase`, for a task whose runner reported. */
    method ExitReported(id: Id, outcome: Outcome, linger: bool, now: nat)
      requires id in tasks && tasks[id].exitPhase.AwaitReport?
      modifies this
      ensures View() == OnTask(old(View()), id, ReportSeen(outcome, linger, now))
    {
      FinalizeExit(id, outcome, if linger then Guarded else Nothing, false, now);
      tasks := tasks[id := tasks[id].(exitPhase := AwaitRunnerExit, statusFd := false, statusPartial := [])];
    }

    /** `finalize_exit`: a second call finds the task terminal and does nothing. */
    method FinalizeExit(id: Id, outcome: Outcome, leftover: Leftover, others: bool, now: nat)
      requires id in tasks
      modifies this
      ensures files == old(files)
      ensures tasks == old(tasks)[id := old(Finalize(tasks[id], FileLen(View(), id), outcome, leftover, others, now))]
      ensures disk == if old(IsTerminal(tasks[id].record.status)) then old(disk) else old(disk)[id := tasks[id].record]
    {
      var e := tasks[id];
      if IsTerminal(e.record.status) {
        Unchanged(tasks, id);
        return;
      }
      var size := SizeOf(files, id);
      e := FinishEntry(e, size, outcome, leftover, others, now);
      hide Finalize;
      disk := disk[id := e.record];
      tasks := tasks[id := e];
    }

    /** `handle_shutdown_session`: every task of the session that may have processes left. */
    method ShutdownSession(session: string) returns (stopped: set<Id>)
      modifies this`tasks
      ensures View() == EndSession(old(View()), session)
      ensures stopped == RunningIn(old(tasks), session)
    {
      hide EndSession, RequestKill, OwnsLiveGroup;
      ghost var before, target := View(), EndSession(View(), session);
      EndSessionKeys(before, session);
      var todo := tasks.Keys;
      stopped := {};
      while todo != {}
        invariant tasks.Keys == before.tasks.Keys && todo <= before.tasks.Keys
        invariant Swept(tasks, before.tasks, target.tasks, todo)
        invariant stopped == RunningIn(before.tasks, session) - todo
        decreases todo
      {
        var id :| id in todo;
        todo := todo - {id};
        var e := tasks[id];
        EndSessionAt(before, session, id);
        if e.record.session == session && OwnsLiveGroup(e) {
          if e.record.status.Running? { stopped := stopped + {id}; }
          tasks := tasks[id := RequestKill(e, SessionEnd)];
        } else {
          RunningOwns(e);
        }
      }
      SweptAll(tasks, before.tasks, target.tasks);
    }

    /** The last pass of `graceful_shutdown`. */
    method ForcePass(now: nat)
      requires tasks.Keys == disk.Keys
      modifies this
      ensures View() == ForceAll(old(View()), now)
    {
      hide ForceAll, ForceFinalize, FileLen;
      ghost var before, target := View(), ForceAll(View(), now);
      ForceAllKeys(before, now);
      var todo := tasks.Keys;
      while todo != {}
        invariant files == before.files && todo <= before.tasks.Keys
        invariant tasks.Keys == before.tasks.Keys && disk.Keys == before.disk.Keys
        invariant Swept(tasks, before.tasks, target.tasks, todo)
        invariant Swept(disk, before.disk, target.disk, todo)
        decreases todo
      {
        var id :| id in todo;
        todo := todo - {id};
        var e := tasks[id];
        ForceAllAt(before, id, now);
        if e.record.status.Running? {
          e := ForceEntry(e, SizeOf(files, id), now);
          tasks := tasks[id := e];
          disk := disk[id := e.record];
        } else {
          ForceOnlyRunning(e, FileLen(before, id), now);
        }
      }
      SweptAll(tasks, before.tasks, target.tasks);
      SweptAll(disk, before.disk, target.disk);
    }

    /** `snapshot`. */
    method TakeSnapshot() returns (snaps: map<Id, TaskSnap>)
      ensures snaps == Snapshot(View())
    {
      var todo := tasks.Keys;
      snaps := map[];
      while todo != {}
        invariant todo <= tasks.Keys
        invariant snaps == map id | id in tasks.Keys - todo && IsLive(tasks[id]) :: Snap(tasks[id], FileLen(View(), id))
        decreases todo
      {
        var id :| id in todo;
        todo := todo - {id};
        var e := tasks[id];
        var hasRunner := e.child.Some? && !e.exitPhase.Done?;
        var hasPipes := e.stdoutFd || e.stderrFd;
        if hasRunner || hasPipes || e.lingering || e.record.status.Running? {
          snaps := snaps[id := Snap(e, SizeOf(files, id))];
        }
      }
    }

    /** `scan_tasks_except`. */
    method ScanTasksExcept(live: set<Id>, now: nat)
      modifies this`tasks, this`disk
      ensures View() == ScanExcept(old(View()), live, now)
    {
      hide ScanExcept, Scanned, Bare, FileLen;
      ghost var before, target := View(), ScanExcept(View(), live, now);
      ScanKeys(before, live, now);
      tasks := map[];
      var todo := disk.Keys;
      while todo != {}
        invariant files == before.files && disk.Keys == before.disk.Keys && todo <= before.disk.Keys
        invariant tasks.Keys == before.disk.Keys - todo - live
        invariant forall id | id in tasks :: tasks[id] == target.tasks[id]
        invariant Swept(disk, before.disk, target.disk, todo)
        decreases todo
      {
        var id :| id in todo;
        todo := todo - {id};
        ScanAt(before, live, id, now);
        if id !in live {
          var rec := ScanRecord(disk[id], SizeOf(files, id), now);
          if disk[id].status.Running? {
            disk := disk[id := rec];
          }
          tasks := tasks[id := Bare(rec)];
        }
      }
      SweptAll(disk, before.disk, target.disk);
    }

    /** The new image: scan, then put the handed-over entries back. */
    method RunRestored(snaps: map<Id, TaskSnap>, now: nat)
      modifies this`tasks, this`disk
      ensures View() == Restore(old(View()), snaps, now)
    {
      hide Restored, ScanExcept;
      ScanTasksExcept(snaps.Keys, now);
      ghost var scanned := tasks;
      ghost var restored := map id | id in snaps :: Restored(snaps[id], FileLen(old(View()), id));
      var todo := snaps.Keys;
      FilesAsBefore(old(View()), snaps.Keys, now);
      while todo != {}
        invariant files == old(files) && todo <= snaps.Keys
        invariant disk == ScanExcept(old(View()), snaps.Keys, now).disk
        invariant tasks.Keys == scanned.Keys + (snaps.Keys - todo)
        invariant forall id | id in tasks ::
                    tasks[id] == if id in snaps && id !in todo then restored[id] else scanned[id]
        decreases todo
      {
        var id :| id in todo;
        todo := todo - {id};
        tasks := tasks[id := Restored(snaps[id], SizeOf(files, id))];
      }
      assert tasks == scanned + restored;
    }
  }

  /** Everything outside `todo` has reached its new value; the rest is as before. */
  ghost predicate Swept<V>(now: map<Id, V>, before: map<Id, V>, target: map<Id, V>, todo: set<Id>)
    requires now.Keys == before.Keys == target.Keys
  {
    forall id | id in now :: now[id] == if id in todo then before[id] else target[id]
  }

  lemma SweptAll<V>(now: map<Id, V>, before: map<Id, V>, target: map<Id, V>)
    requires now.Keys == before.Keys == target.Keys && Swept(now, before, target, {})
    ensures now == target
  {}

  function RunningIn(tasks: map<Id, Entry>, session: string): set<Id> {
    set id | id in tasks && tasks[id].record.session == session && tasks[id].record.status.Running?
  }

  lemma RunningOwns(e: Entry)
    ensures e.record.status.Running? ==> OwnsLiveGroup(e)
  {}

  lemma FilesAsBefore(m: Manager, live: set<Id>, now: nat)
    ensures ScanExcept(m, live, now).files == m.files
    ensures ScanExcept(m, live, now).tasks.Keys !! live
  {}

  lemma Unchanged(tasks: map<Id, Entry>, id: Id)
    ensures id in tasks ==> tasks[id := tasks[id]] == tasks
  {}

  lemma ForceOnlyRunning(e: Entry, file: nat, now: nat)
    requires IsTerminal(e.record.status)
    ensures ForceFinalize(e, file, now) == e
  {}

  /** The record assembled field by field. */
  method FinishEntry(e: Entry, size: nat, outcome: Outcome, leftover: Leftover, others: bool, now: nat)
    returns (done: Entry)
    requires e.record.status.Running?
    ensures done == Finalize(e, size, outcome, leftover, others, now)
  {
    var n := Normalized(e.killRequested, outcome);
    var record := e.record.(exitCode := n.code, signal := n.signal, endedAt := Some(now), outputSize := size);
    record := record.(status := TerminalStatus(e.killRequested, n));
    record := record.(endReason := Some(match e.killReason { case Some(r) => r case None => Exited }));
    var lingering := e.lingering;
    match leftover {
      case Nothing =>
      case Guarded => lingering := true;
      case Probe => if others { lingering := true; }
    }
    done := e.(record := record, lingering := lingering);
  }

  method ForceEntry(e: Entry, size: nat, now: nat) returns (done: Entry)
    requires e.record.status.Running?
    ensures done == ForceFinalize(e, size, now)
  {
    var reason := match e.killReason { case Some(r) => r case None => ManagerShutdown };
    var record := e.record.(status := Killed, endedAt := Some(now), outputSize := size);
    done := e.(record := record.(endReason := Some(reason)));
  }

  method ScanRecord(r: Record, size: nat, now: nat) returns (rec: Record)
    ensures rec == Scanned(r, size, now)
  {
    rec := r.(outputSize := if r.outputSize < size then size else r.outputSize);
    if rec.status.Running? {
      rec := rec.(status := Orphaned);
      rec := rec.(endReason := Some(ManagerCrash), endedAt := Some(now));
    }
  }
}
