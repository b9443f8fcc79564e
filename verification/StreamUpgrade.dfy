/** The two models of an upgrade agree: what StreamModel does to a task's output and its
    subscription is what TaskRuns proves of the task's entry. */
module StreamUpgrade {
  import S = StreamModel
  import T = TaskState
  import R = TaskRuns

  /** `m` is the output side of the entry `e`, as far as one session is concerned. */
  ghost predicate Describes(m: S.Manager, e: T.Entry, session: string) {
    && m.delivered == e.delivered
    && (m.pumpsDone <==> !e.stdoutFd && !e.stderrFd)
    && (m.reaped <==> !T.HasRunner(e) && !e.lingering && T.IsTerminal(e.record.status))
    && (forall w | w in e.watchSessions :: w.0 == session ==> m.link == S.Carried(w.1))
    && (m.link.Carried? ==> (session, m.link.from) in e.watchSessions)
  }

  /** The new image is handed the entries whose output is live, and what it then knows of the
      output is what it knows of the entry. */
  lemma ExecAgrees(m: S.Manager, e: T.Entry, session: string, file: nat)
    requires Describes(m, e, session) && (m.link.Carried? || m.link.Unwatched?)
    ensures S.Live(m) <==> T.IsLive(e)
    ensures Describes(S.Exec(m), R.Reloaded(e, file), session)
  {
    hide S.Restart;
    RestartIsLocal(m);
  }

  /** So it is for every task of the registry. */
  lemma UpgradeAgrees(registry: T.Manager, id: T.Id, m: S.Manager, session: string, now: nat)
    requires R.Inv(registry) && id in registry.tasks
    requires Describes(m, registry.tasks[id], session) && (m.link.Carried? || m.link.Unwatched?)
    ensures var after := T.Do(registry, T.Upgrade(now));
      id in after.tasks && Describes(S.Exec(m), after.tasks[id], session)
  {
    hide Describes, R.Inv, R.Reloaded, S.Exec, T.Do;
    R.UpgradeStutters(registry, now);
    ExecAgrees(m, registry.tasks[id], session, FileOf(registry, id));
  }

  function FileOf(registry: T.Manager, id: T.Id): nat
    requires R.Inv(registry) && id in registry.tasks
  {
    registry.files[id]
  }

  /** A failed upgrade gives every entry back (TaskRuns.FailedUpgradeStutters), and the output side
      still describes it. */
  lemma ResumeAgrees(m: S.Manager, e: T.Entry, session: string)
    requires Describes(m, e, session) && R.EntryOk(e)
    ensures Describes(S.Restart(m), T.ParkTask(T.RestartTask(e)), session)
  {
    hide S.Restart, T.ParkTask, T.RestartTask, R.EntryOk;
    RestartIsLocal(m);
    R.ParkUndoesRestart(e);
  }

  lemma RestartIsLocal(m: S.Manager)
    ensures var r := S.Restart(m);
      r.delivered == m.delivered && r.pumpsDone == m.pumpsDone && r.reaped == m.reaped && r.link == m.link
  {}
}
