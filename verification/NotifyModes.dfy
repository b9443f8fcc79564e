/** Runs of Notify: how each wake is sent, and that none waits longer than it has to. */
module NotifyModes {
  import opened Options
  import opened Notify
  import opened NotifyRuns

  // ---- what asks for a mode ----

  ghost predicate QuietOf(steps: seq<Step>, task: Id) {
    exists step | step in steps :: QuietAbout(step, task)
  }

  ghost predicate Asked(steps: seq<Step>, w: Wake, passive: bool) {
    exists step | step in steps :: step.Notified? && step.wake == w && step.passive == passive
  }

  /** The wake was asked for without a turn, or tells quiet output. */
  ghost predicate MayBePassive(steps: seq<Step>, w: Wake) {
    Asked(steps, w, true) || (w.Event? && QuietOf(steps, w.task))
  }

  /** The monitor printed this, and not quietly. */
  ghost predicate Printed(steps: seq<Step>, task: Id, at: nat) {
    exists step | step in steps :: step.Output? && !step.quiet && step.e.task == task && step.e.at == at
  }

  /** The wake was asked for with a turn, or its last line was not quiet, or it tells exits. */
  ghost predicate MayBeActive(steps: seq<Step>, w: Wake) {
    Asked(steps, w, false) || (w.Event? && Printed(steps, w.task, w.at)) || w.Tasks?
  }

  lemma StillAsked(steps: seq<Step>, step: Step, w: Wake)
    ensures MayBePassive(steps, w) ==> MayBePassive(steps + [step], w)
    ensures MayBeActive(steps, w) ==> MayBeActive(steps + [step], w)
  {
    assert forall s | s in steps :: s in steps + [step];
  }

  lemma StillPrinted(steps: seq<Step>, step: Step, task: Id, at: nat)
    ensures Printed(steps, task, at) ==> Printed(steps + [step], task, at)
    ensures step.Output? && !step.quiet && step.e.task == task && step.e.at == at ==> Printed(steps + [step], task, at)
  {
    assert forall s | s in steps :: s in steps + [step];
    assert step in steps + [step];
  }

  lemma StillQuiet(steps: seq<Step>, step: Step, task: Id)
    ensures QuietOf(steps, task) ==> QuietOf(steps + [step], task)
    ensures QuietAbout(step, task) ==> QuietOf(steps + [step], task)
  {
    assert forall s | s in steps :: s in steps + [step];
    assert step in steps + [step];
  }

  // ---- the invariant ----

  /** An idle host is triggered and a busy one steered, by the answer to the wake's own question. */
  ghost predicate Sound(o: Oracle, steps: seq<Step>, s: Sent) {
    if s.mode.Passive? then s.question == None && MayBePassive(steps, s.wake)
    else s.question.Some? && (s.mode.Trigger? <==> o(s.question.value)) && MayBeActive(steps, s.wake)
  }

  ghost predicate OwnQuestions(sent: seq<Sent>, asked: nat) {
    && (forall i | 0 <= i < |sent| && sent[i].question.Some? :: sent[i].question.value < asked)
    && (forall i, j | 0 <= i < j < |sent| && sent[i].question.Some? && sent[j].question.Some? ::
          sent[i].question.value < sent[j].question.value)
  }

  ghost predicate Modes(c: Center, o: Oracle, steps: seq<Step>) {
    && Unique(c.pendingMonitors)
    && (forall s | s in c.sent :: Sound(o, steps, s))
    && OwnQuestions(c.sent, c.asked)
    && (forall w | w in c.held :: MayBePassive(steps, w))
    && (forall t {:trigger Lookup(c.pendingMonitors, t)} | Lookup(c.pendingMonitors, t).Some? ::
          ItemOk(steps, t, Lookup(c.pendingMonitors, t).value))
  }

  ghost predicate ItemOk(steps: seq<Step>, task: Id, item: Item) {
    && item.task == task
    && if item.quiet then QuietOf(steps, task) else Printed(steps, task, item.at)
  }

  lemma ModesGrow(c: Center, o: Oracle, steps: seq<Step>, step: Step)
    requires Modes(c, o, steps)
    ensures Modes(c, o, steps + [step])
  {
    hide MayBePassive, MayBeActive, QuietOf, Printed, Lookup;
    var more := steps + [step];
    forall s | s in c.sent ensures Sound(o, more, s) { StillAsked(steps, step, s.wake); }
    forall w | w in c.held ensures MayBePassive(more, w) { StillAsked(steps, step, w); }
    forall t | Lookup(c.pendingMonitors, t).Some? ensures ItemOk(more, t, Lookup(c.pendingMonitors, t).value) {
      StillQuiet(steps, step, t);
      StillPrinted(steps, step, t, Lookup(c.pendingMonitors, t).value.at);
    }
  }

  lemma DeliverModes(c: Center, o: Oracle, steps: seq<Step>, w: Wake, passive: bool)
    requires Modes(c, o, steps) && (if passive then MayBePassive(steps, w) else MayBeActive(steps, w))
    ensures Modes(Deliver(c, o, w, passive), o, steps)
  {
    hide MayBePassive, MayBeActive, ItemOk, Lookup, Unique;
    var d := Deliver(c, o, w, passive);
    var s := d.sent[|c.sent|];
    assert d.sent == c.sent + [s];
    assert Sound(o, steps, s);
    forall x | x in d.sent ensures Sound(o, steps, x) { assert x in c.sent || x == s; }
  }

  lemma HoldModes(c: Center, o: Oracle, steps: seq<Step>, w: Wake)
    requires Modes(c, o, steps) && MayBePassive(steps, w)
    ensures Modes(c.(held := c.held + [w]), o, steps)
  {
    hide Sound, MayBePassive, ItemOk, Lookup, Unique;
  }

  /** More questions, and no more of them about a wake. */
  lemma AskModes(c: Center, o: Oracle, steps: seq<Step>, d: Center)
    requires Modes(c, o, steps) && c.asked <= d.asked
    requires d.sent == c.sent && d.held == c.held && d.pendingMonitors == c.pendingMonitors
    ensures Modes(d, o, steps)
  {
    hide Sound, MayBePassive, ItemOk, Lookup, Unique;
  }

  lemma RouteModes(c: Center, o: Oracle, steps: seq<Step>, w: Wake, passive: bool)
    requires Modes(c, o, steps) && (if passive then MayBePassive(steps, w) else MayBeActive(steps, w))
    ensures Modes(Route(c, o, w, passive), o, steps)
  {
    hide Modes, MayBePassive, MayBeActive, Deliver;
    var c' := c.(asked := c.asked + 1);
    AskModes(c, o, steps, c');
    if passive {
      HoldModes(c, o, steps, w);
      HoldModes(c', o, steps, w);
      DeliverModes(c', o, steps, w, true);
    } else {
      DeliverModes(c, o, steps, w, false);
    }
  }

  lemma DeletedModes(c: Center, o: Oracle, steps: seq<Step>, task: Id)
    requires Modes(c, o, steps)
    ensures Modes(c.(pendingMonitors := Delete(c.pendingMonitors, task)), o, steps)
  {
    hide Sound, MayBePassive, ItemOk, Lookup, Unique;
    var d := c.(pendingMonitors := Delete(c.pendingMonitors, task));
    LookupDelete(c.pendingMonitors, task, task);
    forall t | Lookup(d.pendingMonitors, t).Some? ensures Lookup(d.pendingMonitors, t) == Lookup(c.pendingMonitors, t) {
      LookupDelete(c.pendingMonitors, task, t);
    }
  }

  lemma FlushMonitorModes(c: Center, o: Oracle, steps: seq<Step>, task: Id, quiet: bool)
    requires Modes(c, o, steps) && (quiet ==> QuietOf(steps, task))
    ensures Modes(FlushMonitor(c, o, task, quiet), o, steps)
  {
    LookupTask(c.pendingMonitors, task);
    var pending := Lookup(c.pendingMonitors, task);
    if pending.Some? {
      QuietItem(c, o, steps, task);
      var c' := c.(pendingMonitors := Delete(c.pendingMonitors, task));
      DeletedModes(c, o, steps, task);
      hide Modes, QuietOf, Printed, Lookup, Delete, Route, Deliver;
      if quiet || pending.value.quiet {
        RouteModes(c', o, steps, WakeOf(pending.value), true);
      } else {
        DeliverModes(c', o, steps, WakeOf(pending.value), false);
      }
    }
  }

  lemma QuietItem(c: Center, o: Oracle, steps: seq<Step>, task: Id)
    requires Modes(c, o, steps) && Lookup(c.pendingMonitors, task).Some?
    ensures ItemOk(steps, task, Lookup(c.pendingMonitors, task).value)
  {}

  lemma {:induction false} FlushAllModes(c: Center, o: Oracle, steps: seq<Step>)
    requires Modes(c, o, steps)
    ensures Modes(FlushAll(c, o), o, steps) && FlushAll(c, o).pendingMonitors == []
    decreases |c.pendingMonitors|
  {
    hide Modes, FlushMonitor, QuietOf;
    if c.pendingMonitors != [] {
      var first := c.pendingMonitors[0].task;
      FlushMonitorModes(c, o, steps, first, false);
      FlushMonitorShortens(c, o, first);
      FlushAllModes(FlushMonitor(c, o, first, false), o, steps);
    }
  }

  lemma FlushEventsModes(c: Center, o: Oracle, steps: seq<Step>)
    requires Modes(c, o, steps)
    ensures Modes(FlushMonitorEvents(c, o), o, steps)
  {
    hide Modes, FlushAll;
    var c' := c.(asked := c.asked + 1);
    AskModes(c, o, steps, c');
    FlushAllModes(c', o, steps);
  }

  lemma NoticeModes(c: Center, o: Oracle, steps: seq<Step>, step: Step)
    requires Modes(c, o, steps) && step.Notified? && step in steps
    ensures Modes(Do(c, o, step), o, steps)
  {
    assert Asked(steps, step.wake, step.passive);
    var task := MonitorOf(step.wake);
    assert step.quietEvents && task.Some? ==> QuietAbout(step, task.value);
    hide Modes, FlushMonitor, Route, Asked;
    var c' := if task.Some? then FlushMonitor(c, o, task.value, step.quietEvents) else c;
    if task.Some? { FlushMonitorModes(c, o, steps, task.value, step.quietEvents); }
    RouteModes(c', o, steps, step.wake, step.passive);
  }

  lemma CoalescedModes(c: Center, o: Oracle, steps: seq<Step>, e: Ev, quiet: bool)
    requires Modes(c, o, steps) && if quiet then QuietOf(steps, e.task) else Printed(steps, e.task, e.at)
    ensures var item := Coalesced(Lookup(c.pendingMonitors, e.task), e, quiet);
      Modes(c.(pendingMonitors := Put(c.pendingMonitors, item)), o, steps)
  {
    hide Sound, MayBePassive, QuietOf, Printed, Lookup, Unique, Put;
    var item := Coalesced(Lookup(c.pendingMonitors, e.task), e, quiet);
    var d := c.(pendingMonitors := Put(c.pendingMonitors, item));
    LookupPut(c.pendingMonitors, item, e.task);
    forall t | Lookup(d.pendingMonitors, t).Some? ensures ItemOk(steps, t, Lookup(d.pendingMonitors, t).value) {
      LookupPut(c.pendingMonitors, item, t);
    }
  }

  lemma OutputModes(c: Center, o: Oracle, steps: seq<Step>, e: Ev, quiet: bool)
    requires Modes(c, o, steps) && if quiet then QuietOf(steps, e.task) else Printed(steps, e.task, e.at)
    ensures Modes(MonitorEvent(c, o, e, quiet), o, steps)
  {
    hide Modes, QuietOf, Printed, Lookup, Put, Coalesced, Deliver, FlushMonitorEvents;
    var c1 := c.(asked := c.asked + 1);
    AskModes(c, o, steps, c1);
    if !quiet { DeliverModes(c1, o, steps, Event(e.task, 1, e.text, e.dropped, e.at), false); }
    CoalescedModes(c1, o, steps, e, quiet);
    var c1' := c1.(pendingMonitors := Put(c.pendingMonitors, Coalesced(Lookup(c.pendingMonitors, e.task), e, quiet)));
    var c2 := c1'.(asked := c1.asked + 1);
    AskModes(c1', o, steps, c2);
    FlushEventsModes(c2, o, steps);
  }

  lemma SendHeldModes(c: Center, o: Oracle, steps: seq<Step>)
    requires Modes(c, o, steps)
    ensures Modes(SendHeld(c, c.held), o, steps)
  {
    hide MayBePassive, MayBeActive, ItemOk, Lookup, Unique;
    var d, rest := SendHeld(c, c.held), AsSent(c.held);
    assert d.sent == c.sent + rest;
    forall s | s in rest ensures Sound(o, steps, s) { assert s.wake in c.held; }
    forall i, j | 0 <= i < j < |d.sent| && d.sent[i].question.Some? && d.sent[j].question.Some?
      ensures d.sent[i].question.value < d.sent[j].question.value
    {
      assert j < |c.sent|;
      assert d.sent[i] == c.sent[i] && d.sent[j] == c.sent[j];
    }
  }

  lemma SettledModes(c: Center, o: Oracle, steps: seq<Step>)
    requires Modes(c, o, steps)
    ensures Modes(Settled(c, o), o, steps)
  {
    hide Modes, FlushMonitorEvents, SendHeld;
    var c' := c.(runPending := false);
    AskModes(c, o, steps, c');
    FlushEventsModes(c', o, steps);
    SendHeldModes(FlushMonitorEvents(c', o), o, steps);
  }

  lemma ExitsModes(c: Center, o: Oracle, steps: seq<Step>)
    requires Modes(c, o, steps)
    ensures Modes(FlushExits(c.(timer := false), o), o, steps)
  {
    hide Modes, Deliver;
    var c' := c.(timer := false);
    AskModes(c, o, steps, c');
    AskModes(c, o, steps, c'.(pendingExits := []));
    DeliverModes(c'.(pendingExits := []), o, steps, Tasks(c.pendingExits), false);
  }

  lemma StepModes(c: Center, o: Oracle, steps: seq<Step>, step: Step)
    requires Modes(c, o, steps)
    ensures Modes(Do(c, o, step), o, steps + [step])
  {
    hide Modes, Notice, MonitorEvent, Settled, FlushExits, FlushMonitorEvents, QuietOf, Printed;
    var more := steps + [step];
    ModesGrow(c, o, steps, step);
    match step
    case Exited(task) => AskModes(c, o, more, TaskExit(c, task));
    case Notified(_, _, _) => NoticeModes(c, o, more, step);
    case Output(e, quiet) =>
      StillQuiet(steps, step, e.task);
      StillPrinted(steps, step, e.task, e.at);
      OutputModes(c, o, more, e, quiet);
    case AgentSettled => SettledModes(c, o, more);
    case TimerFires => ExitsModes(c, o, more);
    case FlushNow => ExitsModes(c, o, more); FlushEventsModes(FlushExits(c.(timer := false), o), o, more);
  }

  /** Over every run: a wake triggers a turn if and only if the host answered idle to the question
      put for it, and steers if and only if it answered busy; every such wake has a question of
      its own. It goes out without a turn only if it was asked for so or tells quiet output, and
      with one only if it was asked for so, or its last line was printed and not quietly, or it
      tells exits. */
  lemma {:induction false} SentAsAnswered(o: Oracle, cs: seq<Center>, hs: seq<History>, steps: seq<Step>, i: nat)
    requires Run(o, cs, hs, steps) && i <= |steps|
    ensures Modes(cs[i], o, steps[..i])
  {
    hide Modes, Do, Enabled, Note;
    if i == 0 {
      NothingSentYet(o);
    } else {
      SentAsAnswered(o, cs, hs, steps, i - 1);
      StepModes(cs[i - 1], o, steps[..i - 1], steps[i - 1]);
      assert cs[i - 1 + 1] == Do(cs[i - 1], o, steps[i - 1]);
      assert steps[..i] == steps[..i - 1] + [steps[i - 1]];
    }
  }

  lemma NothingSentYet(o: Oracle)
    ensures Modes(New(), o, [])
  {}

  /** An agent that is always idle is never steered, and one that is always busy never triggered. */
  lemma NeverTheOtherWay(o: Oracle, cs: seq<Center>, hs: seq<History>, steps: seq<Step>, i: nat, k: nat)
    requires Run(o, cs, hs, steps) && i <= |steps| && k < |cs[i].sent|
    ensures (forall n :: o(n)) ==> !cs[i].sent[k].mode.Steer?
    ensures (forall n :: !o(n)) ==> !cs[i].sent[k].mode.Trigger?
  {
    hide Run;
    RunLength(o, cs, hs, steps);
    SentAsAnswered(o, cs, hs, steps, i);
    var s := cs[i].sent[k];
    assert s in cs[i].sent && Sound(o, steps[..i], s);
  }

  lemma RunLength(o: Oracle, cs: seq<Center>, hs: seq<History>, steps: seq<Step>)
    requires Run(o, cs, hs, steps)
    ensures |cs| == |steps| + 1
  {}

  // ---- nothing waits for longer ----

  /** A notice asked for with a turn is sent at once; one without, at once if no run is pending and
      the host is idle, and otherwise it is held back, last in line. */
  lemma NoticeGoesOut(c: Center, o: Oracle, text: string, passive: bool, quietEvents: bool)
    requires !c.disposed
    ensures var w, d := Other(text), Notice(c, o, Other(text), passive, quietEvents);
      if !passive || (!c.runPending && o(c.asked))
      then Wakes(d.sent) == Wakes(c.sent) + [w] && d.held == c.held && d.runPending == (c.runPending || !passive)
      else d.sent == c.sent && d.held == c.held + [w]
  {}

  /** A notice without a turn that takes its monitor's output along quietly starts no run: all it
      sends goes out without a turn. */
  lemma QuietStopIsQuiet(c: Center, o: Oracle, w: Wake)
    ensures var d := Notice(c, o, w, true, true);
      && d.runPending == c.runPending && c.sent <= d.sent
      && forall i | |c.sent| <= i < |d.sent| :: d.sent[i].mode == Passive && d.sent[i].question == None
  {
    hide Lookup, Delete;
  }

  lemma FlushGrows(c: Center, o: Oracle, task: Id, quiet: bool)
    ensures var d := FlushMonitor(c, o, task, quiet); c.held <= d.held && c.sent <= d.sent
  {
    hide Lookup, Delete;
  }

  lemma {:induction false} FlushAllGrows(c: Center, o: Oracle)
    ensures var d := FlushAll(c, o); c.held <= d.held && c.sent <= d.sent
    decreases |c.pendingMonitors|
  {
    hide FlushMonitor;
    if c.pendingMonitors != [] {
      var first := c.pendingMonitors[0].task;
      FlushMonitorShortens(c, o, first);
      FlushGrows(c, o, first, false);
      FlushAllGrows(FlushMonitor(c, o, first, false), o);
    }
  }

  predicate SentPassively(sent: seq<Sent>, k: nat, wakes: seq<Wake>) {
    && k + |wakes| <= |sent|
    && forall i | 0 <= i < |wakes| :: sent[k + i].wake == wakes[i] && sent[k + i].mode == Passive
  }

  /** What is held back when the agent settles stays held back if pending output starts a run, and
      otherwise goes out in order, without a turn. */
  lemma HeldWaitsForRun(c: Center, o: Oracle)
    requires !c.disposed
    ensures var d := Settled(c, o);
      if d.runPending then c.held <= d.held
      else
        && d.held == []
        && exists k :: k >= |c.sent| && SentPassively(d.sent, k, c.held)
  {
    hide FlushAll;
    FlushAllGrows(c.(runPending := false, asked := c.asked + 1), o);
    var e, d := FlushMonitorEvents(c.(runPending := false), o), Settled(c, o);
    assert c.held <= e.held && c.sent <= e.sent;
    if !e.runPending {
      assert SentPassively(d.sent, |e.sent|, c.held);
    }
  }

  /** When the agent settles on an idle host, no monitor output stays pending, and no notice stays
      held back unless that output started a run. */
  lemma SettlingEmpties(c: Center, h: History, o: Oracle)
    requires Inv(c, h) && o(c.asked)
    ensures var d := Settled(c, o); d.pendingMonitors == [] && (d.held == [] || d.runPending)
  {
    hide StoriesOk, NoticesOk, ExitsOk, FlushAll, Unique;
    FlushAllEmpties(c.(runPending := false, asked := c.asked + 1), o);
  }

  lemma {:induction false} FlushAllEmpties(c: Center, o: Oracle)
    ensures FlushAll(c, o).pendingMonitors == [] && FlushAll(c, o).disposed == c.disposed
    decreases |c.pendingMonitors|
  {
    hide FlushMonitor;
    if c.pendingMonitors != [] {
      var first := c.pendingMonitors[0].task;
      FlushMonitorShortens(c, o, first);
      FlushKeepsOpen(c, o, first);
      FlushAllEmpties(FlushMonitor(c, o, first, false), o);
    }
  }

  lemma FlushKeepsOpen(c: Center, o: Oracle, task: Id)
    ensures FlushMonitor(c, o, task, false).disposed == c.disposed
  {}

  /** On an idle host output that is not quiet never stays pending. */
  lemma OutputGoesOut(c: Center, h: History, o: Oracle, e: Ev)
    requires Inv(c, h) && (forall n :: o(n))
    ensures Lookup(MonitorEvent(c, o, e, false).pendingMonitors, e.task).None?
  {
    hide StoriesOk, NoticesOk, ExitsOk, FlushAll, Unique, Lookup, Put, Coalesced;
    var item := Coalesced(Lookup(c.pendingMonitors, e.task), e, false);
    var c2 := c.(pendingMonitors := Put(c.pendingMonitors, item), asked := c.asked + 3);
    LookupPut(c.pendingMonitors, item, e.task);
    FlushAllEmpties(c2, o);
    NoneIn(e.task);
  }

  lemma NoneIn(task: Id)
    ensures Lookup([], task).None?
  {}

  /** When the batch timer fires, every finished task that waited for it is told. */
  lemma TimerEmpties(c: Center, h: History, o: Oracle)
    requires Inv(c, h)
    ensures var d := Do(c, o, TimerFires); d.pendingExits == [] && TaskIds(Wakes(d.sent)) == h.exits
  {
    hide StoriesOk, NoticesOk, TaskIds, Wakes, Deliver;
    StepKeeps(c, h, o, TimerFires);
    if c.timer { DeliverJoins(c.(timer := false, pendingExits := []), o, Tasks(c.pendingExits)); }
    assert TaskIds(Wakes(Do(c, o, TimerFires).sent)) + [] == TaskIds(Wakes(Do(c, o, TimerFires).sent));
  }
}
