/** The NotifyCenter object, updated in place, proved against Notify. `notify` and
    `flushMonitor` call each other; the recursion ends because a monitor's entry is deleted
    before its events are notified. */
module NotifyCenter {
  import opened Options
  import opened N = Notify
  import opened NotifyRuns

  class NotifyCenter {
    const idle: Oracle
    var asked: nat
    var pendingExits: seq<Id>
    var timer: bool
    var seen: set<Id>
    var pendingMonitors: seq<Item>
    var held: seq<Wake>
    var runPending: bool
    var disposed: bool
    var sent: seq<Sent>

    constructor (host: Oracle)
      ensures idle == host && View() == New()
    {
      idle := host;
      asked, pendingExits, timer, seen, pendingMonitors := 0, [], false, {}, [];
      held, runPending, disposed, sent := [], false, false, [];
    }

    function View(): Center
      reads this
    {
      N.Center.Center(pendingExits, timer, seen, pendingMonitors, held, runPending, disposed, sent, asked)
    }

    method IsIdle() returns (b: bool)
      modifies this`asked
      ensures b == idle(old(asked)) && asked == old(asked) + 1
    {
      b := idle(asked);
      asked := asked + 1;
    }

    /** A wake sent by the answer to a question: a turn is triggered when the host is idle. */
    function Answered(wake: Wake, behind: seq<Wake>, question: nat): Sent {
      Sent.Sent(wake, if idle(question) then Trigger else Steer, behind, Some(question))
    }

    /** One more message to the host, steering a busy agent; anything but a passive one counts
        as a run until the agent settles. */
    method Deliver(wake: Wake, passive: bool)
      modifies this
      ensures View() == N.Deliver(old(View()), idle, wake, passive)
      ensures runPending == (old(runPending) || !passive) && held == old(held)
      ensures Wakes(sent) == old(Wakes(sent)) + [wake]
      ensures !passive ==> sent == old(sent) + [Answered(wake, old(held), old(asked))]
    {
      var mode, question := Passive, None;
      if !passive {
        question := Some(asked);
        var b := IsIdle();
        mode := if b then Trigger else Steer;
      }
      if !mode.Passive? { runPending := true; }
      sent := sent + [Sent.Sent(wake, mode, held, question)];
    }

    method NotifyTaskExit(task: Id)
      requires timer <==> pendingExits != []
      modifies this
      ensures View() == Do(old(View()), idle, Exited(task))
    {
      if disposed { return; }
      if task in seen { return; }
      seen := seen + {task};
      pendingExits := pendingExits + [task];
      if !timer { timer := true; }
    }

    method Notify(wake: Wake, passive: bool, quietEvents: bool)
      requires Unique(pendingMonitors)
      modifies this
      ensures View() == Notice(old(View()), idle, wake, passive, quietEvents)
      ensures !disposed && wake.Other? && !passive ==> sent == old(sent) + [Answered(wake, held, old(asked))]
      decreases |pendingMonitors|, 1
    {
      hide N.FlushMonitor, N.Deliver;
      if disposed { return; }
      if MonitorOf(wake).Some? {
        FlushMonitor(MonitorOf(wake).value, quietEvents);
      }
      if !passive {
        Deliver(wake, false);
      } else {
        var hold := runPending;
        if !hold {
          var b := IsIdle();
          hold := !b;
        }
        if hold {
          held := held + [wake];
        } else {
          Deliver(wake, true);
        }
      }
    }

    method FlushMonitor(task: Id, quiet: bool)
      requires !disposed && Unique(pendingMonitors)
      modifies this
      ensures View() == N.FlushMonitor(old(View()), idle, task, quiet)
      decreases |pendingMonitors|, 0
    {
      hide Route, N.Deliver;
      var item := Lookup(pendingMonitors, task);
      if item.None? { return; }
      DeleteShortens(pendingMonitors, task);
      LookupTask(pendingMonitors, task);
      LookupDelete(pendingMonitors, task, task);
      pendingMonitors := Delete(pendingMonitors, task);
      var wake := WakeOf(item.value);
      if quiet || item.value.quiet {
        Notify(wake, true, false);
      } else {
        Deliver(wake, false);
      }
    }

    method FlushMonitorEvents()
      requires Unique(pendingMonitors)
      modifies this
      ensures View() == N.FlushMonitorEvents(old(View()), idle)
    {
      hide N.FlushMonitor, Unique;
      if disposed { return; }
      var b := IsIdle();
      if !b || pendingMonitors == [] { return; }
      ghost var start := View();
      FlushAllIs(start, idle);
      while pendingMonitors != []
        invariant !disposed && Unique(pendingMonitors) && FlushAll(View(), idle) == FlushAll(start, idle)
        decreases |pendingMonitors|
      {
        FlushAllIs(View(), idle);
        FlushShortens(View(), idle, pendingMonitors[0].task);
        FlushMonitor(pendingMonitors[0].task, false);
      }
      FlushAllIs(View(), idle);
    }

    /** `at` numbers the output as it arrives; nothing is decided by it. */
    method NotifyMonitorEvent(task: Id, text: string, dropped: nat, quiet: bool, at: nat)
      requires Unique(pendingMonitors)
      modifies this
      ensures View() == MonitorEvent(old(View()), idle, Ev(task, text, dropped, at), quiet)
      ensures !disposed && idle(old(asked)) && Lookup(old(pendingMonitors), task).None? && !quiet ==>
                sent == old(sent) + [Answered(Event(task, 1, text, dropped, at), held, old(asked) + 1)]
    {
      hide N.FlushMonitorEvents, N.Deliver, Unique, Lookup, Put;
      if disposed { return; }
      var pending := Lookup(pendingMonitors, task);
      var b := IsIdle();
      if b && pending.None? && !quiet {
        Deliver(Event(task, 1, text, dropped, at), false);
        return;
      }
      var item := match pending
        case None => Item.Item(task, 1, text, dropped, quiet, at)
        case Some(p) => Item.Item(task, p.count + 1, text, p.dropped + dropped, p.quiet || quiet, at);
      LookupPut(pendingMonitors, item, task);
      pendingMonitors := Put(pendingMonitors, item);
      b := IsIdle();
      if b && !quiet {
        FlushMonitorEvents();
      }
    }

    method Settled()
      requires Unique(pendingMonitors)
      modifies this
      ensures View() == N.Settled(old(View()), idle)
    {
      hide N.FlushMonitorEvents;
      if disposed { return; }
      runPending := false;
      FlushMonitorEvents();
      if runPending { return; }
      var messages := held;
      held := [];
      ghost var start := View();
      var k := 0;
      while k < |messages|
        invariant k <= |messages|
        invariant View() == start.(sent := start.sent + AsSent(messages[..k])) && held == []
      {
        Deliver(messages[k], true);
        assert AsSent(messages[..k + 1]) == AsSent(messages[..k]) + [Sent.Sent(messages[k], Passive, [], None)];
        k := k + 1;
      }
      assert messages[..k] == messages;
    }

    method FlushExits()
      modifies this
      ensures View() == N.FlushExits(old(View()), idle)
      ensures !disposed && old(pendingExits) != [] ==>
                pendingExits == [] && sent == old(sent) + [Answered(Tasks(old(pendingExits)), held, old(asked))]
    {
      if disposed || pendingExits == [] { return; }
      var events := pendingExits;
      pendingExits := [];
      Deliver(Tasks(events), false);
    }
  }

  lemma FlushAllIs(c: Center, o: Oracle)
    ensures FlushAll(c, o) ==
            if c.pendingMonitors == [] then c else FlushAll(N.FlushMonitor(c, o, c.pendingMonitors[0].task, false), o)
  {}

  lemma FlushShortens(c: Center, o: Oracle, task: Id)
    requires Unique(c.pendingMonitors) && Lookup(c.pendingMonitors, task).Some?
    ensures var d := N.FlushMonitor(c, o, task, false);
      |d.pendingMonitors| < |c.pendingMonitors| && Unique(d.pendingMonitors) && d.disposed == c.disposed
  {
    DeleteShortens(c.pendingMonitors, task);
    LookupDelete(c.pendingMonitors, task, task);
  }
}
