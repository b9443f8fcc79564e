/** The single point where asynchronous events enter the session: extension/src/notify.ts.
    Every question to the host whether the agent is idle is answered by an arbitrary oracle. */
module Notify {
  import opened Options

  type Id = string

  /** Something to tell the model. An event wake stands for `count` events of a monitor, and
      carries, for the proofs alone, the arrival number of the last of them. */
  datatype Wake =
    | Event(task: Id, count: nat, last: string, dropped: nat, at: nat)
    | Closing(task: Id, dropped: nat)
    | Tasks(ids: seq<Id>)
    | Other(text: string)

  datatype Mode = Trigger | Steer | Passive

  /** What was sent, what was held back at that moment, and which question to the host, if any,
      was put about how to send it. */
  datatype Sent = Sent(wake: Wake, mode: Mode, held: seq<Wake>, question: Option<nat>)

  /** One line of monitor output: the `at`th to arrive. */
  datatype Ev = Ev(task: Id, text: string, dropped: nat, at: nat)

  datatype Item = Item(task: Id, count: nat, last: string, dropped: nat, quiet: bool, at: nat)

  /** `asked` counts the questions put to the host so far. */
  datatype Center = Center(
    pendingExits: seq<Id>,
    timer: bool,
    seen: set<Id>,
    pendingMonitors: seq<Item>,
    held: seq<Wake>,
    runPending: bool,
    disposed: bool,
    sent: seq<Sent>,
    asked: nat)

  type Oracle = nat -> bool

  function New(): Center {
    Center([], false, {}, [], [], false, false, [], 0)
  }

  // ---- the map of coalesced monitor output, in insertion order ----

  function Lookup(items: seq<Item>, task: Id): Option<Item> {
    if items == [] then None else if items[0].task == task then Some(items[0]) else Lookup(items[1..], task)
  }

  function Put(items: seq<Item>, item: Item): seq<Item> {
    if items == [] then [item]
    else if items[0].task == item.task then [item] + items[1..]
    else [items[0]] + Put(items[1..], item)
  }

  function Delete(items: seq<Item>, task: Id): seq<Item> {
    if items == [] then [] else if items[0].task == task then items[1..] else [items[0]] + Delete(items[1..], task)
  }

  function WakeOf(item: Item): Wake {
    Event(item.task, item.count, item.last, item.dropped, item.at)
  }

  // ---- the operations ----

  function Deliver(c: Center, o: Oracle, wake: Wake, passive: bool): Center {
    if passive then c.(sent := c.sent + [Sent(wake, Passive, c.held, None)])
    else c.(asked := c.asked + 1, runPending := true,
            sent := c.sent + [Sent(wake, if o(c.asked) then Trigger else Steer, c.held, Some(c.asked))])
  }

  /** `notify` once the monitor's own events are out. */
  function Route(c: Center, o: Oracle, wake: Wake, passive: bool): Center {
    if !passive then Deliver(c, o, wake, false)
    else if c.runPending then c.(held := c.held + [wake])
    else
      var c' := c.(asked := c.asked + 1);
      if !o(c.asked) then c'.(held := c.held + [wake]) else Deliver(c', o, wake, true)
  }

  function FlushMonitor(c: Center, o: Oracle, task: Id, quiet: bool): Center {
    match Lookup(c.pendingMonitors, task)
    case None => c
    case Some(item) =>
      var c' := c.(pendingMonitors := Delete(c.pendingMonitors, task));
      if quiet || item.quiet then Route(c', o, WakeOf(item), true) else Deliver(c', o, WakeOf(item), false)
  }

  function MonitorOf(wake: Wake): Option<Id> {
    if wake.Event? || wake.Closing? then Some(wake.task) else None
  }

  function Notice(c: Center, o: Oracle, wake: Wake, passive: bool, quietEvents: bool): Center {
    if c.disposed then c
    else
      var c' := if MonitorOf(wake).Some? then FlushMonitor(c, o, MonitorOf(wake).value, quietEvents) else c;
      Route(c', o, wake, passive)
  }

  function FlushAll(c: Center, o: Oracle): Center
    decreases |c.pendingMonitors|
  {
    if c.pendingMonitors == [] then c else FlushAll(FlushMonitor(c, o, c.pendingMonitors[0].task, false), o)
  }

  function FlushMonitorEvents(c: Center, o: Oracle): Center {
    if c.disposed then c
    else
      var c' := c.(asked := c.asked + 1);
      if !o(c.asked) || c.pendingMonitors == [] then c' else FlushAll(c', o)
  }

  function SendHeld(c: Center, held: seq<Wake>): Center {
    c.(held := [], sent := c.sent + seq(|held|, i requires 0 <= i < |held| => Sent(held[i], Passive, [], None)))
  }

  function Settled(c: Center, o: Oracle): Center {
    if c.disposed then c
    else
      var c' := FlushMonitorEvents(c.(runPending := false), o);
      if c'.runPending then c' else SendHeld(c', c'.held)
  }

  /** What coalescing an event leaves pending. */
  function Coalesced(pending: Option<Item>, e: Ev, quiet: bool): Item {
    match pending
    case None => Item(e.task, 1, e.text, e.dropped, quiet, e.at)
    case Some(p) => Item(e.task, p.count + 1, e.text, p.dropped + e.dropped, p.quiet || quiet, e.at)
  }

  function MonitorEvent(c: Center, o: Oracle, e: Ev, quiet: bool): Center {
    if c.disposed then c
    else
      var c1 := c.(asked := c.asked + 1);
      var pending := Lookup(c.pendingMonitors, e.task);
      if o(c.asked) && pending.None? && !quiet
      then Deliver(c1, o, Event(e.task, 1, e.text, e.dropped, e.at), false)
      else
        var c2 := c1.(pendingMonitors := Put(c.pendingMonitors, Coalesced(pending, e, quiet)), asked := c1.asked + 1);
        if o(c1.asked) && !quiet then FlushMonitorEvents(c2, o) else c2
  }

  function FlushExits(c: Center, o: Oracle): Center {
    if c.disposed || c.pendingExits == [] then c else Deliver(c.(pendingExits := []), o, Tasks(c.pendingExits), false)
  }

  function TaskExit(c: Center, task: Id): Center {
    if c.disposed || task in c.seen then c
    else c.(seen := c.seen + {task}, pendingExits := c.pendingExits + [task], timer := true)
  }

  datatype Step =
    | Exited(task: Id)
    | Notified(wake: Wake, passive: bool, quietEvents: bool)
    | Output(e: Ev, quiet: bool)
    | AgentSettled
    | TimerFires
    | FlushNow

  function Do(c: Center, o: Oracle, step: Step): Center {
    match step
    case Exited(task) => TaskExit(c, task)
    case Notified(wake, passive, quietEvents) => Notice(c, o, wake, passive, quietEvents)
    case Output(e, quiet) => MonitorEvent(c, o, e, quiet)
    case AgentSettled => Settled(c, o)
    case TimerFires => if c.timer then FlushExits(c.(timer := false), o) else c
    case FlushNow => FlushMonitorEvents(FlushExits(c.(timer := false), o), o)
  }

  // ---- what a run has asked for ----

  /** Monitor output in arrival order, notices in arrival order, exits without repeats. */
  datatype History = History(events: seq<Ev>, notices: seq<Wake>, exits: seq<Id>)

  function Note(h: History, step: Step): History {
    match step
    case Exited(task) => if task in h.exits then h else h.(exits := h.exits + [task])
    case Notified(wake, _, _) => h.(notices := h.notices + [wake])
    case Output(e, _) => h.(events := h.events + [e])
    case _ => h
  }

  predicate Closed(h: History, task: Id) {
    exists n | n in h.notices :: n.Closing? && n.task == task
  }

  /** A monitor is closed once, and prints nothing after that; output is numbered as it comes. */
  predicate Enabled(h: History, step: Step) {
    match step
    case Notified(wake, _, _) => (wake.Closing? || wake.Other?) && (wake.Closing? ==> !Closed(h, wake.task))
    case Output(e, _) => e.at == |h.events| && !Closed(h, e.task)
    case _ => true
  }

  ghost predicate Run(o: Oracle, cs: seq<Center>, hs: seq<History>, steps: seq<Step>) {
    && |cs| == |hs| == |steps| + 1 && cs[0] == New() && hs[0] == History([], [], [])
    && forall i | 0 <= i < |steps| ::
         Enabled(hs[i], steps[i]) && cs[i + 1] == Do(cs[i], o, steps[i]) && hs[i + 1] == Note(hs[i], steps[i])
  }

  // ---- projections ----

  function Wakes(sent: seq<Sent>): seq<Wake> {
    seq(|sent|, i requires 0 <= i < |sent| => sent[i].wake)
  }

  /** Everything made so far, in the order the model hears it: what was sent, then what is held. */
  function Order(c: Center): seq<Wake> {
    Wakes(c.sent) + c.held
  }

  /** The wakes about one monitor. */
  function About(wakes: seq<Wake>, task: Id): seq<Wake> {
    if wakes == [] then []
    else
      var w := wakes[|wakes| - 1];
      About(wakes[..|wakes| - 1], task) + if MonitorOf(w) == Some(task) then [w] else []
  }

  /** The monitor's coalesced output, as the wake it will make. */
  function PendingWake(items: seq<Item>, task: Id): seq<Wake> {
    match Lookup(items, task) case None => [] case Some(item) => [WakeOf(item)]
  }

  function EventsOf(events: seq<Ev>, task: Id): seq<Ev> {
    if events == [] then []
    else
      var e := events[|events| - 1];
      EventsOf(events[..|events| - 1], task) + if e.task == task then [e] else []
  }

  function DroppedIn(events: seq<Ev>): nat {
    if events == [] then 0 else DroppedIn(events[..|events| - 1]) + events[|events| - 1].dropped
  }

  /** The wakes cut the events into consecutive runs; each counts its run, shows its last
      event and adds up its dropped lines. */
  predicate Tells(wakes: seq<Wake>, events: seq<Ev>)
    decreases |wakes|
  {
    if wakes == [] then events == []
    else
      var w := wakes[|wakes| - 1];
      && w.Event? && 1 <= w.count <= |events|
      && w.last == events[|events| - 1].text && w.at == events[|events| - 1].at
      && w.dropped == DroppedIn(events[|events| - w.count..])
      && Tells(wakes[..|wakes| - 1], events[..|events| - w.count])
  }

  /** ... and the closing notice, if there was one, comes last. */
  predicate TellsAll(wakes: seq<Wake>, events: seq<Ev>, closed: bool) {
    if closed
    then wakes != [] && wakes[|wakes| - 1].Closing? && Tells(wakes[..|wakes| - 1], events)
    else Tells(wakes, events)
  }

  /** `a` has to be heard after `b`, both being about the same monitor. */
  predicate Later(a: Wake, b: Wake) {
    b.Event? && (a.Closing? || (a.Event? && a.at > b.at))
  }

  function InsertWake(sorted: seq<Wake>, w: Wake): seq<Wake> {
    if sorted != [] && Later(sorted[|sorted| - 1], w)
    then InsertWake(sorted[..|sorted| - 1], w) + [sorted[|sorted| - 1]]
    else sorted + [w]
  }

  /** A monitor's wakes in the order of what they tell. */
  function ByArrival(wakes: seq<Wake>): seq<Wake> {
    if wakes == [] then [] else InsertWake(ByArrival(wakes[..|wakes| - 1]), wakes[|wakes| - 1])
  }

  predicate Waits(held: seq<Wake>, task: Id) {
    exists w | w in held :: w.Event? && w.task == task
  }

  /** A wake about the monitor was sent while events of it were held back. */
  predicate Overtaken(sent: seq<Sent>, task: Id) {
    exists s | s in sent :: MonitorOf(s.wake) == Some(task) && Waits(s.held, task)
  }

  /** Closing notices and other messages. */
  function Notices(wakes: seq<Wake>): seq<Wake> {
    if wakes == [] then []
    else
      var w := wakes[|wakes| - 1];
      Notices(wakes[..|wakes| - 1]) + if w.Closing? || w.Other? then [w] else []
  }

  function TaskIds(wakes: seq<Wake>): seq<Id> {
    if wakes == [] then []
    else
      var w := wakes[|wakes| - 1];
      TaskIds(wakes[..|wakes| - 1]) + if w.Tasks? then w.ids else []
  }
}
