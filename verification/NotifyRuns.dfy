/** Runs of Notify: conservation whatever the schedule, and exactly when order is kept. */
module NotifyRuns {
  import opened Options
  import opened Notify

  // ---- the coalescing map ----

  predicate Unique(items: seq<Item>) {
    items == [] || (Lookup(items[1..], items[0].task).None? && Unique(items[1..]))
  }

  lemma {:induction false} LookupPut(items: seq<Item>, item: Item, t: Id)
    ensures Lookup(Put(items, item), t) == if t == item.task then Some(item) else Lookup(items, t)
    ensures Unique(items) ==> Unique(Put(items, item))
  {
    if items != [] && items[0].task != item.task {
      LookupPut(items[1..], item, t);
      LookupPut(items[1..], item, items[0].task);
      assert Put(items, item)[1..] == Put(items[1..], item);
    } else if items != [] {
      assert Put(items, item)[1..] == items[1..];
    }
  }

  lemma {:induction false} LookupDelete(items: seq<Item>, task: Id, t: Id)
    requires Unique(items)
    ensures Lookup(Delete(items, task), t) == if t == task then None else Lookup(items, t)
    ensures Unique(Delete(items, task))
  {
    if items != [] && items[0].task != task {
      LookupDelete(items[1..], task, t);
      LookupDelete(items[1..], task, items[0].task);
      assert Delete(items, task)[1..] == Delete(items[1..], task);
    }
  }

  lemma {:induction false} LookupTask(items: seq<Item>, t: Id)
    ensures Lookup(items, t).Some? ==> Lookup(items, t).value.task == t
  {
    if items != [] { LookupTask(items[1..], t); }
  }

  lemma {:induction false} DeleteShortens(items: seq<Item>, task: Id)
    requires Lookup(items, task).Some?
    ensures |Delete(items, task)| < |items|
  {
    if items[0].task != task { DeleteShortens(items[1..], task); }
  }

  // ---- projections ----

  lemma WakesOne(sent: seq<Sent>, s: Sent)
    ensures Wakes(sent + [s]) == Wakes(sent) + [s.wake]
  {}

  lemma {:induction false} ProjectionsSplit(a: seq<Wake>, b: seq<Wake>, t: Id)
    ensures Notices(a + b) == Notices(a) + Notices(b)
    ensures TaskIds(a + b) == TaskIds(a) + TaskIds(b)
    ensures About(a + b, t) == About(a, t) + About(b, t)
    decreases |b|
  {
    hide Notices, TaskIds, About;
    if b == [] {
      assert a + b == a;
      NothingAbout(t);
    } else {
      var front, w := b[..|b| - 1], b[|b| - 1];
      ProjectionsSplit(a, front, t);
      assert a + b == (a + front) + [w] && b == front + [w];
      OneMore(a + front, w, t);
      OneMore(front, w, t);
    }
  }

  lemma NothingAbout(t: Id)
    ensures Notices([]) == [] && TaskIds([]) == [] && About([], t) == []
  {}

  lemma OneMore(wakes: seq<Wake>, w: Wake, t: Id)
    ensures Notices(wakes + [w]) == Notices(wakes) + if IsNotice(w) then [w] else []
    ensures TaskIds(wakes + [w]) == TaskIds(wakes) + if w.Tasks? then w.ids else []
    ensures About(wakes + [w], t) == About(wakes, t) + if MonitorOf(w) == Some(t) then [w] else []
  {
    assert (wakes + [w])[..|wakes|] == wakes;
  }

  predicate IsNotice(w: Wake) {
    w.Closing? || w.Other?
  }

  lemma {:induction false} AboutAre(wakes: seq<Wake>, t: Id)
    ensures forall w | w in About(wakes, t) :: MonitorOf(w) == Some(t) && w in wakes
    ensures forall w | w in wakes && MonitorOf(w) == Some(t) :: w in About(wakes, t)
  {
    if wakes != [] {
      var front := wakes[..|wakes| - 1];
      AboutAre(front, t);
      assert wakes == front + [wakes[|wakes| - 1]];
    }
  }

  // ---- the order of what is told ----

  /** No wake stands before one that it has to be heard after. */
  ghost predicate Arranged(wakes: seq<Wake>) {
    forall i, j | 0 <= i < j < |wakes| :: !Later(wakes[i], wakes[j])
  }

  /** `w` has to be heard after each of `wakes`. */
  predicate Newest(w: Wake, wakes: seq<Wake>) {
    forall x | x in wakes :: Later(w, x)
  }

  lemma {:induction false} InsertedAre(sorted: seq<Wake>, w: Wake)
    ensures multiset(InsertWake(sorted, w)) == multiset(sorted) + multiset{w}
    decreases |sorted|
  {
    if sorted != [] && Later(sorted[|sorted| - 1], w) {
      var front := sorted[..|sorted| - 1];
      assert sorted == front + [sorted[|sorted| - 1]];
      InsertedAre(front, w);
    }
  }

  lemma {:induction false} SortedAre(wakes: seq<Wake>)
    ensures multiset(ByArrival(wakes)) == multiset(wakes)
    ensures forall w :: w in ByArrival(wakes) <==> w in wakes
  {
    if wakes != [] {
      var front, w := wakes[..|wakes| - 1], wakes[|wakes| - 1];
      assert wakes == front + [w];
      SortedAre(front);
      InsertedAre(ByArrival(front), w);
    }
    forall w ensures w in ByArrival(wakes) <==> w in wakes {
      assert w in ByArrival(wakes) <==> w in multiset(ByArrival(wakes));
      assert w in wakes <==> w in multiset(wakes);
    }
  }

  lemma InsertBeforeNewest(sorted: seq<Wake>, newest: Wake, w: Wake)
    requires Later(newest, w)
    ensures InsertWake(sorted + [newest], w) == InsertWake(sorted, w) + [newest]
  {
    assert (sorted + [newest])[..|sorted|] == sorted;
  }

  /** The newest wake comes last, wherever it is put. */
  lemma {:induction false} NewestIsLast(a: seq<Wake>, w: Wake, b: seq<Wake>)
    requires Newest(w, a + b)
    ensures ByArrival(a + [w] + b) == ByArrival(a + b) + [w]
    decreases |b|
  {
    hide InsertWake;
    if b == [] {
      assert a + [w] + b == a + [w] && a + b == a && (a + [w])[..|a|] == a;
      SortedAre(a);
      InsertAtEnd(ByArrival(a), w);
    } else {
      var front, x := b[..|b| - 1], b[|b| - 1];
      assert forall y | y in a + front :: y in a + b;
      NewestIsLast(a, w, front);
      assert (a + [w] + b)[..|a| + |b|] == a + [w] + front && (a + b)[..|a + b| - 1] == a + front;
      assert x in a + b;
      InsertBeforeNewest(ByArrival(a + front), w, x);
    }
  }

  lemma InsertAtEnd(sorted: seq<Wake>, w: Wake)
    requires Newest(w, sorted)
    ensures InsertWake(sorted, w) == sorted + [w]
  {
    if sorted != [] { assert sorted[|sorted| - 1] in sorted; }
  }

  /** ... and in order only at the very end. */
  lemma ArrangedIffLast(a: seq<Wake>, w: Wake, b: seq<Wake>)
    requires Newest(w, a + b)
    ensures Arranged(a + [w] + b) <==> Arranged(a + b) && b == []
  {
    if b == [] {
      assert a + [w] + b == a + [w] && a + b == a;
      ArrangedPush(a, w);
    } else {
      var all := a + [w] + b;
      assert (a + b)[|a|] == b[0];
      assert all[|a|] == w && all[|a| + 1] == b[0];
    }
  }

  lemma ArrangedPush(a: seq<Wake>, w: Wake)
    requires Newest(w, a)
    ensures Arranged(a + [w]) <==> Arranged(a)
  {
    var all := a + [w];
    assert forall i | 0 <= i < |a| :: all[i] == a[i] && all[i] in a;
    assert forall i | 0 <= i < |a| :: !Later(all[i], all[|a|]);
  }

  lemma {:induction false} ArrangedIsSorted(wakes: seq<Wake>)
    requires Arranged(wakes)
    ensures ByArrival(wakes) == wakes
    decreases |wakes|
  {
    hide InsertWake, Later;
    if wakes != [] {
      var k := |wakes| - 1;
      var front := wakes[..k];
      assert forall i | 0 <= i < k :: front[i] == wakes[i];
      ArrangedIsSorted(front);
      if k > 0 { assert !Later(wakes[k - 1], wakes[k]); }
      InsertInPlace(front, wakes[k]);
      assert wakes == front + [wakes[k]];
    }
  }

  lemma InsertInPlace(sorted: seq<Wake>, w: Wake)
    requires sorted == [] || !Later(sorted[|sorted| - 1], w)
    ensures InsertWake(sorted, w) == sorted + [w]
  {}

  // ---- what wakes tell ----

  lemma {:induction false} DroppedSplit(a: seq<Ev>, b: seq<Ev>)
    ensures DroppedIn(a + b) == DroppedIn(a) + DroppedIn(b)
    decreases |b|
  {
    if b == [] {
      assert a + b == a;
    } else {
      DroppedSplit(a, b[..|b| - 1]);
      assert (a + b)[..|a + b| - 1] == a + b[..|b| - 1];
    }
  }

  /** An event told on its own, or with those already coalesced. */
  lemma TellsOneMore(wakes: seq<Wake>, events: seq<Ev>, e: Ev)
    requires Tells(wakes, events)
    ensures Tells(wakes + [Event(e.task, 1, e.text, e.dropped, e.at)], events + [e])
    ensures wakes != [] && wakes[|wakes| - 1].Event? ==>
              var w := wakes[|wakes| - 1];
              var longer := Event(e.task, w.count + 1, e.text, w.dropped + e.dropped, e.at);
              Tells(wakes[..|wakes| - 1] + [longer], events + [e])
  {
    hide Tells, DroppedIn;
    var more := events + [e];
    assert more[|events|..] == [e] && more[..|events|] == events;
    DroppedOne(e);
    var one := wakes + [Event(e.task, 1, e.text, e.dropped, e.at)];
    assert one[..|wakes|] == wakes;
    TellsByLast(one, more);
    if wakes != [] && wakes[|wakes| - 1].Event? { TellsLonger(wakes, events, e); }
  }

  lemma DroppedOne(e: Ev)
    ensures DroppedIn([e]) == e.dropped
  {
    assert [e][..0] == [];
  }

  lemma TellsLonger(wakes: seq<Wake>, events: seq<Ev>, e: Ev)
    requires Tells(wakes, events) && wakes != [] && wakes[|wakes| - 1].Event?
    ensures var w := wakes[|wakes| - 1];
      Tells(wakes[..|wakes| - 1] + [Event(e.task, w.count + 1, e.text, w.dropped + e.dropped, e.at)], events + [e])
  {
    hide Tells, DroppedIn;
    var more, w, front := events + [e], wakes[|wakes| - 1], wakes[..|wakes| - 1];
    TellsByLast(wakes, events);
    var k := |events| - w.count;
    assert more[k..] == events[k..] + [e] && more[..k] == events[..k];
    DroppedSplit(events[k..], [e]);
    DroppedOne(e);
    var longer := front + [Event(e.task, w.count + 1, e.text, w.dropped + e.dropped, e.at)];
    assert longer[..|longer| - 1] == front;
    TellsByLast(longer, more);
  }

  lemma TellsByLast(wakes: seq<Wake>, events: seq<Ev>)
    requires wakes != []
    ensures var w := wakes[|wakes| - 1];
      Tells(wakes, events) <==>
        && w.Event? && 1 <= w.count <= |events|
        && w.last == events[|events| - 1].text && w.at == events[|events| - 1].at
        && w.dropped == DroppedIn(events[|events| - w.count..])
        && Tells(wakes[..|wakes| - 1], events[..|events| - w.count])
  {}

  lemma EventsOfMore(events: seq<Ev>, e: Ev, t: Id)
    ensures EventsOf(events + [e], t) == EventsOf(events, t) + if e.task == t then [e] else []
  {
    assert (events + [e])[..|events|] == events;
  }

  ghost predicate Numbered(events: seq<Ev>) {
    forall i, j | 0 <= i < j < |events| :: events[i].at < events[j].at
  }

  lemma {:induction false} EventsOfNumbered(events: seq<Ev>, t: Id)
    requires forall i | 0 <= i < |events| :: events[i].at == i
    ensures Numbered(EventsOf(events, t)) && forall e | e in EventsOf(events, t) :: e.at < |events|
  {
    if events != [] { EventsOfNumbered(events[..|events| - 1], t); }
  }

  lemma NumberedFront(events: seq<Ev>, k: nat)
    requires Numbered(events) && k < |events|
    ensures Numbered(events[..k])
    ensures k > 0 ==> events[..k][k - 1].at < events[|events| - 1].at
  {
    assert forall i | 0 <= i < k :: events[..k][i] == events[i];
  }

  predicate UpTo(w: Wake, events: seq<Ev>) {
    w.Event? && events != [] && w.at <= events[|events| - 1].at
  }

  /** Wakes that tell numbered events do so in their order. */
  lemma {:induction false} TellsAscends(wakes: seq<Wake>, events: seq<Ev>)
    requires Tells(wakes, events) && Numbered(events)
    ensures Arranged(wakes)
    ensures forall w | w in wakes :: UpTo(w, events)
    ensures wakes != [] ==> Newest(wakes[|wakes| - 1], wakes[..|wakes| - 1])
    decreases |wakes|
  {
    hide DroppedIn, Tells, Numbered, Arranged;
    if wakes == [] {
      NothingArranged();
    } else {
      var front, w := wakes[..|wakes| - 1], wakes[|wakes| - 1];
      TellsByLast(wakes, events);
      var k := |events| - w.count;
      NumberedFront(events, k);
      TellsAscends(front, events[..k]);
      assert forall x | x in front :: UpTo(x, events[..k]) && Later(w, x);
      ArrangedPush(front, w);
      assert wakes == front + [w];
    }
  }

  lemma NothingArranged()
    ensures Arranged([])
  {}

  lemma TellsAllAscends(wakes: seq<Wake>, events: seq<Ev>, closed: bool)
    requires TellsAll(wakes, events, closed) && Numbered(events)
    ensures Arranged(wakes)
  {
    hide Tells, Arranged, Numbered;
    if closed {
      var front, w := wakes[..|wakes| - 1], wakes[|wakes| - 1];
      TellsAscends(front, events);
      ArrangedPush(front, w);
      assert wakes == front + [w];
    } else {
      TellsAscends(wakes, events);
    }
  }

  // ---- the invariant ----

  function Told(c: Center, task: Id): seq<Wake> {
    About(Order(c), task)
  }

  /** Put in order, the monitor's wakes tell its events, and they are in order unless one was
      overtaken. */
  ghost predicate StoryOk(c: Center, h: History, task: Id) {
    && TellsAll(ByArrival(Told(c, task)) + PendingWake(c.pendingMonitors, task), EventsOf(h.events, task),
                Closed(h, task))
    && (Closed(h, task) ==> PendingWake(c.pendingMonitors, task) == [])
    && (Arranged(Told(c, task)) <==> !Overtaken(c.sent, task))
  }

  ghost predicate StoriesOk(c: Center, h: History) {
    forall task :: StoryOk(c, h, task)
  }

  ghost predicate InTurn(h: History) {
    forall i | 0 <= i < |h.events| :: h.events[i].at == i
  }

  ghost predicate NoticesOk(c: Center, h: History) {
    multiset(Notices(Order(c))) == multiset(h.notices)
  }

  ghost predicate NoDup(ids: seq<Id>) {
    forall i, j | 0 <= i < j < |ids| :: ids[i] != ids[j]
  }

  ghost predicate ExitsOk(c: Center, h: History) {
    && TaskIds(Wakes(c.sent)) + c.pendingExits == h.exits && NoDup(h.exits)
    && TaskIds(c.held) == []
    && (forall id :: id in c.seen <==> id in h.exits)
    && (c.timer <==> c.pendingExits != [])
  }

  ghost predicate Inv(c: Center, h: History) {
    !c.disposed && Unique(c.pendingMonitors) && InTurn(h) && StoriesOk(c, h) && NoticesOk(c, h) && ExitsOk(c, h)
  }

  // ---- one more wake ----

  /** `w` was sent, past what is held, or joined it. */
  ghost predicate Joins(c: Center, d: Center, w: Wake) {
    || (d.held == c.held && exists mode, question :: d.sent == c.sent + [Sent(w, mode, c.held, question)])
    || (d.held == c.held + [w] && d.sent == c.sent)
  }

  lemma WaitingIsTold(held: seq<Wake>, task: Id)
    requires forall x | x in About(held, task) :: x.Event?
    ensures Waits(held, task) <==> About(held, task) != []
  {
    AboutAre(held, task);
    if About(held, task) != [] {
      var x := About(held, task)[0];
      assert x in About(held, task);
    }
  }

  lemma OvertakenOne(sent: seq<Sent>, s: Sent, task: Id)
    ensures Overtaken(sent + [s], task) <==>
            Overtaken(sent, task) || (MonitorOf(s.wake) == Some(task) && Waits(s.held, task))
  {
    hide Waits;
  }

  lemma JoinsElsewhere(c: Center, d: Center, w: Wake, task: Id)
    requires Joins(c, d, w) && MonitorOf(w) != Some(task)
    ensures Told(d, task) == Told(c, task) && (Overtaken(d.sent, task) <==> Overtaken(c.sent, task))
  {
    hide About, Overtaken, Waits;
    if d.sent == c.sent {
      assert Order(d) == Order(c) + [w];
      OneMore(Order(c), w, task);
    } else {
      var s := d.sent[|c.sent|];
      OvertakenOne(c.sent, s, task);
      WakesOne(c.sent, s);
      OneMore(Wakes(c.sent), w, task);
      ProjectionsSplit(Wakes(c.sent), c.held, task);
      ProjectionsSplit(Wakes(c.sent) + [w], c.held, task);
    }
  }

  /** A wake that belongs after all others about its monitor leaves them in order unless it
      is sent while some are held. */
  lemma JoinsHere(c: Center, d: Center, w: Wake, task: Id)
    requires Joins(c, d, w) && MonitorOf(w) == Some(task) && Newest(w, Told(c, task))
    ensures ByArrival(Told(d, task)) == ByArrival(Told(c, task)) + [w]
    ensures (Arranged(Told(c, task)) <==> !Overtaken(c.sent, task)) ==>
              (Arranged(Told(d, task)) <==> !Overtaken(d.sent, task))
  {
    hide About, Overtaken, Waits, Arranged, ByArrival;
    var a, b := About(Wakes(c.sent), task), About(c.held, task);
    ProjectionsSplit(Wakes(c.sent), c.held, task);
    if d.sent == c.sent {
      assert Order(d) == Order(c) + [w];
      OneMore(Order(c), w, task);
      assert Told(d, task) == Told(c, task) + [w] + [] && Told(c, task) + [] == Told(c, task);
      NewestIsLast(Told(c, task), w, []);
      ArrangedIffLast(Told(c, task), w, []);
    } else {
      var s := d.sent[|c.sent|];
      OvertakenOne(c.sent, s, task);
      WakesOne(c.sent, s);
      OneMore(Wakes(c.sent), w, task);
      ProjectionsSplit(Wakes(c.sent) + [w], c.held, task);
      assert Told(d, task) == a + [w] + b;
      NewestIsLast(a, w, b);
      ArrangedIffLast(a, w, b);
      forall x | x in b ensures x.Event? { assert x in a + b && Later(w, x); }
      WaitingIsTold(c.held, task);
    }
  }

  lemma JoinsNotices(c: Center, d: Center, w: Wake)
    requires Joins(c, d, w)
    ensures multiset(Notices(Order(d))) == multiset(Notices(Order(c)) + if IsNotice(w) then [w] else [])
    ensures !w.Tasks? ==> TaskIds(Wakes(d.sent)) == TaskIds(Wakes(c.sent)) && TaskIds(d.held) == TaskIds(c.held)
  {
    hide Notices, TaskIds, Wakes, About;
    var a, b := Wakes(c.sent), c.held;
    if d.sent == c.sent {
      assert Order(d) == Order(c) + [w];
      OneMore(a + b, w, "");
      OneMore(b, w, "");
    } else {
      WakesOne(c.sent, d.sent[|c.sent|]);
      OneMore(a, w, "");
      ProjectionsSplit(a, b, "");
      ProjectionsSplit(a + [w], b, "");
      Middle(Notices(a), if IsNotice(w) then [w] else [], Notices(b));
    }
  }

  lemma Middle(a: seq<Wake>, m: seq<Wake>, b: seq<Wake>)
    ensures multiset(a + m + b) == multiset(a + b + m)
  {}

  lemma RouteJoins(c: Center, o: Oracle, w: Wake, passive: bool)
    ensures var d := Route(c, o, w, passive);
      Joins(c, d, w) && d == c.(sent := d.sent, held := d.held, asked := d.asked, runPending := d.runPending)
  {
    var d := Route(c, o, w, passive);
    if d.held == c.held {
      var s := d.sent[|c.sent|];
      assert d.sent == c.sent + [Sent(w, s.mode, c.held, s.question)];
    }
  }

  lemma DeliverJoins(c: Center, o: Oracle, w: Wake)
    ensures var d := Deliver(c, o, w, false);
      Joins(c, d, w) && d == c.(sent := d.sent, asked := d.asked, runPending := d.runPending)
  {
    var d := Deliver(c, o, w, false);
    var s := d.sent[|c.sent|];
    assert d.sent == c.sent + [Sent(w, s.mode, c.held, s.question)];
  }

  // ---- one monitor's output goes out ----

  /** The wake a pending item makes belongs after all others of its monitor. */
  lemma PendingIsNewest(c: Center, h: History, task: Id)
    requires StoryOk(c, h, task) && InTurn(h) && Lookup(c.pendingMonitors, task).Some?
    ensures Newest(WakeOf(Lookup(c.pendingMonitors, task).value), Told(c, task)) && !Closed(h, task)
  {
    hide Arranged, Overtaken, About, ByArrival, Tells, Later, EventsOf, Closed;
    var w := WakeOf(Lookup(c.pendingMonitors, task).value);
    EventsOfNumbered(h.events, task);
    var told := ByArrival(Told(c, task));
    TellsAscends(told + [w], EventsOf(h.events, task));
    assert (told + [w])[..|told|] == told;
    SortedAre(Told(c, task));
  }

  lemma FlushMonitorKeeps(c: Center, h: History, o: Oracle, task: Id, quiet: bool)
    requires Inv(c, h)
    ensures var d := FlushMonitor(c, o, task, quiet);
      Inv(d, h) && Lookup(d.pendingMonitors, task).None? && (|d.pendingMonitors| < |c.pendingMonitors| || d == c)
  {
    hide Inv, Route, Deliver;
    match Lookup(c.pendingMonitors, task)
    case None =>
    case Some(item) =>
      var d, w := FlushMonitor(c, o, task, quiet), WakeOf(item);
      var c' := c.(pendingMonitors := Delete(c.pendingMonitors, task));
      RouteJoins(c', o, w, true);
      DeliverJoins(c', o, w);
      InvUnique(c, h);
      LookupDelete(c.pendingMonitors, task, task);
      DeleteShortens(c.pendingMonitors, task);
      FlushedKeeps(c, h, d, task);
  }

  lemma InvUnique(c: Center, h: History)
    requires Inv(c, h)
    ensures Unique(c.pendingMonitors) && !c.disposed
  {}

  lemma FlushedKeeps(c: Center, h: History, d: Center, task: Id)
    requires Inv(c, h) && Lookup(c.pendingMonitors, task).Some?
    requires Joins(c, d, WakeOf(Lookup(c.pendingMonitors, task).value))
    requires d == c.(sent := d.sent, held := d.held, asked := d.asked, runPending := d.runPending,
                     pendingMonitors := Delete(c.pendingMonitors, task))
    ensures Inv(d, h)
  {
    hide Joins, StoryOk, Tells, Notices, TaskIds, Closed, NoDup, Wakes;
    var w := WakeOf(Lookup(c.pendingMonitors, task).value);
    LookupTask(c.pendingMonitors, task);
    LookupDelete(c.pendingMonitors, task, task);
    JoinsNotices(c, d, w);
    forall t ensures StoryOk(d, h, t) {
      assert StoryOk(c, h, t);
      FlushedStory(c, h, d, task, t);
    }
  }

  lemma FlushedStory(c: Center, h: History, d: Center, task: Id, t: Id)
    requires StoryOk(c, h, t) && InTurn(h) && Unique(c.pendingMonitors) && Lookup(c.pendingMonitors, task).Some?
    requires Joins(c, d, WakeOf(Lookup(c.pendingMonitors, task).value))
    requires d.pendingMonitors == Delete(c.pendingMonitors, task)
    ensures StoryOk(d, h, t)
  {
    hide Arranged, Overtaken, About, ByArrival, Tells, EventsOf, Closed, Joins, Newest, Told, Lookup, Delete;
    var w := WakeOf(Lookup(c.pendingMonitors, task).value);
    LookupTask(c.pendingMonitors, task);
    LookupDelete(c.pendingMonitors, task, t);
    if t == task {
      PendingIsNewest(c, h, t);
      JoinsHere(c, d, w, t);
      assert ByArrival(Told(d, t)) + [] == ByArrival(Told(c, t)) + [w];
    } else {
      JoinsElsewhere(c, d, w, t);
    }
  }

  lemma {:induction false} FlushAllKeeps(c: Center, h: History, o: Oracle)
    requires Inv(c, h)
    ensures Inv(FlushAll(c, o), h) && FlushAll(c, o).pendingMonitors == []
    decreases |c.pendingMonitors|
  {
    hide Inv, FlushMonitor;
    if c.pendingMonitors != [] {
      var task := c.pendingMonitors[0].task;
      FlushMonitorKeeps(c, h, o, task, false);
      FlushAllKeeps(FlushMonitor(c, o, task, false), h, o);
    }
  }

  /** Neither questions to the host nor the run flag carry a part of the invariant. */
  lemma Frame(c: Center, d: Center, h: History)
    requires Inv(c, h) && d == c.(asked := d.asked, runPending := d.runPending)
    ensures Inv(d, h)
  {
    hide Tells, ByArrival, About, Arranged, Overtaken, Closed, Wakes;
    forall t ensures StoryOk(d, h, t) { assert StoryOk(c, h, t); }
  }

  lemma FlushEventsKeeps(c: Center, h: History, o: Oracle)
    requires Inv(c, h)
    ensures Inv(FlushMonitorEvents(c, o), h)
  {
    hide Inv, FlushAll;
    var c' := c.(asked := c.asked + 1);
    Frame(c, c', h);
    FlushAllKeeps(c', h, o);
  }

  // ---- notices ----

  lemma ClosedGrows(h: History, wake: Wake, t: Id)
    ensures Closed(h.(notices := h.notices + [wake]), t) <==> Closed(h, t) || (wake.Closing? && wake.task == t)
  {}

  /** A notice is sent or held; a closing one after the monitor's own output. */
  lemma RouteKeeps(c: Center, h: History, o: Oracle, wake: Wake, passive: bool)
    requires Inv(c, h) && IsNotice(wake)
    requires wake.Closing? ==> !Closed(h, wake.task) && Lookup(c.pendingMonitors, wake.task).None?
    ensures Inv(Route(c, o, wake, passive), h.(notices := h.notices + [wake]))
  {
    hide Route, StoryOk, Tells, Notices, TaskIds, Closed, NoDup, Wakes, Joins, Lookup;
    var d, h' := Route(c, o, wake, passive), h.(notices := h.notices + [wake]);
    RouteJoins(c, o, wake, passive);
    JoinsNotices(c, d, wake);
    forall t ensures StoryOk(d, h', t) {
      assert StoryOk(c, h, t);
      NoticeStory(c, h, d, wake, t);
    }
  }

  lemma NoticeStory(c: Center, h: History, d: Center, wake: Wake, t: Id)
    requires StoryOk(c, h, t) && InTurn(h) && Joins(c, d, wake) && d.pendingMonitors == c.pendingMonitors
    requires IsNotice(wake)
    requires wake.Closing? ==> !Closed(h, wake.task) && Lookup(c.pendingMonitors, wake.task).None?
    ensures StoryOk(d, h.(notices := h.notices + [wake]), t)
  {
    hide Arranged, Overtaken, About, ByArrival, Tells, EventsOf, Closed, Joins, Told, Lookup;
    ClosedGrows(h, wake, t);
    if MonitorOf(wake) == Some(t) {
      var told := ByArrival(Told(c, t));
      assert told + [] == told;
      EventsOfNumbered(h.events, t);
      TellsAscends(told, EventsOf(h.events, t));
      SortedAre(Told(c, t));
      JoinsHere(c, d, wake, t);
      assert (told + [wake])[..|told|] == told && ByArrival(Told(d, t)) + [] == told + [wake];
    } else {
      JoinsElsewhere(c, d, wake, t);
    }
  }

  lemma NoticeKeeps(c: Center, h: History, o: Oracle, wake: Wake, passive: bool, quietEvents: bool)
    requires Inv(c, h) && Enabled(h, Notified(wake, passive, quietEvents))
    ensures Inv(Notice(c, o, wake, passive, quietEvents), h.(notices := h.notices + [wake]))
  {
    hide Inv, FlushMonitor, Route, Lookup, Closed;
    InvUnique(c, h);
    if wake.Closing? {
      FlushMonitorKeeps(c, h, o, wake.task, quietEvents);
      RouteKeeps(FlushMonitor(c, o, wake.task, quietEvents), h, o, wake, passive);
    } else {
      RouteKeeps(c, h, o, wake, passive);
    }
  }

  // ---- held notices go out ----

  lemma SettledKeeps(c: Center, h: History, o: Oracle)
    requires Inv(c, h)
    ensures Inv(Settled(c, o), h)
  {
    hide Inv, FlushMonitorEvents;
    InvUnique(c, h);
    Frame(c, c.(runPending := false), h);
    FlushEventsKeeps(c.(runPending := false), h, o);
    var c' := FlushMonitorEvents(c.(runPending := false), o);
    if !c'.runPending { SendHeldKeeps(c', h); }
  }

  function AsSent(held: seq<Wake>): seq<Sent> {
    seq(|held|, i requires 0 <= i < |held| => Sent(held[i], Passive, [], None))
  }

  lemma SendHeldKeeps(c: Center, h: History)
    requires Inv(c, h)
    ensures Inv(SendHeld(c, c.held), h)
  {
    hide Tells, ByArrival, About, Arranged, Overtaken, Closed, Notices, TaskIds, NoDup, EventsOf;
    var d := SendHeld(c, c.held);
    assert Order(d) == Order(c);
    assert Wakes(d.sent) == Wakes(c.sent) + c.held;
    ProjectionsSplit(Wakes(c.sent), c.held, "");
    NothingAbout("");
    forall t ensures StoryOk(d, h, t) {
      assert StoryOk(c, h, t);
      SendingHeldOvertakesNone(c, t);
    }
  }

  lemma SendingHeldOvertakesNone(c: Center, t: Id)
    ensures Overtaken(SendHeld(c, c.held).sent, t) <==> Overtaken(c.sent, t)
  {
    var d := SendHeld(c, c.held);
    assert d.sent == c.sent + AsSent(c.held);
    assert forall s | s in AsSent(c.held) :: s.held == [];
    assert forall s | s in c.sent :: s in d.sent;
    assert forall s | s in d.sent :: s in c.sent || s in AsSent(c.held);
  }

  // ---- monitor output ----

  lemma ClosedIsOfNotices(h: History, e: Ev, t: Id)
    ensures Closed(h.(events := h.events + [e]), t) <==> Closed(h, t)
  {}

  /** Delivered at once. */
  lemma EventSentKeeps(c: Center, h: History, o: Oracle, e: Ev)
    requires Inv(c, h) && Enabled(h, Output(e, false)) && Lookup(c.pendingMonitors, e.task).None?
    ensures Inv(Deliver(c, o, Event(e.task, 1, e.text, e.dropped, e.at), false), h.(events := h.events + [e]))
  {
    hide Deliver, StoryOk, Tells, Notices, TaskIds, Closed, NoDup, Wakes, Joins, Lookup;
    var w := Event(e.task, 1, e.text, e.dropped, e.at);
    var d, h' := Deliver(c, o, w, false), h.(events := h.events + [e]);
    DeliverJoins(c, o, w);
    JoinsNotices(c, d, w);
    forall t ensures StoryOk(d, h', t) {
      assert StoryOk(c, h, t);
      EventSentStory(c, h, d, e, t);
    }
  }

  lemma EventSentStory(c: Center, h: History, d: Center, e: Ev, t: Id)
    requires StoryOk(c, h, t) && InTurn(h) && d.pendingMonitors == c.pendingMonitors
    requires Joins(c, d, Event(e.task, 1, e.text, e.dropped, e.at))
    requires Enabled(h, Output(e, false)) && Lookup(c.pendingMonitors, e.task).None?
    ensures StoryOk(d, h.(events := h.events + [e]), t)
  {
    hide Arranged, Overtaken, About, ByArrival, Tells, EventsOf, Closed, Joins, Told, Lookup;
    var w := Event(e.task, 1, e.text, e.dropped, e.at);
    EventsOfMore(h.events, e, t);
    ClosedIsOfNotices(h, e, t);
    if e.task == t {
      var told, events := ByArrival(Told(c, t)), EventsOf(h.events, t);
      assert told + [] == told;
      EventsOfNumbered(h.events, t);
      TellsAscends(told, events);
      assert events != [] ==> events[|events| - 1] in events;
      SortedAre(Told(c, t));
      JoinsHere(c, d, w, t);
      TellsOneMore(told, events, e);
      assert ByArrival(Told(d, t)) + [] == told + [w];
    } else {
      JoinsElsewhere(c, d, w, t);
      assert EventsOf(h.events + [e], t) == EventsOf(h.events, t);
    }
  }

  /** Coalesced with what is pending. */
  lemma EventHeldKeeps(c: Center, h: History, e: Ev, quiet: bool)
    requires Inv(c, h) && Enabled(h, Output(e, quiet))
    ensures var item := Coalesced(Lookup(c.pendingMonitors, e.task), e, quiet);
      Inv(c.(pendingMonitors := Put(c.pendingMonitors, item)), h.(events := h.events + [e]))
  {
    hide StoryOk, Notices, TaskIds, Lookup, NoDup, EventsOf, Coalesced, Closed, Wakes;
    var item := Coalesced(Lookup(c.pendingMonitors, e.task), e, quiet);
    var d, h' := c.(pendingMonitors := Put(c.pendingMonitors, item)), h.(events := h.events + [e]);
    LookupPut(c.pendingMonitors, item, e.task);
    forall t ensures StoryOk(d, h', t) {
      assert StoryOk(c, h, t);
      EventHeldStory(c, h, e, quiet, t);
    }
  }

  lemma EventHeldStory(c: Center, h: History, e: Ev, quiet: bool, t: Id)
    requires StoryOk(c, h, t) && Enabled(h, Output(e, quiet))
    ensures var item := Coalesced(Lookup(c.pendingMonitors, e.task), e, quiet);
      StoryOk(c.(pendingMonitors := Put(c.pendingMonitors, item)), h.(events := h.events + [e]), t)
  {
    hide Tells, Lookup, EventsOf, Closed, Arranged, Overtaken, ByArrival, About, Wakes;
    var pending := Lookup(c.pendingMonitors, e.task);
    var item := Coalesced(pending, e, quiet);
    LookupTask(c.pendingMonitors, e.task);
    LookupPut(c.pendingMonitors, item, t);
    EventsOfMore(h.events, e, t);
    ClosedIsOfNotices(h, e, t);
    if t == e.task {
      var told := ByArrival(Told(c, t));
      var all := told + PendingWake(c.pendingMonitors, t);
      TellsOneMore(all, EventsOf(h.events, t), e);
      match pending {
        case None => assert all == told;
        case Some(p) => assert all[..|all| - 1] == told;
      }
    } else {
      assert EventsOf(h.events + [e], t) == EventsOf(h.events, t);
    }
  }

  lemma MonitorEventKeeps(c: Center, h: History, o: Oracle, e: Ev, quiet: bool)
    requires Inv(c, h) && Enabled(h, Output(e, quiet))
    ensures Inv(MonitorEvent(c, o, e, quiet), h.(events := h.events + [e]))
  {
    hide Inv, Deliver, FlushMonitorEvents, Closed, Lookup, Put, Coalesced;
    InvUnique(c, h);
    var c1 := c.(asked := c.asked + 1);
    Frame(c, c1, h);
    var pending := Lookup(c.pendingMonitors, e.task);
    if o(c.asked) && pending.None? && !quiet {
      EventSentKeeps(c1, h, o, e);
    } else {
      EventHeldKeeps(c1, h, e, quiet);
      var h' := h.(events := h.events + [e]);
      var c1' := c1.(pendingMonitors := Put(c.pendingMonitors, Coalesced(pending, e, quiet)));
      Frame(c1', c1'.(asked := c1.asked + 1), h');
      FlushEventsKeeps(c1'.(asked := c1.asked + 1), h', o);
    }
  }

  // ---- task exits ----

  lemma FlushExitsKeeps(c: Center, h: History, o: Oracle)
    requires Inv(c, h)
    ensures Inv(FlushExits(c.(timer := false), o), h)
  {
    hide Tells, ByArrival, About, Arranged, Overtaken, Closed, Notices, TaskIds, NoDup, EventsOf, Deliver, Joins, Wakes;
    var c' := c.(timer := false);
    var d := FlushExits(c', o);
    if c.pendingExits == [] {
      forall t ensures StoryOk(d, h, t) { assert StoryOk(c, h, t); }
    } else {
      var w := Tasks(c.pendingExits);
      var c1 := c'.(pendingExits := []);
      DeliverJoins(c1, o, w);
      JoinsNotices(c1, d, w);
      ExitsSent(c1, d, c.pendingExits);
      forall t ensures StoryOk(d, h, t) {
        assert StoryOk(c, h, t);
        JoinsElsewhere(c1, d, w, t);
      }
    }
  }

  lemma ExitsSent(c: Center, d: Center, ids: seq<Id>)
    requires Joins(c, d, Tasks(ids)) && d.held == c.held
    ensures TaskIds(Wakes(d.sent)) == TaskIds(Wakes(c.sent)) + ids
  {
    hide TaskIds;
    assert c.held + [Tasks(ids)] != c.held by { assert |c.held + [Tasks(ids)]| > |c.held|; }
    WakesOne(c.sent, d.sent[|c.sent|]);
    OneMore(Wakes(c.sent), Tasks(ids), "");
  }

  lemma ExitKeeps(c: Center, h: History, task: Id)
    requires Inv(c, h)
    ensures Inv(TaskExit(c, task), Note(h, Exited(task)))
  {
    hide Tells, ByArrival, About, Arranged, Overtaken, Notices, TaskIds, EventsOf, Wakes;
    var d, h' := TaskExit(c, task), Note(h, Exited(task));
    assert forall t :: Closed(h', t) <==> Closed(h, t);
    forall t ensures StoryOk(d, h', t) { assert StoryOk(c, h, t); }
    assert TaskIds(Wakes(c.sent)) + (c.pendingExits + [task]) == TaskIds(Wakes(c.sent)) + c.pendingExits + [task];
  }

  // ---- runs ----

  lemma StepKeeps(c: Center, h: History, o: Oracle, step: Step)
    requires Inv(c, h) && Enabled(h, step)
    ensures Inv(Do(c, o, step), Note(h, step))
  {
    hide Inv, Deliver, Route, Notice, TaskExit, MonitorEvent, Settled, FlushExits, FlushMonitorEvents, Closed;
    match step
    case Exited(task) => ExitKeeps(c, h, task);
    case Notified(wake, passive, quietEvents) => NoticeKeeps(c, h, o, wake, passive, quietEvents);
    case Output(e, quiet) => MonitorEventKeeps(c, h, o, e, quiet);
    case AgentSettled => SettledKeeps(c, h, o);
    case TimerFires => FlushExitsKeeps(c, h, o);
    case FlushNow => FlushExitsKeeps(c, h, o); FlushEventsKeeps(FlushExits(c.(timer := false), o), h, o);
  }

  lemma {:induction false} RunKeeps(o: Oracle, cs: seq<Center>, hs: seq<History>, steps: seq<Step>, i: nat)
    requires Run(o, cs, hs, steps) && i <= |steps|
    ensures Inv(cs[i], hs[i])
  {
    hide Inv, Do, Enabled, Note;
    if i == 0 {
      NewOk();
    } else {
      RunKeeps(o, cs, hs, steps, i - 1);
      StepKeeps(cs[i - 1], hs[i - 1], o, steps[i - 1]);
      assert cs[i - 1 + 1] == Do(cs[i - 1], o, steps[i - 1]) && hs[i - 1 + 1] == Note(hs[i - 1], steps[i - 1]);
    }
  }

  lemma NewOk()
    ensures Inv(New(), History([], [], []))
  {
    forall t ensures StoryOk(New(), History([], [], []), t) {}
  }

  /** A monitor's output, over every run and whatever the host's schedule: put in order, the
      wakes sent and held and then the one pending tell its events in arrival order, each event
      and each dropped line once, and its closing notice comes after them. */
  lemma EachEventTold(o: Oracle, cs: seq<Center>, hs: seq<History>, steps: seq<Step>, i: nat, task: Id)
    requires Run(o, cs, hs, steps) && i <= |steps|
    ensures var told, pending := Told(cs[i], task), PendingWake(cs[i].pendingMonitors, task);
      && multiset(ByArrival(told)) == multiset(told)
      && TellsAll(ByArrival(told) + pending, EventsOf(hs[i].events, task), Closed(hs[i], task))
      && (Closed(hs[i], task) ==> pending == [])
  {
    RunKeeps(o, cs, hs, steps, i);
    assert StoryOk(cs[i], hs[i], task);
    SortedAre(Told(cs[i], task));
  }

  /** As sent, and then held, they are in that order if and only if no wake about the monitor
      was ever sent while events of it were held back. */
  lemma ToldInOrderIff(o: Oracle, cs: seq<Center>, hs: seq<History>, steps: seq<Step>, i: nat, task: Id)
    requires Run(o, cs, hs, steps) && i <= |steps|
    ensures TellsAll(Told(cs[i], task) + PendingWake(cs[i].pendingMonitors, task), EventsOf(hs[i].events, task),
                     Closed(hs[i], task))
            <==> !Overtaken(cs[i].sent, task)
  {
    hide Tells, About, Overtaken, EventsOf, Closed, Lookup, Run;
    RunInv(o, cs, hs, steps, i, task);
    var c, h := cs[i], hs[i];
    var told, pending := Told(c, task), PendingWake(c.pendingMonitors, task);
    EventsOfNumbered(h.events, task);
    if Arranged(told) { ArrangedIsSorted(told); }
    if TellsAll(told + pending, EventsOf(h.events, task), Closed(h, task)) {
      TellsAllAscends(told + pending, EventsOf(h.events, task), Closed(h, task));
      assert forall k | 0 <= k < |told| :: told[k] == (told + pending)[k];
    }
  }

  lemma RunInv(o: Oracle, cs: seq<Center>, hs: seq<History>, steps: seq<Step>, i: nat, task: Id)
    requires Run(o, cs, hs, steps) && i <= |steps|
    ensures |cs| == |hs| == |steps| + 1 && StoryOk(cs[i], hs[i], task) && InTurn(hs[i])
  {
    RunKeeps(o, cs, hs, steps, i);
  }

  /** Each notice is sent or held exactly once, and each finished task is in one task wake, or
      waiting for the timer that makes it one, exactly once. */
  lemma NothingLostOrRepeated(o: Oracle, cs: seq<Center>, hs: seq<History>, steps: seq<Step>, i: nat)
    requires Run(o, cs, hs, steps) && i <= |steps|
    ensures multiset(Notices(Wakes(cs[i].sent) + cs[i].held)) == multiset(hs[i].notices)
    ensures TaskIds(Wakes(cs[i].sent)) + cs[i].pendingExits == hs[i].exits && NoDup(hs[i].exits)
    ensures cs[i].timer <==> cs[i].pendingExits != []
  {
    RunKeeps(o, cs, hs, steps, i);
  }

  /** What `Tells` says in numbers. */
  lemma {:induction false} ToldInFull(wakes: seq<Wake>, events: seq<Ev>)
    requires Tells(wakes, events)
    ensures Counted(wakes) == |events| && DroppedTold(wakes) == DroppedIn(events)
    decreases |wakes|
  {
    if wakes != [] {
      var w := wakes[|wakes| - 1];
      var k := |events| - w.count;
      ToldInFull(wakes[..|wakes| - 1], events[..k]);
      DroppedSplit(events[..k], events[k..]);
      assert events == events[..k] + events[k..];
    }
  }

  function Counted(wakes: seq<Wake>): nat {
    if wakes == [] then 0
    else Counted(wakes[..|wakes| - 1]) + if wakes[|wakes| - 1].Event? then wakes[|wakes| - 1].count else 0
  }

  function DroppedTold(wakes: seq<Wake>): nat {
    if wakes == [] then 0
    else DroppedTold(wakes[..|wakes| - 1]) + if wakes[|wakes| - 1].Event? then wakes[|wakes| - 1].dropped else 0
  }


  lemma {:induction false} CountedSplit(a: seq<Wake>, b: seq<Wake>)
    ensures Counted(a + b) == Counted(a) + Counted(b) && DroppedTold(a + b) == DroppedTold(a) + DroppedTold(b)
    decreases |b|
  {
    if b == [] {
      assert a + b == a;
    } else {
      CountedSplit(a, b[..|b| - 1]);
      assert (a + b)[..|a + b| - 1] == a + b[..|b| - 1];
    }
  }

  lemma {:induction false} InsertCounts(sorted: seq<Wake>, w: Wake)
    ensures Counted(InsertWake(sorted, w)) == Counted(sorted + [w])
    ensures DroppedTold(InsertWake(sorted, w)) == DroppedTold(sorted + [w])
    decreases |sorted|
  {
    hide Counted, DroppedTold;
    if sorted != [] && Later(sorted[|sorted| - 1], w) {
      var front, top := sorted[..|sorted| - 1], sorted[|sorted| - 1];
      InsertCounts(front, w);
      assert sorted == front + [top];
      CountedSplit(InsertWake(front, w), [top]);
      CountedSplit(front, [w]);
      CountedSplit(front, [top]);
      CountedSplit(sorted, [w]);
    }
  }

  lemma {:induction false} SortCounts(wakes: seq<Wake>)
    ensures Counted(ByArrival(wakes)) == Counted(wakes) && DroppedTold(ByArrival(wakes)) == DroppedTold(wakes)
    decreases |wakes|
  {
    hide Counted, DroppedTold;
    if wakes != [] {
      var front, w := wakes[..|wakes| - 1], wakes[|wakes| - 1];
      SortCounts(front);
      InsertCounts(ByArrival(front), w);
      assert wakes == front + [w];
      CountedSplit(ByArrival(front), [w]);
      CountedSplit(front, [w]);
    }
  }

  /** Over every run, quiet or not: the counts and the dropped lines of a monitor's wakes, sent,
      held and pending, add up to those of its output. */
  lemma CountsAddUp(o: Oracle, cs: seq<Center>, hs: seq<History>, steps: seq<Step>, i: nat, task: Id)
    requires Run(o, cs, hs, steps) && i <= |steps|
    ensures var all := Told(cs[i], task) + PendingWake(cs[i].pendingMonitors, task);
      var events := EventsOf(hs[i].events, task);
      Counted(all) == |events| && DroppedTold(all) == DroppedIn(events)
  {
    hide Tells, Counted, DroppedTold, ByArrival, Overtaken, Closed, EventsOf, DroppedIn, Lookup, About;
    RunInv(o, cs, hs, steps, i, task);
    var told, pending := Told(cs[i], task), PendingWake(cs[i].pendingMonitors, task);
    var sorted := ByArrival(told) + pending;
    SortCounts(told);
    CountedSplit(told, pending);
    CountedSplit(ByArrival(told), pending);
    if Closed(hs[i], task) {
      var front, last := sorted[..|sorted| - 1], sorted[|sorted| - 1];
      ToldInFull(front, EventsOf(hs[i].events, task));
      assert sorted == front + [last];
      CountedSplit(front, [last]);
      ClosingCountsNone(last);
    } else {
      ToldInFull(sorted, EventsOf(hs[i].events, task));
    }
  }

  lemma ClosingCountsNone(w: Wake)
    requires w.Closing?
    ensures Counted([w]) == 0 && DroppedTold([w]) == 0
  {
    assert [w][..0] == [];
  }

  // ---- when a monitor is overtaken ----

  /** What to look for before a step: events of the monitor are held back while there is
      something more to send about it; or its closing notice is to be sent although its own
      pending output is about to be held back. */
  predicate MayOvertake(c: Center, o: Oracle, step: Step, task: Id) {
    || (Waits(c.held, task) && (Lookup(c.pendingMonitors, task).Some? || Concerns(step, task)))
    || (step.Notified? && step.wake.Closing? && step.wake.task == task && ClosesOverQuiet(c, o, step))
  }

  predicate Concerns(step: Step, task: Id) {
    (step.Output? && step.e.task == task) || (step.Notified? && MonitorOf(step.wake) == Some(task))
  }

  predicate ClosesOverQuiet(c: Center, o: Oracle, step: Step)
    requires step.Notified? && step.wake.Closing?
  {
    var item := Lookup(c.pendingMonitors, step.wake.task);
    && item.Some? && (step.quietEvents || item.value.quiet)
    && (c.runPending || !o(c.asked))
    && (!step.passive || (!c.runPending && o(c.asked + 1)))
  }

  /** On the way from `c` to `d`, only what `c` held of the monitor's events was overtaken. */
  ghost predicate Calm(c: Center, d: Center, task: Id) {
    Overtaken(d.sent, task) ==> Overtaken(c.sent, task) || Waits(c.held, task)
  }

  lemma WaitsOne(held: seq<Wake>, w: Wake, task: Id)
    ensures Waits(held + [w], task) <==> Waits(held, task) || (w.Event? && w.task == task)
  {}

  lemma JoinOvertakes(c: Center, d: Center, w: Wake, task: Id)
    requires Joins(c, d, w)
    ensures Calm(c, d, task)
    ensures MonitorOf(w) != Some(task) ==> (Overtaken(d.sent, task) ==> Overtaken(c.sent, task))
    ensures d.held == c.held || MonitorOf(w) != Some(task) ==> (Waits(d.held, task) ==> Waits(c.held, task))
    ensures d.held != c.held ==> d.sent == c.sent
  {
    hide Overtaken, Waits;
    if d.sent == c.sent {
      if d.held != c.held { WaitsOne(c.held, w, task); }
    } else {
      OvertakenOne(c.sent, d.sent[|c.sent|], task);
    }
  }

  /** Flushing one monitor: another is not touched, and what joins the held ones is quiet. */
  lemma FlushMonitorCalm(c: Center, o: Oracle, other: Id, quiet: bool, task: Id)
    requires Unique(c.pendingMonitors)
    ensures var d := FlushMonitor(c, o, other, quiet);
      && Unique(d.pendingMonitors) && d.disposed == c.disposed && Calm(c, d, task)
      && (task != other || Lookup(c.pendingMonitors, other).None? ==>
            && (Overtaken(d.sent, task) ==> Overtaken(c.sent, task))
            && (Waits(d.held, task) ==> Waits(c.held, task))
            && Lookup(d.pendingMonitors, task) == Lookup(c.pendingMonitors, task))
      && (task == other ==> Lookup(d.pendingMonitors, task).None?)
  {
    hide Overtaken, Waits, Route, Deliver, Joins, Unique;
    match Lookup(c.pendingMonitors, other)
    case None =>
    case Some(item) =>
      var w := WakeOf(item);
      var c' := c.(pendingMonitors := Delete(c.pendingMonitors, other));
      RouteJoins(c', o, w, true);
      DeliverJoins(c', o, w);
      LookupTask(c.pendingMonitors, other);
      LookupDelete(c.pendingMonitors, other, task);
      var d := FlushMonitor(c, o, other, quiet);
      JoinOvertakes(c', d, w, task);
  }

  lemma {:induction false} FlushAllCalm(c: Center, o: Oracle, task: Id)
    requires Unique(c.pendingMonitors)
    ensures Calm(c, FlushAll(c, o), task)
    ensures Lookup(c.pendingMonitors, task).None? ==> (Overtaken(FlushAll(c, o).sent, task) ==> Overtaken(c.sent, task))
    decreases |c.pendingMonitors|
  {
    hide Overtaken, Waits, FlushMonitor, Unique;
    if c.pendingMonitors != [] {
      var first := c.pendingMonitors[0].task;
      FlushMonitorCalm(c, o, first, false, task);
      FlushMonitorShortens(c, o, first);
      FlushAllCalm(FlushMonitor(c, o, first, false), o, task);
    }
  }

  lemma FlushMonitorShortens(c: Center, o: Oracle, task: Id)
    requires Lookup(c.pendingMonitors, task).Some?
    ensures |FlushMonitor(c, o, task, false).pendingMonitors| < |c.pendingMonitors|
  {
    hide Delete;
    DeleteShortens(c.pendingMonitors, task);
  }

  lemma FlushEventsCalm(c: Center, o: Oracle, task: Id)
    requires Unique(c.pendingMonitors)
    ensures Calm(c, FlushMonitorEvents(c, o), task)
    ensures Lookup(c.pendingMonitors, task).None? ==>
              (Overtaken(FlushMonitorEvents(c, o).sent, task) ==> Overtaken(c.sent, task))
  {
    hide Overtaken, Waits, FlushAll, Unique, Lookup;
    FlushAllCalm(c.(asked := c.asked + 1), o, task);
  }

  /** A closing notice overtakes only what was held before it, or what its own flush held. */
  lemma NoticeCalm(c: Center, o: Oracle, wake: Wake, passive: bool, quietEvents: bool, task: Id)
    requires Unique(c.pendingMonitors) && IsNotice(wake)
    requires !MayOvertake(c, o, Notified(wake, passive, quietEvents), task)
    ensures Overtaken(Notice(c, o, wake, passive, quietEvents).sent, task) ==> Overtaken(c.sent, task)
  {
    hide Overtaken, Waits, Unique, Joins;
    if wake.Closing? {
      var c' := FlushMonitor(c, o, wake.task, quietEvents);
      FlushMonitorCalm(c, o, wake.task, quietEvents, task);
      RouteJoins(c', o, wake, passive);
      JoinOvertakes(c', Route(c', o, wake, passive), wake, task);
    } else {
      RouteJoins(c, o, wake, passive);
      JoinOvertakes(c, Route(c, o, wake, passive), wake, task);
    }
  }

  /** A step that makes a wake overtake events of its monitor can be told from the state
      before it. */
  lemma StepOvertakes(c: Center, h: History, o: Oracle, step: Step, task: Id)
    requires Inv(c, h) && Enabled(h, step) && !MayOvertake(c, o, step, task)
    ensures Overtaken(Do(c, o, step).sent, task) ==> Overtaken(c.sent, task)
  {
    hide Overtaken, Waits, StoriesOk, NoticesOk, ExitsOk, FlushMonitorEvents, Deliver, Unique, Closed, Notice, Put,
         Joins, Lookup;
    match step {
      case Exited(_) =>
      case Notified(wake, passive, quietEvents) => NoticeCalm(c, o, wake, passive, quietEvents, task);
      case Output(e, quiet) => OutputCalm(c, o, e, quiet, task);
      case AgentSettled => SettledCalm(c, o, task);
      case TimerFires => ExitsCalm(c.(timer := false), o, task);
      case FlushNow =>
        ExitsCalm(c.(timer := false), o, task);
        FlushEventsCalm(FlushExits(c.(timer := false), o), o, task);
    }
  }

  lemma OutputCalm(c: Center, o: Oracle, e: Ev, quiet: bool, task: Id)
    requires Unique(c.pendingMonitors)
    requires !Waits(c.held, task) || (Lookup(c.pendingMonitors, task).None? && e.task != task)
    ensures Overtaken(MonitorEvent(c, o, e, quiet).sent, task) ==> Overtaken(c.sent, task)
  {
    hide Overtaken, Waits, FlushMonitorEvents, Deliver, Unique, Put, Joins, Lookup;
    var c1 := c.(asked := c.asked + 1);
    var w := Event(e.task, 1, e.text, e.dropped, e.at);
    DeliverJoins(c1, o, w);
    JoinOvertakes(c1, Deliver(c1, o, w, false), w, task);
    var item := Coalesced(Lookup(c.pendingMonitors, e.task), e, quiet);
    LookupPut(c.pendingMonitors, item, task);
    FlushEventsCalm(c1.(pendingMonitors := Put(c.pendingMonitors, item), asked := c1.asked + 1), o, task);
  }

  lemma SettledCalm(c: Center, o: Oracle, task: Id)
    requires Unique(c.pendingMonitors) && (!Waits(c.held, task) || Lookup(c.pendingMonitors, task).None?)
    ensures Overtaken(Settled(c, o).sent, task) ==> Overtaken(c.sent, task)
  {
    hide Overtaken, Waits, FlushMonitorEvents, Unique, SendHeld, Lookup;
    var c' := FlushMonitorEvents(c.(runPending := false), o);
    FlushEventsCalm(c.(runPending := false), o, task);
    SendingHeldOvertakesNone(c', task);
  }

  lemma ExitsCalm(c: Center, o: Oracle, task: Id)
    requires Unique(c.pendingMonitors)
    ensures var d := FlushExits(c, o);
      && (Overtaken(d.sent, task) ==> Overtaken(c.sent, task))
      && d.held == c.held && d.pendingMonitors == c.pendingMonitors
  {
    hide Overtaken, Waits, Deliver, Joins, Unique;
    if !c.disposed && c.pendingExits != [] {
      var c', w := c.(pendingExits := []), Tasks(c.pendingExits);
      DeliverJoins(c', o, w);
      JoinOvertakes(c', Deliver(c', o, w, false), w, task);
    }
  }

  /** Once a monitor is closed there is nothing more to send about it: what was held back with
      its closing notice, after a stop that succeeded, cannot be overtaken. */
  lemma ClosedIsSafe(c: Center, h: History, o: Oracle, step: Step, task: Id)
    requires Inv(c, h) && Enabled(h, step) && Closed(h, task)
    ensures !MayOvertake(c, o, step, task)
  {
    hide Tells, ByArrival, About, Arranged, Overtaken, Closed, Waits, Lookup, NoticesOk, ExitsOk;
    assert StoryOk(c, h, task);
  }

  /** A monitor is told in order in every run in which no step finds events of it held back with
      more to send about it, or closes it over its own quiet output. */
  lemma {:induction false} NeverOvertaken(o: Oracle, cs: seq<Center>, hs: seq<History>, steps: seq<Step>,
                                          i: nat, task: Id)
    requires Run(o, cs, hs, steps) && i <= |steps|
    requires forall k | 0 <= k < i :: !MayOvertake(cs[k], o, steps[k], task)
    ensures !Overtaken(cs[i].sent, task)
  {
    hide Inv, Do, Enabled, Note, Overtaken, MayOvertake;
    if i == 0 {
      NothingSent(task);
    } else {
      NeverOvertaken(o, cs, hs, steps, i - 1, task);
      RunKeeps(o, cs, hs, steps, i - 1);
      StepOvertakes(cs[i - 1], hs[i - 1], o, steps[i - 1], task);
      assert cs[i - 1 + 1] == Do(cs[i - 1], o, steps[i - 1]);
    }
  }

  lemma NothingSent(task: Id)
    ensures !Overtaken(New().sent, task)
  {}

  predicate QuietAbout(step: Step, task: Id) {
    || (step.Output? && step.quiet && step.e.task == task)
    || (step.Notified? && step.quietEvents && MonitorOf(step.wake) == Some(task))
  }

  /** Neither pending nor held output of the monitor is quiet. */
  predicate Plain(c: Center, task: Id) {
    !Waits(c.held, task) && (Lookup(c.pendingMonitors, task).Some? ==> !Lookup(c.pendingMonitors, task).value.quiet)
  }

  lemma FlushMonitorPlain(c: Center, o: Oracle, other: Id, quiet: bool, task: Id)
    requires Unique(c.pendingMonitors) && Plain(c, task) && (quiet ==> other != task)
    ensures Plain(FlushMonitor(c, o, other, quiet), task)
  {
    hide Waits, Overtaken, Unique, Delete, Lookup;
    FlushMonitorCalm(c, o, other, quiet, task);
  }

  lemma {:induction false} FlushAllPlain(c: Center, o: Oracle, task: Id)
    requires Unique(c.pendingMonitors) && Plain(c, task)
    ensures Plain(FlushAll(c, o), task)
    decreases |c.pendingMonitors|
  {
    hide Overtaken, Plain, FlushMonitor, Unique;
    if c.pendingMonitors != [] {
      var first := c.pendingMonitors[0].task;
      FlushMonitorPlain(c, o, first, false, task);
      FlushMonitorCalm(c, o, first, false, task);
      FlushMonitorShortens(c, o, first);
      FlushAllPlain(FlushMonitor(c, o, first, false), o, task);
    }
  }

  lemma FlushEventsPlain(c: Center, o: Oracle, task: Id)
    requires Unique(c.pendingMonitors) && Plain(c, task)
    ensures Plain(FlushMonitorEvents(c, o), task)
  {
    hide Waits, FlushAll, Unique, Lookup;
    FlushAllPlain(c.(asked := c.asked + 1), o, task);
  }

  lemma NoticePlain(c: Center, o: Oracle, wake: Wake, passive: bool, quietEvents: bool, task: Id)
    requires Unique(c.pendingMonitors) && IsNotice(wake) && Plain(c, task)
    requires !QuietAbout(Notified(wake, passive, quietEvents), task)
    ensures Plain(Notice(c, o, wake, passive, quietEvents), task)
  {
    hide Waits, Unique, Lookup, FlushMonitor;
    var c' := if wake.Closing? then FlushMonitor(c, o, wake.task, quietEvents) else c;
    if wake.Closing? { FlushMonitorPlain(c, o, wake.task, quietEvents, task); }
    WaitsOne(c'.held, wake, task);
  }

  lemma OutputPlain(c: Center, o: Oracle, e: Ev, quiet: bool, task: Id)
    requires Unique(c.pendingMonitors) && Plain(c, task) && !(quiet && e.task == task)
    ensures Plain(MonitorEvent(c, o, e, quiet), task)
  {
    hide Waits, FlushMonitorEvents, Unique, Put, Lookup;
    var item := Coalesced(Lookup(c.pendingMonitors, e.task), e, quiet);
    LookupPut(c.pendingMonitors, item, task);
    FlushEventsPlain(c.(asked := c.asked + 2, pendingMonitors := Put(c.pendingMonitors, item)), o, task);
  }

  lemma StepPlain(c: Center, h: History, o: Oracle, step: Step, task: Id)
    requires Inv(c, h) && Enabled(h, step) && Plain(c, task) && !QuietAbout(step, task)
    ensures Plain(Do(c, o, step), task)
  {
    hide StoriesOk, NoticesOk, ExitsOk, FlushMonitorEvents, Unique, Closed, Notice, MonitorEvent, Waits, Lookup;
    match step {
      case Exited(_) =>
      case Notified(wake, passive, quietEvents) => NoticePlain(c, o, wake, passive, quietEvents, task);
      case Output(e, quiet) => OutputPlain(c, o, e, quiet, task);
      case AgentSettled =>
        FlushEventsPlain(c.(runPending := false), o, task);
        NothingWaits(task);
      case TimerFires =>
      case FlushNow => FlushEventsPlain(FlushExits(c.(timer := false), o), o, task);
    }
  }

  lemma NothingWaits(task: Id)
    ensures !Waits([], task)
  {}

  /** Without anything quiet about it, a monitor is told in order, whatever the schedule. */
  lemma {:induction false} PlainIsNeverOvertaken(o: Oracle, cs: seq<Center>, hs: seq<History>, steps: seq<Step>,
                                                 i: nat, task: Id)
    requires Run(o, cs, hs, steps) && i <= |steps|
    requires forall k | 0 <= k < i :: !QuietAbout(steps[k], task)
    ensures Plain(cs[i], task) && !Overtaken(cs[i].sent, task)
  {
    hide Inv, Do, Enabled, Note, Overtaken, Waits, QuietAbout;
    if i == 0 {
      NothingSent(task);
      NothingWaits(task);
    } else {
      PlainIsNeverOvertaken(o, cs, hs, steps, i - 1, task);
      RunKeeps(o, cs, hs, steps, i - 1);
      var c, step := cs[i - 1], steps[i - 1];
      StepPlain(c, hs[i - 1], o, step, task);
      PlainMayNot(c, o, step, task);
      StepOvertakes(c, hs[i - 1], o, step, task);
      assert cs[i - 1 + 1] == Do(c, o, step);
    }
  }

  lemma PlainMayNot(c: Center, o: Oracle, step: Step, task: Id)
    requires Plain(c, task) && !QuietAbout(step, task)
    ensures !MayOvertake(c, o, step, task)
  {
    hide Waits, Lookup;
  }

  /** Without anything quiet about the monitor, its wakes tell its events in arrival order, each
      event and each dropped line once, and its closing notice comes last; none of its events
      is ever held back. */
  lemma MonitorTold(o: Oracle, cs: seq<Center>, hs: seq<History>, steps: seq<Step>, i: nat, task: Id)
    requires Run(o, cs, hs, steps) && i <= |steps|
    requires forall k | 0 <= k < i :: !QuietAbout(steps[k], task)
    ensures TellsAll(Told(cs[i], task) + PendingWake(cs[i].pendingMonitors, task), EventsOf(hs[i].events, task),
                     Closed(hs[i], task))
    ensures !Waits(cs[i].held, task)
  {
    hide TellsAll, Overtaken, Waits, Lookup, Closed, EventsOf, QuietAbout;
    PlainIsNeverOvertaken(o, cs, hs, steps, i, task);
    ToldInOrderIff(o, cs, hs, steps, i, task);
  }

  /** Order fails for a monitor whose stop was requested and failed: what it printed meanwhile
      is held back as quiet, and what it prints next is sent first. */
  lemma QuietOutputIsOvertaken()
    ensures var o: Oracle := _ => true;
      var c1 := Do(New(), o, Output(Ev("m", "first", 0, 0), true));
      var c2 := Do(c1, o, Notified(Other("wake"), false, false));
      var c3 := Do(c2, o, Output(Ev("m", "second", 0, 1), false));
      var c4 := Do(c3, o, Output(Ev("m", "third", 0, 2), false));
      && c4.held == [Event("m", 2, "second", 0, 1)] && Wakes(c4.sent) == [Other("wake"), Event("m", 1, "third", 0, 2)]
      && MayOvertake(c3, o, Output(Ev("m", "third", 0, 2), false), "m") && Overtaken(c4.sent, "m")
  {
    var o: Oracle := _ => true;
    var c1 := Do(New(), o, Output(Ev("m", "first", 0, 0), true));
    assert c1.pendingMonitors == [Item("m", 1, "first", 0, true, 0)];
    var c2 := Do(c1, o, Notified(Other("wake"), false, false));
    assert c2.sent == [Sent(Other("wake"), Trigger, [], Some(c1.asked))] && c2.runPending;
    var item := Item("m", 2, "second", 0, true, 1);
    var coalesced := c2.(pendingMonitors := [item], asked := c2.asked + 3);
    assert Put(c2.pendingMonitors, item) == [item] && Delete([item], "m") == [];
    var flushed := FlushMonitor(coalesced, o, "m", false);
    assert flushed == coalesced.(pendingMonitors := [], held := [WakeOf(item)]);
    assert FlushAll(coalesced, o) == flushed;
    var c3 := Do(c2, o, Output(Ev("m", "second", 0, 1), false));
    assert c3 == flushed;
    assert WakeOf(item) in c3.held;
    var c4 := Do(c3, o, Output(Ev("m", "third", 0, 2), false));
    var s := Sent(Event("m", 1, "third", 0, 2), Trigger, c3.held, Some(c3.asked + 1));
    assert c4.sent == c2.sent + [s] && s in c4.sent;
  }
}
