/** The race between a task's exit and the mark that wants to hear of it:
    extension/src/exit-notify-gate.ts, over any calls at non-decreasing times. */
module ExitGate {
  import opened Options

  type Id = string

  /** `recent` holds exits that arrived unmarked, `stamped` when they did. */
  datatype Gate = Gate(ttl: nat, notify: set<Id>, recent: map<Id, nat>, stamped: map<Id, int>)

  datatype Decision = Notify | Stash | Ignore

  function New(ttl: nat): Gate {
    Gate(ttl, {}, map[], map[])
  }

  function Expired(g: Gate, now: int): set<Id> {
    set id | id in g.stamped && g.stamped[id] < now - g.ttl
  }

  function Prune(g: Gate, now: int): Gate {
    g.(stamped := g.stamped - Expired(g, now), recent := g.recent - Expired(g, now))
  }

  /** `mark`: the new state, and the exit to deliver now. */
  function Mark(g: Gate, now: int, id: Id): (Gate, Option<nat>) {
    var p := Prune(g, now);
    if id in p.recent then
      (p.(notify := p.notify - {id}, recent := p.recent - {id}, stamped := p.stamped - {id}), Some(p.recent[id]))
    else (p.(notify := p.notify + {id}), None)
  }

  function OnExit(g: Gate, now: int, id: Id, event: nat, isMonitor: bool): (Gate, Decision) {
    if isMonitor then (g, Ignore)
    else
      var p := Prune(g, now);
      if id in p.notify then (p.(notify := p.notify - {id}), Notify)
      else (p.(recent := p.recent[id := event], stamped := p.stamped[id := now]), Stash)
  }

  datatype Call = MarkCall(now: int, id: Id) | ExitCall(now: int, id: Id, event: nat, isMonitor: bool)

  function Do(g: Gate, call: Call): Gate {
    match call
    case MarkCall(now, id) => Mark(g, now, id).0
    case ExitCall(now, id, event, isMonitor) => OnExit(g, now, id, event, isMonitor).0
  }

  /** Whether the call wakes the parent about this task. */
  predicate Delivers(g: Gate, call: Call, id: Id) {
    call.id == id &&
    match call
    case MarkCall(now, _) => Mark(g, now, id).1.Some?
    case ExitCall(now, _, event, isMonitor) => OnExit(g, now, id, event, isMonitor).1.Notify?
  }

  ghost predicate Run(gs: seq<Gate>, calls: seq<Call>) {
    && |gs| == |calls| + 1 && gs[0] == New(gs[0].ttl)
    && (forall i | 0 <= i < |calls| :: gs[i + 1] == Do(gs[i], calls[i]))
    && (forall i, j | 0 <= i < j < |calls| :: calls[i].now <= calls[j].now)
  }

  predicate Marks(call: Call, id: Id) {
    call.MarkCall? && call.id == id
  }

  predicate Exits(call: Call, id: Id) {
    call.ExitCall? && call.id == id && !call.isMonitor
  }

  ghost function Deliveries(gs: seq<Gate>, calls: seq<Call>, i: nat, j: nat, id: Id): nat
    requires i <= j <= |calls| < |gs|
    decreases j - i
  {
    if i == j then 0 else Deliveries(gs, calls, i, j - 1, id) + if Delivers(gs[j - 1], calls[j - 1], id) then 1 else 0
  }

  ghost function MarkCount(calls: seq<Call>, i: nat, id: Id): nat
    requires i <= |calls|
  {
    if i == 0 then 0 else MarkCount(calls, i - 1, id) + if Marks(calls[i - 1], id) then 1 else 0
  }

  // ---- every call ----

  /** No task is both awaited and stashed; every stash is stamped. */
  ghost predicate Inv(g: Gate) {
    g.recent.Keys == g.stamped.Keys && g.notify !! g.recent.Keys
  }

  lemma StepKeeps(g: Gate, call: Call)
    requires Inv(g)
    ensures Inv(Do(g, call)) && Do(g, call).ttl == g.ttl
  {}

  lemma {:induction false} RunKeeps(gs: seq<Gate>, calls: seq<Call>, i: nat)
    requires Run(gs, calls) && i <= |calls|
    ensures Inv(gs[i]) && gs[i].ttl == gs[0].ttl
  {
    hide Do, Inv;
    if i == 0 {
      NewOk(gs[0].ttl);
    } else {
      RunKeeps(gs, calls, i - 1);
      StepKeeps(gs[i - 1], calls[i - 1]);
      assert gs[i - 1 + 1] == Do(gs[i - 1], calls[i - 1]);
    }
  }

  lemma NewOk(ttl: nat)
    ensures Inv(New(ttl))
  {}

  /** What a call does to one task's awaiting. */
  lemma AwaitingStep(g: Gate, call: Call, id: Id)
    requires Inv(g)
    ensures var g' := Do(g, call);
      (if Delivers(g, call, id) then 1 else 0) + (if id in g'.notify then 1 else 0) <=
      (if id in g.notify then 1 else 0) + (if Marks(call, id) then 1 else 0)
  {}

  /** Over every run and for every task: no more deliveries than marks. */
  lemma {:induction false} NoMoreThanMarked(gs: seq<Gate>, calls: seq<Call>, i: nat, id: Id)
    requires Run(gs, calls) && i <= |calls|
    ensures Deliveries(gs, calls, 0, i, id) + (if id in gs[i].notify then 1 else 0) <= MarkCount(calls, i, id)
  {
    hide Do, Inv, Delivers;
    if i > 0 {
      NoMoreThanMarked(gs, calls, i - 1, id);
      RunKeeps(gs, calls, i - 1);
      AwaitingStep(gs[i - 1], calls[i - 1], id);
      assert gs[i - 1 + 1] == Do(gs[i - 1], calls[i - 1]);
    }
  }

  // ---- one mark ----

  ghost predicate Unmarked(calls: seq<Call>, i: nat, j: nat, id: Id) {
    forall k | i <= k < j && k < |calls| :: !Marks(calls[k], id)
  }

  type Exit = call: Call | call.ExitCall? witness ExitCall(0, "", 0, false)

  /** The latest exit of the task before call i. */
  function LastExit(calls: seq<Call>, i: nat, id: Id): Option<Exit>
    requires i <= |calls|
  {
    if i == 0 then None else if Exits(calls[i - 1], id) then Some(calls[i - 1]) else LastExit(calls, i - 1, id)
  }

  /** A stash of the task is of its latest exit: what it brought, and when. */
  ghost predicate OfLatest(g: Gate, last: Option<Exit>, id: Id) {
    id in g.recent ==> last.Some? && g.recent[id] == last.value.event && Maps(g.stamped, id, last.value.now)
  }

  ghost predicate Maps(m: map<Id, int>, id: Id, at: int) {
    id in m && m[id] == at
  }

  lemma LatestStep(g: Gate, call: Call, last: Option<Exit>, id: Id)
    requires Inv(g) && OfLatest(g, last, id)
    ensures OfLatest(Do(g, call), if Exits(call, id) then Some(call) else last, id)
  {}

  lemma {:induction false} LatestKept(gs: seq<Gate>, calls: seq<Call>, i: nat, id: Id)
    requires Run(gs, calls) && i <= |calls|
    ensures OfLatest(gs[i], LastExit(calls, i, id), id)
  {
    hide Do, Inv, OfLatest;
    if i == 0 {
      NothingStashed(gs[0], id);
    } else {
      LatestKept(gs, calls, i - 1, id);
      RunKeeps(gs, calls, i - 1);
      LatestStep(gs[i - 1], calls[i - 1], LastExit(calls, i - 1, id), id);
      assert gs[i - 1 + 1] == Do(gs[i - 1], calls[i - 1]);
    }
  }

  lemma NothingStashed(g: Gate, id: Id)
    requires g == New(g.ttl)
    ensures OfLatest(g, None, id)
  {}

  /** Over every run, what a mark gives back is what the task's latest exit brought, and that exit
      is not older than the limit. */
  lemma GivesTheLatest(gs: seq<Gate>, calls: seq<Call>, m: nat, id: Id)
    requires Run(gs, calls) && m < |calls| && Marks(calls[m], id)
    ensures var given, last := Mark(gs[m], calls[m].now, id).1, LastExit(calls, m, id);
      given.Some? ==>
        last.Some? && given.value == last.value.event && last.value.now >= calls[m].now - gs[0].ttl
  {
    hide Do, LastExit;
    RunKeeps(gs, calls, m);
    LatestKept(gs, calls, m, id);
  }

  /** Before any mark, the latest exit is stashed unless it has expired. */
  ghost predicate Stashed(g: Gate, last: Option<Exit>, id: Id, clock: int) {
    && id !in g.notify && OfLatest(g, last, id)
    && (last.Some? && id !in g.recent ==> last.value.now < clock - g.ttl)
  }

  lemma StashStep(g: Gate, call: Call, last: Option<Exit>, id: Id, clock: int)
    requires Inv(g) && Stashed(g, last, id, clock) && clock <= call.now && !Marks(call, id)
    ensures Stashed(Do(g, call), if Exits(call, id) then Some(call) else last, id, call.now)
    ensures !Delivers(g, call, id)
  {}

  lemma {:induction false} StashKept(gs: seq<Gate>, calls: seq<Call>, i: nat, id: Id, clock: int)
    requires Run(gs, calls) && i <= |calls| && Unmarked(calls, 0, i, id)
    requires forall k | 0 <= k < i :: calls[k].now <= clock
    ensures Stashed(gs[i], LastExit(calls, i, id), id, clock) && Deliveries(gs, calls, 0, i, id) == 0
  {
    hide Do, Inv, Delivers, Stashed;
    if i == 0 {
      FreshStash(gs[0], id, clock);
    } else {
      var before := calls[i - 1].now;
      StashKept(gs, calls, i - 1, id, before);
      RunKeeps(gs, calls, i - 1);
      StashStep(gs[i - 1], calls[i - 1], LastExit(calls, i - 1, id), id, before);
      assert gs[i - 1 + 1] == Do(gs[i - 1], calls[i - 1]);
      LaterClock(gs[i], LastExit(calls, i, id), id, before, clock);
    }
  }

  lemma FreshStash(g: Gate, id: Id, clock: int)
    requires g == New(g.ttl)
    ensures Stashed(g, None, id, clock)
  {}

  lemma LaterClock(g: Gate, last: Option<Exit>, id: Id, clock: int, later: int)
    requires Stashed(g, last, id, clock) && clock <= later
    ensures Stashed(g, last, id, later)
  {}

  /** The mark delivers exactly an exit that is not older than the limit. */
  lemma MarkDelivers(g: Gate, call: Call, last: Option<Exit>, id: Id)
    requires Inv(g) && Marks(call, id) && Stashed(g, last, id, call.now)
    ensures Delivers(g, call, id) <==> last.Some? && last.value.now >= call.now - g.ttl
    ensures Mark(g, call.now, id).1 == if Delivers(g, call, id) then Some(last.value.event) else None
    ensures id in Do(g, call).notify <==> !Delivers(g, call, id)
  {}

  lemma AfterMarkStep(g: Gate, call: Call, id: Id)
    requires Inv(g) && !Marks(call, id)
    ensures Delivers(g, call, id) <==> id in g.notify && Exits(call, id)
    ensures id in Do(g, call).notify <==> id in g.notify && !Exits(call, id)
  {}

  ghost predicate ExitIn(calls: seq<Call>, i: nat, j: nat, id: Id) {
    exists k :: i <= k < j && k < |calls| && Exits(calls[k], id)
  }

  /** After the mark: one delivery at the next exit if the task is still awaited, then none. */
  lemma {:induction false} AfterMark(gs: seq<Gate>, calls: seq<Call>, i: nat, j: nat, id: Id)
    requires Run(gs, calls) && i <= j <= |calls| && Unmarked(calls, i, j, id)
    ensures Deliveries(gs, calls, i, j, id) == if id in gs[i].notify && ExitIn(calls, i, j, id) then 1 else 0
    ensures id in gs[j].notify <==> id in gs[i].notify && !ExitIn(calls, i, j, id)
    decreases j - i
  {
    hide Do, Inv, Delivers;
    if i < j {
      AfterMark(gs, calls, i, j - 1, id);
      RunKeeps(gs, calls, j - 1);
      AfterMarkStep(gs[j - 1], calls[j - 1], id);
      assert gs[j - 1 + 1] == Do(gs[j - 1], calls[j - 1]);
      assert ExitIn(calls, i, j, id) <==> ExitIn(calls, i, j - 1, id) || Exits(calls[j - 1], id);
    }
  }

  lemma {:induction false} DeliveriesSplit(gs: seq<Gate>, calls: seq<Call>, i: nat, j: nat, id: Id)
    requires i <= j <= |calls| < |gs|
    ensures Deliveries(gs, calls, 0, j, id) == Deliveries(gs, calls, 0, i, id) + Deliveries(gs, calls, i, j, id)
    decreases j - i
  {
    hide Delivers;
    if i < j { DeliveriesSplit(gs, calls, i, j - 1, id); }
  }

  /** A task marked once, at call m, is delivered exactly once if its exit arrived at most the
      limit before the mark, in which case the mark gives back what it brought, or arrives at any
      time after it, however often it is reported; and otherwise not at all. */
  lemma MarkedOnce(gs: seq<Gate>, calls: seq<Call>, m: nat, id: Id)
    requires Run(gs, calls) && m < |calls| && Marks(calls[m], id)
    requires Unmarked(calls, 0, m, id) && Unmarked(calls, m + 1, |calls|, id)
    ensures var last := LastExit(calls, m, id);
      var inTime := last.Some? && last.value.now >= calls[m].now - gs[0].ttl;
      && Mark(gs[m], calls[m].now, id).1 == (if inTime then Some(last.value.event) else None)
      && Deliveries(gs, calls, 0, |calls|, id) == if inTime || ExitIn(calls, m + 1, |calls|, id) then 1 else 0
  {
    hide Do, Inv, Delivers, Stashed, LastExit;
    StashKept(gs, calls, m, id, calls[m].now);
    RunKeeps(gs, calls, m);
    MarkDelivers(gs[m], calls[m], LastExit(calls, m, id), id);
    assert gs[m + 1] == Do(gs[m], calls[m]);
    AfterMark(gs, calls, m + 1, |calls|, id);
    DeliveriesSplit(gs, calls, m, |calls|, id);
    DeliveriesSplit(gs, calls, m + 1, |calls|, id);
    DeliveriesOne(gs, calls, m, id);
  }

  lemma DeliveriesOne(gs: seq<Gate>, calls: seq<Call>, m: nat, id: Id)
    requires m < |calls| < |gs|
    ensures Deliveries(gs, calls, 0, m + 1, id) ==
            Deliveries(gs, calls, 0, m, id) + if Delivers(gs[m], calls[m], id) then 1 else 0
  {}

  // ---- the object ----

  class ExitNotifyGate {
    const ttlMs: nat
    var notify: set<Id>
    var recent: map<Id, nat>
    var stamped: map<Id, int>

    constructor (ttl: nat)
      ensures View() == New(ttl)
    {
      ttlMs := ttl;
      notify, recent, stamped := {}, map[], map[];
    }

    function View(): Gate
      reads this
    {
      Gate(ttlMs, notify, recent, stamped)
    }

    method PruneOld(now: int)
      modifies this`recent, this`stamped
      ensures View() == Prune(old(View()), now)
    {
      ghost var before := View();
      var todo := stamped.Keys;
      while todo != {}
        invariant todo <= before.stamped.Keys
        invariant stamped == before.stamped - (Expired(before, now) - todo)
        invariant recent == before.recent - (Expired(before, now) - todo)
        decreases todo
      {
        var id :| id in todo;
        var at := stamped[id];
        todo := todo - {id};
        if at < now - ttlMs {
          stamped := stamped - {id};
          recent := recent - {id};
        }
      }
      assert Expired(before, now) - todo == Expired(before, now);
    }

    method MarkId(now: int, id: Id) returns (prior: Option<nat>)
      requires Inv(View())
      modifies this
      ensures (View(), prior) == Mark(old(View()), now, id) && Inv(View())
    {
      PruneOld(now);
      notify := notify + {id};
      if id !in recent { return None; }
      prior := Some(recent[id]);
      recent := recent - {id};
      stamped := stamped - {id};
      notify := notify - {id};
      assert notify == Mark(old(View()), now, id).0.notify;
    }

    method Exited(now: int, id: Id, event: nat, isMonitor: bool) returns (decision: Decision)
      requires Inv(View())
      modifies this
      ensures (View(), decision) == OnExit(old(View()), now, id, event, isMonitor) && Inv(View())
    {
      if isMonitor { return Ignore; }
      PruneOld(now);
      if id in notify {
        notify := notify - {id};
        return Notify;
      }
      recent := recent[id := event];
      stamped := stamped[id := now];
      return Stash;
    }
  }
}
