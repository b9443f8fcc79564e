/** The extension's request bookkeeping: extension/src/manager-client.ts. A request is known
    by its number; what the socket carries is known by the id it was sent under. */
module Requests {
  import opened Options

  datatype State = Disconnected | Connected | Unavailable

  datatype Slot = Hello | Req(r: nat)

  /** A call of a request's `resolve` or `reject`. */
  datatype Settled = Answered(id: nat, ok: bool) | TimedOut | NotConnected | ConnectionLost | GivenUp

  /** `made[r]` says whether request r may be resent, `outcomes[r]` lists how it was settled,
      `sent[id]` what was written under that id. */
  datatype Client = Client(
    state: State,
    socket: bool,
    connecting: bool,
    reconnecting: bool,
    intentionalClose: bool,
    rebound: bool,
    helloWaiter: Option<nat>,
    pending: map<nat, Slot>,
    queued: set<nat>,
    timers: set<nat>,
    made: seq<bool>,
    outcomes: seq<seq<Settled>>,
    sent: seq<Slot>)

  function New(): Client {
    Client(Disconnected, false, false, false, false, false, None, map[], {}, {}, [], [], [])
  }

  datatype Step =
    | Request(retryable: bool)
    | Fires(r: nat)
    | Response(named: Option<nat>, answer: bool)
    | Rebound
    | Attach
    | HelloTimesOut(hello: nat)
    | Detach
    | ConnectStarts
    | ConnectEnds(ok: bool)
    | ReconnectStarts
    | Reconnected(order: seq<nat>)
    | ReconnectEnds
    | Exhausted
    | SocketCloses
    | Close

  /** The requests of `rs` are settled and their timers cleared. */
  function Settle(c: Client, rs: set<nat>, s: Settled): Client {
    c.(timers := c.timers - rs,
       outcomes := seq(|c.outcomes|,
            r requires 0 <= r < |c.outcomes| => if r in rs then c.outcomes[r] + [s] else c.outcomes[r]))
  }

  function Write(c: Client, slot: Slot): Client {
    c.(pending := c.pending[|c.sent| := slot], sent := c.sent + [slot])
  }

  function SendPending(c: Client, r: nat): Client {
    if !c.socket || !c.state.Connected? then c else Write(c, Req(r))
  }

  function SendAll(c: Client, order: seq<nat>): Client
    decreases |order|
  {
    if order == [] then c else SendPending(SendAll(c, order[..|order| - 1]), order[|order| - 1])
  }

  /** The requests under some id. */
  function InFlight(c: Client): set<nat> {
    set id | id in c.pending && c.pending[id].Req? :: c.pending[id].r
  }

  function Retryable(c: Client, r: nat): bool {
    r < |c.made| && c.made[r]
  }

  /** What a reconnect sends again, each once. */
  ghost predicate Resends(c: Client, order: seq<nat>) {
    && (forall r :: r in order <==> (r in InFlight(c) || r in c.queued) && Retryable(c, r))
    && (forall i, j | 0 <= i < j < |order| :: order[i] != order[j])
  }

  function ResendPending(c: Client, order: seq<nat>): Client {
    SendAll(c.(pending := map[], queued := {}), order)
  }

  function FailAllPending(c: Client): Client {
    Settle(c, InFlight(c) + c.queued, GivenUp).(pending := map[], queued := {}, helloWaiter :=
      if exists id | id in c.pending :: c.pending[id].Hello? then None else c.helloWaiter)
  }

  function HelloDone(c: Client, id: nat): Client {
    c.(pending := c.pending - {id}, helloWaiter := None)
  }

  function OnResponse(c: Client, id: Option<nat>, ok: bool): Client {
    if id.Some? && id.value in c.pending then
      match c.pending[id.value]
      case Hello => HelloDone(c, id.value)
      case Req(r) => Settle(c.(pending := c.pending - {id.value}), {r}, Answered(id.value, ok))
    else if c.helloWaiter.Some? then HelloDone(c, c.helloWaiter.value)
    else c
  }

  /** `onClose`: what may be resent waits for the reconnect, unless the close is final. */
  function OnClose(c: Client): Client {
    var final := c.intentionalClose || c.rebound;
    var lost := set r | r in InFlight(c) && (final || !Retryable(c, r));
    var c' := Settle(c, lost, ConnectionLost).(
      pending := map id | id in c.pending && c.pending[id].Req? && c.pending[id].r !in lost :: c.pending[id],
      socket := false, helloWaiter := None, state := Disconnected);
    c'.(reconnecting := c.reconnecting || (!final && c.state.Connected?))
  }

  /** The state with a fresh, unsettled request, before it is placed. */
  function Fresh(c: Client, retryable: bool): Client {
    c.(made := c.made + [retryable], outcomes := c.outcomes + [[]], timers := c.timers + {|c.made|})
  }

  function Do(c: Client, step: Step): Client {
    match step
    case Request(retryable) =>
      var r, c' := |c.made|, Fresh(c, retryable);
      if c.socket && c.state.Connected? then SendPending(c', r)
      else if retryable && (c.reconnecting || c.connecting) then c'.(queued := c'.queued + {r})
      else Settle(c', {r}, NotConnected)
    case Fires(r) =>
      if r !in c.timers then c
      else Settle(c.(pending := map id | id in c.pending && c.pending[id] != Req(r) :: c.pending[id],
                     queued := c.queued - {r}), {r}, TimedOut)
    case Response(id, ok) => OnResponse(c, id, ok)
    case Rebound => c.(rebound := true)
    case Attach => Write(c.(socket := true, helloWaiter := Some(|c.sent|)), Hello)
    case HelloTimesOut(id) => if id < |c.sent| && c.sent[id].Hello? then HelloDone(c, id) else c
    case Detach => c.(socket := false)
    case ConnectStarts => c.(intentionalClose := false, connecting := true)
    case ConnectEnds(ok) => c.(connecting := false, state := if ok then Connected else Unavailable)
    case ReconnectStarts => c.(reconnecting := true)
    case Reconnected(order) => ResendPending(c.(state := Connected), order)
    case ReconnectEnds => c.(reconnecting := false)
    case Exhausted => FailAllPending(c.(state := Unavailable))
    case SocketCloses => OnClose(c)
    case Close => FailAllPending(c.(intentionalClose := true, state := Disconnected)).(socket := false)
  }

  /** A reconnect succeeds on a live socket and sends what is outstanding, in some order. */
  ghost predicate Enabled(c: Client, step: Step) {
    step.Reconnected? ==> c.socket && Resends(c, step.order)
  }

  ghost predicate Run(cs: seq<Client>, steps: seq<Step>) {
    && |cs| == |steps| + 1 && cs[0] == New()
    && forall i | 0 <= i < |steps| :: Enabled(cs[i], steps[i]) && cs[i + 1] == Do(cs[i], steps[i])
  }

  // ---- invariant ----

  ghost predicate Under(c: Client, id: nat, r: nat) {
    id in c.pending && c.pending[id] == Req(r)
  }

  /** An unsettled request has its timer and no outcome, a settled one a single outcome;
      an answer settles the request it was sent for. */
  ghost predicate RequestOk(c: Client, r: nat)
    requires r < |c.outcomes|
  {
    && (r in c.timers <==> c.outcomes[r] == [])
    && |c.outcomes[r]| <= 1
    && (c.outcomes[r] != [] && c.outcomes[r][0].Answered? ==>
          c.outcomes[r][0].id < |c.sent| && c.sent[c.outcomes[r][0].id] == Req(r))
  }

  ghost predicate PendingOk(c: Client, id: nat)
    requires id in c.pending
  {
    && id < |c.sent| && c.sent[id] == c.pending[id]
    && (c.pending[id].Req? ==> c.pending[id].r in c.timers && c.pending[id].r !in c.queued)
  }

  ghost predicate Inv(c: Client) {
    && |c.outcomes| == |c.made|
    && (c.helloWaiter.Some? ==> c.helloWaiter.value < |c.sent| && c.sent[c.helloWaiter.value].Hello?)
    && (forall r | 0 <= r < |c.outcomes| :: RequestOk(c, r))
    && (forall r | r in c.timers :: r < |c.made|)
    && (forall id | id in c.pending :: PendingOk(c, id))
    && (forall id, other | id in c.pending && other in c.pending && id != other && c.pending[id].Req? ::
          c.pending[id] != c.pending[other])
    && (forall r | r in c.queued :: r in c.timers && Retryable(c, r))
    && (forall r | r in c.timers && Retryable(c, r) :: r in c.queued || r in InFlight(c))
  }

  lemma IdOf(c: Client, r: nat) returns (id: nat)
    requires r in InFlight(c)
    ensures Under(c, id, r)
  {
    id :| id in c.pending && c.pending[id].Req? && c.pending[id].r == r;
  }

  /** Removing ids loses only the requests under them. */
  lemma StillInFlight(c: Client, c': Client, gone: set<nat>)
    requires forall id | id in c.pending && id !in c'.pending :: c.pending[id].Req? ==> c.pending[id].r in gone
    requires forall id | id in c.pending && id in c'.pending :: c'.pending[id] == c.pending[id]
    ensures forall r | r in InFlight(c) && r !in gone :: r in InFlight(c')
  {
    forall r | r in InFlight(c) && r !in gone ensures r in InFlight(c') {
      var id := IdOf(c, r);
      assert c'.pending[id] == Req(r);
    }
  }

  /** Settling requests that are unsettled and nowhere any more. */
  lemma SettleKeeps(c: Client, c': Client, rs: set<nat>, s: Settled)
    requires Inv(c)
    requires rs <= c.timers
    requires s.Answered? ==> s.id < |c.sent| && forall r | r in rs :: c.sent[s.id] == Req(r)
    requires c'.made == c.made && c'.sent == c.sent && c'.timers == c.timers && c'.outcomes == c.outcomes
    requires forall id | id in c'.pending :: id in c.pending && c'.pending[id] == c.pending[id]
    requires forall id | id in c'.pending && c'.pending[id].Req? :: c'.pending[id].r !in rs
    requires c'.queued == c.queued - rs
    requires forall r | r in InFlight(c) && r !in rs :: r in InFlight(c')
    requires c'.helloWaiter == c.helloWaiter || c'.helloWaiter.None?
    ensures Inv(Settle(c', rs, s))
  {
    var d := Settle(c', rs, s);
    forall r | 0 <= r < |d.outcomes| ensures RequestOk(d, r) { assert RequestOk(c, r); }
    forall id | id in d.pending ensures PendingOk(d, id) { assert PendingOk(c, id); }
    assert InFlight(d) == InFlight(c');
  }

  /** Writing a request that is unsettled, not queued and under no id; or a hello. */
  lemma WriteKeeps(c: Client, c0: Client, slot: Slot)
    requires Inv(c0) && c == c0.(queued := c.queued, socket := c.socket, helloWaiter := c.helloWaiter)
    requires slot.Hello? ==> c.queued == c0.queued && (c.helloWaiter.Some? ==> c.helloWaiter.value == |c.sent|)
    requires slot.Req? ==> c.helloWaiter == c0.helloWaiter
    requires slot.Req? ==> slot.r in c0.timers && slot.r !in InFlight(c0) && c.queued == c0.queued - {slot.r}
    ensures Inv(Write(c, slot))
  {
    hide RequestOk, PendingOk, InFlight;
    var d := Write(c, slot);
    WriteRequests(c0, d);
    WritePending(c, c0, slot);
    if slot.Req? { InFlightMore(c0, d, slot.r); } else { InFlightSame(c0, d); }
    forall id | id in c0.pending && c0.pending[id].Req? ensures c0.pending[id].r in InFlight(c0) {
      ThereInFlight(c0, id);
    }
  }

  lemma ThereInFlight(c: Client, id: nat)
    requires id in c.pending && c.pending[id].Req?
    ensures c.pending[id].r in InFlight(c)
  {}

  lemma WriteRequests(c: Client, d: Client)
    requires Inv(c) && d.outcomes == c.outcomes && d.timers == c.timers && c.sent <= d.sent
    ensures forall r | 0 <= r < |d.outcomes| :: RequestOk(d, r)
  {
    forall r | 0 <= r < |d.outcomes| ensures RequestOk(d, r) { assert RequestOk(c, r); }
  }

  lemma WritePending(c: Client, c0: Client, slot: Slot)
    requires Inv(c0) && c == c0.(queued := c.queued, socket := c.socket, helloWaiter := c.helloWaiter)
    requires slot.Hello? ==> c.queued == c0.queued
    requires slot.Req? ==> slot.r in c0.timers && slot.r !in InFlight(c0) && c.queued == c0.queued - {slot.r}
    ensures |c.sent| !in c0.pending
    ensures var d := Write(c, slot); forall id | id in d.pending :: PendingOk(d, id)
  {
    hide RequestOk, InFlight;
    var d := Write(c, slot);
    forall id | id in c0.pending ensures id != |c.sent| && PendingOk(c0, id) {}
    forall id | id in d.pending ensures PendingOk(d, id) {}
  }

  lemma InFlightSame(c: Client, d: Client)
    requires |c.sent| !in c.pending && d.pending == c.pending[|c.sent| := Hello]
    ensures InFlight(d) == InFlight(c)
  {
    StillInFlight(c, d, {});
  }

  lemma InFlightMore(c: Client, d: Client, r: nat)
    requires |c.sent| !in c.pending && d.pending == c.pending[|c.sent| := Req(r)]
    ensures InFlight(d) == InFlight(c) + {r}
  {
    StillInFlight(c, d, {});
    assert d.pending[|c.sent|] == Req(r);
  }

  lemma NewRequest(c: Client, retryable: bool)
    requires Inv(c)
    ensures Inv(Do(c, Request(retryable)))
  {
    hide Inv;
    var r := |c.made|;
    if c.socket && c.state.Connected? {
      NewSent(c, retryable);
    } else if retryable && (c.reconnecting || c.connecting) {
      NewQueued(c);
    } else {
      NewSettled(c, retryable);
      NewTimerless(c, retryable);
      var s := Settle(Fresh(c, retryable), {r}, NotConnected);
      assert [] + [NotConnected] == [NotConnected];
      assert s.outcomes == c.outcomes + [[NotConnected]] && s.timers == c.timers;
    }
  }

  lemma NewTimerless(c: Client, retryable: bool)
    requires Inv(c)
    ensures |c.made| !in c.timers && |c.outcomes| == |c.made|
  {}

  lemma NewSettled(c: Client, retryable: bool)
    requires Inv(c)
    ensures Inv(c.(made := c.made + [retryable], outcomes := c.outcomes + [[NotConnected]]))
  {
    var d := c.(made := c.made + [retryable], outcomes := c.outcomes + [[NotConnected]]);
    forall r | 0 <= r < |d.outcomes| ensures RequestOk(d, r) { if r < |c.outcomes| { assert RequestOk(c, r); } }
    forall id | id in d.pending ensures PendingOk(d, id) { assert PendingOk(c, id); }
    assert InFlight(d) == InFlight(c);
  }

  lemma FreshOk(c: Client, retryable: bool, id: nat, r: nat)
    requires Inv(c)
    ensures var d := Fresh(c, retryable);
      && |d.outcomes| == |d.made|
      && (r < |d.outcomes| ==> RequestOk(d, r))
      && (id in d.pending ==> PendingOk(d, id) && d.pending[id] != Req(|c.made|))
  {
    if r < |c.outcomes| { assert RequestOk(c, r); }
    if id in c.pending { assert PendingOk(c, id); }
  }

  lemma NewSent(c: Client, retryable: bool)
    requires Inv(c)
    ensures Inv(Write(Fresh(c, retryable), Req(|c.made|)))
  {
    var d := Fresh(c, retryable);
    var w := Write(d, Req(|c.made|));
    forall id | id in c.pending ensures PendingOk(d, id) && d.pending[id] != Req(|c.made|) {
      FreshOk(c, retryable, id, 0);
    }
    forall q | 0 <= q < |w.outcomes| ensures RequestOk(w, q) { FreshOk(c, retryable, 0, q); }
    hide RequestOk;
    forall id | id in w.pending ensures PendingOk(w, id) {}
    StillInFlight(c, w, {});
    assert w.pending[|c.sent|] == Req(|c.made|);
  }

  lemma NewQueued(c: Client)
    requires Inv(c)
    ensures var d := Fresh(c, true); Inv(d.(queued := d.queued + {|c.made|}))
  {
    var d := Fresh(c, true);
    var e := d.(queued := d.queued + {|c.made|});
    forall id | id in c.pending ensures PendingOk(d, id) && d.pending[id] != Req(|c.made|) { FreshOk(c, true, id, 0); }
    forall q | 0 <= q < |e.outcomes| ensures RequestOk(e, q) { FreshOk(c, true, 0, q); }
    hide RequestOk;
    assert InFlight(e) == InFlight(c);
    forall id | id in e.pending ensures PendingOk(e, id) {}
  }

  lemma TimerKeeps(c: Client, r: nat)
    requires Inv(c)
    ensures Inv(Do(c, Fires(r)))
  {
    hide RequestOk, PendingOk, Settle;
    if r in c.timers {
      var c' := c.(pending := map id | id in c.pending && c.pending[id] != Req(r) :: c.pending[id],
           queued := c.queued - {r});
      StillInFlight(c, c', {r});
      SettleKeeps(c, c', {r}, TimedOut);
    }
  }

  lemma ResponseKeeps(c: Client, id: Option<nat>, ok: bool)
    requires Inv(c)
    ensures Inv(OnResponse(c, id, ok))
  {
    if id.Some? && id.value in c.pending {
      assert PendingOk(c, id.value);
      if c.pending[id.value].Req? {
        var r := c.pending[id.value].r;
        var c' := c.(pending := c.pending - {id.value});
        StillInFlight(c, c', {r});
        SettleKeeps(c, c', {r}, Answered(id.value, ok));
      } else {
        HelloKeeps(c, id.value);
      }
    } else if c.helloWaiter.Some? {
      HelloKeeps(c, c.helloWaiter.value);
    }
  }

  lemma HelloKeeps(c: Client, id: nat)
    requires Inv(c) && id < |c.sent| && c.sent[id].Hello?
    ensures Inv(HelloDone(c, id))
  {
    var d := HelloDone(c, id);
    forall r | 0 <= r < |d.outcomes| ensures RequestOk(d, r) { assert RequestOk(c, r); }
    forall i | i in d.pending ensures PendingOk(d, i) { assert PendingOk(c, i); }
    if id in c.pending { assert PendingOk(c, id); }
    StillInFlight(c, d, {});
  }

  lemma CloseKeeps(c: Client)
    requires Inv(c)
    ensures Inv(OnClose(c))
  {
    hide RequestOk, Settle;
    var final := c.intentionalClose || c.rebound;
    var lost := set r | r in InFlight(c) && (final || !Retryable(c, r));
    var c' := c.(pending := map id | id in c.pending && c.pending[id].Req? && c.pending[id].r !in lost :: c.pending[id],
                 socket := false, helloWaiter := None, state := Disconnected);
    forall r | r in InFlight(c) ensures r in c.timers && r !in c.queued { InFlightOk(c, r); }
    StillInFlight(c, c', lost);
    SettleKeeps(c, c', lost, ConnectionLost);
    var d := Settle(c', lost, ConnectionLost);
    Frame(d, d.(reconnecting := c.reconnecting || (!final && c.state.Connected?)));
    CloseIs(c, lost);
  }

  lemma CloseIs(c: Client, lost: set<nat>)
    requires lost == set r | r in InFlight(c) && (c.intentionalClose || c.rebound || !Retryable(c, r))
    ensures OnClose(c) == Settle(
      c.(pending := map id | id in c.pending && c.pending[id].Req? && c.pending[id].r !in lost :: c.pending[id],
         socket := false, helloWaiter := None, state := Disconnected), lost, ConnectionLost)
      .(reconnecting := c.reconnecting || (!c.intentionalClose && !c.rebound && c.state.Connected?))
  {}

  lemma InFlightOk(c: Client, r: nat)
    requires Inv(c) && r in InFlight(c)
    ensures r in c.timers && r !in c.queued
  {
    var id := IdOf(c, r);
    assert PendingOk(c, id);
  }

  /** The flags and the state carry no part of the invariant. */
  lemma Frame(c: Client, d: Client)
    requires Inv(c)
    requires d == c.(state := d.state, socket := d.socket, connecting := d.connecting, reconnecting := d.reconnecting,
                     intentionalClose := d.intentionalClose, rebound := d.rebound, helloWaiter := d.helloWaiter)
    requires d.helloWaiter == c.helloWaiter || d.helloWaiter.None?
    ensures Inv(d)
  {
    forall r | 0 <= r < |d.outcomes| ensures RequestOk(d, r) { assert RequestOk(c, r); }
    forall id | id in d.pending ensures PendingOk(d, id) { assert PendingOk(c, id); }
    assert InFlight(d) == InFlight(c);
  }

  /** Giving up settles every request there is. */
  lemma FailAllKeeps(c: Client)
    requires Inv(c)
    ensures Inv(FailAllPending(c)) && FailAllPending(c).timers <= set r | r in c.timers && !Retryable(c, r)
  {
    hide RequestOk;
    var rs := InFlight(c) + c.queued;
    forall r | r in InFlight(c) ensures r in c.timers { InFlightOk(c, r); }
    var c' := c.(pending := map[], queued := {});
    SettleKeeps(c, c', rs, GivenUp);
    var d := Settle(c', rs, GivenUp);
    Frame(d, FailAllPending(c));
  }

  /** The invariant while a reconnect is sending: the requests of `rest` are still to be sent. */
  ghost predicate Midway(c: Client, rest: set<nat>) {
    Inv(c.(queued := rest)) && c.queued == {}
  }

  lemma {:induction false} SendAllKeeps(c: Client, order: seq<nat>, rest: set<nat>)
    requires c.socket && c.state.Connected?
    requires forall i, j | 0 <= i < j < |order| :: order[i] != order[j]
    requires forall r | r in order :: r !in rest
    requires Midway(c, rest + set r | r in order)
    ensures var d := SendAll(c, order); Midway(d, rest) && d.socket && d.state.Connected?
    ensures SendAll(c, order) == c.(pending := SendAll(c, order).pending, sent := SendAll(c, order).sent)
    decreases |order|
  {
    hide Inv;
    if order == [] {
      assert rest + (set r | r in order) == rest;
    } else {
      var front, r := order[..|order| - 1], order[|order| - 1];
      assert (rest + {r}) + (set q | q in front) == rest + set q | q in order;
      SendAllKeeps(c, front, rest + {r});
      var d := SendAll(c, front);
      SentOne(d, rest, r);
    }
  }

  lemma SentOne(d: Client, rest: set<nat>, r: nat)
    requires Midway(d, rest + {r}) && r !in rest
    ensures Midway(Write(d, Req(r)), rest)
  {
    var full := d.(queued := rest + {r});
    NotInFlight(full, r);
    WriteKeeps(d.(queued := rest), full, Req(r));
    assert Write(d, Req(r)).(queued := rest) == Write(d.(queued := rest), Req(r));
  }

  lemma NotInFlight(c: Client, r: nat)
    requires Inv(c) && r in c.queued
    ensures r in c.timers && r !in InFlight(c)
  {
    if r in InFlight(c) { InFlightOk(c, r); }
  }

  lemma ResendKeeps(c: Client, order: seq<nat>)
    requires Inv(c) && c.socket && c.state.Connected? && Resends(c, order)
    ensures Inv(ResendPending(c, order))
  {
    var rest := set r | r in order;
    var bare := c.(pending := map[], queued := {});
    ResendStarts(c, order);
    assert {} + rest == rest;
    assert bare.(queued := rest) == c.(pending := map[], queued := rest);
    SendAllKeeps(bare, order, {});
    var d := SendAll(bare, order);
    assert d.(queued := {}) == d;
  }

  lemma ResendStarts(c: Client, order: seq<nat>)
    requires Inv(c) && Resends(c, order)
    ensures Inv(c.(pending := map[], queued := set r | r in order))
  {
    var d := c.(pending := map[], queued := set r | r in order);
    forall r | 0 <= r < |d.outcomes| ensures RequestOk(d, r) { assert RequestOk(c, r); }
    forall r | r in order ensures r in c.timers { if r in InFlight(c) { InFlightOk(c, r); } }
  }

  lemma AttachKeeps(c: Client)
    requires Inv(c)
    ensures Inv(Do(c, Attach))
  {
    WriteKeeps(c.(socket := true, helloWaiter := Some(|c.sent|)), c, Hello);
  }

  lemma StepKeeps(c: Client, step: Step)
    requires Inv(c) && Enabled(c, step)
    ensures Inv(Do(c, step))
  {
    hide Inv, Do, Enabled;
    match step
    case Request(retryable) => NewRequest(c, retryable);
    case Fires(r) => TimerKeeps(c, r);
    case Attach => AttachKeeps(c);
    case Reconnected(_) => ReconnectKeeps(c, step);
    case Exhausted => EndKeeps(c, step);
    case Close => EndKeeps(c, step);
    case Response(_, _) => ReplyKeeps(c, step);
    case HelloTimesOut(_) => ReplyKeeps(c, step);
    case SocketCloses => ReplyKeeps(c, step);
    case _ => FlagsKeep(c, step);
  }

  lemma ReconnectKeeps(c: Client, step: Step)
    requires Inv(c) && step.Reconnected? && Enabled(c, step)
    ensures Inv(Do(c, step))
  {
    hide Inv, ResendPending;
    var d := c.(state := Connected);
    Frame(c, d);
    assert InFlight(d) == InFlight(c);
    ResendKeeps(d, step.order);
  }

  lemma EndKeeps(c: Client, step: Step)
    requires Inv(c) && (step.Exhausted? || step.Close?)
    ensures Inv(Do(c, step))
  {
    hide Inv, FailAllPending;
    var d := if step.Exhausted? then c.(state := Unavailable) else c.(intentionalClose := true, state := Disconnected);
    Frame(c, d);
    FailAllKeeps(d);
    Frame(FailAllPending(d), FailAllPending(d).(socket := false));
  }

  lemma ReplyKeeps(c: Client, step: Step)
    requires Inv(c) && (step.Response? || step.HelloTimesOut? || step.SocketCloses?)
    ensures Inv(Do(c, step))
  {
    hide Inv, OnResponse, OnClose, HelloDone;
    match step
    case Response(id, ok) => ResponseKeeps(c, id, ok);
    case HelloTimesOut(id) => if id < |c.sent| && c.sent[id].Hello? { HelloKeeps(c, id); }
    case SocketCloses => CloseKeeps(c);
  }

  lemma FlagsKeep(c: Client, step: Step)
    requires Inv(c)
    requires step.Rebound? || step.Detach? || step.ConnectStarts? || step.ConnectEnds? || step.ReconnectStarts?
             || step.ReconnectEnds?
    ensures Inv(Do(c, step))
  {
    hide Inv;
    Frame(c, Do(c, step));
  }

  // ---- runs ----

  lemma {:induction false} RunKeeps(cs: seq<Client>, steps: seq<Step>, i: nat)
    requires Run(cs, steps) && i <= |steps|
    ensures Inv(cs[i])
  {
    hide Inv, Do;
    if i == 0 {
      NewOk();
    } else {
      RunKeeps(cs, steps, i - 1);
      StepKeeps(cs[i - 1], steps[i - 1]);
      assert cs[i - 1 + 1] == Do(cs[i - 1], steps[i - 1]);
    }
  }

  lemma NewOk()
    ensures Inv(New())
  {}

  /** Over every run: a request is settled at most once; it is settled exactly when its timer
      is no longer armed; it waits under at most one id, and not also in the queue; what may
      be resent is never lost; and an answer reaches the request it was sent for. */
  lemma SettlesOnce(cs: seq<Client>, steps: seq<Step>, i: nat, r: nat)
    requires Run(cs, steps) && i <= |steps| && r < |cs[i].made|
    ensures var c := cs[i];
      && |c.outcomes| == |c.made|
      && |c.outcomes[r]| <= 1
      && (r in c.timers <==> c.outcomes[r] == [])
      && (r in InFlight(c) ==> r in c.timers && r !in c.queued)
      && (r in c.queued ==> r in c.timers)
      && (forall id, other | Under(c, id, r) && Under(c, other, r) :: id == other)
      && (r in c.timers && Retryable(c, r) ==> r in c.queued || r in InFlight(c))
      && (c.outcomes[r] != [] && c.outcomes[r][0].Answered? ==>
            c.outcomes[r][0].id < |c.sent| && c.sent[c.outcomes[r][0].id] == Req(r))
  {
    RunKeeps(cs, steps, i);
    assert RequestOk(cs[i], r);
    if r in InFlight(cs[i]) { InFlightOk(cs[i], r); }
  }

  /** What a step leaves of earlier outcomes. */
  lemma StepAppends(c: Client, step: Step, r: nat)
    requires Inv(c) && Enabled(c, step) && r < |c.made|
    ensures |c.outcomes| == |c.made| <= |Do(c, step).made| == |Do(c, step).outcomes|
    ensures c.outcomes[r] <= Do(c, step).outcomes[r]
  {
    hide Inv, OnClose, FailAllPending, OnResponse, ResendPending, Settle, Write;
    StepKeeps(c, step);
    Lengths(c);
    Lengths(Do(c, step));
    match step
    case Reconnected(order) => ResendAppends(c.(state := Connected), order);
    case Response(id, ok) => ResponseAppends(c, id, ok);
    case SocketCloses => CloseAppends(c);
    case Exhausted => FailAppends(c.(state := Unavailable));
    case Close => FailAppends(c.(intentionalClose := true, state := Disconnected));
    case Fires(q) => SettleAppends(
      c.(pending := map id | id in c.pending && c.pending[id] != Req(q) :: c.pending[id],
           queued := c.queued - {q}), {q}, TimedOut);
    case Request(retryable) => RequestAppends(c, retryable);
    case Attach => AttachAppends(c);
    case _ =>
  }

  ghost predicate Appends(c: Client, d: Client) {
    && d.made == c.made && |d.outcomes| == |c.outcomes|
    && forall r | 0 <= r < |c.outcomes| :: c.outcomes[r] <= d.outcomes[r]
  }

  lemma SettleAppends(c: Client, rs: set<nat>, s: Settled)
    ensures Appends(c, Settle(c, rs, s))
  {}

  lemma ResponseAppends(c: Client, id: Option<nat>, ok: bool)
    ensures Appends(c, OnResponse(c, id, ok))
  {}

  lemma CloseAppends(c: Client)
    ensures Appends(c, OnClose(c))
  {}

  lemma FailAppends(c: Client)
    ensures Appends(c, FailAllPending(c))
  {}

  lemma ResendAppends(c: Client, order: seq<nat>)
    ensures Appends(c, ResendPending(c, order))
  {
    SendAllOnlySends(c.(pending := map[], queued := {}), order);
  }

  lemma RequestAppends(c: Client, retryable: bool)
    requires |c.outcomes| == |c.made|
    ensures var d := Do(c, Request(retryable));
      && |d.made| > |c.made| && |d.outcomes| == |d.made|
      && forall r | 0 <= r < |c.outcomes| :: c.outcomes[r] <= d.outcomes[r]
  {}

  lemma AttachAppends(c: Client)
    ensures Appends(c, Do(c, Attach))
  {}

  lemma Lengths(c: Client)
    requires Inv(c)
    ensures |c.outcomes| == |c.made|
  {}

  lemma {:induction false} SendAllOnlySends(c: Client, order: seq<nat>)
    ensures SendAll(c, order) == c.(pending := SendAll(c, order).pending, sent := SendAll(c, order).sent)
    decreases |order|
  {
    if order != [] { SendAllOnlySends(c, order[..|order| - 1]); }
  }

  /** A settled request stays as it was settled, for the rest of the run. */
  lemma {:induction false} OutcomeIsFinal(cs: seq<Client>, steps: seq<Step>, i: nat, j: nat, r: nat)
    requires Run(cs, steps) && i <= j <= |steps| && r < |cs[i].made| == |cs[i].outcomes|
    requires cs[i].outcomes[r] != []
    ensures r < |cs[j].made| == |cs[j].outcomes| && cs[j].outcomes[r] == cs[i].outcomes[r] && r !in cs[j].timers
    decreases j - i
  {
    hide Inv, Do;
    RunKeeps(cs, steps, j);
    Lengths(cs[j]);
    if i < j {
      OutcomeIsFinal(cs, steps, i, j - 1, r);
      RunKeeps(cs, steps, j - 1);
      assert cs[j - 1 + 1] == Do(cs[j - 1], steps[j - 1]);
      StepAppends(cs[j - 1], steps[j - 1], r);
    }
    SettlesOnce(cs, steps, j, r);
  }

  /** A first connect, unlike a reconnect, sends what is outstanding only if nothing is queued. */
  lemma ConnectSendsIffNothingQueued(c: Client)
    requires Inv(c)
    ensures (forall r | r in c.queued :: r in InFlight(Do(c, ConnectEnds(true)))) <==> c.queued == {}
  {
    var d := Do(c, ConnectEnds(true));
    assert InFlight(d) == InFlight(c);
    if c.queued != {} {
      var r :| r in c.queued;
      NotInFlight(c, r);
    }
  }

  /** So a request queued while the first connect was under way is neither sent nor settled
      when it succeeds, and waits for a later reconnect or its timer. */
  lemma FirstConnectSendsNothingQueued()
    ensures exists cs: seq<Client>, steps :: Run(cs, steps) && var c := cs[|steps|];
      c.state.Connected? && c.socket && c.queued == {0} && c.timers == {0} && Req(0) !in c.sent
  {
    var steps := [ConnectStarts, Request(true), Attach, Response(Some(0), true), ConnectEnds(true)];
    var c1 := Do(New(), steps[0]);
    var c2 := Do(c1, steps[1]);
    var c3 := Do(c2, steps[2]);
    var c4 := Do(c3, steps[3]);
    var c5 := Do(c4, steps[4]);
    var cs := [New(), c1, c2, c3, c4, c5];
    assert c5.sent == [Hello];
    assert Run(cs, steps);
    assert cs[|steps|] == c5;
  }
}
