/** Over runs of Requests: which step settled a request, and how. */
module RequestOutcomes {
  import opened Options
  import opened Requests

  ghost predicate Waits(c: Client, r: nat) {
    exists id :: Under(c, id, r)
  }

  /** How the step settles request `r`, if it does: an answer under the id it waits under resolves
      or rejects it as the answer says; its timer, a lost connection, giving up and being made
      without a connection reject it. */
  ghost function Verdict(c: Client, step: Step, r: nat): Option<Settled> {
    if step.Request? then
      if r == |c.made| && !(c.socket && c.state == Connected) && !(step.retryable && (c.reconnecting || c.connecting))
      then Some(NotConnected) else None
    else if step.Fires? then
      if r == step.r && r in c.timers then Some(TimedOut) else None
    else if step.Response? then
      if step.named.Some? && Under(c, step.named.value, r) then Some(Answered(step.named.value, step.answer)) else None
    else if step.SocketCloses? then
      if Waits(c, r) && r < |c.made| && (c.intentionalClose || c.rebound || !c.made[r])
      then Some(ConnectionLost) else None
    else if step.Exhausted? || step.Close? then
      if Waits(c, r) || r in c.queued then Some(GivenUp) else None
    else None
  }

  function Outcomes(c: Client, r: nat): seq<Settled> {
    if r < |c.outcomes| then c.outcomes[r] else []
  }

  function AsSeq(s: Option<Settled>): seq<Settled> {
    if s.Some? then [s.value] else []
  }

  /** What a step adds to the outcomes of a request. */
  ghost predicate SettledBy(c: Client, step: Step, r: nat) {
    Outcomes(Do(c, step), r) == Outcomes(c, r) + AsSeq(Verdict(c, step, r))
  }

  lemma InFlightIff(c: Client, r: nat)
    ensures r in InFlight(c) <==> Waits(c, r)
  {
    if r in InFlight(c) { var id := IdOf(c, r); }
    if Waits(c, r) {
      var id :| Under(c, id, r);
      assert c.pending[id].r in InFlight(c);
    }
  }

  lemma RequestSettles(c: Client, retryable: bool, r: nat)
    requires Inv(c)
    ensures SettledBy(c, Request(retryable), r)
  {
    Lengths(c);
    hide Inv;
    if r == |c.made| { assert [] + [NotConnected] == [NotConnected]; }
  }

  lemma TimerSettles(c: Client, q: nat, r: nat)
    requires Inv(c)
    ensures SettledBy(c, Fires(q), r)
  {
    TimersKnown(c);
    hide Inv;
  }

  lemma TimersKnown(c: Client)
    requires Inv(c)
    ensures forall r | r in c.timers :: r < |c.outcomes|
  {}

  lemma ResponseSettles(c: Client, named: Option<nat>, ok: bool, r: nat)
    requires Inv(c)
    ensures SettledBy(c, Response(named, ok), r)
  {
    hide Settle;
    if named.Some? && named.value in c.pending {
      var id := named.value;
      PendingKnown(c, id);
      if c.pending[id].Req? { SettleAdds(c.(pending := c.pending - {id}), {c.pending[id].r}, Answered(id, ok), r); }
    }
    hide Inv;
    assert Outcomes(c, r) + [] == Outcomes(c, r);
  }

  lemma SettleAdds(c: Client, rs: set<nat>, s: Settled, r: nat)
    requires forall q | q in rs :: q < |c.outcomes|
    ensures Outcomes(Settle(c, rs, s), r) == Outcomes(c, r) + if r in rs then [s] else []
  {}

  lemma PendingKnown(c: Client, id: nat)
    requires Inv(c) && id in c.pending
    ensures c.pending[id].Req? ==> c.pending[id].r < |c.outcomes|
  {
    assert PendingOk(c, id);
  }

  lemma CloseSettles(c: Client, r: nat)
    requires Inv(c)
    ensures SettledBy(c, SocketCloses, r)
  {
    InFlightIff(c, r);
    Lengths(c);
    hide Inv, InFlight;
  }

  lemma EndSettles(c: Client, step: Step, r: nat)
    requires Inv(c) && (step.Exhausted? || step.Close?)
    ensures SettledBy(c, step, r)
  {
    InFlightIff(c, r);
    OutstandingKnown(c, r);
    hide Inv, InFlight;
    var d := if step.Exhausted? then c.(state := Unavailable) else c.(intentionalClose := true, state := Disconnected);
    SamePending(c, d);
  }

  lemma SamePending(c: Client, d: Client)
    requires c.pending == d.pending
    ensures InFlight(c) == InFlight(d)
  {}

  lemma OutstandingKnown(c: Client, r: nat)
    requires Inv(c)
    ensures r in InFlight(c) || r in c.queued ==> r < |c.outcomes|
  {
    if r in InFlight(c) { InFlightOk(c, r); }
  }

  lemma OthersSettle(c: Client, step: Step, r: nat)
    requires !step.Request? && !step.Fires? && !step.Response?
    requires !step.SocketCloses? && !step.Exhausted? && !step.Close?
    ensures SettledBy(c, step, r)
  {
    hide InFlight, Under;
    if step.Reconnected? {
      SendAllOnlySends(c.(state := Connected).(pending := map[], queued := {}), step.order);
    }
  }

  /** Each step settles exactly the requests it should, and as it should. */
  lemma StepSettles(c: Client, step: Step, r: nat)
    requires Inv(c) && Enabled(c, step)
    ensures SettledBy(c, step, r)
  {
    hide Inv, Do, SettledBy, Enabled;
    match step
    case Request(retryable) => RequestSettles(c, retryable, r);
    case Fires(q) => TimerSettles(c, q, r);
    case Response(named, ok) => ResponseSettles(c, named, ok, r);
    case SocketCloses => CloseSettles(c, r);
    case Exhausted => EndSettles(c, step, r);
    case Close => EndSettles(c, step, r);
    case _ => OthersSettle(c, step, r);
  }

  // ---- what is sent ----

  /** A request is sent at once under an id of its own if there is a connection, waits in the queue
      if it may be resent and one is being made, and is rejected otherwise. */
  lemma RequestIsPlaced(c: Client, retryable: bool)
    requires Inv(c)
    ensures var r, d := |c.made|, Do(c, Request(retryable));
      if c.socket && c.state == Connected then
        Under(d, |c.sent|, r) && d.sent == c.sent + [Req(r)] && Outcomes(d, r) == [] && r in d.timers
      else if retryable && (c.connecting || c.reconnecting) then
        r in d.queued && d.sent == c.sent && Outcomes(d, r) == [] && r in d.timers
      else !Waits(d, r) && r !in d.queued && Outcomes(d, r) == [NotConnected] && r !in d.timers
  {
    NewTimerless(c, retryable);
    if !(c.socket && c.state.Connected?) {
      var r := |c.made|;
      NotWaiting(c, r);
      assert [] + [NotConnected] == [NotConnected];
    }
    hide Inv;
  }

  lemma NotWaiting(c: Client, r: nat)
    requires Inv(c) && r !in c.timers
    ensures !Waits(c, r) && r !in c.queued
  {
    InFlightIff(c, r);
    if r in InFlight(c) { InFlightOk(c, r); }
  }

  /** A reconnect writes each request of its order once, under an id of its own, and nothing else;
      after it every unsettled request that may be resent waits under such an id. */
  lemma ReconnectSendsAll(c: Client, order: seq<nat>)
    requires Inv(c) && Enabled(c, Reconnected(order))
    ensures var d := Do(c, Reconnected(order));
      && d.queued == {} && d.sent == c.sent + Requested(order)
      && (forall r | r in c.timers && Retryable(c, r) :: r in order)
      && (forall r :: Waits(d, r) <==> r in order)
  {
    var e := c.(state := Connected, pending := map[], queued := {});
    OutstandingInOrder(c, order);
    hide Inv, Resends, InFlight;
    SentInOrder(e, order);
  }

  lemma OutstandingInOrder(c: Client, order: seq<nat>)
    requires Inv(c) && Resends(c, order)
    ensures forall r | r in c.timers && Retryable(c, r) :: r in order
  {}

  function Requested(order: seq<nat>): seq<Slot> {
    seq(|order|, i requires 0 <= i < |order| => Req(order[i]))
  }

  lemma {:induction false} SentInOrder(c: Client, order: seq<nat>)
    requires c.socket && c.state.Connected? && c.pending == map[]
    ensures var d := SendAll(c, order);
      && d == c.(pending := d.pending, sent := d.sent) && d.sent == c.sent + Requested(order)
      && (forall r :: Waits(d, r) <==> r in order)
      && (forall id | id in d.pending :: id < |d.sent|)
    decreases |order|
  {
    if order == [] {
      assert c.sent + Requested(order) == c.sent;
    } else {
      var front, r := order[..|order| - 1], order[|order| - 1];
      SentInOrder(c, front);
      assert order == front + [r];
      assert Requested(order) == Requested(front) + [Req(r)];
      var e, d := SendAll(c, front), SendAll(c, order);
      assert c.sent + Requested(front) + [Req(r)] == c.sent + Requested(order);
      forall q ensures Waits(d, q) <==> Waits(e, q) || q == r { OneMoreWaits(e, r, q); }
    }
  }

  lemma OneMoreWaits(c: Client, r: nat, q: nat)
    requires c.socket && c.state.Connected? && |c.sent| !in c.pending
    ensures Waits(SendPending(c, r), q) <==> Waits(c, q) || q == r
  {
    var d := SendPending(c, r);
    assert Under(d, |c.sent|, r);
    if Waits(c, q) {
      var id :| Under(c, id, q);
      assert Under(d, id, q);
    }
    if Waits(d, q) {
      var id :| Under(d, id, q);
      assert id == |c.sent| || Under(c, id, q);
    }
  }

  /** When a connection is lost that neither the client nor another session ended, a reconnect
      begins, during which requests that may be resent are queued, and every unsettled one that
      may be resent goes on waiting. */
  lemma LostIsResumed(c: Client, r: nat)
    requires Inv(c) && c.state == Connected && !c.intentionalClose && !c.rebound
    ensures var d := Do(c, SocketCloses);
      && d.reconnecting && |d.made| in Do(d, Request(true)).queued
      && (r in c.timers && Retryable(c, r) ==> Outcomes(d, r) == [] && (Waits(d, r) || r in d.queued))
  {
    StepKeeps(c, SocketCloses);
    var d := Do(c, SocketCloses);
    InFlightIff(d, r);
    CloseSettles(c, r);
    if r in c.timers && Retryable(c, r) {
      assert RequestOk(c, r);
      assert [] + AsSeq(Verdict(c, SocketCloses, r)) == [];
      assert RequestOk(d, r);
    }
    hide Inv, InFlight;
  }

  // ---- runs ----

  /** Step `k` of the run found the request unsettled and settled it with `s`. */
  ghost predicate SettledAt(cs: seq<Client>, steps: seq<Step>, k: nat, r: nat, s: Settled)
    requires k < |steps| < |cs|
  {
    Verdict(cs[k], steps[k], r) == Some(s) && Outcomes(cs[k], r) == []
  }

  /** Over every run: a request has been settled with `s` if and only if some step of the run
      settled it so. */
  lemma {:induction false} OutcomeIffStep(cs: seq<Client>, steps: seq<Step>, i: nat, r: nat, s: Settled)
    requires Run(cs, steps) && i <= |steps|
    ensures Outcomes(cs[i], r) == [s] <==> exists k: nat :: k < i && SettledAt(cs, steps, k, r, s)
    decreases i
  {
    hide Inv, Do, Verdict, Enabled;
    if i == 0 {
      NothingSettled(r);
    } else {
      OutcomeIffStep(cs, steps, i - 1, r, s);
      RunKeeps(cs, steps, i - 1);
      RunKeeps(cs, steps, i);
      AtMostOne(cs[i - 1], r);
      AtMostOne(cs[i], r);
      var c, step := cs[i - 1], steps[i - 1];
      assert cs[i - 1 + 1] == Do(c, step);
      StepSettles(c, step, r);
      OneMore(Outcomes(c, r), Verdict(c, step, r), s);
      assert Outcomes(cs[i], r) == [s] <==> Outcomes(c, r) == [s] || SettledAt(cs, steps, i - 1, r, s);
    }
  }

  lemma OneMore(before: seq<Settled>, verdict: Option<Settled>, s: Settled)
    requires |before + AsSeq(verdict)| <= 1
    ensures before + AsSeq(verdict) == [s] <==> before == [s] || (before == [] && verdict == Some(s))
  {
    if verdict == None {
      assert before + AsSeq(verdict) == before;
    } else {
      assert before == [] && before + AsSeq(verdict) == AsSeq(verdict);
    }
  }

  lemma NothingSettled(r: nat)
    ensures Outcomes(New(), r) == []
  {}

  lemma AtMostOne(c: Client, r: nat)
    requires Inv(c)
    ensures |Outcomes(c, r)| <= 1
  {
    if r < |c.outcomes| { assert RequestOk(c, r); }
  }
}
