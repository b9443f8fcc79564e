/** The client object whose handlers update its maps, sets and timers in place, proved against
    Requests. */
module RequestClient {
  import opened Options
  import opened Requests

  class ManagerClient {
    var state: State
    var socket: bool
    var connecting: bool
    var reconnecting: bool
    var intentionalClose: bool
    var rebound: bool
    var helloWaiter: Option<nat>
    var pending: map<nat, Slot>
    var queuedRequests: set<nat>
    var timers: set<nat>
    var made: seq<bool>
    var outcomes: seq<seq<Settled>>
    var sent: seq<Slot>

    function View(): Client
      reads this
    {
      Client(state, socket, connecting, reconnecting, intentionalClose, rebound, helloWaiter, pending, queuedRequests,
             timers, made, outcomes, sent)
    }

    /** Clear the request's timer and call its `resolve` or `reject`. */
    method SettleOne(r: nat, s: Settled)
      requires r < |outcomes|
      modifies this`timers, this`outcomes
      ensures View() == Settle(old(View()), {r}, s)
    {
      timers := timers - {r};
      outcomes := outcomes[r := outcomes[r] + [s]];
      assert outcomes == Settle(old(View()), {r}, s).outcomes;
    }

    /** The requests of `rs` have been settled since `c`, no others. */
    ghost predicate SettledSoFar(c: Client, rs: set<nat>, s: Settled)
      reads this`timers, this`outcomes
    {
      timers == Settle(c, rs, s).timers && outcomes == Settle(c, rs, s).outcomes
    }

    method SettleNext(r: nat, ghost c: Client, ghost rs: set<nat>, s: Settled)
      requires SettledSoFar(c, rs, s) && r !in rs && r < |c.outcomes|
      modifies this`timers, this`outcomes
      ensures SettledSoFar(c, rs + {r}, s)
    {
      timers := timers - {r};
      outcomes := outcomes[r := outcomes[r] + [s]];
      assert outcomes == Settle(c, rs + {r}, s).outcomes;
    }

    /** `sendPending`. */
    method SendOne(r: nat)
      modifies this`pending, this`sent
      ensures View() == SendPending(old(View()), r)
    {
      if !socket || !state.Connected? { return; }
      pending := pending[|sent| := Req(r)];
      sent := sent + [Req(r)];
    }

    /** `request`. */
    method Request(retryable: bool)
      requires |outcomes| == |made|
      modifies this
      ensures View() == Do(old(View()), Step.Request(retryable))
    {
      var r := |made|;
      made, outcomes, timers := made + [retryable], outcomes + [[]], timers + {r};
      if socket && state.Connected? {
        SendOne(r);
      } else if retryable && (reconnecting || connecting) {
        queuedRequests := queuedRequests + {r};
      } else {
        SettleOne(r, NotConnected);
      }
    }

    /** The timer set by `request`. */
    method TimerFires(r: nat)
      requires r in timers && r < |outcomes|
      modifies this
      ensures View() == Do(old(View()), Fires(r))
    {
      pending := map id | id in pending && pending[id] != Req(r) :: pending[id];
      queuedRequests := queuedRequests - {r};
      SettleOne(r, TimedOut);
    }

    /** `dispatch` of a response. */
    method Dispatch(id: Option<nat>, ok: bool)
      requires forall i | i in pending && pending[i].Req? :: pending[i].r < |outcomes|
      modifies this
      ensures View() == Do(old(View()), Response(id, ok))
      ensures id.Some? && old(id.value in pending && pending[id.value].Req?) ==>
                var r := old(pending[id.value].r);
                id.value !in pending && r !in timers && outcomes[r] == old(outcomes[r]) + [Answered(id.value, ok)]
    {
      if id.Some? && id.value in pending {
        var slot := pending[id.value];
        pending := pending - {id.value};
        match slot {
          case Req(r) => SettleOne(r, Answered(id.value, ok));
          case Hello => helloWaiter := None;
        }
      } else if helloWaiter.Some? {
        pending := pending - {helloWaiter.value};
        helloWaiter := None;
      }
    }

    /** The list `resendPending` makes: what is under some id or queued and may be resent, each
        once however often it was sent. */
    method Outstanding() returns (entries: seq<nat>)
      requires Inv(View())
      ensures Resends(View(), entries)
    {
      hide Inv, InFlight, Retryable;
      entries := [];
      var todo := pending.Keys;
      while todo != {}
        invariant todo <= pending.Keys && Gathered(View(), entries) && FromPending(View(), todo, entries)
        decreases todo
      {
        var id :| id in todo;
        if pending[id].Req? { PendingKnown(View(), id); }
        if pending[id].Req? && made[pending[id].r] && pending[id].r !in entries {
          entries := entries + [pending[id].r];
        }
        todo := todo - {id};
      }
      todo := queuedRequests;
      while todo != {}
        invariant todo <= queuedRequests && Gathered(View(), entries) && FromPending(View(), {}, entries)
        invariant forall r | r in queuedRequests && r !in todo && Retryable(View(), r) :: r in entries
        decreases todo
      {
        var r :| r in todo;
        QueuedKnown(View(), r);
        if made[r] && r !in entries {
          entries := entries + [r];
        }
        todo := todo - {r};
      }
      InFlightGathered(View(), entries);
    }

    /** `resendPending`. */
    method ResendAll() returns (entries: seq<nat>)
      requires Inv(View())
      modifies this
      ensures Resends(old(View()), entries) && View() == ResendPending(old(View()), entries)
    {
      entries := Outstanding();
      hide Inv, Resends;
      pending, queuedRequests := map[], {};
      ghost var bare := View();
      var k := 0;
      while k < |entries|
        invariant k <= |entries| && View() == SendAll(bare, entries[..k])
      {
        SendOne(entries[k]);
        k := k + 1;
        assert entries[..k][..k - 1] == entries[..k - 1];
      }
      assert entries[..k] == entries;
    }

    /** `onClose`. */
    method Closed()
      requires Inv(View())
      modifies this
      ensures View() == OnClose(old(View()))
    {
      hide Inv, InFlight, Retryable, Settle, Lost, Rejecting, OnClose, SettledSoFar;
      ghost var before := View();
      var wasConnected := state.Connected?;
      socket := false;
      var todo := pending.Keys;
      ghost var rejected: set<nat> := {};
      NoneSettled(before, ConnectionLost);
      RejectStarts(before);
      while todo != {}
        invariant Rejecting(before, pending, todo, rejected)
        invariant SettledSoFar(before, rejected, ConnectionLost)
        modifies this`pending, this`helloWaiter, this`timers, this`outcomes
        decreases todo
      {
        var id :| id in todo;
        RejectNext(before, pending, todo, rejected, id);
        var slot := pending[id];
        todo := todo - {id};
        if slot.Hello? {
          pending := pending - {id};
          helloWaiter := None;
        } else if !made[slot.r] || intentionalClose || rebound {
          pending := pending - {id};
          SettleNext(slot.r, before, rejected, ConnectionLost);
          rejected := rejected + {slot.r};
        }
      }
      RejectedAll(before, pending, rejected);
      helloWaiter := None;
      state := Disconnected;
      if !(intentionalClose || rebound) && wasConnected {
        reconnecting := true;
      }
      AllSettled(before, rejected, ConnectionLost);
      ClosedIs(before, pending);
    }

    lemma NoneSettled(c: Client, s: Settled)
      requires timers == c.timers && outcomes == c.outcomes
      ensures SettledSoFar(c, {}, s)
    {
      assert Settle(c, {}, s).outcomes == c.outcomes;
    }

    lemma AllSettled(c: Client, rs: set<nat>, s: Settled)
      requires SettledSoFar(c, rs, s)
      ensures Settle(c, rs, s) == c.(timers := timers, outcomes := outcomes)
    {}

    /** `failAllPending`: pending entries first, then queued ones. */
    method FailAll()
      requires Inv(View())
      modifies this
      ensures View() == FailAllPending(old(View()))
    {
      hide Inv, InFlight, Settle, FailAllPending, SettledSoFar;
      ghost var before := View();
      var todo := InFlight(View()) + queuedRequests;
      ghost var rejected: set<nat> := {};
      NoneSettled(before, GivenUp);
      OutstandingKnown(before);
      while todo != {}
        invariant todo + rejected == InFlight(before) + before.queued && todo !! rejected
        invariant SettledSoFar(before, rejected, GivenUp)
        modifies this`timers, this`outcomes
        decreases todo
      {
        var r :| r in todo;
        SettleNext(r, before, rejected, GivenUp);
        todo, rejected := todo - {r}, rejected + {r};
      }
      if exists id | id in pending :: pending[id].Hello? {
        helloWaiter := None;
      }
      pending, queuedRequests := map[], {};
      assert rejected == InFlight(before) + before.queued;
      AllSettled(before, rejected, GivenUp);
      FailedIs(before);
    }
  }

  /** Distinct requests that may be resent. */
  ghost predicate Gathered(c: Client, entries: seq<nat>) {
    && (forall r | r in entries :: (r in InFlight(c) || r in c.queued) && Retryable(c, r))
    && (forall i, j | 0 <= i < j < |entries| :: entries[i] != entries[j])
  }

  ghost predicate FromPending(c: Client, todo: set<nat>, entries: seq<nat>) {
    forall id | id in c.pending && id !in todo && c.pending[id].Req? && Retryable(c, c.pending[id].r) ::
      c.pending[id].r in entries
  }

  lemma PendingKnown(c: Client, id: nat)
    requires Inv(c) && id in c.pending && c.pending[id].Req?
    ensures c.pending[id].r < |c.made| && c.pending[id].r in InFlight(c)
    ensures Retryable(c, c.pending[id].r) <==> c.made[c.pending[id].r]
  {
    assert PendingOk(c, id);
  }

  lemma QueuedKnown(c: Client, r: nat)
    requires Inv(c) && r in c.queued
    ensures r < |c.made| && (Retryable(c, r) <==> c.made[r])
  {}

  lemma InFlightGathered(c: Client, entries: seq<nat>)
    requires FromPending(c, {}, entries)
    ensures forall r | r in InFlight(c) && Retryable(c, r) :: r in entries
  {
    hide Retryable;
    forall r | r in InFlight(c) && Retryable(c, r) ensures r in entries {
      var id := IdOf(c, r);
    }
  }

  lemma OutstandingKnown(c: Client)
    requires Inv(c)
    ensures forall r | r in InFlight(c) + c.queued :: r < |c.outcomes|
  {
    forall r | r in InFlight(c) ensures r < |c.outcomes| { InFlightOk(c, r); }
  }

  lemma FailedIs(c: Client)
    ensures FailAllPending(c) == Settle(c, InFlight(c) + c.queued, GivenUp).(
              pending := map[], queued := {},
              helloWaiter := if exists id | id in c.pending :: c.pending[id].Hello? then None else c.helloWaiter)
  {}

  ghost function Lost(c: Client): set<nat> {
    set r | r in InFlight(c) && (c.intentionalClose || c.rebound || !Retryable(c, r))
  }

  /** Where `onClose` is in its sweep: `left` is what is still in the map, `todo` what it has
      not looked at. */
  ghost predicate Rejecting(c: Client, left: map<nat, Slot>, todo: set<nat>, rejected: set<nat>) {
    && Inv(c) && left.Keys <= c.pending.Keys && todo <= left.Keys && rejected <= Lost(c)
    && (forall id | id in left :: left[id] == c.pending[id])
    && (forall id | id in left && id !in todo :: left[id].Req? && left[id].r !in Lost(c))
    && (forall id | id in c.pending && id !in left :: c.pending[id].Hello? || c.pending[id].r in rejected)
    && (forall id | id in left && left[id].Req? :: left[id].r !in rejected)
  }

  lemma RejectStarts(c: Client)
    requires Inv(c)
    ensures Rejecting(c, c.pending, c.pending.Keys, {})
  {
    hide Inv, Lost;
  }

  lemma RejectNext(c: Client, left: map<nat, Slot>, todo: set<nat>, rejected: set<nat>, id: nat)
    requires Rejecting(c, left, todo, rejected) && id in todo
    ensures id in left
    ensures left[id].Hello? ==> Rejecting(c, left - {id}, todo - {id}, rejected)
    ensures left[id].Req? ==>
              var r := left[id].r;
              && r < |c.made| == |c.outcomes| && r !in rejected
              && (if !c.made[r] || c.intentionalClose || c.rebound
                  then Rejecting(c, left - {id}, todo - {id}, rejected + {r})
                  else Rejecting(c, left, todo - {id}, rejected))
  {
    assert PendingOk(c, id);
    if left[id].Req? {
      OthersElsewhere(c, id);
      assert left[id].r in InFlight(c);
    }
    hide Inv;
  }

  lemma RejectedAll(c: Client, left: map<nat, Slot>, rejected: set<nat>)
    requires Rejecting(c, left, {}, rejected)
    ensures rejected == Lost(c)
    ensures left == map id | id in c.pending && c.pending[id].Req? && c.pending[id].r !in Lost(c) :: c.pending[id]
  {
    hide Inv, Lost;
    forall r | r in Lost(c) ensures r in rejected {
      LostInFlight(c, r);
      var id := IdOf(c, r);
    }
  }

  lemma LostInFlight(c: Client, r: nat)
    requires r in Lost(c)
    ensures r in InFlight(c)
  {}

  lemma OthersElsewhere(c: Client, id: nat)
    requires Inv(c) && id in c.pending && c.pending[id].Req?
    ensures forall other | other in c.pending && other != id && c.pending[other].Req? ::
              c.pending[other].r != c.pending[id].r
  {}

  lemma ClosedIs(c: Client, left: map<nat, Slot>)
    requires left == map id | id in c.pending && c.pending[id].Req? && c.pending[id].r !in Lost(c) :: c.pending[id]
    ensures OnClose(c) == Settle(c, Lost(c), ConnectionLost).(
              pending := left, socket := false, helloWaiter := None, state := Disconnected,
              reconnecting := c.reconnecting || (!(c.intentionalClose || c.rebound) && c.state.Connected?))
  {}
}
