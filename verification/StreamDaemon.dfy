/** The daemon's side of StreamModel as it runs: the state of one task's output, updated in
    place under the state lock. */
module StreamDaemon {
  import opened Limits
  import opened Numbers
  import opened Utf8
  import opened ChunkCut
  import opened OutputStore
  import opened StreamModel
  import opened StreamRuns
  import opened StreamHandoff

  class TaskOutput {
    var file: seq<Byte>
    var chan: seq<seq<Byte>>
    var carry: seq<Byte>
    var last: nat
    var delivered: nat
    var parked: bool
    var pumpsDone: bool
    var reaped: bool
    var reloaded: bool
    var link: Link

    function View(): Manager
      reads this
    {
      Manager(file, chan, carry, last, delivered, parked, pumpsDone, reaped, reloaded, link)
    }

    constructor ()
      ensures View() == Spawned().m && Fanout(View())
    {
      file, chan, carry, last, delivered := [], [], [], 0, 0;
      parked, pumpsDone, reaped, reloaded, link := false, false, false, false, Watching([], 0);
    }

    /** `TaskEntry::terminal`: a finished task as its record tells of it. */
    constructor Terminal(file: seq<Byte>)
      ensures View() == Manager(file, [], [], |file|, 0, false, true, true, true, Unwatched)
    {
      this.file, chan, carry, last, delivered := file, [], [], |file|, 0;
      parked, pumpsDone, reaped, reloaded, link := false, true, true, true, Unwatched;
    }

    /** An entry as the handover file tells of it, before anything is started for it. */
    constructor Restored(file: seq<Byte>, delivered: nat, pumpsDone: bool, reaped: bool, link: Link)
      ensures View() == Manager(file, [], [], 0, delivered, true, pumpsDone, reaped, false, link)
    {
      this.file, chan, carry, last, this.delivered := file, [], [], 0, delivered;
      parked, this.pumpsDone, this.reaped, reloaded, this.link := true, pumpsDone, reaped, false, link;
    }

    /** `pump`: one read goes to the file and to the fanout's channel. */
    method Pump(data: seq<Byte>)
      requires Fanout(View()) && !parked && 0 < |data| <= READ_CHUNK
      modifies this
      ensures View() == Append(old(View()), data) && Fanout(View())
    {
      AppendKeeps(View(), data);
      file := file + data;
      chan := chan + [data];
    }

    /** One round of `run_output_fanout`: prepend the carry, cut, deliver, hold back. */
    method FanoutReceives(room: bool) returns (ghost n: nat)
      requires Fanout(View()) && chan != []
      modifies this
      ensures old(Cut(carry + chan[0], USIZE_MAX, CHUNK_JSON_BUDGET, true, n))
      ensures n <= old(|carry| + |chan[0]|) && View() == FanoutRecv(old(View()), n, room)
      ensures Fanout(View()) && last - delivered <= 3
    {
      hide First, Fanout, Cut, Truncated, Lossy, EventOf;
      var data := carry + chan[0];
      var cut := Utf8ChunkLen(data, USIZE_MAX, CHUNK_JSON_BUDGET, true);
      n := cut;
      RecvKeeps(View(), cut, room);
      FanoutBounds(View());
      last := last + |chan[0]|;
      chan := chan[1..];
      carry := data[cut..];
      delivered := last - |carry|;
      link := Enqueue(link, EventOf(data[..cut], delivered), room);
    }

    /** The channel closed: flush at EOF, keep the tail when parked. */
    method FanoutEnds(room: bool)
      requires Fanout(View()) && chan == []
      modifies this
      ensures View() == FanoutEnd(old(View()), room) && Fanout(View())
    {
      EndKeeps(View(), room);
      if carry != [] && !parked {
        var bytes := carry;
        carry := [];
        delivered := last;
        link := Enqueue(link, EventOf(bytes, last), room);
      }
    }

    /** `writer_task`: one frame written, and how far the connection got recorded. */
    method WriterWrites() returns (sent: Event)
      requires (link.Watching? || link.Flushing?) && link.queue != []
      modifies this`link
      ensures sent == old(link.queue[0]) && View() == old(View()).(link := Recorded(old(link)))
      ensures (link.Watching? || link.Flushing?) && link.queue == old(link.queue[1..])
      ensures link.written >= old(link.written) && link.written >= sent.next
    {
      sent := link.queue[0];
      link := link.(queue := link.queue[1..], written := Max(link.written, sent.next));
    }

    /** `close_all_connections`: the queue is left to its writer, and nothing joins it. */
    method CloseAllConnections()
      modifies this`link
      ensures View() == CloseAll(old(View())) && QueueOf(link) == old(QueueOf(link))
      ensures forall e: Event, room: bool :: Enqueue(link, e, room) == link
    {
      if link.Watching? {
        link := Flushing(link.queue, link.written);
      }
    }

    /** `carry_watches`: what the connection did not get is asked for again from where its
        writer got to. */
    method CarryOver()
      modifies this`link
      ensures View() == CarryWatches(old(View())) && !link.Flushing?
      ensures old(link.Flushing?) ==> link == Carried(old(link.written))
    {
      if link.Flushing? {
        link := Carried(link.written);
      }
    }

    /** The upgrade's part in between: the writer gets `frames` events out before it is done or
        stopped, and the subscription is carried from exactly where they end. */
    method HandOver(frames: nat) returns (sent: seq<Event>)
      requires link.Watching? && frames <= |link.queue|
      modifies this`link
      ensures sent == old(link.queue)[..frames] && View() == HandedOver(old(View()), frames)
      ensures forall output | Spells(output, old(link.written), old(link.queue), delivered) ::
                link.Carried? && Spells(output, old(link.written), sent, link.from)
    {
      hide Spells, WriteOut;
      ghost var from, queue := link.written, link.queue;
      CloseAllConnections();
      ghost var closed := link;
      sent := [];
      while |sent| < frames
        invariant |sent| <= frames && sent == queue[..|sent|]
        invariant link.Flushing? && link.queue == queue[|sent|..]
        invariant WriteOut(link, frames - |sent|) == WriteOut(closed, frames)
      {
        WriteOutNext(link, frames - |sent|);
        var e := WriterWrites();
        sent := sent + [e];
      }
      WriteOutNone(link);
      CarryOver();
      forall output | Spells(output, from, queue, delivered)
        ensures link.Carried? && Spells(output, from, sent, link.from)
      {
        WriteOutSpells(output, closed, frames, delivered);
      }
    }

    /** `restart_task` and `start_task_io` after an upgrade that succeeded or failed: a task
        with a pipe left gets a fanout that begins with the bytes between the delivered cursor
        and the file's end, which puts everything back as it was when the task was parked. One
        without gets none. */
    method StartTaskIo()
      requires parked
      modifies this
      ensures View() == Restart(old(View()))
      ensures old(Fanout(View())) && !reloaded ==>
                && (View() == old(View()).(parked := false) <==> !pumpsDone || old(carry) == [])
                && (!pumpsDone || old(carry) == [] ==> Fanout(View()))
    {
      hide Truncated;
      if Fanout(View()) && !reloaded { RestartResumesCarry(View(), true); }
      parked := false;
      chan := [];
      carry := [];
      if !pumpsDone {
        var total := |file|;
        carry := if total > delivered then FileRange(file, delivered, Min(total - delivered, MAX_OUTPUT_READ)) else [];
      }
      last := delivered + |carry|;
    }

    /** The new image: it is handed the entries of tasks of which something is alive, and loads
        the others from their records. */
    static method NewImage(image: TaskOutput) returns (next: TaskOutput)
      requires image.parked && (image.link.Carried? || image.link.Unwatched?)
      requires image.reloaded ==> image.pumpsDone && image.reaped
      ensures fresh(next) && next.View() == Exec(image.View())
    {
      if image.pumpsDone && image.reaped {
        next := new TaskOutput.Terminal(image.file);
      } else {
        next := new TaskOutput.Restored(image.file, image.delivered, image.pumpsDone, image.reaped, image.link);
        next.StartTaskIo();
      }
    }

    /** `resume_carried_watches`: subscribe the reconnected session again and queue what it
        missed, from where it was carried or from 8 MiB back, as far as `room` events go. Of
        those 33 are enough. */
    method ResumeCarriedWatches(room: nat) returns (events: seq<Event>, reached: nat)
      requires link.Carried? && delivered <= |file|
      modifies this`link
      ensures var start := if delivered > old(link.from) + 8388608 then delivered - 8388608 else old(link.from);
        && Replay(file, start, delivered, reached, events)
        && (events != [] ==>
              && start < events[0].next <= delivered
              && events[0] == EventOf(file[start..events[0].next], events[0].next))
      ensures View() == Reconnect(old(View()), events)
      ensures reached >= delivered || |events| >= room
      ensures room >= 33 ==> reached >= delivered
    {
      hide First, Cut, Truncated, Lossy, EventOf, Replay;
      var from, to := link.from, delivered;
      var cursor := Max(from, if to > REPLAY_MAX then to - REPLAY_MAX else 0);
      ghost var start := cursor;
      events := [];
      ReplayNothing(file, start, to);
      while cursor < to && |events| < room
        invariant start <= cursor && (cursor <= to || events == [])
        invariant Replay(file, start, to, cursor, events)
        invariant cursor < to ==> cursor - start >= 262141 * |events|
        decreases if cursor < to then to - cursor else 0
      {
        var want := Min(to - cursor, REPLAY_CHUNK);
        var bytes := FileRange(file, cursor, want);
        var n := Utf8ChunkLen(bytes, want, CHUNK_JSON_BUDGET, cursor + |bytes| < to);
        LongWindowMoves(bytes, want, cursor + |bytes| < to, n);
        WindowIsUsed(bytes, want, cursor + |bytes| < to, n);
        n := if n < 1 then 1 else n;
        var e := EventOf(bytes[..n], cursor + n);
        assert bytes == file[cursor..cursor + want] && bytes[..n] == file[cursor..cursor + n];
        EventNext(bytes[..n], cursor + n);
        ReplayPush(file, start, to, cursor, events, e);
        events := events + [e];
        cursor := cursor + n;
      }
      link := Watching(events, from);
      reached := cursor;
      if events != [] { ReplayBegins(file, start, to, reached, events); }
    }
  }

  lemma WriteOutNext(link: Link, k: nat)
    requires (link.Watching? || link.Flushing?) && 0 < k <= |link.queue|
    ensures WriteOut(link, k) == WriteOut(Recorded(link), k - 1)
  {}

  lemma WriteOutNone(link: Link)
    requires link.Watching? || link.Flushing?
    ensures WriteOut(link, 0) == link
  {}

  lemma ReplayNothing(file: seq<Byte>, start: nat, to: nat)
    ensures Replay(file, start, to, start, [])
  {}

  /** A replay window either ends at the last delivered byte or is far longer than a
      held-back tail, so a cut always moves on and stays inside it. */
  lemma LongWindowMoves(bytes: seq<Byte>, want: nat, moreMayFollow: bool, n: nat)
    requires Cut(bytes, want, CHUNK_JSON_BUDGET, moreMayFollow, n) && |bytes| == want && want > 0
    requires moreMayFollow ==> want > 3
    ensures 0 < n <= want
  {}

  /** The JSON budget never binds in a replay window: all is sent but an incomplete tail. */
  lemma WindowIsUsed(bytes: seq<Byte>, want: nat, moreMayFollow: bool, n: nat)
    requires Cut(bytes, want, CHUNK_JSON_BUDGET, moreMayFollow, n) && |bytes| == want <= 262144
    ensures if moreMayFollow then n + 3 >= want else n == want
  {
    hide First, Cut, Truncated;
    if moreMayFollow {
      OnlyTailHeldBack(bytes, want, CHUNK_JSON_BUDGET, n);
    } else {
      NothingHeldBack(bytes, want, CHUNK_JSON_BUDGET, n);
    }
  }

  lemma ReplayBegins(file: seq<Byte>, start: nat, to: nat, reached: nat, events: seq<Event>)
    requires Replay(file, start, to, reached, events) && events != []
    ensures start < events[0].next <= to <= |file|
    ensures events[0] == EventOf(file[start..events[0].next], events[0].next)
  {
    hide First, Cut, Lossy;
  }

  lemma {:induction false} ReplayPush(file: seq<Byte>, start: nat, to: nat, cursor: nat, events: seq<Event>, e: Event)
    requires Replay(file, start, to, cursor, events)
    requires cursor < to <= |file| && cursor < e.next
    requires var want := Min(to - cursor, REPLAY_CHUNK);
      && e.next - cursor <= want
      && Cut(file[cursor..cursor + want], want, CHUNK_JSON_BUDGET, cursor + want < to, e.next - cursor)
      && e == EventOf(file[cursor..e.next], e.next)
    ensures Replay(file, start, to, e.next, events + [e])
    decreases |events|
  {
    hide First, Cut, Lossy, EventOf;
    var all := events + [e];
    if events == [] {
      assert all == [e] && all[1..] == [];
      assert Replay(file, e.next, to, e.next, all[1..]);
    } else {
      assert all[1..] == events[1..] + [e] && all[0] == events[0];
      ReplayPush(file, events[0].next, to, cursor, events[1..], e);
    }
  }
}
