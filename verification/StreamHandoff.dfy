/** What an upgrade does to one connection's queue: cut anywhere, carried over and replayed. */
module StreamHandoff {
  import opened Limits
  import opened Numbers
  import opened Utf8
  import opened ChunkCut
  import opened OutputStore
  import opened StreamModel
  import opened StreamProof
  import opened StreamRuns

  /** `events` cut `output[from..to]` into consecutive windows of whole characters. */
  ghost predicate Spells(output: seq<Byte>, from: nat, events: seq<Event>, to: nat)
    decreases |events|
  {
    if events == [] then from == to
    else
      && EventOk(output, events[0]) && Start(events[0]) == from
      && Spells(output, events[0].next, events[1..], to)
  }

  function TextOf(events: seq<Event>): seq<Scalar> {
    if events == [] then [] else events[0].text + TextOf(events[1..])
  }

  lemma {:induction false} SpelledText(output: seq<Byte>, from: nat, events: seq<Event>, to: nat)
    requires Valid(output) && Spells(output, from, events, to) && Boundary(output, from)
    ensures from <= to <= |output| && Boundary(output, to) && TextOf(events) == Lossy(output[from..to])
    decreases |events|
  {
    hide First, Boundary, Valid, Lossy, Encode;
    if events == [] {
      ValidSplit(output, from);
      LossyOfNothing(output[from..to]);
    } else {
      var e := events[0];
      SpelledText(output, e.next, events[1..], to);
      DecodeOfEncode(e.text);
      LossyBetween(output, from, e.next, to);
    }
  }

  lemma {:induction false} SpellsOn(output: seq<Byte>, from: nat, a: seq<Event>, mid: nat, b: seq<Event>, to: nat)
    requires Spells(output, from, a, mid) && Spells(output, mid, b, to)
    ensures Spells(output, from, a + b, to)
    decreases |a|
  {
    hide EventOk, Start;
    if a == [] {
      assert a + b == b;
    } else {
      SpellsOn(output, a[0].next, a[1..], mid, b, to);
      assert (a + b)[1..] == a[1..] + b;
    }
  }

  /** `k` turns of the writer. */
  function WriteOut(link: Link, k: nat): Link
    requires (link.Watching? || link.Flushing?) && k <= |link.queue|
    decreases k
  {
    if k == 0 then link else WriteOut(Recorded(link), k - 1)
  }

  lemma {:induction false} WriteOutSpells(output: seq<Byte>, link: Link, k: nat, to: nat)
    requires (link.Watching? || link.Flushing?) && k <= |link.queue|
    requires Spells(output, link.written, link.queue, to)
    ensures var link' := WriteOut(link, k);
      && (link'.Flushing? <==> link.Flushing?) && (link'.Watching? <==> link.Watching?)
      && link'.queue == link.queue[k..] && Spells(output, link.written, link.queue[..k], link'.written)
      && Spells(output, link'.written, link'.queue, to)
    decreases k
  {
    hide First, Boundary, Encode;
    if k == 0 {
      assert link.queue[..0] == [];
    } else {
      assert Recorded(link).written == link.queue[0].next;
      WriteOutSpells(output, Recorded(link), k - 1, to);
      assert link.queue[..k][1..] == link.queue[1..][..k - 1] && link.queue[1..][k - 1..] == link.queue[k..];
    }
  }

  lemma {:induction false} ReplaySpells(output: seq<Byte>, file: seq<Byte>, from: nat, to: nat, reached: nat,
                                        events: seq<Event>)
    requires Valid(output) && file <= output && to <= |file| && Boundary(output, from) && Boundary(output, to)
    requires Replay(file, from, to, reached, events)
    ensures Spells(output, from, events, reached)
    decreases |events|
  {
    hide First, Boundary, Valid, Truncated, Cut, Lossy, Encode, EventOf, EventOk, Start, ElemCost;
    if events != [] {
      var e := events[0];
      var want := Min(to - from, REPLAY_CHUNK);
      var n := e.next - from;
      EventNext(file[from..from + n], from + n);
      assert file[from..from + want] == output[from..from + want];
      assert file[from..from + n] == output[from..from + n];
      CutOfValid(output, from, from + want, want, CHUNK_JSON_BUDGET, from + want < to, n);
      EventOfWindow(output, from, from + n);
      ReplaySpells(output, file, from + n, to, reached, events[1..]);
    }
  }

  lemma {:induction false} SpellsOnce(output: seq<Byte>, from: nat, events: seq<Event>, to: nat, other: nat)
    requires Spells(output, from, events, to) && Spells(output, from, events, other)
    ensures to == other
    decreases |events|
  {
    hide EventOk, Start;
    if events != [] { SpellsOnce(output, events[0].next, events[1..], to, other); }
  }

  lemma {:induction false} SpellsForward(output: seq<Byte>, from: nat, events: seq<Event>, to: nat)
    requires Spells(output, from, events, to)
    ensures from <= to && (events != [] ==> from < to)
    decreases |events|
  {
    hide Boundary, Encode;
    if events != [] { SpellsForward(output, events[0].next, events[1..], to); }
  }

  /** Closing, flushing and carrying a subscription over, of whose events the writer manages `k`. */
  lemma {:induction false} WriteOutFlushes(link: Link, k: nat)
    requires link.Flushing? && k <= |link.queue|
    ensures WriteOut(link, k).Flushing?
    decreases k
  {
    if k > 0 { WriteOutFlushes(Recorded(link), k - 1); }
  }

  function HandedOver(m: Manager, k: nat): (r: Manager)
    requires m.link.Watching? && k <= |m.link.queue|
    ensures r.link.Carried? && r == m.(link := r.link)
  {
    var closed := CloseAll(m);
    WriteOutFlushes(closed.link, k);
    CarryWatches(closed.(link := WriteOut(closed.link, k)))
  }

  /** The queue spells what lies between the written and the delivered cursor. */
  ghost predicate QueueSpells(output: seq<Byte>, m: Manager) {
    m.link.Watching? ==> Spells(output, m.link.written, m.link.queue, m.delivered)
  }

  /** The events that went out and a replay from where the subscription was carried are together
      what was queued; and the queue the replay makes can be cut again anywhere. */
  lemma ReplayCompletes(output: seq<Byte>, m: Manager, k: nat, events: seq<Event>)
    requires Valid(output) && Daemon(output, m) && QueueSpells(output, m)
    requires m.link.Watching? && k <= |m.link.queue|
    requires var at := HandedOver(m, k).link.from;
      m.delivered <= |m.file| && Replay(m.file, at, m.delivered, m.delivered, events)
    ensures var out := m.link.queue[..k] + events;
      Spells(output, m.link.written, out, m.delivered) && TextOf(out) == TextOf(m.link.queue)
    ensures Spells(output, HandedOver(m, k).link.from, events, m.delivered)
  {
    hide First, Boundary, Valid, Encode, Lossy, Truncated, EventOk, EventsOk, Replay, Start, Fanout;
    var from, queue, flushing := m.link.written, m.link.queue, CloseAll(m).link;
    WriteOutSpells(output, flushing, k, m.delivered);
    CursorsAreBoundaries(output, m);
    var mid := WriteOut(flushing, k).written;
    SpelledText(output, from, queue[..k], mid);
    ReplaySpells(output, m.file, mid, m.delivered, m.delivered, events);
    SpellsOn(output, from, queue[..k], mid, events, m.delivered);
    SpelledText(output, from, queue[..k] + events, m.delivered);
    SpelledText(output, from, queue, m.delivered);
  }

  lemma CursorsAreBoundaries(output: seq<Byte>, m: Manager)
    requires Daemon(output, m) && m.link.Watching?
    ensures m.file <= output && Boundary(output, m.delivered) && Boundary(output, m.link.written)
  {
    BoundaryAtZero(output);
  }

  /** What went out reaches the delivered cursor only if it was all that was queued. */
  lemma CutShort(output: seq<Byte>, m: Manager, k: nat)
    requires QueueSpells(output, m) && m.link.Watching? && k <= |m.link.queue|
    ensures Spells(output, m.link.written, m.link.queue[..k], m.delivered) <==> k == |m.link.queue|
  {
    hide EventOk, Start;
    var from, queue, flushing := m.link.written, m.link.queue, CloseAll(m).link;
    WriteOutSpells(output, flushing, k, m.delivered);
    var mid := WriteOut(flushing, k).written;
    SpellsForward(output, mid, queue[k..], m.delivered);
    if Spells(output, from, queue[..k], m.delivered) { SpellsOnce(output, from, queue[..k], m.delivered, mid); }
    if k == |queue| { assert queue[..k] == queue; }
  }

  // ---- the queue in a run ----

  lemma QueueReceives(output: seq<Byte>, w: World, n: nat, room: bool)
    requires Valid(output) && Inv(output, w) && !w.m.reloaded && Enabled(output, w, FanoutReceives(n, room))
    requires QueueSpells(output, w.m) && !Loses(w, FanoutReceives(n, room))
    ensures QueueSpells(output, Do(output, w, FanoutReceives(n, room)).m)
  {
    hide First, Boundary, Fanout, Books, Truncated, Cut, Lossy, Encode, Valid, FanoutRecv, EventOk, EventOf,
         Gapless, EventsOk, Start, Do, Enqueue, Loses, Misses;
    var m := w.m;
    RecvKeeps(m, n, room);
    FanoutBounds(m);
    var e := SentEvent(output, m, n);
    DoReceive(output, w, n, room, e);
    RecvIs(m, n, room);
    EnqueueLinks(m.link, e, room);
    EnqueueAdds(m.link, e, room);
    DoCounts(output, w, FanoutReceives(n, room));
    if m.link.Watching? && e.text != [] {
      assert [e][1..] == [];
      SpellsOn(output, m.link.written, m.link.queue, m.delivered, [e], e.next);
    } else {
      assert m.link.Watching? ==> m.link.queue + [] == m.link.queue;
    }
  }

  lemma DoCounts(output: seq<Byte>, w: World, step: Step)
    ensures Do(output, w, step).faults == w.faults + if Loses(w, step) then 1 else 0
  {
    hide Loses, Misses;
  }

  lemma QueueWrites(output: seq<Byte>, w: World)
    requires Enabled(output, w, WriterWrites) && QueueSpells(output, w.m)
    ensures QueueSpells(output, Do(output, w, WriterWrites).m)
  {
    hide Boundary, Encode, Loses, Misses;
  }

  lemma QueueReplays(output: seq<Byte>, w: World, events: seq<Event>, reached: nat)
    requires Valid(output) && Inv(output, w) && Enabled(output, w, SessionReconnects(events, reached))
    requires !w.m.reloaded && !Loses(w, SessionReconnects(events, reached))
    ensures QueueSpells(output, Do(output, w, SessionReconnects(events, reached)).m)
  {
    hide First, Boundary, Valid, Truncated, Fanout, Extension, Gapless, EventOk, EventsOk, Encode, Start, Replay,
         Spells, Misses;
    var m, from := w.m, w.m.link.from;
    FileCoversDelivered(m);
    ReplayLinks(output, m.file, ReplayFrom(m, from), m.delivered, reached, events, 0, []);
    ReplaySpells(output, m.file, ReplayFrom(m, from), m.delivered, reached, events);
  }

  lemma QueueOtherwise(output: seq<Byte>, w: World, step: Step)
    requires Valid(output) && Inv(output, w) && Enabled(output, w, step) && !w.m.reloaded && QueueSpells(output, w.m)
    requires !step.FanoutReceives? && !step.FanoutFlushes? && !step.WriterWrites? && !step.SessionReconnects?
    ensures QueueSpells(output, Do(output, w, step).m)
  {
    hide Boundary, Valid, Fanout, Extension, Gapless, EventsOk, EventOk, Start, Restart, Loses, Misses, HandleOutput,
         StartReturns, RewatchDone, Ranges;
    if step.Resumes? || (step.Execs? && Live(w.m)) { RestartIsWhole(output, w.m); }
  }

  lemma QueueFromRecord(output: seq<Byte>, w: World, step: Step)
    requires Inv(output, w) && Enabled(output, w, step) && w.m.reloaded
    ensures QueueSpells(output, Do(output, w, step).m)
  {
    hide Extension, Gapless, Enabled, Loses, Misses, HandleOutput, StartReturns, RewatchDone, Ranges, Act;
    if OfDaemon(step) { FromRecordAfter(output, w, step); } else { ManagerUntouched(output, w, step); }
  }

  lemma FromRecordAfter(output: seq<Byte>, w: World, step: Step)
    requires Inv(output, w) && Enabled(output, w, step) && w.m.reloaded && OfDaemon(step)
    ensures FromRecord(output, Do(output, w, step).m)
  {
    hide Enabled, Do, Extension, Gapless;
    RecordStep(output, w, step);
  }

  lemma ManagerUntouched(output: seq<Byte>, w: World, step: Step)
    requires !OfDaemon(step)
    ensures Do(output, w, step).m == w.m
  {
    hide HandleOutput, StartReturns, RewatchDone, Ranges, Loses, Misses;
  }

  lemma QueueStepSpells(output: seq<Byte>, w: World, step: Step)
    requires Valid(output) && Inv(output, w) && Enabled(output, w, step) && QueueSpells(output, w.m) && !Loses(w, step)
    ensures QueueSpells(output, Do(output, w, step).m)
  {
    hide Valid, Inv, Enabled, Do, QueueSpells, Loses;
    if w.m.reloaded {
      QueueFromRecord(output, w, step);
      return;
    }
    match step
    case FanoutReceives(n, room) => QueueReceives(output, w, n, room);
    case FanoutFlushes(room) => FanoutFlushesKeeps(output, w, room);
    case WriterWrites => QueueWrites(output, w);
    case SessionReconnects(events, reached) => QueueReplays(output, w, events, reached);
    case _ => QueueOtherwise(output, w, step);
  }

  // ---- every lossless run ----

  /** As long as nothing is lost, an attached session's queue spells what it was not yet sent. */
  lemma {:induction false} RunSpells(output: seq<Byte>, worlds: seq<World>, steps: seq<Step>)
    requires Valid(output) && Run(output, worlds, steps) && Lossless(worlds, steps)
    ensures QueueSpells(output, worlds[|steps|].m)
    decreases |steps|
  {
    hide Valid, Inv, MissedOk, Enabled, Do, QueueSpells, Loses;
    if steps == [] {
      NothingQueued(output);
    } else {
      var k := |steps| - 1;
      assert forall i | 0 <= i < k :: !Loses(worlds[..k + 1][i], steps[..k][i]);
      RunSpells(output, worlds[..k + 1], steps[..k]);
      RunKeeps(output, worlds[..k + 1], steps[..k]);
      QueueStepSpells(output, worlds[k], steps[k]);
      assert worlds[k + 1] == Do(output, worlds[k], steps[k]);
    }
  }

  lemma NothingQueued(output: seq<Byte>)
    ensures QueueSpells(output, Spawned().m)
  {}

  /** A reconnect at most 8 MiB behind, all of whose events find room, loses nothing: the replay
      starts at the carried cursor. */
  lemma ReplayInReach(w: World, events: seq<Event>, reached: nat)
    requires w.m.link.Carried? && w.m.delivered - w.m.link.from <= 8388608
    ensures ReplayFrom(w.m, w.m.link.from) == w.m.link.from
    ensures Loses(w, SessionReconnects(events, reached)) <==> reached < w.m.delivered
  {}

  /** An upgrade that succeeds, in any run without a loss before it, whatever of an attached
      session's queue its writer manages to send (`k` events), as long as the session falls at
      most 8 MiB behind. If something of the task is alive,
      the replay that the new image queues on reconnecting completes what was sent, nothing
      skipped and nothing twice. If the task is over, its subscription is gone, and what was sent
      is complete if and only if it was everything queued. */
  lemma HandoffIsWhole(output: seq<Byte>, worlds: seq<World>, steps: seq<Step>, k: nat, events: seq<Event>)
    requires Valid(output) && Run(output, worlds, steps) && Lossless(worlds, steps)
    requires var m := worlds[|steps|].m; m.parked && m.link.Watching? && k <= |m.link.queue|
    requires var next := Exec(HandedOver(worlds[|steps|].m, k));
      next.link.Carried? ==>
        && next.delivered <= |next.file| && next.delivered - next.link.from <= 8388608
        && Replay(next.file, ReplayFrom(next, next.link.from), next.delivered, next.delivered, events)
    ensures var m := worlds[|steps|].m;
      var next := Exec(HandedOver(m, k));
      if Live(m) then
        && next.link.Carried? && Spells(output, m.link.written, m.link.queue[..k] + events, m.delivered)
        && TextOf(m.link.queue[..k] + events) == TextOf(m.link.queue)
        && QueueSpells(output, Reconnect(next, events))
      else
        && next.link.Unwatched?
        && (Spells(output, m.link.written, m.link.queue[..k], m.delivered) <==> k == |m.link.queue|)
  {
    hide Valid, Daemon, Extension, Gapless, MissedOk, Lossless, Spells, Replay, TextOf, WriteOut;
    RunSpells(output, worlds, steps);
    RunKeeps(output, worlds, steps);
    var m := worlds[|steps|].m;
    if Live(m) { ReplayCompletes(output, m, k, events); } else { CutShort(output, m, k); }
  }

  // ---- what an exec loses ----

  /** From `w` to `w'` a byte that could still have been sent no longer can. */
  ghost predicate LosesAByte(w: World, w': World) {
    exists at :: Gone(w', at) && !Gone(w, at)
  }

  /** Linked events that go on from the cursor do not jump over a byte. */
  lemma {:induction false} LinkedStay(cursor: nat, events: seq<Event>, at: nat, i: nat)
    requires Linked(cursor, events) && Skips(at, events) && cursor <= at && i <= |events|
    ensures forall j | 0 <= j < i :: events[j].next <= at
    decreases i
  {
    hide Start;
    if i > 0 {
      LinkedStay(cursor, events, at, i - 1);
      var e := events[i - 1];
      assert e in events;
      if Start(e) > cursor {
        var j :| 0 <= j < |events[..i - 1]| && events[..i - 1][j].next == Start(e);
        assert events[j].next <= at;
      }
    }
  }

  /** What was sent up to some point without a gap leaves no byte before it out. */
  lemma NoneLeftOut(output: seq<Byte>, w: World, at: nat, to: nat)
    requires Books(output, w.c, w.log) && Contiguous(w.log) && Linked(w.c.cursor, Written(w))
    requires Attained(to, w.c.cursor, Written(w)) && at < to && Skips(at, Written(w))
    ensures !LogSkips(at, w.log)
  {
    hide Boundary, InOrder, LogText, Start, Linked, Skips, Contiguous, LogSkips, Written;
    if at < w.c.cursor {
      ContiguousCovers(w.log, at);
    } else {
      LinkedStay(w.c.cursor, Written(w), at, |Written(w)|);
    }
  }

  /** Of a task that is over, with everything delivered sent, nothing is gone after the exec. */
  lemma SentIsSafe(output: seq<Byte>, w: World, at: nat)
    requires Inv(output, w) && Whole(w) && w.m.reloaded
    ensures !Gone(w, at)
  {
    hide Boundary, Books, Start, Linked, Skips, Contiguous, LogSkips, Attained, EventsOk;
    assert Pending(w) == Written(w);
    if at < Front(w.m) && Skips(at, Written(w)) { NoneLeftOut(output, w, at, Front(w.m)); }
  }

  /** The carried cursor is never past what was sent, so what comes next can still be asked for. */
  lemma NextIsNotGone(output: seq<Byte>, w: World)
    requires Inv(output, w) && Whole(w) && w.m.link.Carried? && !w.m.reloaded
    ensures !Gone(w, SentUpTo(w))
  {
    hide Daemon, Extension, Linked, Skips, Contiguous, LogSkips, Reach;
    ReachBounds(w.c.cursor, Written(w));
  }

  /** With something of the task alive, or no subscription to drop, the exec changes nothing
      about what can still be sent. */
  lemma ExecKeepsGone(output: seq<Byte>, w: World, at: nat)
    requires Valid(output) && Inv(output, w) && Enabled(output, w, Execs) && (Live(w.m) || w.m.link.Unwatched?)
    requires Gone(Do(output, w, Execs), at)
    ensures Gone(w, at)
  {
    hide Valid, Fanout, Extension, Gapless, Skips, LogSkips, Restart, Boundary, Loses, Misses, SentUpTo, EventsOk;
    var w' := Do(output, w, Execs);
    if !w.m.reloaded {
      if Live(w.m) { RestartIsWhole(output, w.m); } else { ParkedAtEnd(output, w.m); }
    }
    assert Pending(w') == Pending(w);
  }

  /** Over every run without a loss so far: an exec makes some byte unsendable if and only if the
      task is over, its subscription was still carried, and not everything delivered had been
      sent. */
  lemma ExecLosesIff(output: seq<Byte>, worlds: seq<World>, steps: seq<Step>)
    requires Valid(output) && Run(output, worlds, steps) && Lossless(worlds, steps) && NothingMissed(worlds, steps)
    requires Enabled(output, worlds[|steps|], Execs)
    ensures var w := worlds[|steps|];
      LosesAByte(w, Do(output, w, Execs)) <==> !Live(w.m) && w.m.link.Carried? && !Covered(w)
  {
    hide Valid, Inv, MissedOk, Gone, Do, Covered, SentUpTo, Live, Lossless, NothingMissed;
    RunKeeps(output, worlds, steps);
    RunCounts(output, worlds, steps);
    ExecLosesAt(output, worlds[|steps|]);
  }

  lemma ExecLosesAt(output: seq<Byte>, w: World)
    requires Valid(output) && Inv(output, w) && Whole(w) && Enabled(output, w, Execs)
    ensures LosesAByte(w, Do(output, w, Execs)) <==> !Live(w.m) && w.m.link.Carried? && !Covered(w)
  {
    hide Valid, Inv, Gone, Do, Covered, SentUpTo, Live;
    var w' := Do(output, w, Execs);
    if Live(w.m) || !w.m.link.Carried? {
      forall at | Gone(w', at) ensures Gone(w, at) { ExecKeepsGone(output, w, at); }
    } else {
      ExecOfOver(output, w);
      if Covered(w) {
        StepKeeps(output, w, Execs);
        forall at ensures !Gone(w', at) { SentIsSafe(output, w', at); }
      } else {
        MissedIsGone(output, w, Execs);
        NextIsNotGone(output, w);
      }
    }
  }

  lemma ExecOfOver(output: seq<Byte>, w: World)
    requires Inv(output, w) && Whole(w) && !Live(w.m) && w.m.link.Carried?
    ensures Do(output, w, Execs).m.reloaded && (Covered(w) ==> Whole(Do(output, w, Execs)))
    ensures !Covered(w) ==> !w.m.reloaded && Misses(w, Execs)
  {
    hide Extension, Gapless, SentUpTo, Fanout;
  }
}
