/** Runs of StreamModel: what every step keeps, and the delivery theorem. */
module StreamRuns {
  import opened Limits
  import opened Numbers
  import opened Utf8
  import opened ChunkCut
  import opened OutputStore
  import opened StreamModel
  import opened StreamProof

  function Flat(chunks: seq<seq<Byte>>): seq<Byte> {
    if chunks == [] then [] else chunks[0] + Flat(chunks[1..])
  }

  /** The daemon's bookkeeping: the fanout holds back exactly `file[delivered..last]`, an
      incomplete sequence at most, and the channel holds what follows. */
  ghost predicate Fanout(m: Manager) {
    && m.delivered <= m.last <= |m.file|
    && m.carry == m.file[m.delivered..m.last]
    && (m.carry == [] || Truncated(m.carry))
    && m.file[m.last..] == Flat(m.chan)
    && (forall c | c in m.chan :: 0 < |c| <= READ_CHUNK)
    && (m.parked ==> m.chan == [])
  }

  /** A task that was over at an exec: all of its output was delivered, and nothing is again. */
  ghost predicate FromRecord(output: seq<Byte>, m: Manager) {
    && m.file == output && m.chan == [] && m.carry == [] && m.delivered == 0 && m.pumpsDone && m.reaped
    && match m.link
       case Watching(q, w) => q == [] && w == 0
       case Flushing(q, w) => q == [] && w == 0
       case Carried(from) => from == 0
       case Unwatched => true
  }

  ghost predicate Daemon(output: seq<Byte>, m: Manager) {
    if m.reloaded then FromRecord(output, m) else Serving(output, m)
  }

  ghost predicate Serving(output: seq<Byte>, m: Manager) {
    && Fanout(m)
    && m.file <= output && Boundary(output, m.delivered)
    && (m.pumpsDone ==> m.file == output)
    && match m.link
       case Watching(q, w) => EventsOk(output, m.delivered, q) && w <= m.delivered && Boundary(output, w)
       case Flushing(q, w) => EventsOk(output, m.delivered, q) && w <= m.delivered && Boundary(output, w)
       case Carried(from) => from <= m.delivered && Boundary(output, from)
       case Unwatched => true
  }

  ghost predicate Extension(output: seq<Byte>, w: World) {
    && Books(output, w.c, w.log) && w.c.cursor <= Front(w.m)
    && EventsOk(output, Front(w.m), Written(w))
    && (!w.c.known ==> w.c.queued == [] && !w.c.recovering)
    && (w.c.known ==> w.c.early == [])
    && (!w.c.recovering ==> w.c.queued == [])
  }

  /** Nothing between the monitor's cursor and what the session was sent is missing. */
  ghost predicate Gapless(w: World) {
    && Contiguous(w.log)
    && Linked(w.c.cursor, Pending(w))
    && if w.m.reloaded then Attained(Front(w.m), w.c.cursor, Written(w)) else GoesOn(w)
  }

  /** Where the subscription stands, something the session was sent ends. */
  ghost predicate GoesOn(w: World) {
    match w.m.link
    case Watching(_, at) => Attained(at, w.c.cursor, Written(w)) && Attained(w.m.delivered, w.c.cursor, Pending(w))
    case Flushing(_, at) => Attained(at, w.c.cursor, Written(w))
    case Carried(at) => Attained(at, w.c.cursor, Written(w))
    case Unwatched => true
  }

  /** No loss so far. */
  predicate Whole(w: World) {
    w.faults == 0 && w.missed.None?
  }

  ghost predicate Inv(output: seq<Byte>, w: World) {
    Daemon(output, w.m) && Extension(output, w) && (Whole(w) ==> Gapless(w))
  }

  // ---- the daemon's steps ----

  lemma {:induction false} FlatPush(chunks: seq<seq<Byte>>, c: seq<Byte>)
    ensures Flat(chunks + [c]) == Flat(chunks) + c
  {
    if chunks == [] {
      assert chunks + [c] == [c];
    } else {
      assert (chunks + [c])[1..] == chunks[1..] + [c];
      FlatPush(chunks[1..], c);
    }
  }

  lemma AppendKeeps(m: Manager, data: seq<Byte>)
    requires Fanout(m) && !m.parked && 0 < |data| <= READ_CHUNK
    ensures Fanout(Append(m, data))
  {
    hide Truncated;
    FlatPush(m.chan, data);
    var file := m.file + data;
    assert file[m.delivered..m.last] == m.file[m.delivered..m.last];
    assert file[m.last..] == m.file[m.last..] + data;
  }

  /** Held-back bytes and the next chunk are consecutive in the file. */
  lemma NextChunk(file: seq<Byte>, from: nat, last: nat, carry: seq<Byte>, c: seq<Byte>, rest: seq<Byte>, n: nat)
    requires from <= last <= |file| && carry == file[from..last] && file[last..] == c + rest && n <= |carry| + |c|
    ensures last + |c| <= |file| && from + n <= last + |c|
    ensures (carry + c)[..n] == file[from..from + n] && (carry + c)[n..] == file[from + n..last + |c|]
    ensures file[last + |c|..] == rest
  {
    var end := last + |c|;
    assert file[end..] == file[last..][|c|..];
    assert file[last..end] == file[last..][..|c|];
    assert carry + c == file[from..end];
  }

  /** The carry invariant: whatever the bytes, after each chunk all but an incomplete
      sequence of at most three bytes has been delivered. */
  lemma RecvKeeps(m: Manager, n: nat, room: bool)
    requires Fanout(m) && m.chan != []
    requires Cut(m.carry + m.chan[0], USIZE_MAX, CHUNK_JSON_BUDGET, true, n)
    ensures n <= |m.carry| + |m.chan[0]|
    ensures var m' := FanoutRecv(m, n, room);
      && Fanout(m') && m'.last - m'.delivered <= 3
      && m'.delivered == m.delivered + n && m'.last == m.last + |m.chan[0]|
      && (m.carry + m.chan[0])[..n] == m.file[m.delivered..m.delivered + n]
  {
    hide First, Enqueue, EventOf, Truncated, Cut, FanoutRecv, Flat, Fanout;
    FanoutFacts(m);
    FlatFront(m.chan);
    TailOfRead(m.carry, m.chan[0], n);
    NextChunk(m.file, m.delivered, m.last, m.carry, m.chan[0], Flat(m.chan[1..]), n);
    RecvIs(m, n, room);
    FanoutFrom(m, FanoutRecv(m, n, room));
  }

  lemma FanoutFacts(m: Manager)
    requires Fanout(m) && m.chan != []
    ensures m.delivered <= m.last <= |m.file| && m.carry == m.file[m.delivered..m.last]
    ensures (m.carry == [] || Truncated(m.carry)) && m.file[m.last..] == Flat(m.chan)
    ensures 0 < |m.chan[0]| <= READ_CHUNK && !m.parked
  {
    assert m.chan[0] in m.chan;
  }

  lemma FanoutFrom(m: Manager, m': Manager)
    requires Fanout(m) && m.chan != [] && m'.chan == m.chan[1..] && m'.parked == m.parked
    requires m'.delivered <= m'.last <= |m'.file| && m'.carry == m'.file[m'.delivered..m'.last]
    requires m'.carry == [] || Truncated(m'.carry)
    requires m'.file[m'.last..] == Flat(m'.chan)
    ensures Fanout(m')
  {
    assert forall c | c in m'.chan :: c in m.chan;
  }

  lemma FlatFront(chunks: seq<seq<Byte>>)
    requires chunks != []
    ensures Flat(chunks) == chunks[0] + Flat(chunks[1..])
  {}

  /** The fields after a chunk. */
  lemma RecvIs(m: Manager, n: nat, room: bool)
    requires m.delivered <= m.last && m.chan != [] && |m.carry| == m.last - m.delivered && n <= |m.carry| + |m.chan[0]|
    ensures var data, m' := m.carry + m.chan[0], FanoutRecv(m, n, room);
      && m'.delivered == m.delivered + n && m'.last == m.last + |m.chan[0]| && m'.carry == data[n..]
      && m'.chan == m.chan[1..] && m'.file == m.file && m'.parked == m.parked && m'.pumpsDone == m.pumpsDone
      && m'.reaped == m.reaped && m'.reloaded == m.reloaded
      && m'.link == Enqueue(m.link, EventOf(data[..n], m.delivered + n), room)
  {
    hide Enqueue, EventOf;
  }

  /** The JSON budget never binds for a pump's read: only an incomplete tail stays. */
  lemma TailOfRead(carry: seq<Byte>, c: seq<Byte>, n: nat)
    requires carry == [] || Truncated(carry)
    requires |c| <= READ_CHUNK && Cut(carry + c, USIZE_MAX, CHUNK_JSON_BUDGET, true, n)
    ensures n <= |carry + c| && |carry + c| - n <= 3
    ensures (carry + c)[n..] == [] || Truncated((carry + c)[n..])
  {
    CarryIsShort(carry);
    CutInRange(carry + c, USIZE_MAX, CHUNK_JSON_BUDGET, true, n);
    hide First, Truncated, Cut;
    OnlyTailHeldBack(carry + c, USIZE_MAX, CHUNK_JSON_BUDGET, n);
  }

  lemma CarryIsShort(carry: seq<Byte>)
    requires carry == [] || Truncated(carry)
    ensures |carry| <= 3
  {}

  lemma EndKeeps(m: Manager, room: bool)
    requires Fanout(m) && m.chan == []
    ensures Fanout(FanoutEnd(m, room))
    ensures FanoutEnd(m, room).carry == [] || m.parked
  {
    hide Truncated, Enqueue, EventOf;
  }

  /** What a park leaves undelivered is what the restarted fanout begins with, so that the
      upgrade changes nothing in the task's output state but the flag and the fanout gets to
      the end of the file: if and only if there is a restarted fanout, or nothing to begin with;
      and, if the upgrade succeeds, something of the task is alive. */
  lemma RestartResumesCarry(m: Manager, room: bool)
    requires Fanout(m) && m.parked && !m.reloaded
    ensures |m.file| - m.delivered <= 3
    ensures Restart(m) == m.(parked := false) <==> !m.pumpsDone || m.carry == []
    ensures FanoutEnd(Restart(m), room).delivered == |m.file| <==> !m.pumpsDone || m.carry == []
    ensures !m.pumpsDone || m.carry == [] ==> Fanout(Restart(m))
    ensures Exec(m) == m.(parked := false) <==> !m.pumpsDone || (m.carry == [] && !m.reaped)
  {
    CarryIsShort(m.carry);
    hide Truncated, Enqueue, EventOf;
    assert m.file[m.last..] == [];
    assert m.file[m.delivered..m.last] == m.file[m.delivered..];
  }

  /** Both pipes at EOF, and an upgrade parks the task before its fanout flushed the first
      byte of a character that never got its second: the byte stays undelivered for good. */
  lemma ParkAtEofLosesTail(room: bool)
    ensures var m := Manager([0xE2], [], [0xE2], 1, 0, true, true, false, false, Watching([], 0));
      && Fanout(m)
      && FanoutEnd(m.(parked := false), room).delivered == 1
      && Restart(m).delivered == 0 && Restart(m).chan == [] && FanoutEnd(Restart(m), room) == Restart(m)
  {
    var tail: seq<Byte> := [0xE2];
    hide Enqueue, EventOf;
    assert tail[0..1] == tail && tail[1..] == [];
  }

  /** Well-formed output leaves nothing behind at EOF. */
  lemma NothingHeldAtEnd(m: Manager)
    requires Fanout(m) && m.chan == [] && Valid(m.file[m.delivered..])
    ensures m.carry == [] && m.delivered == |m.file|
  {
    hide First, Truncated;
    assert m.file[m.last..] == [];
    assert m.carry == m.file[m.delivered..];
    if m.carry != [] { ValidNotTruncated(m.carry); }
  }

  lemma ValidNotTruncated(s: seq<Byte>)
    requires Valid(s)
    ensures !Truncated(s)
  {}

  // ---- steps of a run ----

  lemma PumpReadsKeeps(output: seq<Byte>, w: World, size: nat)
    requires Inv(output, w) && !w.m.reloaded && Enabled(output, w, PumpReads(size))
    ensures Inv(output, Do(output, w, PumpReads(size)))
  {
    hide First, Boundary, Fanout, Books, Truncated, EventsOk;
    AppendKeeps(w.m, output[|w.m.file|..|w.m.file| + size]);
  }

  /** A longer delivered prefix keeps every event in bounds. */
  lemma EventsOkGrow(output: seq<Byte>, bound: nat, larger: nat, events: seq<Event>)
    requires EventsOk(output, bound, events) && bound <= larger
    ensures EventsOk(output, larger, events)
  {}

  lemma EnqueueKeeps(output: seq<Byte>, link: Link, bound: nat, e: Event, room: bool)
    requires EventsOk(output, bound, QueueOf(link)) && bound <= e.next
    requires e.text != [] ==> EventOk(output, e)
    ensures EventsOk(output, e.next, QueueOf(Enqueue(link, e, room)))
    ensures QueueOf(Enqueue(link, e, room)) ==
            QueueOf(link) + (if link.Watching? && e.text != [] && room then [e] else [])
  {
    hide EventOk;
  }

  lemma FanoutReceivesKeeps(output: seq<Byte>, w: World, n: nat, room: bool)
    requires Valid(output) && Inv(output, w) && !w.m.reloaded && Enabled(output, w, FanoutReceives(n, room))
    ensures Inv(output, Do(output, w, FanoutReceives(n, room)))
  {
    hide First, Boundary, Fanout, Books, Truncated, Cut, Lossy, Encode, Valid, FanoutRecv, EventOk, EventOf,
         Contiguous, Linked, EventsOk, Attained, Start, Do, Enqueue;
    var m, w' := w.m, Do(output, w, FanoutReceives(n, room));
    RecvKeeps(m, n, room);
    FanoutBounds(m);
    var e := SentEvent(output, m, n);
    DoReceive(output, w, n, room, e);
    RecvIs(m, n, room);
    EnqueueLinks(m.link, e, room);
    ReceiveKeepsDaemon(output, m, w'.m, e, room);
    EventsOkGrow(output, m.delivered, m.delivered + n, Written(w));
    if Whole(w') { ReceiveKeepsGapless(w, w', e, room); }
  }

  lemma FanoutBounds(m: Manager)
    requires Fanout(m)
    ensures m.delivered <= m.last <= |m.file| && |m.carry| == m.last - m.delivered
  {}

  lemma ReceiveKeepsDaemon(output: seq<Byte>, m: Manager, m': Manager, e: Event, room: bool)
    requires Serving(output, m) && Fanout(m') && m.delivered <= e.next == m'.delivered && Boundary(output, e.next)
    requires m'.file == m.file && m'.pumpsDone == m.pumpsDone && m'.link == Enqueue(m.link, e, room)
    requires e.text != [] ==> EventOk(output, e)
    ensures Serving(output, m')
  {
    hide First, Boundary, Fanout, EventOk, Enqueue;
    EnqueueKeeps(output, m.link, m.delivered, e, room);
    EnqueueLinks(m.link, e, room);
  }

  lemma ReceiveKeepsGapless(w: World, w': World, e: Event, room: bool)
    requires Gapless(w) && w'.m.link == Enqueue(w.m.link, e, room) && !Drops(w.m.link, e, room)
    requires !w.m.reloaded && !w'.m.reloaded
    requires w'.c == w.c && w'.wire == w.wire && w'.log == w.log && w'.m.delivered == e.next
    requires if e.text == [] then e.next == w.m.delivered else Start(e) == w.m.delivered
    ensures Gapless(w')
  {
    hide Start, Linked, Attained, Contiguous;
    assert Written(w') == Written(w);
    if w.m.link.Watching? && e.text != [] {
      assert Pending(w') == Pending(w) + [e];
      LinkedPush(w.c.cursor, Pending(w), e);
    } else {
      assert Pending(w') == Pending(w);
    }
  }

  lemma DoReceive(output: seq<Byte>, w: World, n: nat, room: bool, e: Event)
    requires w.m.chan != [] && n <= |w.m.carry| + |w.m.chan[0]| && w.m.delivered <= w.m.last
    requires |w.m.carry| == w.m.last - w.m.delivered
    requires e == EventOf((w.m.carry + w.m.chan[0])[..n], w.m.delivered + n)
    ensures var w' := Do(output, w, FanoutReceives(n, room));
      && w'.m == FanoutRecv(w.m, n, room) && w'.m.link == Enqueue(w.m.link, e, room)
      && w'.c == w.c && w'.wire == w.wire && w'.log == w.log && w'.missed == w.missed
      && w'.faults == w.faults + (if Drops(w.m.link, e, room) then 1 else 0)
  {
    hide EventOf, Enqueue;
  }

  lemma EnqueueLinks(link: Link, e: Event, room: bool)
    ensures var link' := Enqueue(link, e, room);
      && (link.Watching? ==> link'.Watching? && link'.written == link.written)
      && (!link.Watching? ==> link' == link)
  {}

  /** The event made of the fanout's cut is a window that starts where delivery stood. */
  lemma SentEvent(output: seq<Byte>, m: Manager, n: nat) returns (e: Event)
    requires Valid(output) && Daemon(output, m) && m.chan != []
    requires Cut(m.carry + m.chan[0], USIZE_MAX, CHUNK_JSON_BUDGET, true, n)
    ensures n <= |m.carry| + |m.chan[0]| && m.delivered + n <= |output| && Boundary(output, m.delivered + n)
    ensures e == EventOf((m.carry + m.chan[0])[..n], m.delivered + n) && e.next == m.delivered + n
    ensures n > 0 ==> EventOk(output, e) && Start(e) == m.delivered && e.text != []
    ensures n == 0 ==> e.text == []
  {
    hide First, Boundary, Fanout, Truncated, Cut, Lossy, Encode, Valid, EventOk, EventOf, EventsOk;
    var data, a, b := m.carry + m.chan[0], m.delivered, m.last + |m.chan[0]|;
    NextInFile(m);
    assert data == output[a..b];
    CutOfValid(output, a, b, USIZE_MAX, CHUNK_JSON_BUDGET, true, n);
    assert data[..n] == output[a..a + n];
    e := EventOf(data[..n], a + n);
    EventNext(data[..n], a + n);
    if n > 0 { EventOfWindow(output, a, a + n); } else { EventOfNothing(a); }
  }

  lemma NextInFile(m: Manager)
    requires Fanout(m) && m.chan != []
    ensures m.delivered <= m.last && m.last + |m.chan[0]| <= |m.file|
    ensures m.carry + m.chan[0] == m.file[m.delivered..m.last + |m.chan[0]|]
  {
    hide Truncated, Flat;
    FlatFront(m.chan);
    NextChunk(m.file, m.delivered, m.last, m.carry, m.chan[0], Flat(m.chan[1..]), 0);
  }

  lemma EventNext(bytes: seq<Byte>, next: nat)
    ensures EventOf(bytes, next).next == next
  {}

  lemma EventOfNothing(next: nat)
    ensures EventOf([], next) == Event([], next)
  {}

  lemma FanoutIgnoresLink(m: Manager, link: Link)
    requires Fanout(m)
    ensures Fanout(m.(link := link))
  {
    hide Truncated;
  }

  /** At EOF of well-formed output there is nothing left to flush. */
  lemma FanoutFlushesKeeps(output: seq<Byte>, w: World, room: bool)
    requires Valid(output) && Inv(output, w) && !w.m.reloaded && Enabled(output, w, FanoutFlushes(room))
    ensures Do(output, w, FanoutFlushes(room)) == w
  {
    ValidSplit(output, w.m.delivered);
    NothingHeldAtEnd(w.m);
    EventOfNothing(w.m.last);
  }

  lemma WriterWritesKeeps(output: seq<Byte>, w: World)
    requires Inv(output, w) && !w.m.reloaded && Enabled(output, w, WriterWrites)
    ensures Inv(output, Do(output, w, WriterWrites))
  {
    hide First, Boundary, Fanout, Books, Truncated, Contiguous, Linked, EventOk, Encode, Loses, Misses, SentUpTo,
         Attained;
    var w' := Do(output, w, WriterWrites);
    var q := QueueOf(w.m.link);
    var e := q[0];
    assert e in q && forall x | x in q[1..] :: x in q;
    assert EventOk(output, e);
    NextIsBoundary(output, e);
    FanoutIgnoresLink(w.m, w'.m.link);
    assert Written(w') == Written(w) + [e];
    assert Pending(w') == Pending(w);
    if Whole(w') { WriterKeepsGapless(w, w', e); }
  }

  lemma WriterKeepsGapless(w: World, w': World, e: Event)
    requires Gapless(w) && !w.m.reloaded && (w.m.link.Watching? || w.m.link.Flushing?)
    requires w'.c == w.c && w'.log == w.log && w'.m == w.m.(link := w'.m.link)
    requires (w'.m.link.Watching? <==> w.m.link.Watching?) && (w'.m.link.Flushing? <==> w.m.link.Flushing?)
    requires w'.m.link.written == Max(w.m.link.written, e.next)
    requires Written(w') == Written(w) + [e] && Pending(w') == Pending(w)
    ensures Gapless(w')
  {
    hide Contiguous, Linked, Written, Pending;
    var at := w.m.link.written;
    if at > w.c.cursor { EndsMonotone(Written(w), [e], at); }
    assert Written(w')[|Written(w)|].next == e.next;
  }

  lemma NextIsBoundary(output: seq<Byte>, e: Event)
    requires EventOk(output, e)
    ensures Boundary(output, e.next) && Start(e) >= 0 && Start(e) < e.next
  {}

  lemma WriterAbortsKeeps(output: seq<Byte>, w: World, sent: bool)
    requires Inv(output, w) && !w.m.reloaded && Enabled(output, w, WriterAborts(sent))
    ensures Inv(output, Do(output, w, WriterAborts(sent)))
  {
    hide First, Boundary, Fanout, Books, Truncated, Contiguous, Linked, EventOk, Encode, Loses, Misses, SentUpTo;
    var w' := Do(output, w, WriterAborts(sent));
    var q := QueueOf(w.m.link);
    assert q[0] in q;
    var out := if sent then [q[0]] else [];
    FanoutIgnoresLink(w.m, w'.m.link);
    assert Written(w') == Written(w) + out && Pending(w') == Written(w');
    assert Pending(w) == Pending(w') + q[|out|..];
    if Whole(w') {
      LinkedPrefix(w.c.cursor, Pending(w'), q[|out|..]);
      if w.m.link.written > w.c.cursor { EndsMonotone(Written(w), out, w.m.link.written); }
    }
  }

  lemma ParksKeeps(output: seq<Byte>, w: World, step: Step)
    requires Inv(output, w) && !w.m.reloaded && Enabled(output, w, step)
    requires step.PumpsEnd? || step.TaskReaped? || step.Parks?
    ensures Inv(output, Do(output, w, step))
  {
    hide First, Boundary, Books, Truncated, Contiguous, Linked, EventsOk, Attained, Loses, SentUpTo, Flat;
    var w' := Do(output, w, step);
    assert Written(w') == Written(w) && Pending(w') == Pending(w);
  }

  /** Closing the connections and carrying their subscriptions over moves no byte. */
  lemma ClosesKeeps(output: seq<Byte>, w: World, step: Step)
    requires Inv(output, w) && !w.m.reloaded && Enabled(output, w, step) && (step.ClosesAll? || step.CarriesWatches?)
    ensures Inv(output, Do(output, w, step))
  {
    hide First, Boundary, Fanout, Books, Truncated, Contiguous, Linked, EventsOk, Attained;
    var w' := Do(output, w, step);
    FanoutIgnoresLink(w.m, w'.m.link);
    assert Written(w') == Written(w);
    assert Pending(w') == Pending(w);
  }

  /** Exec with something alive, or resume: the same state, unparked. */
  lemma RestartsKeeps(output: seq<Byte>, w: World, step: Step)
    requires Valid(output) && Inv(output, w) && Enabled(output, w, step) && !w.m.reloaded
    requires step.Resumes? || (step.Execs? && Live(w.m))
    ensures Inv(output, Do(output, w, step))
  {
    hide Valid, Inv, Fanout, Restart;
    ParkedIsWhole(output, w, step);
    UnparkKeeps(output, w);
  }

  lemma ParkedIsWhole(output: seq<Byte>, w: World, step: Step)
    requires Valid(output) && Inv(output, w) && w.m.parked && !w.m.reloaded
    requires step.Resumes? || (step.Execs? && Live(w.m))
    ensures Restart(w.m) == w.m.(parked := false) && Fanout(w.m.(parked := false))
    ensures Do(output, w, step) == w.(m := w.m.(parked := false))
  {
    hide Valid, Daemon, Extension, Gapless, Fanout, Restart, Boundary;
    RestartIsWhole(output, w.m);
  }

  /** Exec of a task that is over: all was delivered, and if all was sent nothing is missing. */
  lemma ReloadKeeps(output: seq<Byte>, w: World)
    requires Valid(output) && Inv(output, w) && Enabled(output, w, Execs) && !w.m.reloaded && !Live(w.m)
    ensures Inv(output, Do(output, w, Execs)) && Front(Do(output, w, Execs).m) == w.m.delivered
  {
    hide First, Boundary, Valid, Books, Truncated, Contiguous, Linked, EventsOk, Reach, Loses, Attained;
    ParkedAtEnd(output, w.m);
    var w' := Do(output, w, Execs);
    assert Written(w') == Written(w) && Pending(w') == Written(w);
    if Whole(w') {
      LinkedPrefix(w.c.cursor, Written(w), QueueOf(w.m.link));
      SentIsAttained(output, w);
    }
  }

  lemma ParkedAtEnd(output: seq<Byte>, m: Manager)
    requires Valid(output) && Daemon(output, m) && m.parked && m.pumpsDone && !m.reloaded
    ensures m.delivered == |output| && m.file == output
  {
    hide First, Boundary, Valid, Truncated, EventsOk;
    ValidSplit(output, m.delivered);
    NothingHeldAtEnd(m);
  }

  /** Nothing more comes of a task loaded from its record, whatever the daemon does. */
  lemma RecordStepKeeps(output: seq<Byte>, w: World, step: Step)
    requires Inv(output, w) && Enabled(output, w, step) && w.m.reloaded && OfDaemon(step)
    ensures Inv(output, Do(output, w, step))
    ensures var w' := Do(output, w, step);
      && w'.c == w.c && w'.wire == w.wire && w'.log == w.log && w'.missed == w.missed
      && w'.m.reloaded && Front(w'.m) == Front(w.m) && QueueOf(w'.m.link) == []
  {
    hide First, Boundary, Books, Truncated, Contiguous, Linked, EventsOk, Attained, Reach, Cut, EventOf;
    var w' := Do(output, w, step);
    RecordStep(output, w, step);
    assert Written(w') == Written(w) && Pending(w') == Written(w) && Pending(w) == Written(w);
  }

  predicate OfDaemon(step: Step) {
    !step.Arrives? && !step.StartAnswered? && !step.EarlyForgotten? && !step.RewatchBegins? && !step.RewatchEnds?
  }

  lemma RecordStep(output: seq<Byte>, w: World, step: Step)
    requires FromRecord(output, w.m) && Enabled(output, w, step) && w.m.reloaded && OfDaemon(step)
    ensures var w' := Do(output, w, step);
      && FromRecord(output, w'.m) && w'.m.reloaded && w'.missed == w.missed
      && w'.c == w.c && w'.wire == w.wire && w'.log == w.log
  {
    hide First, Boundary, Cut, EventOf, Reach, ReplayFrom;
    if step.SessionReconnects? { assert ReplayFrom(w.m, 0) == 0 by { NoReplay(w.m); } }
  }

  lemma NoReplay(m: Manager)
    requires m.delivered == 0
    ensures ReplayFrom(m, 0) == 0
  {}

  lemma UnparkKeeps(output: seq<Byte>, w: World)
    requires Inv(output, w) && Fanout(w.m.(parked := false)) && !w.m.reloaded
    ensures Inv(output, w.(m := w.m.(parked := false)))
  {
    hide First, Boundary, Fanout, Books, Contiguous, Linked, EventsOk, Attained;
    var w' := w.(m := w.m.(parked := false));
    assert Written(w') == Written(w) && Pending(w') == Pending(w);
  }

  lemma RestartIsWhole(output: seq<Byte>, m: Manager)
    requires Valid(output) && Daemon(output, m) && m.parked && !m.reloaded
    ensures Restart(m) == m.(parked := false) && Fanout(Restart(m))
  {
    hide First, Boundary, Valid, Truncated, EventsOk, Restart;
    RestartResumesCarry(m, true);
    if m.pumpsDone {
      ValidSplit(output, m.delivered);
      NothingHeldAtEnd(m);
    }
  }

  /** A replay is a chain of windows that starts at the carried cursor. */
  lemma {:induction false} ReplayLinks(output: seq<Byte>, file: seq<Byte>, from: nat, to: nat, reached: nat,
                                       events: seq<Event>, cursor: nat, before: seq<Event>)
    requires Valid(output) && file <= output && to <= |file| && Boundary(output, from) && Boundary(output, to)
    requires from <= to && Replay(file, from, to, reached, events)
    ensures EventsOk(output, to, events) && reached <= to
    ensures Linked(cursor, before) && Attained(from, cursor, before) ==>
              Linked(cursor, before + events) && Attained(reached, cursor, before + events)
    decreases |events|
  {
    hide First, Boundary, Valid, Truncated, Cut, Lossy, Encode, Linked, EventOf, EventOk, Start, ElemCost;
    if events == [] {
      assert before + events == before;
    } else {
      var e, rest := events[0], events[1..];
      var want := Min(to - from, REPLAY_CHUNK);
      var n := e.next - from;
      EventNext(file[from..from + n], from + n);
      assert file[from..from + want] == output[from..from + want];
      assert file[from..from + n] == output[from..from + n];
      CutOfValid(output, from, from + want, want, CHUNK_JSON_BUDGET, from + want < to, n);
      EventOfWindow(output, from, from + n);
      if Linked(cursor, before) && Attained(from, cursor, before) { LinkedPush(cursor, before, e); }
      ReplayLinks(output, file, from + n, to, reached, rest, cursor, before + [e]);
      assert before + events == before + [e] + rest;
      assert events == [e] + rest;
    }
  }

  lemma SessionReconnectsKeeps(output: seq<Byte>, w: World, events: seq<Event>, reached: nat)
    requires Valid(output) && Inv(output, w) && !w.m.reloaded && Enabled(output, w, SessionReconnects(events, reached))
    ensures Inv(output, Do(output, w, SessionReconnects(events, reached)))
  {
    hide First, Boundary, Valid, Truncated, Fanout, Books, Contiguous, Linked, EventOk, Encode, Start, Replay;
    var m, from := w.m, w.m.link.from;
    var w' := Do(output, w, SessionReconnects(events, reached));
    FileCoversDelivered(m);
    FanoutIgnoresLink(m, w'.m.link);
    ReplayLinks(output, m.file, ReplayFrom(m, from), m.delivered, reached, events, w.c.cursor, Written(w));
    assert Written(w') == Written(w);
    if Whole(w') {
      assert Pending(w) == Written(w);
      assert Pending(w') == Written(w) + events;
    }
  }

  lemma FileCoversDelivered(m: Manager)
    requires Fanout(m)
    ensures m.delivered <= |m.file|
  {}

  lemma LinkStepKeeps(output: seq<Byte>, w: World, step: Step)
    requires Inv(output, w) && !w.m.reloaded && Enabled(output, w, step)
    requires step.ConnectionLost? || step.SessionRewatches?
    ensures Inv(output, Do(output, w, step))
  {
    hide First, Boundary, Fanout, Books, Truncated, Contiguous, Linked, EventOk, Reach;
    var w' := Do(output, w, step);
    FanoutIgnoresLink(w.m, w'.m.link);
    FrontIsBoundary(output, w.m);
    assert Written(w') == Written(w) && Pending(w') == Written(w);
    if Whole(w') {
      LinkedPrefix(w.c.cursor, Written(w), QueueOf(w.m.link));
      if step.SessionRewatches? {
        SentIsAttained(output, w);
        assert Attained(w.m.delivered, w.c.cursor, Written(w));
      }
    }
  }

  /** What was sent reaches some event's end, and never past the delivered cursor. */
  lemma SentIsAttained(output: seq<Byte>, w: World)
    requires Extension(output, w)
    ensures w.c.cursor <= SentUpTo(w) <= Front(w.m)
    ensures Attained(SentUpTo(w), w.c.cursor, Written(w))
  {
    hide First, Boundary, Books, EventOk, Reach;
    ReachBounds(w.c.cursor, Written(w));
    if SentUpTo(w) > w.c.cursor {
      var e :| e in Written(w) && e.next == SentUpTo(w);
      var j :| 0 <= j < |Written(w)| && Written(w)[j] == e;
    }
  }

  lemma FrontIsBoundary(output: seq<Byte>, m: Manager)
    requires Daemon(output, m)
    ensures Boundary(output, Front(m))
  {
    BoundaryAtEnd(output);
  }

  // ---- the extension's steps ----

  lemma ArrivesKeeps(output: seq<Byte>, w: World)
    requires Valid(output) && Inv(output, w) && Enabled(output, w, Arrives)
    ensures Inv(output, Do(output, w, Arrives))
  {
    if w.c.known && !w.c.recovering { ArrivesAtMonitor(output, w); } else { ArrivesAside(output, w); }
  }

  lemma ArrivesAtMonitor(output: seq<Byte>, w: World)
    requires Valid(output) && Inv(output, w) && w.wire != [] && w.c.known && !w.c.recovering
    ensures Inv(output, Do(output, w, Arrives))
  {
    hide First, Boundary, Valid, Daemon, Books, Contiguous, Linked, EventOk, EarlyFits, AcceptAll, Accept, Ranges,
         Gapless, Reach;
    var w' := Do(output, w, Arrives);
    var e := w.wire[0];
    assert w.wire == [e] + w.wire[1..];
    assert e in Written(w);
    AcceptEach(output, w.c, w.log, [e]);
    AcceptAllOne(w.c, e);
    assert Written(w) == [e] + Written(w');
    DrainKeeps(output, w, w', [e]);
  }

  lemma AcceptAllOne(c: Monitor, e: Event)
    ensures AcceptAll(c, [e]) == Accept(c, e)
  {
    hide Accept;
    assert [e][1..] == [];
  }

  lemma ArrivesAside(output: seq<Byte>, w: World)
    requires Inv(output, w) && w.wire != [] && (!w.c.known || w.c.recovering)
    ensures Inv(output, Do(output, w, Arrives))
  {
    hide First, Boundary, Daemon, Books, Contiguous, Linked, EventOk, EarlyFits, Attained;
    var w' := Do(output, w, Arrives);
    var e := w.wire[0];
    assert w.wire == [e] + w.wire[1..];
    BooksCarryOver(output, w.c, w'.c, w.log);
    if w.c.known || EarlyFits(w.c, e) {
      assert Written(w') == Written(w);
      assert Pending(w') == Pending(w);
    } else {
      assert forall x | x in Written(w') :: x in Written(w);
    }
  }

  /** Offering everything in `done`, which stands before the rest of what was written. */
  lemma DrainKeeps(output: seq<Byte>, w: World, w': World, done: seq<Event>)
    requires w'.m == w.m && Written(w) == done + Written(w') && w'.faults == w.faults && w'.missed == w.missed
    requires w'.c.cursor == Reach(w.c.cursor, done)
    requires Inv(output, w) && Books(output, w'.c, w'.log)
    requires Contiguous(w.log) && Linked(w.c.cursor, done) ==> Contiguous(w'.log)
    requires EventsOk(output, Front(w.m), done)
    ensures w'.c.cursor <= Front(w'.m) && EventsOk(output, Front(w'.m), Written(w'))
    ensures Whole(w') ==> Gapless(w')
  {
    hide First, Boundary, Fanout, Books, Truncated, Contiguous, Linked, EventOk, Attained;
    ReachBounds(w.c.cursor, done);
    if Whole(w') {
      assert Pending(w) == done + Pending(w');
      LinkedAfterAll(w.c.cursor, done, Pending(w'));
      if w.m.reloaded {
        AttainedAfterAll(Front(w.m), w.c.cursor, done, Written(w'));
      } else {
        match w.m.link
        case Watching(_, at) =>
          AttainedAfterAll(at, w.c.cursor, done, Written(w'));
          AttainedAfterAll(w.m.delivered, w.c.cursor, done, Pending(w'));
        case Flushing(_, at) => AttainedAfterAll(at, w.c.cursor, done, Written(w'));
        case Carried(at) => AttainedAfterAll(at, w.c.cursor, done, Written(w'));
        case Unwatched =>
      }
    }
  }

  lemma StartAnsweredKeeps(output: seq<Byte>, w: World)
    requires Valid(output) && Inv(output, w) && Enabled(output, w, StartAnswered)
    ensures Inv(output, Do(output, w, StartAnswered))
  {
    hide First, Boundary, Valid, Fanout, Books, Truncated, Contiguous, Linked, EventOk, Encode, AcceptAll, Ranges;
    var w' := Do(output, w, StartAnswered);
    var c := w.c.(known := true, early := []);
    assert forall e | e in w.c.early :: e in Written(w);
    BooksCarryOver(output, w.c, c, w.log);
    AcceptEach(output, c, w.log, w.c.early);
    assert Written(w) == w.c.early + Written(w');
    DrainKeeps(output, w, w', w.c.early);
  }

  lemma BooksCarryOver(output: seq<Byte>, c: Monitor, c': Monitor, log: seq<(nat, nat)>)
    requires Books(output, c, log) && c'.cursor == c.cursor && c'.accepted == c.accepted
    ensures Books(output, c', log)
  {
    hide First, Boundary, InOrder, LogText;
  }

  lemma RewatchEndsKeeps(output: seq<Byte>, w: World)
    requires Valid(output) && Inv(output, w) && Enabled(output, w, RewatchEnds)
    ensures Inv(output, Do(output, w, RewatchEnds))
  {
    hide First, Boundary, Valid, Fanout, Books, Truncated, Contiguous, Linked, EventOk, Encode, AcceptAll, Ranges,
         Sorted;
    var w' := Do(output, w, RewatchEnds);
    var q := w.c.queued;
    var c := w.c.(recovering := false, queued := []);
    assert forall e | e in q :: e in Written(w);
    ReachOfSorted(w.c.cursor, q);
    BooksCarryOver(output, w.c, c, w.log);
    AcceptEach(output, c, w.log, Sorted(q));
    assert Written(w) == q + Written(w');
    if Contiguous(w.log) && Linked(w.c.cursor, q) {
      forall e | e in q ensures Start(e) < e.next { NextIsBoundary(output, e); }
      SortKeepsLinks(w.c.cursor, q);
    }
    DrainKeeps(output, w, w', q);
  }

  lemma MonitorStepKeeps(output: seq<Byte>, w: World, step: Step)
    requires Inv(output, w) && Enabled(output, w, step)
    requires step.EarlyForgotten? || step.RewatchBegins?
    ensures Inv(output, Do(output, w, step))
  {
    hide First, Boundary, Daemon, Contiguous, Linked, EventOk, InOrder, LogText, Attained, SentUpTo, Front;
    var w' := Do(output, w, step);
    assert step.RewatchBegins? ==> Written(w') == Written(w) && Pending(w') == Pending(w);
    assert forall e | e in Written(w') :: e in Written(w);
  }

  // ---- a byte the session was not sent ----

  ghost predicate Skips(at: nat, events: seq<Event>) {
    forall e | e in events :: e.next <= at || at < Start(e)
  }

  ghost predicate LogSkips(at: nat, log: seq<(nat, nat)>) {
    forall i | 0 <= i < |log| :: log[i].1 <= at || at < log[i].0
  }

  predicate Past(at: nat, m: Manager) {
    m.reloaded ||
    match m.link
    case Watching(_, written) => at < written
    case Flushing(_, written) => at < written
    case Carried(from) => at < from
    case Unwatched => true
  }

  /** Byte `at` was delivered to nobody, is not on its way and will not be asked for. */
  ghost predicate Gone(w: World, at: nat) {
    at < Front(w.m) && Skips(at, Pending(w)) && LogSkips(at, w.log) && Past(at, w.m)
  }

  ghost predicate MissedOk(w: World) {
    w.missed.Some? ==> Gone(w, w.missed.value)
  }

  lemma StillGone(w: World, w': World, at: nat)
    requires Gone(w, at) && Front(w.m) <= Front(w'.m) && w'.log == w.log && Past(at, w'.m)
    requires forall e | e in Pending(w') :: e in Pending(w)
    ensures Gone(w', at)
  {
    hide Start, Pending;
  }

  lemma {:induction false} RangesSkip(at: nat, cursor: nat, events: seq<Event>)
    requires Skips(at, events)
    ensures LogSkips(at, Ranges(cursor, events))
    decreases |events|
  {
    hide Start, Ranges;
    if events == [] {
      RangesOfNone(cursor);
    } else {
      var e, rest := events[0], events[1..];
      assert events == [e] + rest;
      RangesCons(cursor, e, rest);
      RangesOne(cursor, e);
      RangesSkip(at, Max(cursor, e.next), rest);
    }
  }

  lemma RangesOfNone(cursor: nat)
    ensures Ranges(cursor, []) == []
  {}

  /** No step of the extension brings a lost byte back. */
  lemma OfferedStaysGone(w: World, w': World, at: nat, cursor: nat, done: seq<Event>)
    requires Gone(w, at) && w'.m == w.m && w'.log == w.log + Ranges(cursor, done)
    requires forall e | e in Pending(w') :: e in Pending(w)
    requires forall e | e in done :: e in Pending(w)
    ensures Gone(w', at)
  {
    hide Start, Pending, Ranges;
    RangesSkip(at, cursor, done);
  }

  lemma ExtensionStaysGone(output: seq<Byte>, w: World, step: Step, at: nat)
    requires Inv(output, w) && Enabled(output, w, step) && Gone(w, at)
    requires step.Arrives? || step.StartAnswered? || step.RewatchEnds? || step.EarlyForgotten? || step.RewatchBegins?
    ensures Gone(Do(output, w, step), at)
  {
    hide Daemon, Books, EventsOk, Gapless, Start, Gone, Ranges, AcceptAll, Accept, Sorted, EarlyFits, Loses, Misses,
         SentUpTo;
    var w' := Do(output, w, step);
    match step {
      case Arrives =>
        var e := w.wire[0];
        assert w.wire == [e] + w.wire[1..];
        AcceptKeepsAside(w.c, e);
        assert forall x | x in Written(w') :: x in Written(w);
        if w.c.known && !w.c.recovering {
          OfferedStaysGone(w, w', at, w.c.cursor, [e]);
        } else {
          AsideStaysGone(w, w', at);
        }
      case StartAnswered =>
        AcceptAllKeepsAside(w.c.(known := true, early := []), w.c.early);
        OfferedStaysGone(w, w', at, w.c.cursor, w.c.early);
      case RewatchEnds =>
        ReachOfSorted(w.c.cursor, w.c.queued);
        AcceptAllKeepsAside(w.c.(recovering := false, queued := []), Sorted(w.c.queued));
        OfferedStaysGone(w, w', at, w.c.cursor, Sorted(w.c.queued));
      case EarlyForgotten => AsideStaysGone(w, w', at);
      case RewatchBegins => AsideStaysGone(w, w', at);
    }
  }

  lemma AsideStaysGone(w: World, w': World, at: nat)
    requires Gone(w, at) && w'.m == w.m && w'.log == w.log
    requires forall e | e in Pending(w') :: e in Pending(w)
    ensures Gone(w', at)
  {
    hide Start, Pending;
    StillGone(w, w', at);
  }

  lemma AcceptKeepsAside(c: Monitor, e: Event)
    ensures Accept(c, e).early == c.early && Accept(c, e).queued == c.queued
  {
    hide Encode, Lossy;
  }

  lemma {:induction false} AcceptAllKeepsAside(c: Monitor, events: seq<Event>)
    ensures AcceptAll(c, events).early == c.early && AcceptAll(c, events).queued == c.queued
    decreases |events|
  {
    hide Accept;
    if events != [] {
      AcceptKeepsAside(c, events[0]);
      AcceptAllKeepsAside(Accept(c, events[0]), events[1..]);
    }
  }

  /** The fanout goes on from the delivered cursor, past a lost byte. */
  lemma FanoutStaysGone(output: seq<Byte>, w: World, n: nat, room: bool, at: nat)
    requires Valid(output) && Inv(output, w) && !w.m.reloaded && Gone(w, at)
    requires Enabled(output, w, FanoutReceives(n, room))
    ensures Gone(Do(output, w, FanoutReceives(n, room)), at)
  {
    hide First, Boundary, Fanout, Books, Truncated, Cut, Lossy, Encode, Valid, FanoutRecv, EventOk, EventOf,
         Gapless, EventsOk, Start, Do, Enqueue;
    var m, w' := w.m, Do(output, w, FanoutReceives(n, room));
    RecvKeeps(m, n, room);
    FanoutBounds(m);
    var e := SentEvent(output, m, n);
    DoReceive(output, w, n, room, e);
    RecvIs(m, n, room);
    EnqueueLinks(m.link, e, room);
    EnqueueAdds(m.link, e, room);
  }

  lemma EnqueueAdds(link: Link, e: Event, room: bool)
    ensures QueueOf(Enqueue(link, e, room)) ==
            QueueOf(link) + (if link.Watching? && e.text != [] && room then [e] else [])
  {}

  /** A replay goes on from the carried cursor, past a lost byte. */
  lemma ReplayStaysGone(output: seq<Byte>, w: World, events: seq<Event>, reached: nat, at: nat)
    requires Valid(output) && Inv(output, w) && !w.m.reloaded && Gone(w, at)
    requires Enabled(output, w, SessionReconnects(events, reached))
    ensures Gone(Do(output, w, SessionReconnects(events, reached)), at)
  {
    hide First, Boundary, Valid, Truncated, Fanout, Books, Gapless, Linked, EventOk, EventsOk, Encode, Start, Replay,
         Loses, Misses, SentUpTo;
    var m, from := w.m, w.m.link.from;
    FileCoversDelivered(m);
    ReplaySkips(output, m.file, ReplayFrom(m, from), m.delivered, reached, events, at);
  }

  lemma {:induction false} ReplaySkips(output: seq<Byte>, file: seq<Byte>, from: nat, to: nat, reached: nat,
                                       events: seq<Event>, at: nat)
    requires Valid(output) && file <= output && to <= |file| && Boundary(output, from) && Boundary(output, to)
    requires Replay(file, from, to, reached, events) && at < from
    ensures Skips(at, events)
    decreases |events|
  {
    hide First, Boundary, Valid, Truncated, Cut, Lossy, Encode, EventOf, EventOk, Start, ElemCost;
    if events != [] {
      var e, rest := events[0], events[1..];
      var want := Min(to - from, REPLAY_CHUNK);
      var n := e.next - from;
      EventNext(file[from..from + n], from + n);
      assert file[from..from + want] == output[from..from + want];
      assert file[from..from + n] == output[from..from + n];
      CutOfValid(output, from, from + want, want, CHUNK_JSON_BUDGET, from + want < to, n);
      EventOfWindow(output, from, from + n);
      ReplaySkips(output, file, from + n, to, reached, rest, at);
      assert events == [e] + rest;
    }
  }

  lemma WriterStaysGone(output: seq<Byte>, w: World, step: Step, at: nat)
    requires Inv(output, w) && Enabled(output, w, step) && Gone(w, at) && (step.WriterWrites? || step.WriterAborts?)
    ensures Gone(Do(output, w, step), at)
  {
    hide Fanout, Extension, EventsOk, Gapless, Start, Loses, Misses, SentUpTo;
    var w' := Do(output, w, step);
    var q := QueueOf(w.m.link);
    assert q == [q[0]] + q[1..];
    StillGone(w, w', at);
  }

  lemma LinkStaysGone(output: seq<Byte>, w: World, step: Step, at: nat)
    requires Valid(output) && Inv(output, w) && Enabled(output, w, step) && Gone(w, at)
    requires !w.m.reloaded
    requires step.PumpReads? || step.PumpsEnd? || step.TaskReaped? || step.Parks? || step.ClosesAll?
             || step.CarriesWatches? || step.Resumes? || step.Execs? || step.ConnectionLost? || step.SessionRewatches?
    ensures Gone(Do(output, w, step), at)
  {
    hide Fanout, Extension, EventsOk, Gapless, Start, Loses, Misses, SentUpTo, Restart, Boundary, Valid;
    if step.Execs? && !Live(w.m) {
      ParkedAtEnd(output, w.m);
    } else if step.Resumes? || step.Execs? {
      RestartIsWhole(output, w.m);
    }
    StillGone(w, Do(output, w, step), at);
  }

  lemma RecordStaysGone(output: seq<Byte>, w: World, step: Step, at: nat)
    requires Inv(output, w) && Enabled(output, w, step) && w.m.reloaded && OfDaemon(step) && Gone(w, at)
    ensures Gone(Do(output, w, step), at)
  {
    hide Inv, Enabled, Do, Start;
    RecordStepKeeps(output, w, step);
    StillGone(w, Do(output, w, step), at);
  }

  lemma StepStaysGone(output: seq<Byte>, w: World, step: Step, at: nat)
    requires Valid(output) && Inv(output, w) && Enabled(output, w, step) && Gone(w, at)
    ensures Gone(Do(output, w, step), at)
  {
    hide Inv, Enabled, Do, Valid, Gone;
    if w.m.reloaded && OfDaemon(step) {
      RecordStaysGone(output, w, step, at);
      return;
    }
    match step
    case FanoutReceives(n, room) => FanoutStaysGone(output, w, n, room, at);
    case FanoutFlushes(room) => FanoutFlushesKeeps(output, w, room);
    case SessionReconnects(events, reached) => ReplayStaysGone(output, w, events, reached, at);
    case WriterWrites => WriterStaysGone(output, w, step, at);
    case WriterAborts(_) => WriterStaysGone(output, w, step, at);
    case Arrives => ExtensionStaysGone(output, w, step, at);
    case StartAnswered => ExtensionStaysGone(output, w, step, at);
    case RewatchEnds => ExtensionStaysGone(output, w, step, at);
    case EarlyForgotten => ExtensionStaysGone(output, w, step, at);
    case RewatchBegins => ExtensionStaysGone(output, w, step, at);
    case _ => LinkStaysGone(output, w, step, at);
  }

  /** Subscribing again past what was sent, or having the subscription dropped before all was:
      the first byte that was not sent is gone. */
  lemma MissedIsGone(output: seq<Byte>, w: World, step: Step)
    requires Valid(output) && Inv(output, w) && Enabled(output, w, step) && Misses(w, step)
    ensures Gone(Do(output, w, step), SentUpTo(w))
  {
    hide First, Boundary, Valid, Fanout, Books, EventOk, Start, Reach, Loses;
    MissesServing(w, step);
    ReachBounds(w.c.cursor, Written(w));
    SentIsAttained(output, w);
    LogBelowEnd(output, w.c, w.log);
    if step.Execs? { ParkedAtEnd(output, w.m); }
    assert Pending(Do(output, w, step)) == Written(w);
  }

  /** Of a task loaded from its record nothing is missed again. */
  lemma MissesServing(w: World, step: Step)
    requires Misses(w, step)
    ensures w.m.delivered > 0
  {}

  lemma LogBelowEnd(output: seq<Byte>, c: Monitor, log: seq<(nat, nat)>)
    requires Books(output, c, log)
    ensures forall i | 0 <= i < |log| :: log[i].1 <= c.cursor
  {
    hide First, Boundary, LogText;
    EndsAscend(output, log);
  }

  lemma {:induction false} EndsAscend(output: seq<Byte>, log: seq<(nat, nat)>)
    requires InOrder(output, log)
    ensures forall i | 0 <= i < |log| :: log[i].1 <= LogEnd(log)
    decreases |log|
  {
    hide First, Boundary;
    if log != [] {
      LogFront(output, log);
      EndsAscend(output, log[..|log| - 1]);
    }
  }

  lemma MissedKeeps(output: seq<Byte>, w: World, step: Step)
    requires Valid(output) && Inv(output, w) && Enabled(output, w, step) && MissedOk(w)
    ensures MissedOk(Do(output, w, step))
  {
    hide Inv, Enabled, Act, Valid, Gone, Loses, Covered, SentUpTo;
    if w.missed.Some? {
      StepStaysGone(output, w, step, w.missed.value);
    } else if Misses(w, step) {
      MissedIsGone(output, w, step);
    }
  }

  // ---- runs ----

  lemma StepKeeps(output: seq<Byte>, w: World, step: Step)
    requires Valid(output) && Inv(output, w) && Enabled(output, w, step)
    ensures Inv(output, Do(output, w, step))
  {
    hide Inv, Enabled, Do, Valid, Live;
    if w.m.reloaded && OfDaemon(step) {
      RecordStepKeeps(output, w, step);
      return;
    }
    match step
    case PumpReads(size) => PumpReadsKeeps(output, w, size);
    case PumpsEnd => ParksKeeps(output, w, step);
    case FanoutReceives(n, room) => FanoutReceivesKeeps(output, w, n, room);
    case FanoutFlushes(room) => FanoutFlushesKeeps(output, w, room);
    case WriterWrites => WriterWritesKeeps(output, w);
    case WriterAborts(sent) => WriterAbortsKeeps(output, w, sent);
    case Parks => ParksKeeps(output, w, step);
    case ClosesAll => ClosesKeeps(output, w, step);
    case CarriesWatches => ClosesKeeps(output, w, step);
    case TaskReaped => ParksKeeps(output, w, step);
    case Resumes => RestartsKeeps(output, w, step);
    case Execs => if Live(w.m) { RestartsKeeps(output, w, step); } else { ReloadKeeps(output, w); }
    case SessionReconnects(events, reached) => SessionReconnectsKeeps(output, w, events, reached);
    case ConnectionLost => LinkStepKeeps(output, w, step);
    case SessionRewatches => LinkStepKeeps(output, w, step);
    case Arrives => ArrivesKeeps(output, w);
    case StartAnswered => StartAnsweredKeeps(output, w);
    case EarlyForgotten => MonitorStepKeeps(output, w, step);
    case RewatchBegins => MonitorStepKeeps(output, w, step);
    case RewatchEnds => RewatchEndsKeeps(output, w);
  }

  lemma SpawnedInv(output: seq<Byte>)
    ensures Inv(output, Spawned()) && MissedOk(Spawned())
  {}

  lemma {:induction false} RunKeeps(output: seq<Byte>, worlds: seq<World>, steps: seq<Step>)
    requires Valid(output) && Run(output, worlds, steps)
    ensures Inv(output, worlds[|steps|]) && MissedOk(worlds[|steps|])
    decreases |steps|
  {
    hide Inv, MissedOk, Enabled, Do, Valid;
    if steps == [] {
      SpawnedInv(output);
    } else {
      var k := |steps| - 1;
      RunKeeps(output, worlds[..k + 1], steps[..k]);
      StepKeeps(output, worlds[k], steps[k]);
      MissedKeeps(output, worlds[k], steps[k]);
      assert worlds[k + 1] == Do(output, worlds[k], steps[k]);
    }
  }

  /** The history fields say what happened in the run. */
  lemma {:induction false} RunCounts(output: seq<Byte>, worlds: seq<World>, steps: seq<Step>)
    requires Run(output, worlds, steps)
    ensures worlds[|steps|].faults == 0 <==> Lossless(worlds, steps)
    ensures worlds[|steps|].missed.None? <==> NothingMissed(worlds, steps)
    decreases |steps|
  {
    hide Act, Enabled, Loses, Misses, SentUpTo;
    if steps != [] {
      var k := |steps| - 1;
      var before, done := worlds[..k + 1], steps[..k];
      RunCounts(output, before, done);
      assert worlds[k + 1] == Do(output, worlds[k], steps[k]);
      assert Lossless(worlds, steps) <==> Lossless(before, done) && !Loses(worlds[k], steps[k]) by {
        assert forall i | 0 <= i < k :: Loses(before[i], done[i]) == Loses(worlds[i], steps[i]);
      }
      assert NothingMissed(worlds, steps) <==> NothingMissed(before, done) && !Misses(worlds[k], steps[k]) by {
        assert forall i | 0 <= i < k :: Misses(before[i], done[i]) == Misses(worlds[i], steps[i]);
      }
    }
  }

  lemma LogFront(output: seq<Byte>, log: seq<(nat, nat)>)
    requires InOrder(output, log) && log != []
    ensures InOrder(output, log[..|log| - 1])
    ensures Contiguous(log) ==> Contiguous(log[..|log| - 1]) && log[|log| - 1].0 == LogEnd(log[..|log| - 1])
  {
    hide First, Boundary;
    var front := log[..|log| - 1];
    forall i | 0 <= i < |front| ensures front[i] == log[i] && front[..i] == log[..i] {}
  }

  /** The text of contiguous ranges is the text of the prefix they cover. */
  lemma {:induction false} ContiguousText(output: seq<Byte>, log: seq<(nat, nat)>)
    requires Valid(output) && InOrder(output, log) && Contiguous(log)
    ensures LogEnd(log) <= |output| && Boundary(output, LogEnd(log))
    ensures LogText(output, log) == Lossy(output[..LogEnd(log)])
    decreases |log|
  {
    hide First, Boundary, Valid, Lossy, Contiguous;
    BoundaryAtZero(output);
    if log == [] {
      LossyOfNothing(output[..0]);
    } else {
      var k := |log| - 1;
      var (a, b) := log[k];
      LogFront(output, log);
      ContiguousText(output, log[..k]);
      LossyBetween(output, 0, a, b);
      assert output[0..a] == output[..a] && output[0..b] == output[..b];
    }
  }

  /** How many bytes of the output the ranges hold. */
  function Span(log: seq<(nat, nat)>): nat {
    if log == [] then 0
    else
      var (a, b) := log[|log| - 1];
      Span(log[..|log| - 1]) + if a <= b then b - a else 0
  }

  lemma {:induction false} SpanOfLog(output: seq<Byte>, log: seq<(nat, nat)>)
    requires Valid(output) && InOrder(output, log)
    ensures |Encode(LogText(output, log))| == Span(log) <= LogEnd(log) <= |output|
    ensures Span(log) == LogEnd(log) ==> Contiguous(log)
    decreases |log|
  {
    hide First, Boundary, Valid, Lossy, Encode, Contiguous;
    if log == [] {
      EncodeNothing();
      NoGapInNothing();
    } else {
      var k := |log| - 1;
      var (a, b) := log[k];
      LogFront(output, log);
      SpanOfLog(output, log[..k]);
      EncodeConcat(LogText(output, log[..k]), Lossy(output[a..b]));
      ValidBetween(output, a, b);
      EncodeOfValid(output[a..b]);
      if Span(log) == LogEnd(log) {
        ContiguousPush(log[..k], log[k]);
        assert log == log[..k] + [log[k]];
      }
    }
  }

  lemma NoGapInNothing()
    ensures Contiguous([])
  {}

  /** The text accepted is that of a prefix of the output if and only if no range begins past
      the end of the one before, and the last ends with the prefix. */
  lemma WholeIffContiguous(output: seq<Byte>, log: seq<(nat, nat)>, to: nat)
    requires Valid(output) && InOrder(output, log) && LogEnd(log) <= to && Boundary(output, to)
    ensures to <= |output|
    ensures LogText(output, log) == Lossy(output[..to]) <==> Contiguous(log) && LogEnd(log) == to
  {
    hide First, Boundary, Valid, Lossy, Encode, Contiguous, LogText, InOrder;
    ValidSplit(output, to);
    EncodeOfValid(output[..to]);
    SpanOfLog(output, log);
    if Contiguous(log) { ContiguousText(output, log); }
  }

  lemma {:induction false} ContiguousCovers(log: seq<(nat, nat)>, at: nat)
    requires Contiguous(log) && at < LogEnd(log)
    ensures !LogSkips(at, log)
    decreases |log|
  {
    var k := |log| - 1;
    var front := log[..k];
    assert log[k].0 == LogEnd(front);
    if at < log[k].0 {
      forall i | 0 <= i < |front| ensures front[i].0 == LogEnd(front[..i]) { assert front[..i] == log[..i]; }
      ContiguousCovers(front, at);
      var i :| 0 <= i < |front| && front[i].0 <= at < front[i].1;
      assert log[i] == front[i];
    }
  }

  /** Exactly once, in order: in every run, with any number of upgrades, the ranges the
      extension accepted never overlap or go back and carry the characters of the output. If
      none of the admitted losses happened, no new subscription began past what the session had
      been sent and none was dropped before all was sent, they are exactly `output[..cursor]`. */
  lemma ExactlyOnce(output: seq<Byte>, worlds: seq<World>, steps: seq<Step>)
    requires Valid(output) && Run(output, worlds, steps)
    ensures var w := worlds[|steps|];
      && InOrder(output, w.log) && w.c.cursor == LogEnd(w.log) && w.c.cursor <= Front(w.m) <= |output|
      && w.c.accepted == LogText(output, w.log)
      && (Lossless(worlds, steps) && NothingMissed(worlds, steps) ==>
            w.c.accepted == Lossy(output[..w.c.cursor]) && Encode(w.c.accepted) == output[..w.c.cursor])
  {
    hide First, Boundary, Valid, Lossy, Encode, Contiguous, LogText, Lossless, NothingMissed;
    RunKeeps(output, worlds, steps);
    RunCounts(output, worlds, steps);
    var w := worlds[|steps|];
    if Whole(w) {
      ContiguousText(output, w.log);
      ValidSplit(output, w.c.cursor);
      EncodeOfValid(output[..w.c.cursor]);
    }
  }

  /** When nothing is on its way and the session is attached, the extension is level with
      the fanout, which is at most an incomplete character behind the file; once the task's
      pipes are at EOF, everything has arrived. */
  lemma CaughtUp(output: seq<Byte>, worlds: seq<World>, steps: seq<Step>)
    requires Valid(output) && Run(output, worlds, steps)
    requires Lossless(worlds, steps) && NothingMissed(worlds, steps)
    requires var w := worlds[|steps|];
      w.m.link.Watching? && Pending(w) == [] && w.m.chan == []
    ensures var w := worlds[|steps|];
      && w.c.cursor == Front(w.m) && |w.m.file| - Front(w.m) <= 3
      && (w.m.pumpsDone ==> w.c.accepted == Lossy(output))
  {
    hide First, Boundary, Valid, Lossy, Encode, Contiguous, LogText, Truncated, Lossless, NothingMissed;
    RunKeeps(output, worlds, steps);
    RunCounts(output, worlds, steps);
    ExactlyOnce(output, worlds, steps);
    var w := worlds[|steps|];
    assert output[..|output|] == output;
    if !w.m.reloaded {
      CarryIsShort(w.m.carry);
      assert w.m.file[w.m.last..] == [];
      if w.m.pumpsDone {
        ValidSplit(output, w.m.delivered);
        NothingHeldAtEnd(w.m);
      }
    }
  }

  /** The extension has everything delivered. */
  predicate Level(output: seq<Byte>, w: World) {
    Front(w.m) <= |output| && w.c.accepted == Lossy(output[..Front(w.m)])
  }

  /** The monitor went past byte `at` of the output without it. */
  ghost predicate Lacks(output: seq<Byte>, w: World, at: nat) {
    && at < Front(w.m) && LogSkips(at, w.log)
    && (at < w.c.cursor <= |output| ==> w.c.accepted != Lossy(output[..w.c.cursor]))
  }

  lemma LevelIff(output: seq<Byte>, w: World)
    requires Valid(output) && Inv(output, w)
    ensures Level(output, w) <==> Contiguous(w.log) && w.c.cursor == Front(w.m)
  {
    hide First, Boundary, Valid, Lossy, Encode, Contiguous, LogText, Gapless, EventsOk, Fanout, EventOk, LogEnd,
         InOrder;
    FrontIsBoundary(output, w.m);
    WholeIffContiguous(output, w.log, Front(w.m));
  }

  lemma WholeIsLevel(output: seq<Byte>, w: World)
    requires Valid(output) && Inv(output, w) && Whole(w) && w.m.link.Watching? && Pending(w) == []
    ensures Level(output, w)
  {
    hide First, Boundary, Valid, Contiguous, Daemon, Books, EventsOk, Linked, Level;
    LevelIff(output, w);
    assert Pending(w) == Written(w);
    assert Attained(Front(w.m), w.c.cursor, Pending(w));
  }

  lemma MissedIsLacking(output: seq<Byte>, w: World)
    requires Valid(output) && Inv(output, w) && MissedOk(w) && w.missed.Some?
    ensures !Level(output, w) && Lacks(output, w, w.missed.value)
  {
    hide First, Boundary, Valid, Lossy, Contiguous, LogText, LogSkips, Gapless, EventsOk, Fanout, EventOk, Level;
    LevelIff(output, w);
    WholeIffContiguous(output, w.log, w.c.cursor);
    if w.missed.value < w.c.cursor && Contiguous(w.log) { ContiguousCovers(w.log, w.missed.value); }
  }

  /** Lost and dropped subscriptions, exactly: where nothing else was lost, nothing is on its way
      and the session is attached, the extension has everything delivered if and only if each
      time it subscribed again, and at each exec that found the task over, everything delivered
      by then had already been sent to it. */
  lemma LevelIffNothingMissed(output: seq<Byte>, worlds: seq<World>, steps: seq<Step>)
    requires Valid(output) && Run(output, worlds, steps) && Lossless(worlds, steps)
    requires worlds[|steps|].m.link.Watching? && Pending(worlds[|steps|]) == []
    ensures Level(output, worlds[|steps|]) <==> NothingMissed(worlds, steps)
  {
    hide Valid, Level, Inv, MissedOk, Lossless, NothingMissed;
    RunKeeps(output, worlds, steps);
    RunCounts(output, worlds, steps);
    var w := worlds[|steps|];
    if w.missed.None? { WholeIsLevel(output, w); } else { MissedIsLacking(output, w); }
  }

  /** Whatever else happened: from a subscription that began past what the session had been
      sent, or was dropped before all was sent, a byte of the output stays in no accepted range,
      and once the monitor is past it its text is not that of the output. */
  lemma PassedOverForGood(output: seq<Byte>, worlds: seq<World>, steps: seq<Step>) returns (at: nat)
    requires Valid(output) && Run(output, worlds, steps) && !NothingMissed(worlds, steps)
    ensures Lacks(output, worlds[|steps|], at) && !Level(output, worlds[|steps|])
  {
    hide Valid, Level, Lacks, Inv, MissedOk, Lossless, NothingMissed;
    RunKeeps(output, worlds, steps);
    RunCounts(output, worlds, steps);
    at := worlds[|steps|].missed.value;
    MissedIsLacking(output, worlds[|steps|]);
  }
}
