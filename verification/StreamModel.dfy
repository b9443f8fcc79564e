/** One monitor's output stream, from the pipe to the extension: the daemon appends it to a
    file, fans it out in UTF-8 safe events, queues and writes those per connection, carries
    the subscription over in-place upgrades and replays what was missed; the extension
    de-duplicates by cursor. Each step is one critical section of the daemon's state lock,
    one action of a connection's writer, or one callback of the extension. */
module StreamModel {
  import opened Limits
  import opened Numbers
  import opened Options
  import opened Utf8
  import opened ChunkCut
  import opened OutputStore

  const READ_CHUNK: nat := 8192
  const USIZE_MAX: nat := 0xFFFF_FFFF_FFFF_FFFF
  const REPLAY_MAX: nat := 8 * 1024 * 1024
  const REPLAY_CHUNK: nat := 256 * 1024
  const EARLY_MAX_CHARS: nat := 64 * 1024

  /** An `output` event: decoded text and the cursor just past it. */
  datatype Event = Event(text: seq<Scalar>, next: nat)

  function EventOf(bytes: seq<Byte>, next: nat): Event {
    Event(Lossy(bytes), next)
  }

  /** How the monitor's session is attached to the task's output. */
  datatype Link =
    | Watching(queue: seq<Event>, written: nat)  // subscribed; events its writer has yet to write
    | Flushing(queue: seq<Event>, written: nat)  // closed by an upgrade, its writer still flushing
    | Carried(from: nat)                         // remembered in the entry's watch_sessions
    | Unwatched                                  // the connection dropped outside an upgrade

  /** The daemon's state for one task. */
  datatype Manager = Manager(
    file: seq<Byte>,        // the output file
    chan: seq<seq<Byte>>,   // chunks sent by the pumps, not yet received by the fanout
    carry: seq<Byte>,       // incomplete tail the fanout holds back
    last: nat,              // cursor past the last chunk the fanout received
    delivered: nat,         // delivered_cursor
    parked: bool,           // an upgrade is quiescing
    pumpsDone: bool,        // both pipes reached EOF
    reaped: bool,           // its runner is gone, with all that it left behind
    reloaded: bool,         // this image knows the task from its record only
    link: Link)

  /** The extension's state for the monitor. */
  datatype Monitor = Monitor(
    known: bool,            // start() has returned the task id
    cursor: nat,
    accepted: seq<Scalar>,  // text handed to the line batcher
    recovering: bool,       // rewatchAll awaits its watch request
    queued: seq<Event>,     // events that arrived while recovering
    early: seq<Event>)      // events that arrived before the id was known

  // ---- daemon ----

  /** A pump read `data`: to the file, then to the fanout's channel. */
  function Append(m: Manager, data: seq<Byte>): Manager {
    m.(file := m.file + data, chan := m.chan + [data])
  }

  /** Queue an event on the watching connection; a full queue drops it. */
  function Enqueue(link: Link, e: Event, room: bool): Link {
    match link
    case Watching(queue, written) => if e.text != [] && room then Watching(queue + [e], written) else link
    case _ => link
  }

  predicate Drops(link: Link, e: Event, room: bool) {
    link.Watching? && e.text != [] && !room
  }

  /** The fanout takes a chunk and sends all but a held-back tail; `n` is where it cut. */
  function FanoutRecv(m: Manager, n: nat, room: bool): Manager
    requires m.chan != [] && n <= |m.carry| + |m.chan[0]|
  {
    var data := m.carry + m.chan[0];
    var last := m.last + |m.chan[0]|;
    var carry := data[n..];
    var next := if last >= |carry| then last - |carry| else 0;
    m.(chan := m.chan[1..], carry := carry, last := last, delivered := next,
       link := Enqueue(m.link, EventOf(data[..n], next), room))
  }

  /** The channel closed: at EOF the remainder is flushed, when parked it is kept. */
  function FanoutEnd(m: Manager, room: bool): Manager {
    if m.carry != [] && !m.parked
    then m.(carry := [], delivered := m.last, link := Enqueue(m.link, EventOf(m.carry, m.last), room))
    else m
  }

  /** The writer records how far the connection got. */
  function Recorded(link: Link): Link
    requires (link.Watching? || link.Flushing?) && link.queue != []
  {
    link.(queue := link.queue[1..], written := Max(link.written, link.queue[0].next))
  }

  function CloseAll(m: Manager): Manager {
    m.(link := if m.link.Watching? then Flushing(m.link.queue, m.link.written) else m.link)
  }

  function CarryWatches(m: Manager): Manager {
    m.(link := if m.link.Flushing? then Carried(m.link.written) else m.link)
  }

  /** The upgrade ended and the entry is still there, because the old image resumed or the new
      one was handed it: all that is kept is the file, the delivered cursor and the carried
      subscription. A task whose pipes are not both at EOF gets a new fanout, which begins with
      the undelivered tail; one whose pipes are gets none, and a tail its old fanout held back
      is gone with that. */
  function Restart(m: Manager): Manager {
    var want := if m.pumpsDone || m.delivered >= |m.file| then 0 else Min(|m.file| - m.delivered, MAX_OUTPUT_READ);
    var carry := FileRange(m.file, m.delivered, want);
    m.(chan := [], carry := carry, last := m.delivered + |carry|, parked := false)
  }

  /** Something of the task is alive, so that a new image is handed its entry. */
  predicate Live(m: Manager) {
    !m.pumpsDone || !m.reaped
  }

  /** Exec into the new image. A task that is over is loaded from its record on disk, which
      knows of no subscription and of no delivered cursor. */
  function Exec(m: Manager): Manager {
    if Live(m) then Restart(m)
    else m.(chan := [], carry := [], last := |m.file|, delivered := 0, parked := false, reloaded := true,
            link := Unwatched)
  }

  /** How far the output was ever delivered: a task is over, and loaded from its record, only
      once all of its output was. */
  function Front(m: Manager): nat {
    if m.reloaded then |m.file| else m.delivered
  }

  /** Where a replay starts: at the carried cursor, or `REPLAY_MAX` bytes back. */
  function ReplayFrom(m: Manager, from: nat): nat {
    Max(from, if m.delivered > REPLAY_MAX then m.delivered - REPLAY_MAX else 0)
  }

  /** `events` replay `file[cursor..reached]` on the way to `to`. */
  ghost predicate Replay(file: seq<Byte>, cursor: nat, to: nat, reached: nat, events: seq<Event>)
    decreases |events|
  {
    if events == [] then reached == cursor
    else
      && cursor < to <= |file|
      && var want := Min(to - cursor, REPLAY_CHUNK);
      && var n := if events[0].next > cursor then events[0].next - cursor else 0;
      && Cut(file[cursor..cursor + want], want, CHUNK_JSON_BUDGET, cursor + want < to, n) && 0 < n <= want
      && events[0] == EventOf(file[cursor..cursor + n], cursor + n)
      && Replay(file, cursor + n, to, reached, events[1..])
  }

  /** The session reconnected: subscribed again, with the missed events queued. */
  function Reconnect(m: Manager, events: seq<Event>): Manager
    requires m.link.Carried?
  {
    m.(link := Watching(events, m.link.from))
  }

  // ---- extension ----

  /** acceptOutput: drop what is known, trim what overlaps. */
  function Accept(c: Monitor, e: Event): Monitor {
    var bytes := Encode(e.text);
    if e.next <= c.cursor then c
    else
      var start := e.next - |bytes|;
      var deliver := if start < c.cursor then bytes[c.cursor - start..] else bytes;
      c.(cursor := e.next, accepted := c.accepted + Lossy(deliver))
  }

  function AcceptAll(c: Monitor, events: seq<Event>): Monitor
    decreases |events|
  {
    if events == [] then c else AcceptAll(Accept(c, events[0]), events[1..])
  }

  /** UTF-16 length, as JavaScript counts it. */
  function CharsOf(text: seq<Scalar>): nat {
    if text == [] then 0 else (if text[0] < 0x10000 then 1 else 2) + CharsOf(text[1..])
  }

  function EarlyChars(early: seq<Event>): nat {
    if early == [] then 0 else EarlyChars(early[..|early| - 1]) + CharsOf(early[|early| - 1].text)
  }

  predicate EarlyFits(c: Monitor, e: Event) {
    EarlyChars(c.early) + CharsOf(e.text) <= EARLY_MAX_CHARS
  }

  function HandleOutput(c: Monitor, e: Event): Monitor {
    if c.known then
      if c.recovering then c.(queued := c.queued + [e]) else Accept(c, e)
    else if EarlyFits(c, e) then c.(early := c.early + [e])
    else c
  }

  /** start() returned: replay what arrived early. */
  function StartReturns(c: Monitor): Monitor {
    AcceptAll(c.(known := true, early := []), c.early)
  }

  /** Insert into a list sorted by cursor, after its equals. */
  function Insert(sorted: seq<Event>, e: Event): seq<Event> {
    if sorted != [] && sorted[|sorted| - 1].next > e.next
    then Insert(sorted[..|sorted| - 1], e) + [sorted[|sorted| - 1]]
    else sorted + [e]
  }

  /** Stable sort by cursor. */
  function Sorted(events: seq<Event>): seq<Event> {
    if events == [] then [] else Insert(Sorted(events[..|events| - 1]), events[|events| - 1])
  }

  /** The watch request was answered: drain the queue in cursor order. */
  function RewatchDone(c: Monitor): Monitor {
    AcceptAll(c.(recovering := false, queued := []), Sorted(c.queued))
  }

  // ---- both, and the wire between them ----

  /** `wire` holds events written to a connection and not yet read by the extension;
      `log` records the ranges the extension accepted, `faults` counts the losses the design
      admits, and `missed` is the first byte that a new subscription left out, or that was still
      to be sent when an exec dropped the subscription, if there is one. */
  datatype World = World(
    m: Manager,
    wire: seq<Event>,
    c: Monitor,
    log: seq<(nat, nat)>,
    faults: nat,
    missed: Option<nat>)

  function QueueOf(link: Link): seq<Event> {
    if link.Watching? || link.Flushing? then link.queue else []
  }

  /** Events written, in the order the extension will offer them to the monitor. */
  function Written(w: World): seq<Event> {
    w.c.early + w.c.queued + w.wire
  }

  function Pending(w: World): seq<Event> {
    Written(w) + QueueOf(w.m.link)
  }

  /** The cursor after offering `events`. */
  function Reach(cursor: nat, events: seq<Event>): nat
    decreases |events|
  {
    if events == [] then cursor else Reach(Max(cursor, events[0].next), events[1..])
  }

  /** How far the session was sent the output: accepted, put aside, or on the wire. */
  function SentUpTo(w: World): nat {
    Reach(w.c.cursor, Written(w))
  }

  /** Everything delivered was sent: a session that subscribes now, from the delivered cursor on,
      misses nothing, and one whose subscription is dropped now had all there was. */
  predicate Covered(w: World) {
    w.m.delivered <= SentUpTo(w)
  }

  datatype Step =
    | PumpReads(size: nat)
    | PumpsEnd
    | FanoutReceives(n: nat, room: bool)
    | FanoutFlushes(room: bool)
    | WriterWrites
    | WriterAborts(sent: bool)  // an upgrade stops a writer; `sent`: a frame went out unrecorded
    | Parks
    | ClosesAll
    | CarriesWatches
    | TaskReaped
    | Resumes
    | Execs
    | SessionReconnects(events: seq<Event>, reached: nat)
    | ConnectionLost
    | SessionRewatches
    | Arrives
    | StartAnswered
    | EarlyForgotten
    | RewatchBegins
    | RewatchEnds

  /** `output` is everything the task ever writes. */
  ghost predicate Enabled(output: seq<Byte>, w: World, step: Step) {
    match step
    case PumpReads(size) => !w.m.parked && 0 < size <= READ_CHUNK && |w.m.file| + size <= |output|
    case PumpsEnd => !w.m.parked && w.m.file == output
    case FanoutReceives(n, _) =>
      w.m.chan != [] && Cut(w.m.carry + w.m.chan[0], USIZE_MAX, CHUNK_JSON_BUDGET, true, n)
    case FanoutFlushes(_) => w.m.pumpsDone && w.m.chan == [] && !w.m.parked
    case WriterWrites => (w.m.link.Watching? || w.m.link.Flushing?) && w.m.link.queue != []
    case WriterAborts(sent) => w.m.link.Flushing? && w.m.link.queue != []
    case Parks => !w.m.parked && w.m.chan == []
    case ClosesAll => w.m.parked
    case CarriesWatches => w.m.parked && w.m.link.Flushing? && w.m.link.queue == []
    case TaskReaped => !w.m.parked
    case Resumes => w.m.parked && (w.m.link.Carried? || w.m.link.Unwatched?)
    case Execs => w.m.parked && (w.m.link.Carried? || w.m.link.Unwatched?)
    case SessionReconnects(events, reached) =>
      && !w.m.parked && w.m.link.Carried?
      && Boundary(output, ReplayFrom(w.m, w.m.link.from))
      && Replay(w.m.file, ReplayFrom(w.m, w.m.link.from), w.m.delivered, reached, events)
    case ConnectionLost => w.m.link.Watching?
    case SessionRewatches => !w.m.parked && w.m.link.Unwatched?
    case Arrives => w.wire != []
    case StartAnswered => !w.c.known
    case EarlyForgotten => !w.c.known && w.c.early != []
    case RewatchBegins => w.c.known
    case RewatchEnds => w.c.recovering
  }

  /** Ranges accepted when `events` are offered to a monitor at `cursor`. */
  function Ranges(cursor: nat, events: seq<Event>): seq<(nat, nat)>
    decreases |events|
  {
    if events == [] then []
    else
      var e := events[0];
      if e.next <= cursor then Ranges(cursor, events[1..])
      else
        var size := |Encode(e.text)|;
        [(if size > e.next - cursor then cursor else e.next - size, e.next)] + Ranges(e.next, events[1..])
  }

  /** The losses the design admits: a full queue, a replay cut short or past its limit, and
      early output past its limit or forgotten. */
  predicate Loses(w: World, step: Step) {
    match step
    case FanoutReceives(n, room) =>
      && w.m.chan != [] && n <= |w.m.carry| + |w.m.chan[0]|
      && Drops(w.m.link, EventOf((w.m.carry + w.m.chan[0])[..n], FanoutRecv(w.m, n, room).delivered), room)
    case FanoutFlushes(room) =>
      w.m.carry != [] && !w.m.parked && Drops(w.m.link, EventOf(w.m.carry, w.m.last), room)
    case SessionReconnects(_, reached) =>
      w.m.link.Carried? && (reached < w.m.delivered || ReplayFrom(w.m, w.m.link.from) > w.m.link.from)
    case Arrives => w.wire != [] && !w.c.known && !EarlyFits(w.c, w.wire[0])
    case EarlyForgotten => true
    case _ => false
  }

  /** A new subscription that begins past what the session was sent, or an exec that drops the
      one of a task that is over before all was sent. */
  predicate Misses(w: World, step: Step) {
    (step.SessionRewatches? || (step.Execs? && !Live(w.m))) && !Covered(w)
  }

  function Do(output: seq<Byte>, w: World, step: Step): World {
    Act(output, w, step).(
      faults := if Loses(w, step) then w.faults + 1 else w.faults,
      missed := if Misses(w, step) && w.missed.None? then Some(SentUpTo(w)) else w.missed)
  }

  function Act(output: seq<Byte>, w: World, step: Step): World {
    match step
    case PumpReads(size) =>
      if |w.m.file| + size <= |output|
      then w.(m := Append(w.m, output[|w.m.file|..|w.m.file| + size])) else w
    case PumpsEnd => w.(m := w.m.(pumpsDone := true))
    case FanoutReceives(n, room) =>
      if w.m.chan != [] && n <= |w.m.carry| + |w.m.chan[0]| then w.(m := FanoutRecv(w.m, n, room)) else w
    case FanoutFlushes(room) => w.(m := FanoutEnd(w.m, room))
    case WriterWrites =>
      if (w.m.link.Watching? || w.m.link.Flushing?) && w.m.link.queue != []
      then w.(m := w.m.(link := Recorded(w.m.link)), wire := w.wire + [w.m.link.queue[0]]) else w
    case WriterAborts(sent) =>
      if w.m.link.Flushing? && w.m.link.queue != []
      then w.(m := w.m.(link := w.m.link.(queue := [])),
              wire := if sent then w.wire + [w.m.link.queue[0]] else w.wire) else w
    case Parks => w.(m := w.m.(parked := true))
    case ClosesAll => w.(m := CloseAll(w.m))
    case CarriesWatches => w.(m := CarryWatches(w.m))
    case TaskReaped => w.(m := w.m.(reaped := true))
    case Resumes => w.(m := Restart(w.m))
    case Execs => w.(m := Exec(w.m))
    case SessionReconnects(events, _) => if w.m.link.Carried? then w.(m := Reconnect(w.m, events)) else w
    case ConnectionLost => w.(m := w.m.(link := Unwatched))
    case SessionRewatches => w.(m := w.m.(link := Watching([], w.m.delivered)))
    case Arrives =>
      if w.wire == [] then w
      else
        var e := w.wire[0];
        w.(wire := w.wire[1..], c := HandleOutput(w.c, e),
           log := if w.c.known && !w.c.recovering then w.log + Ranges(w.c.cursor, [e]) else w.log)
    case StartAnswered => w.(c := StartReturns(w.c), log := w.log + Ranges(w.c.cursor, w.c.early))
    case EarlyForgotten => w.(c := w.c.(early := []))
    case RewatchBegins => w.(c := w.c.(recovering := true))
    case RewatchEnds => w.(c := RewatchDone(w.c), log := w.log + Ranges(w.c.cursor, Sorted(w.c.queued)))
  }

  /** A monitor is watched from spawn on. */
  function Spawned(): World {
    World(Manager([], [], [], 0, 0, false, false, false, false, Watching([], 0)), [],
          Monitor(false, 0, [], false, [], []), [], 0, None)
  }

  /** The worlds of a run, one per step taken. */
  ghost predicate Run(output: seq<Byte>, worlds: seq<World>, steps: seq<Step>) {
    && |worlds| == |steps| + 1 && worlds[0] == Spawned()
    && forall i | 0 <= i < |steps| ::
         Enabled(output, worlds[i], steps[i]) && worlds[i + 1] == Do(output, worlds[i], steps[i])
  }

  /** None of the admitted losses happened. */
  ghost predicate Lossless(worlds: seq<World>, steps: seq<Step>)
    requires |worlds| == |steps| + 1
  {
    forall i | 0 <= i < |steps| :: !Loses(worlds[i], steps[i])
  }

  /** Every new subscription, and every exec of a task that is over, found everything delivered so
      far already sent. */
  ghost predicate NothingMissed(worlds: seq<World>, steps: seq<Step>)
    requires |worlds| == |steps| + 1
  {
    forall i | 0 <= i < |steps| :: !Misses(worlds[i], steps[i])
  }
}
