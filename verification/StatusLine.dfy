/** The runner's status line, and the watch that waits for it: manager/src/runner.rs and
    `run_exit_watch`, `read_status_line` of manager/src/daemon.rs. */
module StatusLine {
  import opened Options
  import opened Decimals
  import opened Utf8
  import opened TaskState

  datatype Reported = Reported(outcome: Outcome, linger: bool)

  const NEWLINE: Byte := 0x0A
  const SPACE: Scalar := 0x20
  const EXIT := Codes("exit")
  const SIGNAL := Codes("signal")
  const ALONE := Codes("alone")
  const LINGER := Codes("linger")

  function Codes(s: string): seq<Scalar> {
    seq(|s|, i requires 0 <= i < |s| => s[i] as Scalar)
  }

  predicate IsI32(n: int) {
    -0x8000_0000 <= n < 0x8000_0000
  }

  // ---- writing ----

  function Decimal(n: int): seq<Scalar> {
    if n < 0 then [0x2D] + Digits(-n) else Digits(n)
  }

  /** How the runner words its command's end. */
  function What(o: Outcome): seq<Scalar> {
    match (o.code, o.signal)
    case (Some(c), _) => EXIT + [SPACE] + Decimal(c)
    case (None, Some(s)) => SIGNAL + [SPACE] + Decimal(s)
    case (None, None) => EXIT + [SPACE] + Decimal(0)
  }

  function Line(o: Outcome, alone: bool): seq<Byte> {
    Encode(What(o) + [SPACE] + (if alone then ALONE else LINGER) + [NEWLINE])
  }

  // ---- parsing ----

  /** The Unicode property White_Space. */
  predicate White(c: Scalar) {
    || 0x09 <= c <= 0x0D || c == 0x20 || c == 0x85 || c == 0xA0 || c == 0x1680 || 0x2000 <= c <= 0x200A
    || c == 0x2028 || c == 0x2029 || c == 0x202F || c == 0x205F || c == 0x3000
  }

  function SkipWhite(s: seq<Scalar>): seq<Scalar> {
    if s != [] && White(s[0]) then SkipWhite(s[1..]) else s
  }

  function WordLen(s: seq<Scalar>): (n: nat)
    ensures n <= |s|
  {
    if s == [] || White(s[0]) then 0 else 1 + WordLen(s[1..])
  }

  /** The next word of `split_whitespace`, and what follows it. */
  function NextWord(s: seq<Scalar>): Option<(seq<Scalar>, seq<Scalar>)> {
    var t := SkipWhite(s);
    if t == [] then None else Some((t[..WordLen(t)], t[WordLen(t)..]))
  }

  /** `str::parse::<i32>`: an optional sign, at least one digit, no overflow. */
  function ParseI32(s: seq<Scalar>): Option<int> {
    if s == [] then None
    else
      var signed := s[0] == 0x2B || s[0] == 0x2D;
      var ds := if signed then s[1..] else s;
      match ParseDigits(ds)
      case None => None
      case Some(v) =>
        var n: int := if s[0] == 0x2D then -(v as int) else v;
        if IsI32(n) then Some(n) else None
  }

  /** `parse_status`: kind, number, then whether others are left in the group. */
  function ParseStatus(text: seq<Scalar>): Option<Reported> {
    match NextWord(text)
    case None => None
    case Some((kind, rest)) =>
      match NextWord(rest)
      case None => None
      case Some((number, rest')) =>
        match NextWord(rest')
        case None => None
        case Some((tail, _)) =>
          var n := ParseI32(number);
          if n.None? || (tail != ALONE && tail != LINGER) then None
          else if kind == EXIT then Some(Reported(Outcome(n, None), tail == LINGER))
          else if kind == SIGNAL then Some(Reported(Outcome(None, n), tail == LINGER))
          else None
  }

  /** Where the first line ends; the length when it does not. */
  function LineEnd(s: seq<Byte>): (n: nat)
    ensures n <= |s|
    ensures forall i | 0 <= i < n :: s[i] != NEWLINE
    ensures n < |s| ==> s[n] == NEWLINE
  {
    if s == [] || s[0] == NEWLINE then 0 else 1 + LineEnd(s[1..])
  }

  function ParseLine(line: seq<Byte>): Option<Reported> {
    if Valid(line) then ParseStatus(Lossy(line)) else None
  }

  /** What a status pipe says in all: its first line, if that ends and is well formed. */
  function Verdict(pipe: seq<Byte>): Option<Reported> {
    var n := LineEnd(pipe);
    if n == |pipe| then None else ParseLine(pipe[..n])
  }

  // ---- the round trip ----

  lemma DecimalRoundTrip(n: int)
    requires IsI32(n)
    ensures ParseI32(Decimal(n)) == Some(n)
  {
    hide Digits, Value;
    var m := if n < 0 then -n else n;
    DigitsRoundTrip(m);
    var ds := Digits(m);
    if n < 0 { assert Decimal(n)[1..] == ds; } else { assert Decimal(n) == ds; }
  }

  /** Sign and digits only: a word, in ASCII. */
  lemma DecimalPlain(n: int)
    ensures Plain(Decimal(n))
  {
    var m := if n < 0 then -n else n;
    DigitsRoundTrip(m);
    var ds := Digits(m);
    assert Plain(ds);
    if n < 0 { PlainConcat([0x2D], ds); }
  }

  /** Nonempty, printable ASCII, no blank. */
  predicate Plain(s: seq<Scalar>) {
    s != [] && forall i | 0 <= i < |s| :: 0x20 < s[i] < 0x7F
  }

  lemma PlainConcat(a: seq<Scalar>, b: seq<Scalar>)
    requires Plain(a) && Plain(b)
    ensures Plain(a + b)
  {}

  predicate Word(w: seq<Scalar>) {
    w != [] && forall i | 0 <= i < |w| :: !White(w[i])
  }

  lemma {:induction false} WordLenOf(w: seq<Scalar>, rest: seq<Scalar>)
    requires forall i | 0 <= i < |w| :: !White(w[i])
    requires rest == [] || White(rest[0])
    ensures WordLen(w + rest) == |w|
  {
    if w == [] {
      assert w + rest == rest;
    } else {
      WordLenOf(w[1..], rest);
      assert (w + rest)[1..] == w[1..] + rest;
    }
  }

  lemma NextWordOf(gap: seq<Scalar>, w: seq<Scalar>, rest: seq<Scalar>)
    requires gap == [] || gap == [SPACE]
    requires Word(w) && (rest == [] || White(rest[0]))
    ensures NextWord(gap + w + rest) == Some((w, rest))
  {
    hide White;
    var s, all := w + rest, gap + w + rest;
    WordLenOf(w, rest);
    assert !White(s[0]) && s[..|w|] == w && s[|w|..] == rest;
    assert SkipWhite(s) == s;
    if gap == [] {
      assert all == s;
    } else {
      SpaceIsWhite();
      assert all[0] == SPACE && all[1..] == s;
    }
    assert SkipWhite(all) == s;
  }

  lemma SpaceIsWhite()
    ensures White(SPACE)
  {
  }

  lemma {:induction false} AsciiEncodes(text: seq<Scalar>)
    requires forall i | 0 <= i < |text| :: text[i] < 128
    ensures Encode(text) == text
  {
    if text != [] {
      AsciiEncodes(text[1..]);
      assert text == [text[0]] + text[1..];
      EncodeCons(text[0], text[1..]);
    }
  }

  lemma {:induction false} LineEndAt(line: seq<Byte>, rest: seq<Byte>)
    requires forall i | 0 <= i < |line| :: line[i] != NEWLINE
    ensures LineEnd(line + [NEWLINE] + rest) == |line|
  {
    var s := line + [NEWLINE] + rest;
    if line != [] {
      LineEndAt(line[1..], rest);
      assert s[1..] == line[1..] + [NEWLINE] + rest;
    }
  }

  /** The words of a status line, parsed back. */
  lemma ParseOfWords(kind: seq<Scalar>, n: int, tail: seq<Scalar>)
    requires IsI32(n) && kind in {EXIT, SIGNAL} && tail in {ALONE, LINGER}
    ensures ParseStatus(kind + [SPACE] + Decimal(n) + [SPACE] + tail) ==
            Some(Reported(if kind == EXIT then Outcome(Some(n), None) else Outcome(None, Some(n)), tail == LINGER))
  {
    hide White, ParseI32, Decimal, NextWord;
    DecimalRoundTrip(n);
    DecimalPlain(n);
    PlainIsWord(Decimal(n));
    WordsArePlain();
    PlainIsWord(kind);
    PlainIsWord(tail);
    SpaceIsWhite();
    var after := [SPACE] + tail;
    var middle := [SPACE] + Decimal(n) + after;
    assert kind + [SPACE] + Decimal(n) + [SPACE] + tail == [] + kind + middle;
    NextWordOf([], kind, middle);
    NextWordOf([SPACE], Decimal(n), after);
    assert after == [SPACE] + tail + [];
    NextWordOf([SPACE], tail, []);
  }

  lemma PlainIsWord(s: seq<Scalar>)
    requires Plain(s)
    ensures Word(s)
  {}

  lemma WordsArePlain()
    ensures Plain(EXIT) && Plain(SIGNAL) && Plain(ALONE) && Plain(LINGER)
    ensures EXIT != SIGNAL && ALONE != LINGER
  {
    assert |EXIT| != |SIGNAL| && |ALONE| != |LINGER|;
  }

  /** ASCII without a line end. */
  predicate OneLine(s: seq<Scalar>) {
    forall i | 0 <= i < |s| :: s[i] < 128 && s[i] != NEWLINE
  }

  lemma ReportIsOneLine(kind: seq<Scalar>, n: int, tail: seq<Scalar>)
    requires Plain(kind) && Plain(tail)
    ensures OneLine(kind + [SPACE] + Decimal(n) + [SPACE] + tail)
  {
    DecimalPlain(n);
    hide Decimal;
    assert OneLine(kind) && OneLine([SPACE]) && OneLine(Decimal(n)) && OneLine(tail);
  }

  /** Whatever a command's end, the line its runner writes is understood as that end, however
      much follows it in the pipe. */
  lemma ReportRoundTrip(o: Outcome, alone: bool, rest: seq<Byte>)
    requires o.code.Some? ==> IsI32(o.code.value)
    requires o.signal.Some? ==> IsI32(o.signal.value)
    ensures var end := if o.code.Some? then Outcome(o.code, None)
                       else if o.signal.Some? then Outcome(None, o.signal) else Outcome(Some(0), None);
      Verdict(Line(o, alone) + rest) == Some(Reported(end, !alone))
  {
    hide Plain, Encode, Lossy, Valid, ParseStatus, Decimal, LineEnd;
    var tail := if alone then ALONE else LINGER;
    var kind := if o.code.None? && o.signal.Some? then SIGNAL else EXIT;
    var n := if o.code.Some? then o.code.value else if o.signal.Some? then o.signal.value else 0;
    var text := kind + [SPACE] + Decimal(n) + [SPACE] + tail;
    assert What(o) == kind + [SPACE] + Decimal(n);
    WordsArePlain();
    ReportIsOneLine(kind, n, tail);
    AsciiEncodes(text);
    AsciiEncodes(text + [NEWLINE]);
    DecodeOfEncode(text);
    var line: seq<Byte> := Encode(text);
    assert line == text;
    LineEndAt(line, rest);
    var pipe := Line(o, alone) + rest;
    assert pipe == line + [NEWLINE] + rest;
    assert pipe[..|line|] == line;
    ParseOfWords(kind, n, tail);
  }

  lemma LineIsAscii(text: seq<Scalar>)
    requires OneLine(text)
    ensures Encode(text + [NEWLINE]) == text + [NEWLINE]
  {
    AsciiEncodes(text + [NEWLINE]);
  }

  /** The wording on the pipe, for a number of one digit. */
  lemma Wording(n: nat, signalled: bool, alone: bool)
    requires n < 10
    ensures Line(if signalled then Outcome(None, Some(n)) else Outcome(Some(n), None), alone) ==
            Codes(if signalled then "signal" else "exit") + [0x20] + [0x30 + n] + [0x20]
            + Codes(if alone then "alone" else "linger") + [0x0A]
  {
    hide Encode, Codes, Plain, OneLine;
    var kind, tail := if signalled then SIGNAL else EXIT, if alone then ALONE else LINGER;
    assert Decimal(n) == [0x30 + n];
    WordsArePlain();
    ReportIsOneLine(kind, n, tail);
    LineIsAscii(kind + [SPACE] + Decimal(n) + [SPACE] + tail);
  }

  // ---- the watch ----

  /** How the command ended, as the daemon learns it: from the report, or from how the runner
      itself ended when there is none. */
  function Observed(pipe: seq<Byte>, runnerExit: Outcome): Outcome {
    match Verdict(pipe)
    case Some(r) => r.outcome
    case None => runnerExit
  }

  lemma {:induction false} LineEndOfPrefix(a: seq<Byte>, b: seq<Byte>)
    ensures LineEnd(a) < |a| ==> LineEnd(a + b) == LineEnd(a)
  {
    if a != [] && a[0] != NEWLINE {
      LineEndOfPrefix(a[1..], b);
      assert (a + b)[1..] == a[1..] + b;
    }
  }

  lemma VerdictOfPrefix(a: seq<Byte>, b: seq<Byte>)
    requires LineEnd(a) < |a|
    ensures Verdict(a + b) == ParseLine(a[..LineEnd(a)])
  {
    hide ParseLine;
    LineEndOfPrefix(a, b);
    assert (a + b)[..LineEnd(a)] == a[..LineEnd(a)];
  }

  /** What can happen while the watch waits for the report. */
  datatype Event = Polls(sizes: seq<nat>) | DeadlinePassed | RunnerExits

  datatype Watched =
    | Parked
    | Report(said: Reported)
    | Ended(outcome: Outcome, leftover: Leftover)

  class ExitWatch {
    var entry: Entry

    /** All the pipe will still give before it ends. */
    var unread: seq<Byte>

    ghost function Pipe(): seq<Byte>
      reads this
    {
      entry.statusPartial + unread
    }

    /** `read_status_line`: `sizes` says how much each read gives; when it runs out the caller
        stops polling and the partial line stays. */
    method ReadStatusLine(line: seq<Byte>, sizes: seq<nat>)
      returns (done: bool, said: Option<Reported>, line': seq<Byte>)
      modifies this`unread
      ensures line' + unread == line + old(unread)
      ensures done ==> said == Verdict(line + old(unread))
      ensures |sizes| > old(|unread|) ==> done
    {
      hide ParseLine;
      line' := line;
      var k := 0;
      while true
        invariant k <= |sizes| && line' + unread == line + old(unread)
        invariant k + |unread| <= old(|unread|)
        decreases |sizes| - k
      {
        var i := LineEnd(line');
        if i < |line'| {
          VerdictOfPrefix(line', unread);
          return true, ParseLine(line'[..i]), line';
        }
        if k == |sizes| {
          return false, None, line';
        }
        var n := AtMost(sizes[k], |unread|);
        if n == 0 {
          assert line' == line' + unread;
          return true, None, line';
        }
        assert line' + unread == (line' + unread[..n]) + unread[n..];
        line', unread := line' + unread[..n], unread[n..];
        k := k + 1;
      }
    }

    /** The first phase of `run_exit_watch`, ended by a park when `events` run out. Neither
        the sizes of the reads, nor the parks before, nor whether the runner's exit or its
        report is seen first changes the outcome. */
    method WatchForReport(events: seq<Event>, runnerExit: Outcome, file: nat, others: bool, now: nat)
      returns (seen: Watched, fired: bool)
      requires entry.exitPhase.AwaitReport? && entry.child.Some? && entry.statusFd
      modifies this
      ensures var e := Fired(old(entry), fired, file);
        match seen
        case Parked => entry == e.(statusPartial := entry.statusPartial) && Pipe() == old(Pipe())
        case Report(said) =>
          Verdict(old(Pipe())) == Some(said) && entry == After(e, file, ReportSeen(said.outcome, said.linger, now))
        case Ended(outcome, leftover) =>
          && outcome == Observed(old(Pipe()), runnerExit)
          && entry == After(e, file, RunnerGone(outcome, leftover, others, now))
          && (leftover.Nothing? <==> Verdict(old(Pipe())).Some? && !Verdict(old(Pipe())).value.linger)
      ensures old(entry.record.status.Running?) ==>
                var first := old(entry.killReason);
                var asked := if first.None? && fired then Some(TimedOut) else first;
                if seen.Parked? then entry.killReason == asked
                else entry.record.endReason == Some(if asked.Some? then asked.value else Exited)
    {
      hide Verdict, Finalize, RequestKill, After;
      var runner, line, timedOut := entry.child, entry.statusPartial, entry.timedOut;
      ghost var before := entry;
      entry := entry.(child := None, statusFd := false, statusPartial := []);
      fired := false;
      var k := 0;
      while k < |events|
        invariant k <= |events| && timedOut == (before.timedOut || fired)
        invariant fired ==> !before.timedOut && before.deadline.Some?
        invariant line + unread == old(Pipe()) && entry == Taken(before, fired)
        decreases |events| - k
      {
        match events[k] {
          case Polls(sizes) =>
            var done, said, line' := ReadStatusLine(line, sizes);
            line := line';
            if done && said.Some? {
              var leftover := if said.value.linger then Guarded else Nothing;
              entry := Finalize(entry, file, said.value.outcome, leftover, false, now);
              entry := entry.(child := runner, exitPhase := AwaitRunnerExit);
              ReportTaken(before, fired, file, said.value.outcome, said.value.linger, now);
              Reasoned(before, fired, file, ReportSeen(said.value.outcome, said.value.linger, now));
              return Report(said.value), fired;
            } else if done {
              entry := Finalize(entry, file, runnerExit, Probe, others, now).(exitPhase := Done);
              GoneTaken(before, fired, file, runnerExit, Probe, others, now);
              Reasoned(before, fired, file, RunnerGone(runnerExit, Probe, others, now));
              return Ended(runnerExit, Probe), fired;
            }
          case DeadlinePassed =>
            if !timedOut && entry.deadline.Some? {
              timedOut, fired := true, true;
              entry := entry.(timedOut := true);
              if entry.record.status.Running? { entry := RequestKill(entry, TimedOut); }
              KillTaken(before);
            }
          case RunnerExits =>
            var done, said, line' := ReadStatusLine(line, seq(|unread| + 1, i => 63));
            var outcome, leftover := runnerExit, Probe;
            if said.Some? {
              outcome, leftover := said.value.outcome, if said.value.linger then Probe else Nothing;
            }
            entry := Finalize(entry, file, outcome, leftover, others, now).(exitPhase := Done);
            GoneTaken(before, fired, file, outcome, leftover, others, now);
            Reasoned(before, fired, file, RunnerGone(outcome, leftover, others, now));
            return Ended(outcome, leftover), fired;
        }
        k := k + 1;
      }
      KillThenTaken(before, fired, file);
      Reasoned(before, fired, file, RunnerGone(runnerExit, Probe, others, now));
      entry := entry.(child := runner, statusFd := true, statusPartial := line);
      return Parked, fired;
    }

    /** Any number of watches, each parked and resumed by an upgrade or a failed one: the
        command's outcome is what the pipe and the runner said, whatever the schedule. */
    method WatchThroughParks(attempts: seq<seq<Event>>, runnerExit: Outcome, file: nat, others: bool, now: nat)
        returns (outcome: Option<Outcome>)
      requires entry.exitPhase.AwaitReport? && entry.child.Some? && entry.statusFd
      modifies this
      ensures outcome.Some? ==> outcome.value == Observed(old(Pipe()), runnerExit) && !entry.exitPhase.AwaitReport?
      ensures outcome.None? ==> entry.exitPhase.AwaitReport? && Pipe() == old(Pipe())
    {
      hide Verdict, Finalize, RequestKill;
      var k := 0;
      while k < |attempts|
        invariant k <= |attempts| && Pipe() == old(Pipe())
        invariant entry.exitPhase.AwaitReport? && entry.child.Some? && entry.statusFd
        decreases |attempts| - k
      {
        ghost var e := entry;
        var seen, fired := WatchForReport(attempts[k], runnerExit, file, others, now);
        KeepsPhase(e, file);
        match seen {
          case Report(said) => return Some(said.outcome);
          case Ended(o, _) => return Some(o);
          case Parked =>
        }
        k := k + 1;
      }
      return None;
    }

    /** The second phase: the runner, now a guardian at most, is reaped. */
    method ReapRunner(exits: bool, file: nat)
      requires entry.exitPhase.AwaitRunnerExit? && entry.child.Some? && !entry.statusFd && entry.statusPartial == []
      modifies this`entry
      ensures entry == if exits then After(old(entry), file, GuardianExits) else old(entry)
    {
      var runner := entry.child;
      entry := entry.(child := None, statusFd := false, statusPartial := []);
      if exits {
        entry := entry.(lingering := false, exitPhase := Done);
      } else {
        entry := entry.(child := runner, statusFd := false, statusPartial := []);
      }
    }
  }

  /** What a read of at most 64 bytes gives: at least one unless the pipe has ended. */
  function AtMost(want: nat, left: nat): (n: nat)
    ensures n <= left && n <= 64 && (n == 0 <==> left == 0)
  {
    var some := if want < 64 then want + 1 else 64;
    if some < left then some else left
  }

  /** The entry while a watch holds its runner and pipe. */
  ghost function Taken(e: Entry, fired: bool): Entry {
    (if fired then RequestKill(e.(timedOut := true), TimedOut) else e)
    .(child := None, statusFd := false, statusPartial := [])
  }

  lemma KillTaken(e: Entry)
    ensures var t := Taken(e, false).(timedOut := true);
      Taken(e, true) == if t.record.status.Running? then RequestKill(t, TimedOut) else t
  {}

  lemma KillThenTaken(e: Entry, fired: bool, file: nat)
    requires e.exitPhase.AwaitReport? && (fired ==> !e.timedOut && e.deadline.Some?) && e.statusFd
    ensures var e' := Fired(e, fired, file);
      Taken(e, fired) == e'.(child := None, statusFd := false, statusPartial := [])
      && e'.child == e.child && e'.statusFd && e'.exitPhase.AwaitReport?
  {}

  /** The timeout is recorded as the reason if no kill was asked for before. */
  lemma Reasoned(e: Entry, fired: bool, file: nat, step: TaskStep)
    requires e.exitPhase.AwaitReport? && (fired ==> !e.timedOut && e.deadline.Some?)
    requires step.ReportSeen? || step.RunnerGone?
    ensures e.record.status.Running? ==>
              var e' := Fired(e, fired, file);
              var asked := if e.killReason.None? && fired then Some(TimedOut) else e.killReason;
              && e'.killReason == asked
              && After(e', file, step).record.endReason == Some(if asked.Some? then asked.value else Exited)
  {
    hide Normalized, TerminalStatus, OwnsLiveGroup, CarryWatch, DropWatch, EndReasonForStop;
  }

  ghost function Fired(e: Entry, fired: bool, file: nat): Entry {
    if fired then After(e, file, TimeoutFires) else e
  }

  lemma ReportTaken(e: Entry, fired: bool, file: nat, o: Outcome, linger: bool, now: nat)
    requires e.exitPhase.AwaitReport? && e.statusFd && (fired ==> !e.timedOut && e.deadline.Some?)
    ensures Finalize(Taken(e, fired), file, o, if linger then Guarded else Nothing, false, now)
            .(child := e.child, exitPhase := AwaitRunnerExit) ==
            After(Fired(e, fired, file), file, ReportSeen(o, linger, now))
  {
    KillThenTaken(e, fired, file);
    FinalizeCommutes(Fired(e, fired, file), file, o, if linger then Guarded else Nothing, false, now);
  }

  lemma GoneTaken(e: Entry, fired: bool, file: nat, o: Outcome, leftover: Leftover, others: bool, now: nat)
    requires e.exitPhase.AwaitReport? && e.statusFd && (fired ==> !e.timedOut && e.deadline.Some?)
    ensures Finalize(Taken(e, fired), file, o, leftover, others, now).(exitPhase := Done) ==
            After(Fired(e, fired, file), file, RunnerGone(o, leftover, others, now))
  {
    KillThenTaken(e, fired, file);
    FinalizeCommutes(Fired(e, fired, file), file, o, leftover, others, now);
  }

  /** Finishing a task looks at neither its runner nor its pipe. */
  lemma FinalizeCommutes(e: Entry, file: nat, o: Outcome, leftover: Leftover, others: bool, now: nat)
    ensures Finalize(e.(child := None, statusFd := false, statusPartial := []), file, o, leftover, others, now) ==
            Finalize(e, file, o, leftover, others, now).(child := None, statusFd := false, statusPartial := [])
    ensures Finalize(e, file, o, leftover, others, now).child == e.child
  {}

  lemma KeepsPhase(e: Entry, file: nat)
    ensures var e' := After(e, file, TimeoutFires);
      && e'.exitPhase == e.exitPhase && e'.child == e.child
      && e'.statusFd == e.statusFd && e'.statusPartial == e.statusPartial
  {}
}
