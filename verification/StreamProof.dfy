/** Every byte exactly once and in order: the invariant of StreamModel and what follows
    from it for every run. */
module StreamProof {
  import opened Numbers
  import opened Utf8
  import opened ChunkCut
  import opened OutputStore
  import opened StreamModel

  // ---- events as windows of the output ----

  function Start(e: Event): int {
    e.next - |Encode(e.text)|
  }

  /** `e` carries exactly the characters of `output[Start(e)..e.next]`. */
  ghost predicate EventOk(output: seq<Byte>, e: Event) {
    && 0 <= Start(e) < e.next <= |output|
    && Boundary(output, Start(e)) && Boundary(output, e.next)
    && Encode(e.text) == output[Start(e)..e.next]
  }

  ghost predicate EventsOk(output: seq<Byte>, bound: nat, events: seq<Event>) {
    forall e | e in events :: EventOk(output, e) && e.next <= bound
  }

  lemma EventOfWindow(output: seq<Byte>, a: nat, b: nat)
    requires Valid(output) && Boundary(output, a) && Boundary(output, b) && a < b
    ensures b <= |output| && EventOk(output, EventOf(output[a..b], b))
    ensures Start(EventOf(output[a..b], b)) == a && EventOf(output[a..b], b).text != []
  {
    hide First, Boundary, Valid, Lossy, Encode;
    ValidBetween(output, a, b);
    EncodeOfValid(output[a..b]);
    assert Encode([]) == [] by { EncodeNothing(); }
  }

  lemma EncodeNothing()
    ensures Encode([]) == []
  {}

  // ---- what the extension has accepted ----

  function LogEnd(log: seq<(nat, nat)>): nat {
    if log == [] then 0 else log[|log| - 1].1
  }

  /** Accepted ranges never overlap and never go back. */
  ghost predicate InOrder(output: seq<Byte>, log: seq<(nat, nat)>) {
    && (forall i | 0 <= i < |log| ::
         log[i].0 < log[i].1 <= |output| && Boundary(output, log[i].0) && Boundary(output, log[i].1))
    && (forall i | 0 < i < |log| :: log[i - 1].1 <= log[i].0)
  }

  /** ... and leave nothing out. */
  ghost predicate Contiguous(log: seq<(nat, nat)>) {
    forall i | 0 <= i < |log| :: log[i].0 == LogEnd(log[..i])
  }

  function LogText(output: seq<Byte>, log: seq<(nat, nat)>): seq<Scalar> {
    if log == [] then []
    else
      var (a, b) := log[|log| - 1];
      LogText(output, log[..|log| - 1]) + (if a <= b <= |output| then Lossy(output[a..b]) else [])
  }

  /** The monitor's cursor and text are those of the log. */
  ghost predicate Books(output: seq<Byte>, c: Monitor, log: seq<(nat, nat)>) {
    && InOrder(output, log) && c.cursor == LogEnd(log) && c.accepted == LogText(output, log)
    && Boundary(output, c.cursor) && c.cursor <= |output|
  }

  lemma ContiguousPush(log: seq<(nat, nat)>, r: (nat, nat))
    requires Contiguous(log) && r.0 == LogEnd(log)
    ensures Contiguous(log + [r])
  {
    var log' := log + [r];
    forall i | 0 <= i < |log'| ensures log'[i].0 == LogEnd(log'[..i]) {
      if i < |log| {
        assert log'[..i] == log[..i];
      } else {
        assert log'[..i] == log;
      }
    }
  }

  lemma LogTextPush(output: seq<Byte>, log: seq<(nat, nat)>, from: nat, to: nat)
    requires from <= to <= |output|
    ensures LogText(output, log + [(from, to)]) == LogText(output, log) + Lossy(output[from..to])
  {
    hide Lossy;
    assert (log + [(from, to)])[..|log|] == log;
  }

  lemma InOrderPush(output: seq<Byte>, log: seq<(nat, nat)>, from: nat, to: nat)
    requires InOrder(output, log) && LogEnd(log) <= from < to <= |output|
    requires Boundary(output, from) && Boundary(output, to)
    ensures InOrder(output, log + [(from, to)])
  {
    hide Boundary;
  }

  lemma BooksPush(output: seq<Byte>, c: Monitor, log: seq<(nat, nat)>, from: nat, to: nat)
    requires Books(output, c, log) && c.cursor <= from < to <= |output|
    requires Boundary(output, from) && Boundary(output, to)
    ensures Books(output, c.(cursor := to, accepted := c.accepted + Lossy(output[from..to])), log + [(from, to)])
    ensures Contiguous(log) && from == c.cursor ==> Contiguous(log + [(from, to)])
  {
    hide First, Boundary, Lossy, LogText, Contiguous, InOrder;
    LogTextPush(output, log, from, to);
    InOrderPush(output, log, from, to);
    if Contiguous(log) && from == c.cursor { ContiguousPush(log, (from, to)); }
  }

  lemma CursorIsBoundary(output: seq<Byte>, c: Monitor, log: seq<(nat, nat)>)
    requires Books(output, c, log)
    ensures Boundary(output, c.cursor)
  {}

  lemma RangesOne(cursor: nat, e: Event)
    ensures Ranges(cursor, [e]) ==
            if e.next <= cursor then []
            else [(if Start(e) < cursor then cursor else Start(e), e.next)]
  {
    hide Encode;
    assert [e][1..] == [];
  }

  /** Offering one well-formed window: dropped, or trimmed to what is new. */
  lemma AcceptOne(output: seq<Byte>, c: Monitor, log: seq<(nat, nat)>, e: Event)
    requires Valid(output) && Books(output, c, log) && EventOk(output, e)
    ensures var log' := log + Ranges(c.cursor, [e]);
      && Books(output, Accept(c, e), log')
      && Accept(c, e) == c.(cursor := Max(c.cursor, e.next), accepted := Accept(c, e).accepted)
      && (Contiguous(log) && Start(e) <= c.cursor ==> Contiguous(log'))
  {
    hide First, Boundary, Valid, Lossy, Encode, Books, Ranges, Contiguous;
    RangesOne(c.cursor, e);
    if e.next <= c.cursor {
      assert log + [] == log;
    } else {
      var from: nat := Max(Start(e), c.cursor);
      var bytes := Encode(e.text);
      var deliver := if Start(e) < c.cursor then bytes[c.cursor - Start(e)..] else bytes;
      assert deliver == output[from..e.next];
      assert Boundary(output, c.cursor) by { CursorIsBoundary(output, c, log); }
      BooksPush(output, c, log, from, e.next);
    }
  }

  lemma RangesCons(cursor: nat, e: Event, rest: seq<Event>)
    ensures Ranges(cursor, [e] + rest) == Ranges(cursor, [e]) + Ranges(Max(cursor, e.next), rest)
  {
    hide Encode;
    var all := [e] + rest;
    assert all[1..] == rest && [e][1..] == [];
  }

  /** Each event starts at the cursor or before, or where an earlier event ends. */
  ghost predicate Linked(cursor: nat, events: seq<Event>) {
    forall i | 0 <= i < |events| :: Start(events[i]) <= cursor || Ends(events[..i], Start(events[i]))
  }

  ghost predicate Ends(events: seq<Event>, at: int) {
    exists j :: 0 <= j < |events| && events[j].next == at
  }

  ghost predicate Attained(at: nat, cursor: nat, events: seq<Event>) {
    at <= cursor || Ends(events, at)
  }

  lemma {:induction false} AcceptEach(output: seq<Byte>, c: Monitor, log: seq<(nat, nat)>, events: seq<Event>)
    requires Valid(output) && Books(output, c, log)
    requires forall e | e in events :: EventOk(output, e)
    ensures var log' := log + Ranges(c.cursor, events);
      && Books(output, AcceptAll(c, events), log')
      && AcceptAll(c, events) == c.(cursor := Reach(c.cursor, events), accepted := AcceptAll(c, events).accepted)
      && (Contiguous(log) && Linked(c.cursor, events) ==> Contiguous(log'))
    decreases |events|
  {
    hide First, Boundary, Valid, Lossy, Encode, Books, EventOk, Accept, Contiguous;
    if events == [] {
      assert log + [] == log;
    } else {
      var e, rest := events[0], events[1..];
      assert events == [e] + rest;
      AcceptOne(output, c, log, e);
      AcceptEach(output, Accept(c, e), log + Ranges(c.cursor, [e]), rest);
      RangesCons(c.cursor, e, rest);
      assert log + Ranges(c.cursor, events) == log + Ranges(c.cursor, [e]) + Ranges(Max(c.cursor, e.next), rest);
      if Linked(c.cursor, events) {
        assert events[..0] == [];
        LinkedAfter(c.cursor, events);
      }
    }
  }

  // ---- links ----

  lemma LinkedAfter(cursor: nat, events: seq<Event>)
    requires events != [] && Linked(cursor, events)
    ensures Start(events[0]) <= cursor && Linked(Max(cursor, events[0].next), events[1..])
  {
    hide Start;
    var rest := events[1..];
    assert events[..0] == [];
    forall i | 0 <= i < |rest|
      ensures Start(rest[i]) <= Max(cursor, events[0].next) || Ends(rest[..i], Start(rest[i]))
    {
      assert rest[i] == events[i + 1];
      if Ends(events[..i + 1], Start(rest[i])) {
        var j :| 0 <= j < |events[..i + 1]| && events[..i + 1][j].next == Start(rest[i]);
        if j > 0 { assert rest[..i][j - 1].next == Start(rest[i]); }
      }
    }
  }

  lemma EndsAfter(events: seq<Event>, at: nat, cursor: nat)
    requires events != [] && Attained(at, cursor, events)
    ensures Attained(at, Max(cursor, events[0].next), events[1..])
  {
    if at > cursor {
      var j :| 0 <= j < |events| && events[j].next == at;
      if j > 0 { assert events[1..][j - 1].next == at; }
    }
  }

  lemma EndsMonotone(a: seq<Event>, b: seq<Event>, at: int)
    requires Ends(a, at)
    ensures Ends(a + b, at)
  {
    var j :| 0 <= j < |a| && a[j].next == at;
    assert (a + b)[j].next == at;
  }

  /** What follows `done` stays linked once `done` was offered. */
  lemma {:induction false} LinkedAfterAll(cursor: nat, done: seq<Event>, rest: seq<Event>)
    requires Linked(cursor, done + rest)
    ensures Linked(Reach(cursor, done), rest) && Linked(cursor, done)
    decreases |done|
  {
    hide Start;
    var all := done + rest;
    forall i | 0 <= i < |done| ensures Start(done[i]) <= cursor || Ends(done[..i], Start(done[i])) {
      assert done[i] == all[i] && done[..i] == all[..i];
    }
    if done == [] {
      assert all == rest;
    } else {
      LinkedAfter(cursor, all);
      assert all[1..] == done[1..] + rest;
      LinkedAfterAll(Max(cursor, done[0].next), done[1..], rest);
    }
  }

  lemma {:induction false} AttainedAfterAll(at: nat, cursor: nat, done: seq<Event>, rest: seq<Event>)
    requires Attained(at, cursor, done + rest)
    ensures Attained(at, Reach(cursor, done), rest)
    decreases |done|
  {
    var all := done + rest;
    if done == [] {
      assert all == rest;
    } else {
      EndsAfter(all, at, cursor);
      assert all[1..] == done[1..] + rest;
      AttainedAfterAll(at, Max(cursor, done[0].next), done[1..], rest);
    }
  }

  lemma LinkedPush(cursor: nat, events: seq<Event>, e: Event)
    requires Linked(cursor, events) && Start(e) >= 0 && Attained(Start(e), cursor, events)
    ensures Linked(cursor, events + [e]) && Attained(e.next, cursor, events + [e])
  {
    hide Start;
    var all := events + [e];
    forall i | 0 <= i < |all| ensures Start(all[i]) <= cursor || Ends(all[..i], Start(all[i])) {
      if i < |events| {
        assert all[i] == events[i] && all[..i] == events[..i];
      } else {
        assert all[..i] == events;
      }
    }
    assert all[|events|].next == e.next;
  }

  lemma LinkedPrefix(cursor: nat, events: seq<Event>, more: seq<Event>)
    requires Linked(cursor, events + more)
    ensures Linked(cursor, events)
  {
    LinkedAfterAll(cursor, events, more);
  }

  // ---- sorting ----

  ghost predicate Ascending(events: seq<Event>) {
    forall i, j | 0 <= i < j < |events| :: events[i].next <= events[j].next
  }

  lemma {:induction false} InsertMembers(sorted: seq<Event>, e: Event)
    ensures multiset(Insert(sorted, e)) == multiset(sorted) + multiset{e}
    decreases |sorted|
  {
    if sorted != [] && sorted[|sorted| - 1].next > e.next {
      var front := sorted[..|sorted| - 1];
      assert sorted == front + [sorted[|sorted| - 1]];
      InsertMembers(front, e);
    }
  }

  ghost predicate Below(events: seq<Event>, bound: nat) {
    forall i | 0 <= i < |events| :: events[i].next <= bound
  }

  lemma {:induction false} InsertBelow(sorted: seq<Event>, e: Event, bound: nat)
    requires Below(sorted, bound) && e.next <= bound
    ensures Below(Insert(sorted, e), bound)
    decreases |sorted|
  {
    if sorted != [] && sorted[|sorted| - 1].next > e.next { InsertBelow(sorted[..|sorted| - 1], e, bound); }
  }

  lemma {:induction false} InsertSorts(sorted: seq<Event>, e: Event)
    requires Ascending(sorted)
    ensures Ascending(Insert(sorted, e)) && multiset(Insert(sorted, e)) == multiset(sorted) + multiset{e}
    decreases |sorted|
  {
    InsertMembers(sorted, e);
    if sorted != [] && sorted[|sorted| - 1].next > e.next {
      var front, top := sorted[..|sorted| - 1], sorted[|sorted| - 1];
      InsertSorts(front, e);
      InsertBelow(front, e, top.next);
    }
  }

  lemma {:induction false} SortSorts(events: seq<Event>)
    ensures Ascending(Sorted(events)) && multiset(Sorted(events)) == multiset(events)
    decreases |events|
  {
    if events != [] {
      var front, e := events[..|events| - 1], events[|events| - 1];
      assert events == front + [e];
      SortSorts(front);
      InsertSorts(Sorted(front), e);
    }
  }

  lemma SameEvents(a: seq<Event>, b: seq<Event>, at: int)
    requires multiset(a) == multiset(b)
    ensures forall e :: e in a <==> e in b
    ensures Ends(a, at) ==> Ends(b, at)
  {
    forall e ensures e in a <==> e in b {
      assert e in a <==> e in multiset(a);
      assert e in b <==> e in multiset(b);
    }
    if Ends(a, at) {
      var j :| 0 <= j < |a| && a[j].next == at;
      assert a[j] in b;
    }
  }

  /** In ascending order an event that ends earlier comes earlier. */
  lemma EarlierEnd(sorted: seq<Event>, i: nat, e: Event)
    requires Ascending(sorted) && i < |sorted| && e in sorted && e.next < sorted[i].next
    ensures Ends(sorted[..i], e.next)
  {
    var j :| 0 <= j < |sorted| && sorted[j] == e;
    assert j < i;
    assert sorted[..i][j].next == e.next;
  }

  /** The events that end at this cursor, in order. */
  function EndingAt(events: seq<Event>, next: nat): seq<Event> {
    if events == [] then []
    else
      var e := events[|events| - 1];
      EndingAt(events[..|events| - 1], next) + if e.next == next then [e] else []
  }

  lemma {:induction false} InsertIsStable(sorted: seq<Event>, e: Event, next: nat)
    ensures EndingAt(Insert(sorted, e), next) == EndingAt(sorted, next) + if e.next == next then [e] else []
  {
    assert (sorted + [e])[..|sorted|] == sorted;
    if sorted != [] && sorted[|sorted| - 1].next > e.next {
      var front, last := sorted[..|sorted| - 1], sorted[|sorted| - 1];
      InsertIsStable(front, e, next);
      assert (Insert(front, e) + [last])[..|Insert(front, e)|] == Insert(front, e);
    }
  }

  /** Sorting puts the events in cursor order, and leaves those that end at the same cursor in the
      order in which they arrived. */
  lemma {:induction false} SortIsStable(events: seq<Event>, next: nat)
    ensures EndingAt(Sorted(events), next) == EndingAt(events, next)
    ensures forall i, j | 0 <= i < j < |Sorted(events)| :: Sorted(events)[i].next <= Sorted(events)[j].next
    ensures multiset(Sorted(events)) == multiset(events)
  {
    SortSorts(events);
    hide Insert;
    if events != [] {
      SortIsStable(events[..|events| - 1], next);
      InsertIsStable(Sorted(events[..|events| - 1]), events[|events| - 1], next);
    }
  }

  /** Sorting by cursor keeps events linked: an event's predecessor ends before it does. */
  lemma SortKeepsLinks(cursor: nat, events: seq<Event>)
    requires Linked(cursor, events) && forall e | e in events :: Start(e) < e.next
    ensures Linked(cursor, Sorted(events))
  {
    hide Start, Sorted, Ascending;
    var s := Sorted(events);
    SortSorts(events);
    SameEvents(s, events, 0);
    forall i | 0 <= i < |s| ensures Start(s[i]) <= cursor || Ends(s[..i], Start(s[i])) {
      assert s[i] in events;
      if Start(s[i]) > cursor {
        var k :| 0 <= k < |events| && events[k] == s[i];
        var j :| 0 <= j < |events[..k]| && events[..k][j].next == Start(s[i]);
        assert events[j] in events;
        EarlierEnd(s, i, events[j]);
      }
    }
  }

  lemma {:induction false} ReachBounds(cursor: nat, events: seq<Event>)
    ensures cursor <= Reach(cursor, events)
    ensures forall e | e in events :: e.next <= Reach(cursor, events)
    ensures Reach(cursor, events) == cursor || exists e :: e in events && e.next == Reach(cursor, events)
    decreases |events|
  {
    if events != [] {
      ReachBounds(Max(cursor, events[0].next), events[1..]);
      assert forall e | e in events :: e == events[0] || e in events[1..];
    }
  }

  lemma ReachOfSorted(cursor: nat, events: seq<Event>)
    ensures Reach(cursor, Sorted(events)) == Reach(cursor, events)
    ensures forall e :: e in Sorted(events) <==> e in events
  {
    SortSorts(events);
    SameEvents(Sorted(events), events, 0);
    ReachBounds(cursor, events);
    ReachBounds(cursor, Sorted(events));
  }

  // ---- outside well-formed output ----

  /** The cursor contract, that an event covers `[next - bytes(chunk), next)`, holds of an
      event exactly when no ill-formed run in it is shorter than U+FFFD's three bytes. Arriving
      in order, the event keeps only its last `|bytes|` re-encoded bytes: all of them just then. */
  lemma CursorContract(bytes: seq<Byte>, next: nat, c: Monitor)
    requires bytes != [] && |bytes| <= next && c.cursor == next - |bytes|
    ensures var e := EventOf(bytes, next);
      && (Start(e) == next - |bytes| <==> OnlyWideRuns(bytes))
      && Accept(c, e).accepted == c.accepted + Lossy(Last(Encode(Lossy(bytes)), |bytes|))
      && (Last(Encode(Lossy(bytes)), |bytes|) == Encode(Lossy(bytes)) <==> OnlyWideRuns(bytes))
  {
    hide First, Lossy, Encode, OnlyWideRuns, Accept, Last;
    ReencodedLength(bytes);
    LastOfAll(Encode(Lossy(bytes)), |bytes|);
    AcceptTrims(c, EventOf(bytes, next), |bytes|);
  }

  lemma AcceptTrims(c: Monitor, e: Event, n: nat)
    requires 0 < n <= |Encode(e.text)| && n <= e.next && c.cursor == e.next - n
    ensures Accept(c, e).accepted == c.accepted + Lossy(Last(Encode(e.text), n))
  {
    hide First, Lossy, Encode;
  }

  lemma LastOfAll(s: seq<Byte>, n: nat)
    requires n <= |s|
    ensures Last(s, n) == s <==> |s| == n
  {}

  /** Output that is not UTF-8 can lose text: of "ab" and a stray byte only U+FFFD arrives. */
  lemma StrayByteLosesText()
    ensures var c := Monitor(true, 0, [], false, [], []);
      var e := EventOf([0x61, 0x62, 0xFF], 3);
      e.text == [0x61, 0x62, REPLACEMENT] && Accept(c, e).accepted == [REPLACEMENT]
  {
    var c := Monitor(true, 0, [], false, [], []);
    var bytes: seq<Byte> := [0x61, 0x62, 0xFF];
    assert bytes[1..] == [0x62, 0xFF] && bytes[1..][1..] == [0xFF] && [0xFF][1..] == [];
    assert Lossy([0xFF]) == [REPLACEMENT];
    assert Lossy([0x62, 0xFF]) == [0x62, REPLACEMENT];
    var text: seq<Scalar> := [0x61, 0x62, REPLACEMENT];
    assert Lossy(bytes) == text;
    ReplacementWidth();
    EncodeCons(REPLACEMENT, []);
    EncodeCons(0x62, [REPLACEMENT]);
    EncodeCons(0x61, [0x62, REPLACEMENT]);
    assert text == [0x61] + [0x62, REPLACEMENT] && [0x62, REPLACEMENT] == [0x62] + [REPLACEMENT];
    var enc: seq<Byte> := [0x61, 0x62, 0xEF, 0xBF, 0xBD];
    assert Encode(text) == enc;
    assert enc[2..] == Encode([REPLACEMENT]);
    DecodeOfEncode([REPLACEMENT]);
  }
}
