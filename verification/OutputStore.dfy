/** A task's output as the daemon keeps it (the whole file and a ring of its tail) and as
    `output` requests and `pi-famulus output` read it back. */
module OutputStore {
  import opened Limits
  import opened Numbers
  import opened Options
  import opened Utf8
  import opened ChunkCut

  const RING_CAPACITY: nat := 64 * 1024
  const MAX_OUTPUT_READ: nat := 1024 * 1024

  /** The last `n` bytes of `s`, or all of it. */
  function Last(s: seq<Byte>, n: nat): (r: seq<Byte>)
    ensures |r| == Min(|s|, n) && r == s[|s| - |r|..]
  {
    if |s| <= n then s else s[|s| - n..]
  }

  /** What `read_file_range` returns: up to `len` bytes from `offset`, nothing past the end. */
  function FileRange(file: seq<Byte>, offset: nat, len: nat): seq<Byte> {
    if offset >= |file| then [] else file[offset..Min(offset + len, |file|)]
  }

  class RingBuffer {
    var buf: seq<Byte>
    const cap: nat

    constructor (cap: nat)
      ensures this.cap == cap && buf == []
    {
      this.cap := cap;
      buf := [];
    }

    /** Whatever the size of the write, the newest `cap` bytes remain. */
    method Push(data: seq<Byte>)
      requires |buf| <= cap
      modifies this`buf
      ensures buf == Last(old(buf) + data, cap)
    {
      if |data| >= cap {
        buf := data[|data| - cap..];
        return;
      }
      var all := buf + data;
      buf := all;
      while |buf| > cap
        invariant |buf| <= |all| && buf == all[|all| - |buf|..]
        invariant |buf| >= cap || buf == all
        decreases |buf|
      {
        buf := buf[1..];
      }
    }

    function Slice(skip: nat, len: nat): (r: seq<Byte>)
      reads this
      requires skip <= |buf|
      ensures r == FileRange(buf, skip, len)
    {
      buf[skip..Min(skip + len, |buf|)]
    }
  }

  class OutputState {
    const ring: RingBuffer
    var totalSize: nat
    /** The bytes of the output file on disk. */
    var file: seq<Byte>

    /** The ring is a suffix of the file, which holds `totalSize` bytes. */
    ghost predicate Valid()
      reads this, ring
    {
      totalSize == |file| && |ring.buf| <= ring.cap && |ring.buf| <= |file|
      && ring.buf == file[|file| - |ring.buf|..]
    }

    /** A fresh task, a restored one (`tail` bytes of the file reloaded into the ring), or a
        finished record whose ring stays empty. */
    constructor (file: seq<Byte>, tail: nat)
      ensures Valid() && fresh(ring) && this.file == file
      ensures ring.cap == 65536 && ring.buf == Last(file, Min(tail, 65536))
    {
      ring := new RingBuffer(RING_CAPACITY);
      totalSize := |file|;
      this.file := file;
      new;
      ring.Push(Last(file, Min(tail, RING_CAPACITY)));
    }

    method Append(data: seq<Byte>) returns (next: nat)
      requires Valid()
      modifies this`file, this`totalSize, ring
      ensures Valid() && file == old(file) + data && next == |file|
    {
      file := file + data;
      ring.Push(data);
      totalSize := totalSize + |data|;
      next := totalSize;
    }

    /** `handle_output`: from the ring when it holds the range, else from disk; both give
        the same bytes, and the answer is one page of the file. */
    method HandleOutput(cursor: nat, maxBytes: nat, running: bool)
      returns (chunk: seq<Scalar>, next: nat, total: nat)
      requires Valid()
      ensures total == |file| && cursor <= next
      ensures Page(file, cursor, maxBytes, running, next)
      ensures chunk == Lossy(FileRange(file, cursor, next - cursor))
    {
      hide Cut, Lossy, First;
      var cap := Min(maxBytes, MAX_OUTPUT_READ);
      var want := cap + UTF8_LOOKAHEAD;
      var ringStart := totalSize - |ring.buf|;
      var bytes;
      if cursor >= ringStart && cursor < totalSize {
        var skip := cursor - ringStart;
        bytes := ring.Slice(skip, Min(|ring.buf| - skip, want));
      } else {
        bytes := FileRange(file, cursor, want);
      }
      assert bytes == FileRange(file, cursor, want);
      var n := Utf8ChunkLen(bytes, cap, CHUNK_JSON_BUDGET, running);
      CutInRange(bytes, cap, CHUNK_JSON_BUDGET, running, n);
      assert bytes[..n] == FileRange(file, cursor, n);
      chunk := Lossy(bytes[..n]);
      next := cursor + n;
      total := totalSize;
    }
  }

  lemma CutInRange(buf: seq<Byte>, max: nat, budget: nat, moreMayFollow: bool, n: nat)
    requires if max == 0 then n == 0 else Cut(buf, max, budget, moreMayFollow, n)
    ensures n <= |buf|
  {}

  /** One page of `file`: what an `output` request with this cursor and cap may answer. */
  ghost predicate Page(file: seq<Byte>, cursor: nat, maxBytes: nat, running: bool, next: nat) {
    var cap := Min(maxBytes, MAX_OUTPUT_READ);
    && cursor <= next
    && (cap == 0 ==> next == cursor)
    && (cap > 0 ==> Cut(FileRange(file, cursor, cap + UTF8_LOOKAHEAD), cap, CHUNK_JSON_BUDGET, running, next - cursor))
  }

  /** A page that starts between two elements of the file ends between two elements, and a
      finished task's page makes progress until the end. */
  lemma PageEndsOnBoundary(file: seq<Byte>, cursor: nat, maxBytes: nat, running: bool, next: nat)
    requires Boundary(file, cursor) && Page(file, cursor, maxBytes, running, next)
    ensures cursor <= next <= |file| && Boundary(file, next)
    ensures maxBytes > 0 && cursor < |file| && !running ==> cursor < next
    ensures next - cursor <= maxBytes + 3
  {
    hide First, ElemCost, Lossy, Truncated;
    BoundaryBounded(file, cursor);
    var cap := Min(maxBytes, MAX_OUTPUT_READ);
    if cap > 0 {
      var s := file[cursor..];
      var w := FileRange(file, cursor, cap + UTF8_LOOKAHEAD);
      var n := next - cursor;
      assert w == s[..|w|];
      if n <= cap {
        BoundaryThroughWindow(s, |w|, n);
      } else {
        assert n == First(w).len;
        FirstVisible(s, |w|);
        assert Boundary(s[n..], 0);
      }
      BoundaryCompose(file, cursor, n);
    }
  }

  /** A sequence of `output` requests on a finished task: each starts where the last ended. */
  ghost predicate Pages(file: seq<Byte>, from: nat, caps: seq<nat>, nexts: seq<nat>)
    decreases |nexts|
  {
    && |caps| == |nexts|
    && (nexts != [] ==> Page(file, from, caps[0], false, nexts[0]) && Pages(file, nexts[0], caps[1..], nexts[1..]))
  }

  function EndOf(from: nat, nexts: seq<nat>): nat {
    if nexts == [] then from else nexts[|nexts| - 1]
  }

  /** The answers' texts, concatenated. */
  ghost function PageTexts(file: seq<Byte>, from: nat, nexts: seq<nat>): seq<Scalar>
    decreases |nexts|
  {
    if nexts == [] || nexts[0] < from then []
    else Lossy(FileRange(file, from, nexts[0] - from)) + PageTexts(file, nexts[0], nexts[1..])
  }

  /** Reading page by page, with any caps, reads the text of the file decoded at once, and
      requests for at least one byte get to the end. */
  lemma {:induction false} PagesAreOneRead(file: seq<Byte>, from: nat, caps: seq<nat>, nexts: seq<nat>)
    requires Boundary(file, from) && Pages(file, from, caps, nexts)
    ensures from <= EndOf(from, nexts) <= |file| && Boundary(file, EndOf(from, nexts))
    ensures PageTexts(file, from, nexts) == Lossy(file[from..EndOf(from, nexts)])
    ensures (forall c | c in caps :: c > 0) ==>
              EndOf(from, nexts) == |file| || EndOf(from, nexts) >= from + |caps|
    decreases |nexts|
  {
    hide First, Lossy, Page, Boundary;
    BoundaryBounded(file, from);
    if nexts == [] {
      LossyOfNothing(file[from..from]);
    } else {
      var next, end := nexts[0], EndOf(from, nexts);
      PageEndsOnBoundary(file, from, caps[0], false, next);
      PagesAreOneRead(file, next, caps[1..], nexts[1..]);
      assert end == EndOf(next, nexts[1..]);
      assert FileRange(file, from, next - from) == file[from..next];
      LossyBetween(file, from, next, end);
      assert forall c | c in caps[1..] :: c in caps;
      assert caps[0] in caps;
    }
  }

  lemma LossyOfNothing(s: seq<Byte>)
    requires s == []
    ensures Lossy(s) == []
  {}

  lemma LossyBetween(s: seq<Byte>, a: nat, b: nat, c: nat)
    requires Boundary(s, a) && Boundary(s, b) && Boundary(s, c) && a <= b <= c
    ensures c <= |s| && Lossy(s[a..c]) == Lossy(s[a..b]) + Lossy(s[b..c])
  {
    hide First, Lossy, Boundary;
    BoundaryBounded(s, c);
    BoundaryOfPrefix(s, a, c);
    BoundaryOfPrefix(s, b, c);
    BoundaryRest(s[..c], a, b);
    var w := s[..c][a..];
    LossySplit(w, b - a);
    assert w == s[a..c] && w[..b - a] == s[a..b] && w[b - a..] == s[b..c];
  }

  // ---- `pi-famulus output` ----

  /** `r` is the longest front of `whole` of at most `max` bytes that ends between characters. */
  ghost predicate LongestFront(whole: seq<Byte>, max: nat, r: seq<Byte>) {
    && |r| <= max && r <= whole && Boundary(whole, |r|)
    && forall m: nat | Boundary(whole, m) && m <= max :: m <= |r|
  }

  /** `cut_utf8`: step back from `max` to a character boundary. */
  method CutUtf8(s: seq<Byte>, max: nat) returns (r: seq<Byte>)
    requires Valid(s)
    ensures LongestFront(s, max, r)
    ensures |s| <= max ==> r == s
  {
    hide First, Boundary, Valid;
    if |s| <= max {
      BoundaryAtEnd(s);
      forall m: nat | Boundary(s, m) ensures m <= |s| { BoundaryBounded(s, m); }
      return s;
    }
    var i := max;
    BoundaryIffLead(s, 0);
    BoundaryAtZero(s);
    while Continuation(s[i])
      invariant i <= max && forall m: nat | i < m <= max :: !Boundary(s, m)
      decreases i
    {
      BoundaryIffLead(s, i);
      i := i - 1;
    }
    BoundaryIffLead(s, i);
    r := s[..i];
  }

  lemma BoundaryAtZero(s: seq<Byte>)
    ensures Boundary(s, 0)
  {}

  /** What `pi-famulus output [--max-bytes]` prints of a finished task: the whole decoded
      output, or its longest front of whole characters within the cap. */
  method CmdOutput(store: OutputState, maxBytes: Option<nat>) returns (printed: seq<Byte>)
    requires store.Valid()
    ensures maxBytes.None? ==> printed == Encode(Lossy(store.file))
    ensures maxBytes.Some? ==> LongestFront(Encode(Lossy(store.file)), maxBytes.value, printed)
  {
    hide First, Boundary, Lossy, Encode, Page, Valid, LongestFront;
    var cursor, remaining := 0, maxBytes;
    printed := [];
    BoundaryAtZero(store.file);
    EncodedFront(store.file, 0);
    while true
      invariant Boundary(store.file, cursor) && cursor <= |store.file|
      invariant printed == Encode(Lossy(store.file[..cursor]))
      invariant maxBytes.None? ==> remaining.None?
      invariant maxBytes.Some? ==> remaining == Some(maxBytes.value - |printed|) && |printed| <= maxBytes.value
      decreases |store.file| - cursor
    {
      if remaining == Some(0) {
        FrontWithin(store.file, cursor, maxBytes.value);
        return;
      }
      var want := if remaining.None? then 65536 else Min(remaining.value, 65536);
      var text, next, total := store.HandleOutput(cursor, want, false);
      PageEndsOnBoundary(store.file, cursor, want, false, next);
      assert FileRange(store.file, cursor, next - cursor) == store.file[cursor..next];
      EncodedFrontGrows(store.file, cursor, next);
      var bytes := Encode(text);
      if remaining.Some? {
        var r := remaining.value;
        DecodeOfEncode(text);
        var chunk := CutUtf8(bytes, r);
        if |chunk| < |bytes| {
          FrontInside(store.file, cursor, next, r, chunk);
          printed := printed + chunk;
          return;
        }
        FrontIsAll(bytes, r, chunk);
        remaining := Some(r - |chunk|);
      }
      printed := printed + bytes;
      cursor := next;
      if cursor >= total {
        assert store.file[..cursor] == store.file;
        if maxBytes.Some? { FrontWithin(store.file, cursor, maxBytes.value); }
        return;
      }
    }
  }

  lemma FrontIsAll(s: seq<Byte>, max: nat, r: seq<Byte>)
    requires LongestFront(s, max, r) && |r| >= |s|
    ensures r == s && |s| <= max
  {}

  lemma EncodedFront(file: seq<Byte>, cursor: nat)
    requires Boundary(file, cursor)
    ensures cursor <= |file|
    ensures Encode(Lossy(file)) == Encode(Lossy(file[..cursor])) + Encode(Lossy(file[cursor..]))
    ensures cursor == 0 ==> Encode(Lossy(file[..cursor])) == []
  {
    LossySplit(file, cursor);
    EncodeConcat(Lossy(file[..cursor]), Lossy(file[cursor..]));
  }

  lemma EncodedFrontGrows(file: seq<Byte>, a: nat, b: nat)
    requires Boundary(file, a) && Boundary(file, b) && a <= b
    ensures b <= |file|
    ensures Encode(Lossy(file[..b])) == Encode(Lossy(file[..a])) + Encode(Lossy(file[a..b]))
  {
    hide First, Boundary;
    BoundaryBounded(file, b);
    BoundaryOfPrefix(file, a, b);
    EncodedFront(file[..b], a);
    assert file[..b][..a] == file[..a] && file[..b][a..] == file[a..b];
  }

  /** Everything printed so far is the longest front when nothing more fits. */
  lemma FrontWithin(file: seq<Byte>, cursor: nat, max: nat)
    requires Boundary(file, cursor) && cursor <= |file|
    requires var p := Encode(Lossy(file[..cursor])); |p| <= max && (|p| == max || cursor == |file|)
    ensures LongestFront(Encode(Lossy(file)), max, Encode(Lossy(file[..cursor])))
  {
    hide First, Boundary, Lossy, Encode;
    var whole, p := Encode(Lossy(file)), Encode(Lossy(file[..cursor]));
    EncodedFront(file, cursor);
    DecodeOfEncode(Lossy(file[..cursor]));
    BoundaryAtEnd(p);
    assert p[..|p|] == p;
    BoundaryExtends(p, |p|, Encode(Lossy(file[cursor..])));
    if cursor == |file| {
      assert file[..cursor] == file;
      forall m: nat | Boundary(whole, m) ensures m <= |whole| { BoundaryBounded(whole, m); }
    }
  }

  /** A chunk cut short inside `file[cursor..next]` ends the longest front. */
  lemma FrontInside(file: seq<Byte>, cursor: nat, next: nat, room: nat, chunk: seq<Byte>)
    requires Boundary(file, cursor) && Boundary(file, next) && cursor <= next <= |file|
    requires LongestFront(Encode(Lossy(file[cursor..next])), room, chunk)
    requires |chunk| < |Encode(Lossy(file[cursor..next]))|
    ensures var printed := Encode(Lossy(file[..cursor]));
      LongestFront(Encode(Lossy(file)), |printed| + room, printed + chunk)
  {
    hide First, Boundary, Lossy, Encode, Valid, LongestFront;
    EncodedFrontGrows(file, cursor, next);
    EncodedFront(file, next);
    DecodeOfEncode(Lossy(file[..next]));
    DecodeOfEncode(Lossy(file[..cursor]));
    var printed, page, rest := file[..cursor], file[cursor..next], file[next..];
    FrontInsideBytes(Encode(Lossy(printed)), Encode(Lossy(page)), Encode(Lossy(rest)), room, chunk);
  }

  lemma FrontInsideBytes(p: seq<Byte>, c: seq<Byte>, rest: seq<Byte>, room: nat, chunk: seq<Byte>)
    requires Valid(p) && Valid(p + c) && LongestFront(c, room, chunk) && |chunk| < |c|
    ensures LongestFront(p + c + rest, |p| + room, p + chunk)
  {
    hide First, Boundary, Valid;
    var pc := p + c;
    BoundaryAtEnd(pc);
    BoundaryAtEnd(p);
    BoundaryAtEnd(c);
    assert p[..|p|] == p && pc[|p|..] == c && pc[..|pc|] == pc;
    BoundaryExtends(p, |p|, c);
    BoundaryCompose(pc, |p|, |chunk|);
    ValidSplit(pc, |p| + |chunk|);
    BoundaryExtends(pc, |p| + |chunk|, rest);
    forall m: nat | Boundary(pc + rest, m) && m <= |p| + room ensures m <= |p| + |chunk| {
      if m > |p| {
        BoundaryOfPrefix(pc + rest, m, |pc|);
        assert (pc + rest)[..|pc|] == pc;
        BoundaryRest(pc, |p|, m);
      }
    }
  }
}
