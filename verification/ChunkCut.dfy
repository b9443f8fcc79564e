/** Where the manager may end an output chunk: `utf8_chunk_len` of manager/src/task.rs. */
module ChunkCut {
  import opened Options
  import opened Utf8

  /** Extra bytes read past a limit, so a character straddling it can be recognised. */
  const UTF8_LOOKAHEAD := 3

  /** Bytes a scalar occupies inside a JSON string (section 7 of RFC 8259, as serde_json writes it). */
  function JsonEscapedLen(c: Scalar): (n: nat)
    ensures 1 <= n <= 6
  {
    if c in {0x22, 0x5C, 0x0A, 0x0D, 0x09, 0x08, 0x0C} then 2
    else if c < 0x20 then 6
    else |EncodeScalar(c)|
  }

  /** JSON cost of one decoded element; an ill-formed run costs its U+FFFD. */
  function ElemCost(e: Elem): (n: nat)
    ensures 1 <= n <= 6
  {
    if e.Char? then JsonEscapedLen(e.scalar) else 3
  }

  function Cost(s: seq<Byte>): nat {
    if s == [] then 0 else ElemCost(First(s)) + Cost(s[First(s).len..])
  }

  /** The decoder's verdict on an ill-formed start: None when the input merely ends too early. */
  function ErrorLen(s: seq<Byte>): Option<nat>
    requires s != [] && First(s).Bad?
  {
    var w := Width(s[0]);
    if w == 0 then Some(1)
    else if |s| < 2 then None
    else if !Second(s[0], s[1]) then Some(1)
    else if |s| < 3 then None
    else if !Continuation(s[2]) then Some(2)
    else if |s| < 4 then None
    else Some(3)
  }

  /** `s` is a single sequence cut short: its bytes so far could still become a character. */
  predicate Truncated(s: seq<Byte>) {
    s != [] && First(s) == Bad(|s|) && ErrorLen(s) == None
  }

  /** Bytes that would complete a truncated sequence. */
  function Completion(s: seq<Byte>): seq<Byte>
    requires s != []
  {
    var second: Byte := if s[0] == 0xE0 then 0xA0 else if s[0] == 0xF0 then 0x90 else 0x80;
    if |s| == 1 then [second, 0x80, 0x80] else [0x80, 0x80]
  }

  /** What is held back is exactly what later bytes could turn into one character. */
  lemma TruncatedIffCompletable(s: seq<Byte>)
    requires s != []
    ensures Truncated(s) <==> exists t: seq<Byte> :: First(s + t).Char? && First(s + t).len > |s|
  {
    if Truncated(s) {
      var t := Completion(s);
      assert First(s + t).Char? && First(s + t).len > |s|;
    }
  }

  /** Why a cut at `n` cannot move to the next element. */
  predicate Stuck(buf: seq<Byte>, n: nat, max: nat, budget: nat, moreMayFollow: bool)
    requires n <= |buf|
  {
    n < |buf| ==>
      var e := First(buf[n..]);
      (moreMayFollow && Truncated(buf[n..])) || n + e.len > max || Cost(buf[..n]) + ElemCost(e) > budget
  }

  /** No truncated tail lies before `n`. */
  ghost predicate HoldsBack(buf: seq<Byte>, n: nat, moreMayFollow: bool)
    requires n <= |buf|
  {
    forall k: nat | k < n && Boundary(buf, k) :: !(moreMayFollow && Truncated(buf[k..]))
  }

  /** The longest run of whole elements that keeps to the limits and holds a truncated tail
      back; a first element that exceeds the limits alone is still taken whole. */
  ghost predicate Cut(buf: seq<Byte>, max: nat, budget: nat, moreMayFollow: bool, n: nat) {
    && Boundary(buf, n) && n <= |buf|
    && HoldsBack(buf, n, moreMayFollow)
    && Stuck(buf, n, max, budget, moreMayFollow)
    && ((n <= max && Cost(buf[..n]) <= budget) || (buf != [] && n == First(buf).len))
    && (n == 0 ==> buf == [] || (moreMayFollow && Truncated(buf)))
  }

  lemma {:induction false} CostSplit(s: seq<Byte>, n: nat)
    requires Boundary(s, n)
    ensures n <= |s| && Cost(s) == Cost(s[..n]) + Cost(s[n..])
  {
    hide First, ElemCost;
    BoundaryBounded(s, n);
    if n == 0 {
      assert s[..n] == [] && s[n..] == s;
    } else {
      var e, rest := First(s), s[First(s).len..];
      CostSplit(rest, n - e.len);
      FirstOfPrefix(s, n);
      assert s[..n][e.len..] == rest[..n - e.len];
      assert s[n..] == rest[n - e.len..];
    }
  }

  lemma {:induction false} CostBound(s: seq<Byte>)
    ensures Cost(s) <= 6 * |s|
  {
    hide First, ElemCost;
    if s != [] { CostBound(s[First(s).len..]); }
  }

  /** Advancing over one more element. */
  lemma Advance(buf: seq<Byte>, pos: nat)
    requires Boundary(buf, pos) && pos < |buf|
    ensures var e := First(buf[pos..]);
      && pos + e.len <= |buf| && Boundary(buf, pos + e.len)
      && Cost(buf[..pos + e.len]) == Cost(buf[..pos]) + ElemCost(e)
      && buf[..pos + e.len] == buf[..pos] + buf[pos..][..e.len]
  {
    hide First, ElemCost;
    var e := First(buf[pos..]);
    assert Boundary(buf[pos..][e.len..], 0);
    assert Boundary(buf[pos..], e.len);
    BoundaryCompose(buf, pos, e.len);
    var next := buf[..pos + e.len];
    BoundaryOfPrefix(buf, pos, pos + e.len);
    CostSplit(next, pos);
    assert next[..pos] == buf[..pos];
    assert next[pos..] == buf[pos..][..e.len];
    FirstOfPrefix(buf[pos..], e.len);
    assert next[pos..][e.len..] == [];
    assert Cost(next[pos..]) == ElemCost(e);
  }

  lemma HoldsBackStep(buf: seq<Byte>, pos: nat, moreMayFollow: bool)
    requires Boundary(buf, pos) && pos < |buf| && HoldsBack(buf, pos, moreMayFollow)
    requires !(moreMayFollow && Truncated(buf[pos..]))
    ensures pos + First(buf[pos..]).len <= |buf|
    ensures HoldsBack(buf, pos + First(buf[pos..]).len, moreMayFollow)
  {
    hide First, ErrorLen;
    forall k: nat | pos < k < pos + First(buf[pos..]).len ensures !Boundary(buf, k) {
      if Boundary(buf, k) { BoundaryRest(buf, pos, k); }
    }
  }

  /** A later boundary contains the element that starts at an earlier one. */
  lemma LaterCostsMore(buf: seq<Byte>, n: nat, m: nat)
    requires Boundary(buf, n) && Boundary(buf, m) && n < m
    ensures m <= |buf| && n + First(buf[n..]).len <= m
    ensures Cost(buf[..n]) + ElemCost(First(buf[n..])) <= Cost(buf[..m])
  {
    hide First, ElemCost;
    BoundaryBounded(buf, m);
    BoundaryRest(buf, n, m);
    Advance(buf, n);
    var next, head := n + First(buf[n..]).len, buf[..m];
    BoundaryOfPrefix(buf, next, m);
    CostSplit(head, next);
    assert head[..next] == buf[..next];
  }

  /** The contract of a cut leaves one answer. */
  lemma CutIsUnique(buf: seq<Byte>, max: nat, budget: nat, moreMayFollow: bool, n: nat, m: nat)
    requires Cut(buf, max, budget, moreMayFollow, n) && Cut(buf, max, budget, moreMayFollow, m)
    ensures n == m
  {
    hide First, ElemCost, ErrorLen;
    assert buf[0..] == buf;
    if n < m {
      LaterCostsMore(buf, n, m);
    } else if m < n {
      LaterCostsMore(buf, m, n);
    }
  }

  /** `utf8_chunk_len`: over each stretch of characters, then over the ill-formed run after it. */
  method Utf8ChunkLen(buf: seq<Byte>, max: nat, budget: nat, moreMayFollow: bool) returns (n: nat)
    ensures max == 0 ==> n == 0
    ensures max > 0 ==> Cut(buf, max, budget, moreMayFollow, n)
  {
    hide First, JsonEscapedLen, ErrorLen;
    if max == 0 {
      return 0;
    }
    var pos, cost := 0, 0;
    while pos < |buf|
      invariant pos <= |buf| && Boundary(buf, pos) && HoldsBack(buf, pos, moreMayFollow)
      invariant cost == Cost(buf[..pos]) && cost <= budget && pos <= max
    {
      while pos < |buf| && First(buf[pos..]).Char?
        invariant pos <= |buf| && Boundary(buf, pos) && HoldsBack(buf, pos, moreMayFollow)
        invariant cost == Cost(buf[..pos]) && cost <= budget && pos <= max
      {
        var c := First(buf[pos..]);
        Advance(buf, pos);
        HoldsBackStep(buf, pos, moreMayFollow);
        if pos + c.len > max || cost + JsonEscapedLen(c.scalar) > budget {
          return if pos == 0 then c.len else pos;
        }
        pos, cost := pos + c.len, cost + JsonEscapedLen(c.scalar);
      }
      if pos < |buf| {
        var bad := First(buf[pos..]);
        Advance(buf, pos);
        assert pos + bad.len == |buf| ==> buf[pos..][..bad.len] == buf[pos..];
        if pos + bad.len == |buf| && ErrorLen(buf[pos..]) == None && moreMayFollow {
          return pos;
        }
        HoldsBackStep(buf, pos, moreMayFollow);
        if pos + bad.len > max || cost + 3 > budget {
          return if pos == 0 then bad.len else pos;
        }
        pos, cost := pos + bad.len, cost + 3;
      }
    }
    return pos;
  }

  // ---- what a cut means ----

  /** A cut changes no decoding, keeps to the limits except for one element, and stops at
      once only for a held-back tail. */
  lemma CutPreservesMeaning(buf: seq<Byte>, max: nat, budget: nat, moreMayFollow: bool, n: nat)
    requires Cut(buf, max, budget, moreMayFollow, n)
    ensures Lossy(buf) == Lossy(buf[..n]) + Lossy(buf[n..])
    ensures n <= max || n <= 4
    ensures Cost(buf[..n]) <= budget || n <= 4
    ensures n == 0 && buf != [] ==> moreMayFollow && |buf| <= 3 && First(buf) == Bad(|buf|)
  {
    LossySplit(buf, n);
  }

  /** With no limit in the way, at most a truncated sequence of three bytes stays behind. */
  lemma OnlyTailHeldBack(buf: seq<Byte>, max: nat, budget: nat, n: nat)
    requires Cut(buf, max, budget, true, n) && |buf| <= max && 6 * |buf| <= budget
    ensures n == |buf| || Truncated(buf[n..])
    ensures |buf| - n <= 3
  {
    hide First, ElemCost, ErrorLen;
    if n < |buf| {
      Advance(buf, n);
      CostBound(buf[..n + First(buf[n..]).len]);
    }
  }

  /** With no limit in the way and nothing to hold back, a cut takes everything. */
  lemma NothingHeldBack(buf: seq<Byte>, max: nat, budget: nat, n: nat)
    requires Cut(buf, max, budget, false, n) && |buf| <= max && 6 * |buf| <= budget
    ensures n == |buf|
  {
    hide First, ElemCost, ErrorLen;
    if n < |buf| {
      Advance(buf, n);
      CostBound(buf[..n + First(buf[n..]).len]);
    }
  }

  // ---- cutting a piece of a well-formed stream ----

  /** A cut-off front of well-formed bytes starts with a character or is a truncated one. */
  lemma FrontOfValid(s: seq<Byte>, k: nat)
    requires Valid(s) && 0 < k <= |s|
    ensures First(s[..k]) == First(s) || Truncated(s[..k])
  {}

  lemma HoldsBackRest(buf: seq<Byte>, n: nat)
    requires buf != [] && First(buf).len <= n <= |buf| && HoldsBack(buf, n, true)
    ensures HoldsBack(buf[First(buf).len..], n - First(buf).len, true)
  {
    hide First, Truncated;
    var e, rest := First(buf), buf[First(buf).len..];
    forall k: nat | k < n - e.len && Boundary(rest, k) ensures !Truncated(rest[k..]) {
      assert Boundary(buf, e.len + k);
      assert buf[e.len + k..] == rest[k..];
    }
  }

  lemma {:induction false} CharsUpTo(s: seq<Byte>, k: nat, n: nat)
    requires Valid(s) && n <= k <= |s| && Boundary(s[..k], n)
    requires HoldsBack(s[..k], n, true)
    ensures Boundary(s, n) && Valid(s[..n])
  {
    hide First, Truncated;
    if n == 0 {
      assert s[..n] == [];
    } else {
      var w := s[..k];
      assert w[0..] == w && Boundary(w, 0);
      FrontOfValid(s, k);
      HoldsBackRest(w, n);
      var e, rest := First(s), s[First(s).len..];
      assert w[e.len..] == rest[..k - e.len];
      CharsUpTo(rest, k - e.len, n - e.len);
      FirstOfPrefix(s, n);
      assert s[..n][e.len..] == rest[..n - e.len];
    }
  }

  /** A cut of `stream[a..b]` ends on a character of the whole stream, whether later bytes
      are held back for or `b` is itself between two characters. */
  lemma CutOfValid(stream: seq<Byte>, a: nat, b: nat, max: nat, budget: nat, moreMayFollow: bool, n: nat)
    requires Valid(stream) && Boundary(stream, a) && a <= b <= |stream|
    requires moreMayFollow || Boundary(stream, b)
    requires Cut(stream[a..b], max, budget, moreMayFollow, n)
    ensures a + n <= b && Boundary(stream, a + n) && Valid(stream[a..a + n])
  {
    hide First, Truncated, ElemCost, Valid, Boundary;
    var s, k := stream[a..], b - a;
    assert s[..k] == stream[a..b];
    ValidSplit(stream, a);
    if moreMayFollow {
      CharsUpTo(s, k, n);
    } else {
      BoundaryRest(stream, a, b);
      ValidSplit(s, k);
      ValidSplit(s[..k], n);
      assert s[..k][..n] == s[..n];
      BoundaryExtends(s[..k], n, s[k..]);
      assert s[..k] + s[k..] == s;
    }
    BoundaryCompose(stream, a, n);
    assert s[..n] == stream[a..a + n];
  }

  /** Between two boundaries of a well-formed stream the bytes are well-formed. */
  lemma ValidBetween(stream: seq<Byte>, a: nat, b: nat)
    requires Valid(stream) && Boundary(stream, a) && Boundary(stream, b) && a <= b
    ensures b <= |stream| && Valid(stream[a..b])
  {
    hide First, Valid, Boundary;
    ValidSplit(stream, b);
    BoundaryOfPrefix(stream, a, b);
    ValidSplit(stream[..b], a);
    assert stream[..b][a..] == stream[a..b];
  }

  // ---- reading through a window ----

  lemma FirstVisible(s: seq<Byte>, m: nat)
    requires s != [] && m <= |s| && (m >= 4 || m == |s|)
    ensures m > 0 && First(s[..m]) == First(s)
  {
    if m == |s| { assert s[..m] == s; }
  }

  /** Three bytes of look-ahead show every element that starts before the limit in full:
      a boundary of the window is a boundary of the data. */
  lemma {:induction false} BoundaryThroughWindow(s: seq<Byte>, m: nat, n: nat)
    requires m <= |s| && n <= m && Boundary(s[..m], n)
    requires m == |s| || n + UTF8_LOOKAHEAD <= m
    ensures Boundary(s, n)
  {
    hide First;
    if n != 0 {
      FirstVisible(s, m);
      var e := First(s);
      assert s[..m][e.len..] == s[e.len..][..m - e.len];
      BoundaryThroughWindow(s[e.len..], m - e.len, n - e.len);
    }
  }
}
