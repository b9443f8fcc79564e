/** Keeping the tail of a text within a byte limit: `structuredOutput` of
    extension/src/bash-override.ts and `truncateTail`, `byteTail` of extension/src/format.ts.
    Texts are UTF-16, possibly with lone surrogates, and limits count UTF-8 bytes. */
module TailCut {
  import opened Utf8

  type Unit = u: int | 0 <= u < 0x1_0000

  const NEWLINE: Unit := 0x0A
  const STRUCTURED_OUTPUT_MAX_BYTES: nat := 1024 * 1024

  predicate High(u: Unit) {
    0xD800 <= u < 0xDC00
  }

  predicate Low(u: Unit) {
    0xDC00 <= u < 0xE000
  }

  /** The characters of a text; a lone surrogate is encoded as U+FFFD. */
  function Decode16(s: seq<Unit>): seq<Scalar> {
    if s == [] then []
    else if High(s[0]) && |s| > 1 && Low(s[1]) then
      var h: int, l: int := s[0], s[1];
      [0x1_0000 + (h - 0xD800) * 0x400 + (l - 0xDC00)] + Decode16(s[2..])
    else if High(s[0]) || Low(s[0]) then [REPLACEMENT] + Decode16(s[1..])
    else [s[0]] + Decode16(s[1..])
  }

  function Encode16(t: seq<Scalar>): seq<Unit> {
    if t == [] then []
    else if t[0] < 0x1_0000 then [t[0]] + Encode16(t[1..])
    else
      var c: int := t[0];
      [0xD800 + (c - 0x1_0000) / 0x400, 0xDC00 + (c - 0x1_0000) % 0x400] + Encode16(t[1..])
  }

  /** `Buffer.byteLength(s, "utf8")` */
  function Bytes(s: seq<Unit>): nat {
    |Encode(Decode16(s))|
  }

  lemma {:induction false} Decode16OfEncode16(t: seq<Scalar>)
    ensures Decode16(Encode16(t)) == t
  {
    if t != [] {
      Decode16OfEncode16(t[1..]);
      var s := Encode16(t);
      if t[0] < 0x1_0000 {
        assert s[1..] == Encode16(t[1..]);
      } else {
        assert s[2..] == Encode16(t[1..]);
      }
      assert t == [t[0]] + t[1..];
    }
  }

  /** Taking off the first unit never makes a text longer in bytes, even when it splits a
      surrogate pair; and every unit takes at least a byte. */
  lemma {:induction false} BytesOfTail(s: seq<Unit>)
    ensures s != [] ==> Bytes(s[1..]) <= Bytes(s)
    ensures |s| <= Bytes(s)
    decreases |s|
  {
    if s != [] {
      BytesOfTail(s[1..]);
      if High(s[0]) && |s| > 1 && Low(s[1]) {
        BytesOfTail(s[2..]);
        var h: int, l: int := s[0], s[1];
        var c: Scalar := 0x1_0000 + (h - 0xD800) * 0x400 + (l - 0xDC00);
        BytesCons(c, s[2..], s);
        BytesCons(REPLACEMENT, s[2..], s[1..]);
        assert s[1..][1..] == s[2..];
      } else if High(s[0]) || Low(s[0]) {
        BytesCons(REPLACEMENT, s[1..], s);
      } else {
        BytesCons(s[0], s[1..], s);
      }
    }
  }

  lemma BytesCons(c: Scalar, rest: seq<Unit>, s: seq<Unit>)
    requires Decode16(s) == [c] + Decode16(rest)
    ensures Bytes(s) == |EncodeScalar(c)| + Bytes(rest)
    ensures c == REPLACEMENT ==> |EncodeScalar(c)| == 3
    ensures c >= 0x1_0000 ==> |EncodeScalar(c)| == 4
  {
    EncodeCons(c, Decode16(rest));
    ReplacementWidth();
  }

  lemma {:induction false} BytesShrink(s: seq<Unit>, i: nat, j: nat)
    requires i <= j <= |s|
    ensures Bytes(s[j..]) <= Bytes(s[i..])
    decreases j - i
  {
    if i < j {
      BytesOfTail(s[i..]);
      assert s[i..][1..] == s[i + 1..];
      BytesShrink(s, i + 1, j);
    }
  }

  // ---- the binary search ----

  /** The least index whose suffix fits. */
  ghost predicate LargestTail(s: seq<Unit>, cap: nat, i: nat) {
    i <= |s| && Bytes(s[i..]) <= cap && forall j | 0 <= j < i :: Bytes(s[j..]) > cap
  }

  method StructuredOutput(text: seq<Unit>) returns (start: nat, truncated: bool)
    ensures LargestTail(text, 1048576, start)
    ensures truncated <==> Bytes(text) > 1048576
    ensures truncated <==> start > 0
  {
    hide Bytes;
    assert text[0..] == text;
    if Bytes(text) <= STRUCTURED_OUTPUT_MAX_BYTES {
      return 0, false;
    }
    var lo := if |text| > STRUCTURED_OUTPUT_MAX_BYTES then |text| - STRUCTURED_OUTPUT_MAX_BYTES else 0;
    var hi := |text|;
    forall j | 0 <= j < lo ensures Bytes(text[j..]) > STRUCTURED_OUTPUT_MAX_BYTES { BytesOfTail(text[j..]); }
    NothingLeft(text);
    while lo < hi
      invariant 0 <= lo <= hi <= |text|
      invariant forall j | 0 <= j < lo :: Bytes(text[j..]) > STRUCTURED_OUTPUT_MAX_BYTES
      invariant Bytes(text[hi..]) <= STRUCTURED_OUTPUT_MAX_BYTES
    {
      var mid := (lo + hi) / 2;
      if Bytes(text[mid..]) <= STRUCTURED_OUTPUT_MAX_BYTES {
        hi := mid;
      } else {
        forall j | lo <= j <= mid ensures Bytes(text[j..]) > STRUCTURED_OUTPUT_MAX_BYTES { BytesShrink(text, j, mid); }
        lo := mid + 1;
      }
    }
    return lo, true;
  }

  lemma NothingLeft(s: seq<Unit>)
    ensures Bytes(s[|s|..]) == 0
  {}

  // ---- lines ----

  function LineLen(s: seq<Unit>): (n: nat)
    ensures n <= |s|
  {
    if s == [] || s[0] == NEWLINE then 0 else 1 + LineLen(s[1..])
  }

  /** `split("\n")` */
  function Split(s: seq<Unit>): (lines: seq<seq<Unit>>)
    ensures lines != []
    decreases |s|
  {
    var n := LineLen(s);
    if n == |s| then [s] else [s[..n]] + Split(s[n + 1..])
  }

  /** `join("\n")` */
  function JoinLines(lines: seq<seq<Unit>>): seq<Unit> {
    if lines == [] then [] else if |lines| == 1 then lines[0] else lines[0] + [NEWLINE] + JoinLines(lines[1..])
  }

  lemma {:induction false} LineEnds(s: seq<Unit>)
    ensures LineLen(s) < |s| ==> s[LineLen(s)] == NEWLINE
    ensures forall i | 0 <= i < LineLen(s) :: s[i] != NEWLINE
  {
    if s != [] && s[0] != NEWLINE { LineEnds(s[1..]); }
  }

  lemma {:induction false} JoinOfSplit(s: seq<Unit>)
    ensures JoinLines(Split(s)) == s
    decreases |s|
  {
    hide LineLen;
    var n := LineLen(s);
    LineEnds(s);
    if n < |s| {
      JoinOfSplit(s[n + 1..]);
      assert Split(s) == [s[..n]] + Split(s[n + 1..]);
      assert Split(s)[1..] == Split(s[n + 1..]);
      assert s == s[..n] + [NEWLINE] + s[n + 1..];
    }
  }

  /** A line end is no part of a surrogate pair, so lines add up. */
  lemma {:induction false} BytesOfLine(a: seq<Unit>, b: seq<Unit>)
    ensures Bytes(a + [NEWLINE] + b) == Bytes(a) + 1 + Bytes(b)
    decreases |a|
  {
    var s := a + [NEWLINE] + b;
    if a == [] {
      assert s[1..] == b;
      BytesCons(NEWLINE, b, s);
    } else if High(a[0]) && |a| > 1 && Low(a[1]) {
      BytesOfLine(a[2..], b);
      assert s[2..] == a[2..] + [NEWLINE] + b;
      var h: int, l: int := a[0], a[1];
      var c: Scalar := 0x1_0000 + (h - 0xD800) * 0x400 + (l - 0xDC00);
      BytesCons(c, a[2..], a);
      BytesCons(c, s[2..], s);
    } else {
      BytesOfLine(a[1..], b);
      assert s[1..] == a[1..] + [NEWLINE] + b;
      assert s[0] == a[0] && (|s| > 1 && Low(s[1]) ==> |a| > 1 && Low(a[1]));
      var c := if High(a[0]) || Low(a[0]) then REPLACEMENT else a[0];
      BytesCons(c, a[1..], a);
      BytesCons(c, s[1..], s);
    }
  }

  lemma BytesOfJoin(lines: seq<seq<Unit>>, k: nat)
    requires k < |lines|
    ensures Bytes(JoinLines(lines[k..])) ==
            Bytes(lines[k]) + if k + 1 < |lines| then 1 + Bytes(JoinLines(lines[k + 1..])) else 0
  {
    hide Bytes;
    if k + 1 < |lines| {
      assert lines[k..][1..] == lines[k + 1..];
      BytesOfLine(lines[k], JoinLines(lines[k + 1..]));
    }
  }

  ghost predicate Fits(lines: seq<seq<Unit>>, k: nat, maxLines: nat, maxBytes: nat)
    requires k < |lines|
  {
    |lines| - k <= maxLines && Bytes(JoinLines(lines[k..])) <= maxBytes
  }

  lemma {:induction false} FitsLater(lines: seq<seq<Unit>>, j: nat, k: nat, maxLines: nat, maxBytes: nat)
    requires j <= k < |lines| && Fits(lines, j, maxLines, maxBytes)
    ensures Fits(lines, k, maxLines, maxBytes)
    decreases k - j
  {
    hide Bytes, JoinLines;
    if j < k {
      BytesOfJoin(lines, j);
      FitsLater(lines, j + 1, k, maxLines, maxBytes);
    }
  }

  /** The longest run of trailing lines within both limits. */
  ghost predicate LongestRun(lines: seq<seq<Unit>>, k: nat, maxLines: nat, maxBytes: nat) {
    k < |lines| && Fits(lines, k, maxLines, maxBytes) && forall j | 0 <= j < k :: !Fits(lines, j, maxLines, maxBytes)
  }

  /** The longest suffix of whole characters within the limit. */
  ghost predicate LongestChars(t: seq<Scalar>, m: nat, maxBytes: nat) {
    m <= |t| && |Encode(t[m..])| <= maxBytes && forall j | 0 <= j < m :: |Encode(t[j..])| > maxBytes
  }

  method TruncateTail(text: seq<Unit>, maxLines: nat, maxBytes: nat)
    returns (tail: seq<Unit>, truncated: bool, ghost k: nat)
    ensures k <= |Split(text)|
    ensures !truncated <==> |Split(text)| <= maxLines && Bytes(text) <= maxBytes
    ensures !truncated ==> tail == text
    ensures Bytes(tail) <= maxBytes
    ensures k < |Split(text)| ==> LongestRun(Split(text), k, maxLines, maxBytes) && tail == JoinLines(Split(text)[k..])
    ensures k == |Split(text)| ==>
              && (forall j | 0 <= j < k :: !Fits(Split(text), j, maxLines, maxBytes))
              && var last := Split(text)[k - 1];
                 var chars := Decode16(last);
                 if Bytes(last) <= maxBytes then tail == last
                 else exists m: nat :: LongestChars(chars, m, maxBytes) && tail == Encode16(chars[m..])
  {
    hide Bytes, JoinLines;
    var lines := Split(text);
    JoinOfSplit(text);
    assert lines[0..] == lines;
    if |lines| <= maxLines && Bytes(text) <= maxBytes {
      return text, false, 0;
    }
    var kept: seq<seq<Unit>> := [];
    var bytes := 0;
    var i := |lines|;
    while i > 0
      invariant 0 <= i <= |lines| && kept == lines[i..]
      invariant bytes == if i < |lines| then Bytes(JoinLines(kept)) else 0
      invariant i < |lines| ==> Fits(lines, i, maxLines, maxBytes)
    {
      var lineBytes := Bytes(lines[i - 1]) + if |kept| > 0 then 1 else 0;
      BytesOfJoin(lines, i - 1);
      if |kept| >= maxLines || bytes + lineBytes > maxBytes {
        break;
      }
      kept := [lines[i - 1]] + kept;
      bytes := bytes + lineBytes;
      i := i - 1;
    }
    k := i;
    forall j | 0 <= j < i ensures !Fits(lines, j, maxLines, maxBytes) {
      if Fits(lines, j, maxLines, maxBytes) { FitsLater(lines, j, i - 1, maxLines, maxBytes); }
    }
    if |kept| == 0 {
      ghost var m: nat;
      var last;
      last, m := ByteTail(lines[|lines| - 1], maxBytes);
      kept := [last];
      JoinOne(last);
      return last, true, k;
    }
    assert i == 0 ==> JoinLines(lines[0..]) == text;
    return JoinLines(kept), true, k;
  }

  lemma JoinOne(line: seq<Unit>)
    ensures JoinLines([line]) == line
  {}

  // ---- characters ----

  /** Every boundary of an encoded text is between two of its characters. */
  lemma {:induction false} BoundaryIsChar(t: seq<Scalar>, n: nat) returns (m: nat)
    requires Boundary(Encode(t), n)
    ensures m <= |t| && n <= |Encode(t)| && Encode(t)[n..] == Encode(t[m..]) && |Encode(t[..m])| == n
    decreases |t|
  {
    hide EncodeScalar, First;
    BoundaryBounded(Encode(t), n);
    if n == 0 {
      m := 0;
      assert t[0..] == t && Encode(t)[0..] == Encode(t);
    } else {
      assert Encode([]) == [];
      var c, rest := t[0], t[1..];
      assert t == [c] + rest;
      EncodeCons(c, rest);
      FirstOfEncoded(c, Encode(rest));
      var w := |EncodeScalar(c)|;
      assert Encode(t)[w..] == Encode(rest);
      var m' := BoundaryIsChar(rest, n - w);
      m := m' + 1;
      assert t[m..] == rest[m'..] && Encode(t)[n..] == Encode(rest)[n - w..];
      assert t[..m] == [c] + rest[..m'];
      EncodeCons(c, rest[..m']);
    }
  }

  lemma {:induction false} CharIsBoundary(t: seq<Scalar>, m: nat)
    requires m <= |t|
    ensures Boundary(Encode(t), |Encode(t[..m])|) && |Encode(t[..m])| + |Encode(t[m..])| == |Encode(t)|
    decreases m
  {
    hide EncodeScalar, First;
    assert t[..m] + t[m..] == t;
    EncodeConcat(t[..m], t[m..]);
    if m > 0 {
      var c, rest := t[0], t[1..];
      assert t == [c] + rest && t[..m] == [c] + rest[..m - 1];
      EncodeCons(c, rest);
      EncodeCons(c, rest[..m - 1]);
      FirstOfEncoded(c, Encode(rest));
      CharIsBoundary(rest, m - 1);
      assert Encode(t)[|EncodeScalar(c)|..] == Encode(rest);
    }
  }

  method ByteTail(text: seq<Unit>, maxBytes: nat) returns (tail: seq<Unit>, ghost m: nat)
    ensures Bytes(text) <= maxBytes ==> tail == text
    ensures Bytes(text) > maxBytes ==>
              LongestChars(Decode16(text), m, maxBytes) && tail == Encode16(Decode16(text)[m..])
    ensures Bytes(tail) <= maxBytes
  {
    hide Boundary, Valid, Lossy, Encode, Decode16, Encode16;
    ghost var t := Decode16(text);
    var buf := Encode(Decode16(text));
    m := 0;
    if |buf| <= maxBytes {
      return text, m;
    }
    DecodeOfEncode(t);
    var start := |buf| - maxBytes;
    while start < |buf| && Continuation(buf[start])
      invariant |buf| - maxBytes <= start <= |buf|
      invariant forall i | |buf| - maxBytes <= i < start :: !Boundary(buf, i)
    {
      BoundaryIffLead(buf, start);
      start := start + 1;
    }
    BoundaryIffLead(buf, start);
    m := BoundaryIsChar(t, start);
    DecodeOfEncode(t[m..]);
    forall j | 0 <= j < m ensures |Encode(t[j..])| > maxBytes {
      CharIsBoundary(t, j);
      CharIsBoundary(t, m);
      PrefixShorter(t, j, m);
    }
    tail := Encode16(Lossy(buf[start..]));
    Decode16OfEncode16(t[m..]);
  }

  lemma PrefixShorter(t: seq<Scalar>, j: nat, m: nat)
    requires j < m <= |t|
    ensures |Encode(t[..j])| < |Encode(t[..m])|
  {
    assert t[..m] == t[..j] + ([t[j]] + t[j + 1..m]);
    EncodeConcat(t[..j], [t[j]] + t[j + 1..m]);
    EncodeCons(t[j], t[j + 1..m]);
  }
}
