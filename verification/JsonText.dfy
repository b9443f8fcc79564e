/** What the JSON budget of a chunk measures: the text of its string as serde_json writes it, and
    as any reader reads it (section 7 of RFC 8259). */
module JsonText {
  import opened Limits
  import opened Numbers
  import opened Options
  import opened Utf8
  import opened ChunkCut
  import opened OutputStore

  const QUOTE: Scalar := 0x22
  const BACKSLASH: Scalar := 0x5C

  function HexDigit(n: nat): Scalar
    requires n < 16
  {
    if n < 10 then 0x30 + n else 0x61 + (n - 10)
  }

  /** A character inside a JSON string: the two-character escapes, `\\u00XX` for the other control
      characters, and itself. */
  function Escaped(c: Scalar): seq<Scalar> {
    if c == QUOTE || c == BACKSLASH then [BACKSLASH, c]
    else if c == 0x08 then [BACKSLASH, 0x62]
    else if c == 0x09 then [BACKSLASH, 0x74]
    else if c == 0x0A then [BACKSLASH, 0x6E]
    else if c == 0x0C then [BACKSLASH, 0x66]
    else if c == 0x0D then [BACKSLASH, 0x72]
    else if c < 0x20 then [BACKSLASH, 0x75, 0x30, 0x30, HexDigit(c / 16), HexDigit(c % 16)]
    else [c]
  }

  function JsonString(text: seq<Scalar>): seq<Scalar> {
    if text == [] then [] else Escaped(text[0]) + JsonString(text[1..])
  }

  // ---- reading ----

  function HexValue(c: Scalar): Option<nat> {
    if 0x30 <= c <= 0x39 then Some(c - 0x30)
    else if 0x41 <= c <= 0x46 then Some(c - 0x41 + 10)
    else if 0x61 <= c <= 0x66 then Some(c - 0x61 + 10)
    else None
  }

  function HexValues(s: seq<Scalar>): Option<nat> {
    if s == [] then Some(0)
    else
      match (HexValues(s[..|s| - 1]), HexValue(s[|s| - 1]))
      case (Some(high), Some(low)) => Some(16 * high + low)
      case _ => None
  }

  /** The UTF-16 unit of the escape `\\uXXXX` that `s` starts with. */
  function UnitAt(s: seq<Scalar>): Option<nat> {
    if |s| >= 6 && s[0] == BACKSLASH && s[1] == 0x75 then HexValues(s[2..6]) else None
  }

  /** The character that `s` starts with, and how much of `s` stands for it. Quotes, backslashes and
      control characters do not stand for themselves. */
  function ReadChar(s: seq<Scalar>): Option<(Scalar, nat)>
    requires s != []
    ensures ReadChar(s).Some? ==> 0 < ReadChar(s).value.1 <= |s|
  {
    if s[0] == QUOTE || s[0] < 0x20 then None
    else if s[0] != BACKSLASH then Some((s[0], 1))
    else if |s| < 2 then None
    else if s[1] in {QUOTE, BACKSLASH, 0x2F} then Some((s[1], 2))
    else if s[1] == 0x62 then Some((0x08, 2))
    else if s[1] == 0x66 then Some((0x0C, 2))
    else if s[1] == 0x6E then Some((0x0A, 2))
    else if s[1] == 0x72 then Some((0x0D, 2))
    else if s[1] == 0x74 then Some((0x09, 2))
    else
      match UnitAt(s)
      case None => None
      case Some(u) =>
        if u < 0xD800 || 0xE000 <= u < 0x1_0000 then Some((u, 6))
        else
          match UnitAt(s[6..])
          case None => None
          case Some(v) =>
            if 0xD800 <= u < 0xDC00 && 0xDC00 <= v < 0xE000
            then Some((0x1_0000 + (u - 0xD800) * 0x400 + (v - 0xDC00), 12)) else None
  }

  function ReadString(s: seq<Scalar>): Option<seq<Scalar>>
    decreases |s|
  {
    if s == [] then Some([])
    else
      match ReadChar(s)
      case None => None
      case Some(first) =>
        match ReadString(s[first.1..])
        case None => None
        case Some(rest) => Some([first.0] + rest)
  }

  lemma ReadEscaped(c: Scalar, rest: seq<Scalar>)
    ensures Escaped(c) != [] && ReadChar(Escaped(c) + rest) == Some((c, |Escaped(c)|))
  {
    var s := Escaped(c) + rest;
    if c < 0x20 && |Escaped(c)| == 6 {
      var digits := s[2..6];
      assert digits == [0x30, 0x30, HexDigit(c / 16), HexDigit(c % 16)];
      assert digits[..3] == [0x30, 0x30, HexDigit(c / 16)] && digits[..3][..2] == [0x30, 0x30];
      assert digits[..3][..2][..1] == [0x30] && [0x30][..0] == [];
      FourDigits(0x30, 0x30, HexDigit(c / 16), HexDigit(c % 16));
      assert 16 * (c / 16) + c % 16 == c;
    }
  }

  lemma FourDigits(a: Scalar, b: Scalar, d: Scalar, e: Scalar)
    requires HexValue(a).Some? && HexValue(b).Some? && HexValue(d).Some? && HexValue(e).Some?
    ensures HexValues([a, b, d, e]) ==
            Some(4096 * HexValue(a).value + 256 * HexValue(b).value + 16 * HexValue(d).value + HexValue(e).value)
  {
    assert [a][..0] == [] && [a, b][..1] == [a] && [a, b, d][..2] == [a, b] && [a, b, d, e][..3] == [a, b, d];
    assert HexValues([a]) == Some(HexValue(a).value);
    assert HexValues([a, b]) == Some(16 * HexValue(a).value + HexValue(b).value);
    assert HexValues([a, b, d]) == Some(256 * HexValue(a).value + 16 * HexValue(b).value + HexValue(d).value);
  }

  /** Whatever the text, a reader of its JSON string gets it back. */
  lemma {:induction false} ReadOfWritten(text: seq<Scalar>)
    ensures ReadString(JsonString(text)) == Some(text)
    decreases |text|
  {
    hide Escaped, ReadChar;
    if text != [] {
      var rest := JsonString(text[1..]);
      ReadEscaped(text[0], rest);
      ReadOfWritten(text[1..]);
      assert JsonString(text)[|Escaped(text[0])|..] == rest;
      assert text == [text[0]] + text[1..];
    }
  }

  // ---- measuring ----

  lemma {:induction false} AsciiLength(s: seq<Scalar>)
    requires forall i | 0 <= i < |s| :: s[i] < 0x80
    ensures |Encode(s)| == |s|
  {
    if s != [] { AsciiLength(s[1..]); }
  }

  /** The cost table is the length of what is written, in bytes. */
  lemma EscapedLength(c: Scalar)
    ensures JsonEscapedLen(c) == |Encode(Escaped(c))|
  {
    if c < 0x80 {
      AsciiLength(Escaped(c));
    } else {
      assert Escaped(c) == [c] + [];
      EncodeCons(c, []);
    }
  }

  lemma JsonCons(c: Scalar, rest: seq<Scalar>)
    ensures JsonString([c] + rest) == Escaped(c) + JsonString(rest)
  {
    assert ([c] + rest)[1..] == rest;
  }

  lemma {:induction false} JsonConcat(a: seq<Scalar>, b: seq<Scalar>)
    ensures JsonString(a + b) == JsonString(a) + JsonString(b)
  {
    hide Escaped;
    if a == [] {
      assert a + b == b;
    } else {
      JsonConcat(a[1..], b);
      assert a + b == [a[0]] + (a[1..] + b) && a == [a[0]] + a[1..];
      JsonCons(a[0], a[1..]);
      JsonCons(a[0], a[1..] + b);
    }
  }

  /** Bytes of the JSON string a chunk is sent as. */
  function JsonLength(s: seq<Byte>): nat {
    |Encode(JsonString(Lossy(s)))|
  }

  /** The cost of bytes is the length of the JSON string of their lossy decoding. */
  lemma {:induction false} CostIsJsonLength(s: seq<Byte>)
    ensures Cost(s) == JsonLength(s)
    decreases |s|
  {
    hide First, Escaped, JsonEscapedLen, EncodeScalar;
    if s != [] {
      var e := First(s);
      var c, rest := ScalarOf(e), s[e.len..];
      CostIsJsonLength(rest);
      assert Lossy(s) == [c] + Lossy(rest) && ([c] + Lossy(rest))[1..] == Lossy(rest);
      EncodeConcat(Escaped(c), JsonString(Lossy(rest)));
      EscapedLength(c);
      ReplacementCost();
    }
  }

  lemma ReplacementCost()
    ensures JsonEscapedLen(REPLACEMENT) == 3
  {
    ReplacementWidth();
  }

  /** A chunk's JSON string keeps to the budget, but for a first element of at most 4 bytes; and
      it stops only where one more element would not, or the byte limit, or a tail to be held
      back. */
  lemma CutKeepsBudget(buf: seq<Byte>, max: nat, budget: nat, moreMayFollow: bool, n: nat)
    requires Cut(buf, max, budget, moreMayFollow, n)
    ensures n <= |buf| && (JsonLength(buf[..n]) <= budget || (n <= 4 && JsonLength(buf[..n]) <= 6))
    ensures n < |buf| ==>
              var next := n + First(buf[n..]).len;
              && next <= |buf|
              && (JsonLength(buf[..next]) > budget || next > max || (moreMayFollow && Truncated(buf[n..])))
  {
    hide First, JsonString, Encode, Lossy, ErrorLen, ElemCost;
    CostIsJsonLength(buf[..n]);
    if buf != [] && n == First(buf).len { FirstCost(buf); }
    if n < |buf| {
      Advance(buf, n);
      CostIsJsonLength(buf[..n + First(buf[n..]).len]);
    }
  }

  lemma FirstCost(buf: seq<Byte>)
    requires buf != []
    ensures Cost(buf[..First(buf).len]) <= 6
  {
    hide First, ElemCost;
    FirstOfPrefix(buf, First(buf).len);
    var head := buf[..First(buf).len];
    assert head[First(head).len..] == [];
  }

  /** So a chunk cut for the manager's budget leaves 64 KiB of a 4 MiB frame for the rest. */
  lemma CutFitsFrame(buf: seq<Byte>, max: nat, moreMayFollow: bool, n: nat)
    requires Cut(buf, max, CHUNK_JSON_BUDGET, moreMayFollow, n)
    ensures n <= |buf| && JsonLength(buf[..n]) + 65536 <= 4194304
  {
    hide Cut, JsonLength;
    CutKeepsBudget(buf, max, CHUNK_JSON_BUDGET, moreMayFollow, n);
  }

  /** A page of output fits its frame; and it gives all that was asked for, up to a mebibyte, but
      for a character that this limit or the end of the output cuts, unless with the next
      element its JSON string would exceed the budget. */
  lemma PageIsFull(file: seq<Byte>, cursor: nat, maxBytes: nat, running: bool, next: nat)
    requires cursor <= |file| && maxBytes > 0 && Page(file, cursor, maxBytes, running, next)
    ensures next <= |file| && JsonLength(file[cursor..next]) + 65536 <= 4194304
    ensures next + 3 >= Min(|file|, cursor + Min(maxBytes, 1048576)) ||
            exists m: nat :: next < m <= next + 4 && m <= |file| && JsonLength(file[cursor..m]) > 4128768
  {
    hide JsonLength, Cut, First, ErrorLen;
    var cap := Min(maxBytes, MAX_OUTPUT_READ);
    var w, n := FileRange(file, cursor, cap + UTF8_LOOKAHEAD), next - cursor;
    CutFitsFrame(w, cap, running, n);
    CutKeepsBudget(w, cap, CHUNK_JSON_BUDGET, running, n);
    assert w[..n] == file[cursor..next];
    if n < |w| {
      var m := next + First(w[n..]).len;
      assert w[..m - cursor] == file[cursor..m];
    }
  }

  /** A mebibyte of NULs is cut at 688128, where its JSON string is just within the budget. */
  lemma NulsAreCut(buf: seq<Byte>, n: nat)
    requires |buf| == 1048576 && (forall i | 0 <= i < |buf| :: buf[i] == 0)
    requires Cut(buf, 1048576, CHUNK_JSON_BUDGET, false, n)
    ensures n == 688128
  {
    hide Cut, JsonLength;
    CutKeepsBudget(buf, 1048576, CHUNK_JSON_BUDGET, false, n);
    JsonOfNuls(buf[..n]);
    if n < |buf| {
      assert buf[n..][0] == 0;
      JsonOfNuls(buf[..n + 1]);
    }
  }

  lemma {:induction false} JsonOfNuls(s: seq<Byte>)
    requires forall i | 0 <= i < |s| :: s[i] == 0
    ensures JsonLength(s) == 6 * |s|
    decreases |s|
  {
    CostIsJsonLength(s);
    hide JsonLength;
    if s != [] {
      JsonOfNuls(s[1..]);
      CostIsJsonLength(s[1..]);
    }
  }
}
