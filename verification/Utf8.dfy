/** UTF-8 as the manager and the extension see it: RFC 3629 encoding, and the lossy
    decoding that replaces each maximal subpart of an ill-formed sequence by one U+FFFD
    (section 3.9 of the Unicode Standard). */
module Utf8 {
  type Byte = b: int | 0 <= b < 256
  /** A Unicode scalar value: a code point that is not a surrogate. */
  type Scalar = c: int | 0 <= c < 0xD800 || 0xE000 <= c < 0x110000

  const REPLACEMENT: Scalar := 0xFFFD

  /** One step of a decoder: a character, or a maximal ill-formed run. */
  datatype Elem = Char(len: nat, scalar: Scalar) | Bad(len: nat)

  predicate Continuation(b: Byte) {
    0x80 <= b < 0xC0
  }

  /** Bytes in a sequence that starts with `b`; 0 when no sequence does. */
  function Width(b: Byte): nat {
    if b < 0x80 then 1
    else if 0xC2 <= b < 0xE0 then 2
    else if 0xE0 <= b < 0xF0 then 3
    else if 0xF0 <= b < 0xF5 then 4
    else 0
  }

  /** The second bytes `lead` admits (no overlong form, no surrogate, nothing past U+10FFFF). */
  predicate Second(lead: Byte, b: Byte) {
    if lead == 0xE0 then 0xA0 <= b < 0xC0
    else if lead == 0xED then 0x80 <= b < 0xA0
    else if lead == 0xF0 then 0x90 <= b < 0xC0
    else if lead == 0xF4 then 0x80 <= b < 0x90
    else Continuation(b)
  }

  /** Append the six payload bits of a continuation byte. */
  function WithSixBits(high: int, b: Byte): int {
    high * 64 + (b - 0x80)
  }

  /** What a decoder takes off the front of `s`. */
  function First(s: seq<Byte>): (e: Elem)
    requires s != []
    ensures 1 <= e.len <= 4 && e.len <= |s|
    ensures e.Bad? ==> e.len <= 3
  {
    var w := Width(s[0]);
    if w == 0 then Bad(1)
    else if w == 1 then Char(1, s[0])
    else if |s| < 2 || !Second(s[0], s[1]) then Bad(1)
    else if w == 2 then Char(2, WithSixBits(s[0] - 0xC0, s[1]))
    else if |s| < 3 || !Continuation(s[2]) then Bad(2)
    else if w == 3 then Char(3, WithSixBits(WithSixBits(s[0] - 0xE0, s[1]), s[2]))
    else if |s| < 4 || !Continuation(s[3]) then Bad(3)
    else Char(4, WithSixBits(WithSixBits(WithSixBits(s[0] - 0xF0, s[1]), s[2]), s[3]))
  }

  function ScalarOf(e: Elem): Scalar {
    if e.Char? then e.scalar else REPLACEMENT
  }

  /** Lossy decoding of a byte string. */
  function Lossy(s: seq<Byte>): seq<Scalar> {
    if s == [] then [] else var e := First(s); [ScalarOf(e)] + Lossy(s[e.len..])
  }

  /** Well-formed UTF-8. */
  predicate Valid(s: seq<Byte>) {
    s != [] ==> var e := First(s); e.Char? && Valid(s[e.len..])
  }

  /** `n` falls between two elements of `s`. */
  predicate Boundary(s: seq<Byte>, n: nat) {
    n == 0 || (s != [] && var e := First(s); e.len <= n && Boundary(s[e.len..], n - e.len))
  }

  function EncodeScalar(c: Scalar): (r: seq<Byte>)
    ensures 1 <= |r| <= 4
  {
    if c < 0x80 then [c]
    else if c < 0x800 then [0xC0 + c / 64, 0x80 + c % 64]
    else if c < 0x10000 then [0xE0 + c / 4096, 0x80 + c / 64 % 64, 0x80 + c % 64]
    else [0xF0 + c / 262144, 0x80 + c / 4096 % 64, 0x80 + c / 64 % 64, 0x80 + c % 64]
  }

  function Encode(text: seq<Scalar>): seq<Byte> {
    if text == [] then [] else EncodeScalar(text[0]) + Encode(text[1..])
  }

  // ---- one element ----

  /** Bytes past an element do not change it, and it stands alone. */
  lemma FirstOfPrefix(s: seq<Byte>, n: nat)
    requires s != [] && First(s).len <= n <= |s|
    ensures First(s[..n]) == First(s)
  {}

  /** A complete character is recognised whatever follows. */
  lemma FirstExtends(s: seq<Byte>, t: seq<Byte>)
    requires s != [] && First(s).Char?
    ensures First(s + t) == First(s)
  {}

  lemma FirstOfEncoded(c: Scalar, t: seq<Byte>)
    ensures First(EncodeScalar(c) + t) == Char(|EncodeScalar(c)|, c)
  {
    assert c == c / 64 * 64 + c % 64;
    assert c / 64 == c / 4096 * 64 + c / 64 % 64;
    assert c / 4096 == c / 262144 * 64 + c / 4096 % 64;
  }

  /** The payload bits come apart again. */
  lemma SixBitDigits(a: nat, b: nat, d: nat, e: nat)
    requires b < 64 && d < 64 && e < 64
    ensures var c := a * 262144 + b * 4096 + d * 64 + e;
      c / 262144 == a && c / 4096 % 64 == b && c / 64 % 64 == d && c % 64 == e
  {
    var c := a * 262144 + b * 4096 + d * 64 + e;
    assert c / 64 == a * 4096 + b * 64 + d;
    assert c / 4096 == a * 64 + b;
  }

  lemma EncodeOfFirst(s: seq<Byte>)
    requires s != [] && First(s).Char?
    ensures EncodeScalar(First(s).scalar) == s[..First(s).len]
  {
    var w := First(s).len;
    if w == 1 {
      assert s[..1] == [s[0]];
    } else if w == 2 {
      SixBitDigits(0, 0, s[0] - 0xC0, s[1] - 0x80);
      assert s[..2] == [s[0], s[1]];
    } else if w == 3 {
      EncodeOfThree(s);
    } else {
      EncodeOfFour(s);
    }
  }

  lemma EncodeOfThree(s: seq<Byte>)
    requires |s| >= 3 && First(s).Char? && First(s).len == 3
    ensures EncodeScalar(First(s).scalar) == s[..3]
  {
    var a: nat, b: nat, d: nat := s[0] - 0xE0, s[1] - 0x80, s[2] - 0x80;
    var c: int := First(s).scalar;
    assert c == a * 4096 + b * 64 + d && 0x800 <= c < 0x10000;
    hide First;
    SixBitDigits(0, a, b, d);
    assert c / 4096 == a by { assert c / 4096 % 64 == a && c < 262144; }
    assert s[..3] == [s[0], s[1], s[2]];
  }

  lemma EncodeOfFour(s: seq<Byte>)
    requires |s| >= 4 && First(s).Char? && First(s).len == 4
    ensures EncodeScalar(First(s).scalar) == s[..4]
  {
    var a: nat, b: nat, d: nat, e: nat := s[0] - 0xF0, s[1] - 0x80, s[2] - 0x80, s[3] - 0x80;
    var c: int := First(s).scalar;
    assert c == a * 262144 + b * 4096 + d * 64 + e && 0x10000 <= c;
    hide First;
    SixBitDigits(a, b, d, e);
    assert s[..4] == [s[0], s[1], s[2], s[3]];
  }

  /** What the decoder replaces by one U+FFFD is a maximal subpart: a byte, or the start of some
      character's encoding that is not all there; and no longer front starts any encoding. */
  lemma BadIsMaximal(s: seq<Byte>)
    requires s != [] && First(s).Bad?
    ensures First(s).len == 1 || exists c: Scalar :: s[..First(s).len] < EncodeScalar(c)
    ensures forall c: Scalar, k: nat | First(s).len < k <= |s| :: !(s[..k] <= EncodeScalar(c))
  {
    var n := First(s).len;
    if n > 1 {
      var t := s[..n] + if n == 2 && Width(s[0]) == 4 then [0x80, 0x80] else [0x80];
      assert First(t).Char? && First(t).len == |t|;
      EncodeOfFirst(t);
      assert s[..n] < EncodeScalar(First(t).scalar);
    }
    forall c: Scalar, k: nat | n < k <= |s| ensures !(s[..k] <= EncodeScalar(c)) { NotTheStart(s, c, k); }
  }

  lemma NotTheStart(s: seq<Byte>, c: Scalar, k: nat)
    requires s != [] && First(s).Bad? && First(s).len < k <= |s|
    ensures !(s[..k] <= EncodeScalar(c))
  {
    var r := EncodeScalar(c);
    FirstOfEncoded(c, []);
    assert r + [] == r;
    hide EncodeScalar;
    if s[..k] <= r {
      forall i | 0 <= i < k ensures s[i] == r[i] { assert s[..k][i] == r[i]; }
      assert false;
    }
  }

  /** Characters from the examples in section 7 of RFC 3629. */
  lemma Examples()
    ensures EncodeScalar(0x41) == [0x41] && EncodeScalar(0x391) == [0xCE, 0x91]
    ensures EncodeScalar(0x2262) == [0xE2, 0x89, 0xA2] && EncodeScalar(0x65E5) == [0xE6, 0x97, 0xA5]
    ensures EncodeScalar(0x233B4) == [0xF0, 0xA3, 0x8E, 0xB4]
  {}

  // ---- boundaries ----

  lemma {:induction false} BoundaryBounded(s: seq<Byte>, n: nat)
    requires Boundary(s, n)
    ensures n <= |s|
  {
    hide First, EncodeScalar;
    if n != 0 { var e := First(s); BoundaryBounded(s[e.len..], n - e.len); }
  }

  lemma {:induction false} BoundaryAtEnd(s: seq<Byte>)
    ensures Boundary(s, |s|)
  {
    hide First, EncodeScalar;
    if s != [] { BoundaryAtEnd(s[First(s).len..]); }
  }

  lemma LossyCons(s: seq<Byte>)
    requires s != []
    ensures Lossy(s) == [ScalarOf(First(s))] + Lossy(s[First(s).len..])
  {}

  /** Cutting between two elements changes neither side's decoding. */
  lemma {:induction false} LossySplit(s: seq<Byte>, n: nat)
    requires Boundary(s, n)
    ensures n <= |s| && Lossy(s) == Lossy(s[..n]) + Lossy(s[n..])
  {
    hide First, ScalarOf;
    BoundaryBounded(s, n);
    if n == 0 {
      assert s[..n] == [] && s[n..] == s;
    } else {
      var e, rest := First(s), s[First(s).len..];
      LossySplit(rest, n - e.len);
      FirstOfPrefix(s, n);
      assert s[..n][e.len..] == rest[..n - e.len];
      assert s[n..] == rest[n - e.len..];
      LossyCons(s);
      LossyCons(s[..n]);
    }
  }

  lemma {:induction false} ValidSplit(s: seq<Byte>, n: nat)
    requires Boundary(s, n)
    ensures n <= |s| && (Valid(s) <==> Valid(s[..n]) && Valid(s[n..]))
  {
    hide First, EncodeScalar;
    BoundaryBounded(s, n);
    if n == 0 {
      assert s[..n] == [] && s[n..] == s;
    } else {
      var e, rest := First(s), s[First(s).len..];
      ValidSplit(rest, n - e.len);
      FirstOfPrefix(s, n);
      assert s[..n][e.len..] == rest[..n - e.len];
      assert s[n..] == rest[n - e.len..];
    }
  }

  lemma {:induction false} BoundaryCompose(s: seq<Byte>, n: nat, m: nat)
    requires Boundary(s, n) && n <= |s| && Boundary(s[n..], m)
    ensures Boundary(s, n + m)
  {
    hide First, EncodeScalar;
    if n == 0 {
      assert s[n..] == s;
    } else {
      var e := First(s);
      assert s[e.len..][n - e.len..] == s[n..];
      BoundaryCompose(s[e.len..], n - e.len, m);
    }
  }

  lemma {:induction false} BoundaryRest(s: seq<Byte>, n: nat, m: nat)
    requires Boundary(s, n) && Boundary(s, m) && n <= m
    ensures n <= |s| && Boundary(s[n..], m - n)
  {
    hide First, EncodeScalar;
    BoundaryBounded(s, n);
    if n == 0 {
      assert s[n..] == s;
    } else {
      var e := First(s);
      BoundaryRest(s[e.len..], n - e.len, m - e.len);
      assert s[e.len..][n - e.len..] == s[n..];
    }
  }

  lemma {:induction false} BoundaryOfPrefix(s: seq<Byte>, n: nat, k: nat)
    requires Boundary(s, n) && n <= k <= |s|
    ensures Boundary(s[..k], n)
  {
    hide First, EncodeScalar;
    if n != 0 {
      var e := First(s);
      FirstOfPrefix(s, k);
      BoundaryOfPrefix(s[e.len..], n - e.len, k - e.len);
      assert s[..k][e.len..] == s[e.len..][..k - e.len];
    }
  }

  /** A boundary reached through characters only is a boundary of every extension. */
  lemma {:induction false} BoundaryExtends(s: seq<Byte>, n: nat, t: seq<Byte>)
    requires n <= |s| && Boundary(s, n) && Valid(s[..n])
    ensures Boundary(s + t, n)
  {
    hide First, EncodeScalar;
    if n != 0 {
      var e := First(s);
      FirstOfPrefix(s, n);
      assert s[..n][e.len..] == s[e.len..][..n - e.len];
      assert First(s).Char?;
      FirstExtends(s, t);
      assert (s + t)[e.len..] == s[e.len..] + t;
      BoundaryExtends(s[e.len..], n - e.len, t);
    }
  }

  // ---- text and bytes ----

  /** Decoding undoes encoding, for every text. */
  lemma {:induction false} DecodeOfEncode(text: seq<Scalar>)
    ensures Valid(Encode(text)) && Lossy(Encode(text)) == text
  {
    if text != [] {
      var h, t := EncodeScalar(text[0]), Encode(text[1..]);
      FirstOfEncoded(text[0], t);
      DecodeOfEncode(text[1..]);
      assert (h + t)[|h|..] == t;
    }
  }

  /** Encoding undoes decoding exactly on well-formed bytes. */
  lemma {:induction false} EncodeOfDecode(s: seq<Byte>)
    ensures Encode(Lossy(s)) == s <==> Valid(s)
  {
    if Encode(Lossy(s)) == s { DecodeOfEncode(Lossy(s)); }
    if Valid(s) { EncodeOfValid(s); }
  }

  lemma {:induction false} EncodeOfValid(s: seq<Byte>)
    requires Valid(s)
    ensures Encode(Lossy(s)) == s
  {
    hide First, EncodeScalar;
    if s != [] {
      var e := First(s);
      var rest := s[e.len..];
      EncodeOfFirst(s);
      EncodeOfValid(rest);
      EncodeCons(e.scalar, Lossy(rest));
      assert s == s[..e.len] + rest;
    }
  }

  lemma EncodeCons(c: Scalar, text: seq<Scalar>)
    ensures Encode([c] + text) == EncodeScalar(c) + Encode(text)
  {
    assert ([c] + text)[1..] == text;
  }

  lemma {:induction false} EncodeConcat(a: seq<Scalar>, b: seq<Scalar>)
    ensures Encode(a + b) == Encode(a) + Encode(b)
  {
    if a == [] {
      assert a + b == b;
    } else {
      assert (a + b)[1..] == a[1..] + b;
      EncodeConcat(a[1..], b);
    }
  }

  lemma ReplacementWidth()
    ensures EncodeScalar(REPLACEMENT) == [0xEF, 0xBF, 0xBD]
  {}

  /** Re-encoding a lossy decoding never shrinks it, and keeps its length only when every
      ill-formed run was three bytes long. */
  ghost predicate OnlyWideRuns(s: seq<Byte>) {
    s != [] ==> var e := First(s); (e.Bad? ==> e.len == 3) && OnlyWideRuns(s[e.len..])
  }

  lemma {:induction false} ReencodedLength(s: seq<Byte>)
    ensures |s| <= |Encode(Lossy(s))|
    ensures |s| == |Encode(Lossy(s))| <==> OnlyWideRuns(s)
  {
    hide First, EncodeScalar;
    if s != [] {
      var e := First(s);
      ReencodedLength(s[e.len..]);
      EncodeCons(ScalarOf(e), Lossy(s[e.len..]));
      if e.Char? { EncodeOfFirst(s); } else { ReplacementWidth(); }
    }
  }

  // ---- character boundaries by looking at one byte ----

  /** Inside well-formed bytes a character starts exactly where no continuation byte is. */
  lemma {:induction false} BoundaryIffLead(s: seq<Byte>, i: nat)
    requires Valid(s) && i <= |s|
    ensures Boundary(s, i) <==> i == |s| || !Continuation(s[i])
  {
    hide First;
    if s == [] || i == 0 {
      if s != [] { LeadIsFirst(s); }
    } else {
      var e := First(s);
      LeadIsFirst(s);
      if i >= e.len { BoundaryIffLead(s[e.len..], i - e.len); }
    }
  }

  lemma LeadIsFirst(s: seq<Byte>)
    requires s != [] && First(s).Char?
    ensures !Continuation(s[0]) && forall k | 1 <= k < First(s).len :: Continuation(s[k])
  {}
}
