/** Length-prefixed frames: `FrameDecoder` and `encodeFrame` of extension/src/manager-client.ts,
    `read_frame` and `write_frame` of manager/src/proto.rs. */
module Frames {
  import opened Limits
  import opened Options
  import opened Utf8

  /** An unsigned 32 bit number, most significant byte first. */
  function BigEndian(n: nat): seq<Byte>
    requires n < 0x1_0000_0000
  {
    [n / 256 / 256 / 256, n / 256 / 256 % 256, n / 256 % 256, n % 256]
  }

  function ReadU32(s: seq<Byte>): nat
    requires |s| >= 4
  {
    var a: nat, b: nat, c: nat, d: nat := s[0], s[1], s[2], s[3];
    a * 0x100_0000 + b * 0x1_0000 + c * 256 + d
  }

  function EncodeFrame(payload: seq<Byte>): seq<Byte>
    requires |payload| < 0x1_0000_0000
  {
    BigEndian(|payload|) + payload
  }

  function EncodeAll(payloads: seq<seq<Byte>>): seq<Byte>
    requires Sendable(payloads)
  {
    if payloads == [] then [] else EncodeFrame(payloads[0]) + EncodeAll(payloads[1..])
  }

  predicate Sendable(payloads: seq<seq<Byte>>) {
    forall i | 0 <= i < |payloads| :: |payloads[i]| <= 4194304
  }

  /** What draining a buffer gives: the payloads, what is left, and whether it met a frame that
      is too large. */
  datatype Drained = Drained(payloads: seq<seq<Byte>>, rest: seq<Byte>, tooLarge: bool)

  function Drain(buf: seq<Byte>): Drained
    decreases |buf|
  {
    if |buf| < 4 then Drained([], buf, false)
    else
      var len := ReadU32(buf);
      if len > MAX_FRAME_SIZE then Drained([], buf, true)
      else if |buf| < 4 + len then Drained([], buf, false)
      else
        var more := Drain(buf[4 + len..]);
        more.(payloads := [buf[4..4 + len]] + more.payloads)
  }

  lemma LengthRoundTrip(n: nat, rest: seq<Byte>)
    requires n < 0x1_0000_0000
    ensures ReadU32(BigEndian(n) + rest) == n
  {
    var s := BigEndian(n) + rest;
    var a := n / 256;
    var b := a / 256;
    var c := b / 256;
    assert s[0] == c && s[1] == b % 256 && s[2] == a % 256 && s[3] == n % 256;
    assert n == 256 * a + n % 256 && a == 256 * b + a % 256 && b == 256 * c + b % 256;
  }

  /** Most significant byte first. */
  lemma NetworkOrder(a: Byte, b: Byte, c: Byte, d: Byte)
    ensures BigEndian(a * 0x100_0000 + b * 0x1_0000 + c * 0x100 + d) == [a, b, c, d]
  {
    var n: nat := a * 0x100_0000 + b * 0x1_0000 + c * 0x100 + d;
    assert n / 256 == a * 0x1_0000 + b * 0x100 + c;
    assert n / 256 / 256 == a * 0x100 + b;
  }

  /** Draining as the bytes arrive or all at once is the same. */
  lemma {:induction false} DrainSplits(a: seq<Byte>, b: seq<Byte>)
    ensures var d, all := Drain(a), Drain(a + b);
      if d.tooLarge then all.tooLarge && all.payloads == d.payloads
      else
        var later := Drain(d.rest + b);
        all == later.(payloads := d.payloads + later.payloads)
    decreases |a|
  {
    hide ReadU32;
    if |a| >= 4 {
      HeaderOfPrefix(a, b);
      var len := ReadU32(a);
      if len <= MAX_FRAME_SIZE && |a| >= 4 + len {
        var tail := a[4 + len..];
        DrainSplits(tail, b);
        assert (a + b)[4 + len..] == tail + b;
        assert (a + b)[4..4 + len] == a[4..4 + len];
        DrainStep(a);
        DrainStep(a + b);
        Associate([a[4..4 + len]], Drain(tail).payloads, Drain(Drain(tail).rest + b).payloads);
      } else {
        Associate([], [], Drain(a + b).payloads);
      }
    } else {
      Associate([], [], Drain(a + b).payloads);
    }
  }

  lemma DrainStep(s: seq<Byte>)
    requires |s| >= 4 && ReadU32(s) <= MAX_FRAME_SIZE && |s| >= 4 + ReadU32(s)
    ensures var more := Drain(s[4 + ReadU32(s)..]);
      Drain(s) == more.(payloads := [s[4..4 + ReadU32(s)]] + more.payloads)
  {}

  lemma Associate(a: seq<seq<Byte>>, b: seq<seq<Byte>>, c: seq<seq<Byte>>)
    ensures a + (b + c) == (a + b) + c && [] + c == c
  {}

  lemma HeaderOfPrefix(a: seq<Byte>, b: seq<Byte>)
    requires |a| >= 4
    ensures ReadU32(a + b) == ReadU32(a)
  {}

  /** Whole frames are given back in order, with whatever follows them. */
  lemma {:induction false} DrainOfFrames(payloads: seq<seq<Byte>>, tail: seq<Byte>)
    requires Sendable(payloads)
    ensures var d := Drain(EncodeAll(payloads) + tail);
      d == Drain(tail).(payloads := payloads + Drain(tail).payloads)
  {
    hide BigEndian, ReadU32, Drain;
    if payloads == [] {
      assert EncodeAll(payloads) + tail == tail;
      assert [] + Drain(tail).payloads == Drain(tail).payloads;
    } else {
      var p := payloads[0];
      var rest := EncodeAll(payloads[1..]) + tail;
      var buf := EncodeAll(payloads) + tail;
      assert Sendable(payloads[1..]);
      assert buf == BigEndian(|p|) + (p + rest);
      FourBytes(|p|);
      LengthRoundTrip(|p|, p + rest);
      assert buf[4 + |p|..] == rest && buf[4..4 + |p|] == p;
      DrainStep(buf);
      DrainOfFrames(payloads[1..], tail);
      assert payloads == [p] + payloads[1..];
      assert [p] + (payloads[1..] + Drain(tail).payloads) == payloads + Drain(tail).payloads;
    }
  }

  lemma FourBytes(n: nat)
    requires n < 0x1_0000_0000
    ensures |BigEndian(n)| == 4
  {}

  /** The start of a frame that has not all arrived, or nothing. */
  predicate Incomplete(tail: seq<Byte>) {
    |tail| < 4 || (ReadU32(tail) <= MAX_FRAME_SIZE && |tail| < 4 + ReadU32(tail))
  }

  class FrameDecoder {
    var buf: seq<Byte>

    constructor ()
      ensures buf == []
    {
      buf := [];
    }

    /** `push`. A frame that is too large throws: what was decoded before it in this call is
        then lost with the exception. */
    method Push(data: seq<Byte>) returns (messages: Option<seq<seq<Byte>>>)
      modifies this
      ensures var d := Drain(old(buf) + data);
        && (messages.None? <==> d.tooLarge)
        && (messages.Some? ==> messages.value == d.payloads)
        && buf == d.rest
    {
      hide ReadU32;
      buf := if |buf| == 0 then data else buf + data;
      ghost var all := Drain(buf);
      assert old(buf) + data == buf;
      var out: seq<seq<Byte>> := [];
      while |buf| >= 4
        invariant all == Drain(buf).(payloads := out + Drain(buf).payloads)
        decreases |buf|
      {
        var len := ReadU32(buf);
        if len > MAX_FRAME_SIZE {
          return None;
        }
        if |buf| < 4 + len {
          break;
        }
        var payload := buf[4..4 + len];
        out := out + [payload];
        buf := buf[4 + len..];
      }
      return Some(out);
    }

    method Reset()
      modifies this
      ensures buf == []
    {
      buf := [];
    }
  }

  function Concat(chunks: seq<seq<Byte>>): seq<Byte> {
    if chunks == [] then [] else chunks[0] + Concat(chunks[1..])
  }

  /** Over any way of splitting a stream of frames into reads, the decoder gives back exactly
      the payloads, in order, and keeps exactly the undecoded rest. */
  method Reassemble(chunks: seq<seq<Byte>>, ghost payloads: seq<seq<Byte>>, ghost tail: seq<Byte>)
      returns (messages: seq<seq<Byte>>, rest: seq<Byte>)
    requires Sendable(payloads) && Incomplete(tail)
    requires Concat(chunks) == EncodeAll(payloads) + tail
    ensures messages == payloads && rest == tail
  {
    hide Drain, ReadU32, BigEndian, Incomplete, EncodeAll;
    var decoder := new FrameDecoder();
    messages := [];
    var k := 0;
    WholeStream(payloads, tail);
    EmptyDrain();
    assert chunks[0..] == chunks && [] + Concat(chunks) == Concat(chunks);
    while k < |chunks|
      invariant k <= |chunks| && |messages| <= |payloads| && fresh(decoder)
      invariant Drain(decoder.buf + Concat(chunks[k..])) == Drained(payloads[|messages|..], tail, false)
      invariant messages == payloads[..|messages|]
      invariant Drain(decoder.buf) == Drained([], decoder.buf, false)
    {
      var data := chunks[k];
      assert Concat(chunks[k..]) == data + Concat(chunks[k + 1..]) by { assert chunks[k..][1..] == chunks[k + 1..]; }
      ghost var before := decoder.buf;
      assert before + Concat(chunks[k..]) == (before + data) + Concat(chunks[k + 1..]);
      DrainSplits(before + data, Concat(chunks[k + 1..]));
      RestIsDrained(before + data);
      var got := decoder.Push(data);
      assert payloads[|messages|..] == got.value + Drain(decoder.buf + Concat(chunks[k + 1..])).payloads;
      ghost var n := |messages|;
      assert payloads[n..][..|got.value|] == got.value && payloads[n..][|got.value|..] == payloads[n + |got.value|..];
      messages := messages + got.value;
      assert messages == payloads[..|messages|] by {
        assert payloads[..n + |got.value|] == payloads[..n] + payloads[n..][..|got.value|];
      }
      k := k + 1;
    }
    rest := decoder.buf;
    assert Concat(chunks[k..]) == [] && decoder.buf + [] == decoder.buf;
    assert payloads[|messages|..] == [];
  }

  lemma EmptyDrain()
    ensures Drain([]) == Drained([], [], false)
  {}

  lemma {:induction false} RestIsDrained(buf: seq<Byte>)
    ensures !Drain(buf).tooLarge ==> Drain(Drain(buf).rest) == Drained([], Drain(buf).rest, false)
    decreases |buf|
  {
    if |buf| >= 4 && ReadU32(buf) <= MAX_FRAME_SIZE && |buf| >= 4 + ReadU32(buf) {
      RestIsDrained(buf[4 + ReadU32(buf)..]);
    }
  }

  lemma WholeStream(payloads: seq<seq<Byte>>, tail: seq<Byte>)
    requires Sendable(payloads) && Incomplete(tail)
    ensures Drain(EncodeAll(payloads) + tail) == Drained(payloads, tail, false) && payloads[0..] == payloads
  {
    hide ReadU32, EncodeAll;
    DrainOfFrames(payloads, tail);
    assert Drain(tail) == Drained([], tail, false);
    assert payloads + [] == payloads;
  }

  /** A stream that announces a larger frame gives what came before it and then fails, however
      it is split. */
  lemma TooLargeIsRefused(payloads: seq<seq<Byte>>, len: nat, more: seq<Byte>)
    requires Sendable(payloads) && 4194304 < len < 0x1_0000_0000
    ensures var d := Drain(EncodeAll(payloads) + (BigEndian(len) + more)); d.tooLarge && d.payloads == payloads
  {
    hide BigEndian, ReadU32, EncodeAll;
    DrainOfFrames(payloads, BigEndian(len) + more);
    FourBytes(len);
    LengthRoundTrip(len, more);
    assert payloads + [] == payloads;
  }
}
