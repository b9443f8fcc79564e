/** Escaping as extension/src/wake.ts writes it and eval/lib/wake-adapter.ts reads it: both
    are chains of global replacements. */
module XmlText {
  /** `replace(/c/g, by)` for a single character. */
  function ReplaceChar(s: string, c: char, to: string): string {
    if s == "" then "" else (if s[0] == c then to else [s[0]]) + ReplaceChar(s[1..], c, to)
  }

  /** `replace(/pattern/g, by)` for a literal pattern. */
  function ReplaceAll(s: string, pattern: string, to: string): string
    requires pattern != ""
    decreases |s|
  {
    if s == "" then ""
    else if pattern <= s then to + ReplaceAll(s[|pattern|..], pattern, to)
    else [s[0]] + ReplaceAll(s[1..], pattern, to)
  }

  function EscapeXml(text: string): string {
    ReplaceChar(ReplaceChar(ReplaceChar(text, '&', "&amp;"), '<', "&lt;"), '>', "&gt;")
  }

  function EscapeXmlAttr(text: string): string {
    ReplaceChar(EscapeXml(text), '"', "&quot;")
  }

  function UnescapeXml(text: string): string {
    ReplaceAll(ReplaceAll(ReplaceAll(ReplaceAll(text, "&lt;", "<"), "&gt;", ">"), "&quot;", "\""), "&amp;", "&")
  }

  // ---- both chains work character by character ----

  predicate Special(c: char) {
    c == '&' || c == '<' || c == '>' || c == '"'
  }

  function Entity(c: char): (e: string)
    requires Special(c)
    ensures |e| >= 4 && e[0] == '&' && forall i | 1 <= i < |e| :: !Special(e[i])
  {
    match c
    case '&' => "&amp;"
    case '<' => "&lt;"
    case '>' => "&gt;"
    case _ => "&quot;"
  }

  /** The text with the characters of `on` written as entities. */
  function Coded(s: string, on: set<char>): string
    requires forall c | c in on :: Special(c)
  {
    if s == "" then "" else (if s[0] in on then Entity(s[0]) else [s[0]]) + Coded(s[1..], on)
  }

  lemma {:induction false} CodedNothing(s: string)
    ensures Coded(s, {}) == s
  {
    if s != "" { CodedNothing(s[1..]); }
  }

  /** One replacement of the escaping chain. */
  lemma {:induction false} EscapeMore(s: string, on: set<char>, c: char)
    requires (forall x | x in on :: Special(x)) && Special(c) && c !in on && (on != {} ==> c != '&')
    ensures ReplaceChar(Coded(s, on), c, Entity(c)) == Coded(s, on + {c})
  {
    if s != "" {
      EscapeMore(s[1..], on, c);
      var head := if s[0] in on then Entity(s[0]) else [s[0]];
      ReplaceCharSplit(head, Coded(s[1..], on), c, Entity(c));
      if s[0] in on {
        ReplaceCharAbsent(head, c, Entity(c));
      } else {
        assert ReplaceChar(head, c, Entity(c)) == (if s[0] == c then Entity(c) else head) + "";
      }
    }
  }

  lemma {:induction false} ReplaceCharSplit(a: string, b: string, c: char, to: string)
    ensures ReplaceChar(a + b, c, to) == ReplaceChar(a, c, to) + ReplaceChar(b, c, to)
  {
    if a == "" {
      assert a + b == b;
    } else {
      ReplaceCharSplit(a[1..], b, c, to);
      var head := if a[0] == c then to else [a[0]];
      assert (a + b)[1..] == a[1..] + b && (a + b)[0] == a[0];
      assert head + (ReplaceChar(a[1..], c, to) + ReplaceChar(b, c, to)) ==
             head + ReplaceChar(a[1..], c, to) + ReplaceChar(b, c, to);
    }
  }

  lemma {:induction false} ReplaceCharAbsent(s: string, c: char, to: string)
    requires c !in s
    ensures ReplaceChar(s, c, to) == s
  {
    if s != "" { ReplaceCharAbsent(s[1..], c, to); }
  }

  /** One replacement of the unescaping chain: only its own entities are touched. */
  lemma {:induction false} UnescapeMore(s: string, on: set<char>, c: char)
    requires (forall x | x in on :: Special(x)) && Special(c) && '&' in on && (c == '&' ==> on == {'&'})
    ensures ReplaceAll(Coded(s, on), Entity(c), [c]) == Coded(s, on - {c})
  {
    hide ReplaceAll, Entity;
    if s == "" {
      ReplaceAllEmpty(Entity(c), [c]);
    } else {
      UnescapeMore(s[1..], on, c);
      var rest := Coded(s[1..], on);
      if s[0] in on {
        if s[0] == c { ReplaceAllFound(Entity(c), rest, [c]); } else { ReplaceAllPasses(s[0], c, rest); }
      } else {
        ReplaceAllSkips([s[0]], rest, Entity(c), [c]);
      }
    }
  }

  lemma ReplaceAllEmpty(pattern: string, to: string)
    requires pattern != ""
    ensures ReplaceAll("", pattern, to) == ""
  {}

  lemma ReplaceAllFound(pattern: string, rest: string, to: string)
    requires pattern != ""
    ensures ReplaceAll(pattern + rest, pattern, to) == to + ReplaceAll(rest, pattern, to)
  {
    assert (pattern + rest)[|pattern|..] == rest;
  }

  /** Another character's entity stays. */
  lemma ReplaceAllPasses(a: char, c: char, rest: string)
    requires Special(a) && Special(c) && a != c
    ensures ReplaceAll(Entity(a) + rest, Entity(c), [c]) == Entity(a) + ReplaceAll(rest, Entity(c), [c])
  {
    hide Entity;
    var e := Entity(a);
    EntitiesApart(a, c, rest);
    ReplaceAllSkips(e[1..], rest, Entity(c), [c]);
    assert e + rest == [e[0]] + (e[1..] + rest) && (e + rest)[1..] == e[1..] + rest;
    assert e == [e[0]] + e[1..];
  }

  lemma EntitiesApart(a: char, b: char, rest: string)
    requires Special(a) && Special(b) && a != b
    ensures !(Entity(b) <= Entity(a) + rest)
  {
    assert Entity(a)[1] != Entity(b)[1];
    assert (Entity(a) + rest)[1] == Entity(a)[1];
  }

  lemma {:induction false} ReplaceAllSkips(w: string, s: string, pattern: string, to: string)
    requires pattern != "" && pattern[0] !in w
    ensures ReplaceAll(w + s, pattern, to) == w + ReplaceAll(s, pattern, to)
  {
    if w == "" {
      assert w + s == s;
    } else {
      ReplaceAllSkips(w[1..], s, pattern, to);
      assert (w + s)[1..] == w[1..] + s && (w + s)[0] == w[0];
      assert w == [w[0]] + w[1..];
    }
  }

  lemma EscapedIsCoded(s: string)
    ensures EscapeXml(s) == Coded(s, {'&', '<', '>'})
    ensures EscapeXmlAttr(s) == Coded(s, {'&', '<', '>', '"'})
  {
    hide ReplaceChar, Coded;
    CodedNothing(s);
    EscapeMore(s, {}, '&');
    EscapeMore(s, {} + {'&'}, '<');
    EscapeMore(s, {} + {'&'} + {'<'}, '>');
    EscapeMore(s, {} + {'&'} + {'<'} + {'>'}, '"');
    assert {} + {'&'} + {'<'} + {'>'} == {'&', '<', '>'};
    assert {} + {'&'} + {'<'} + {'>'} + {'"'} == {'&', '<', '>', '"'};
  }

  /** Every text survives being escaped and unescaped, as text and as an attribute. */
  lemma UnescapeOfEscape(s: string)
    ensures UnescapeXml(EscapeXml(s)) == s
    ensures UnescapeXml(EscapeXmlAttr(s)) == s
  {
    hide ReplaceAll, Coded, EscapeXml, EscapeXmlAttr;
    EscapedIsCoded(s);
    CodedNothing(s);
    var all := {'&', '<', '>', '"'};
    UnescapeMore(s, all, '<');
    UnescapeMore(s, all - {'<'}, '>');
    UnescapeMore(s, all - {'<'} - {'>'}, '"');
    assert all - {'<'} - {'>'} - {'"'} == {'&'};
    UnescapeMore(s, {'&'}, '&');
    assert {'&'} - {'&'} == {};
    var three := {'&', '<', '>'};
    UnescapeMore(s, three, '<');
    UnescapeMore(s, three - {'<'}, '>');
    assert three - {'<'} - {'>'} == {'&'};
    UnescapeMore(s, {'&'}, '"');
    assert {'&'} - {'"'} == {'&'};
  }

  /** Escaped text opens and closes no tag; an escaped attribute does not end its quotes. */
  lemma EscapedIsSafe(s: string)
    ensures '<' !in EscapeXml(s) && '>' !in EscapeXml(s)
    ensures '<' !in EscapeXmlAttr(s) && '>' !in EscapeXmlAttr(s) && '"' !in EscapeXmlAttr(s)
  {
    hide Coded, EscapeXml, EscapeXmlAttr;
    EscapedIsCoded(s);
    forall c | c in {'<', '>', '"'} ensures c !in Coded(s, {'&', '<', '>', '"'}) {
      CodedAvoids(s, {'&', '<', '>', '"'}, c);
    }
    forall c | c in {'<', '>'} ensures c !in Coded(s, {'&', '<', '>'}) {
      CodedAvoids(s, {'&', '<', '>'}, c);
    }
  }

  lemma {:induction false} CodedAvoids(s: string, on: set<char>, c: char)
    requires (forall x | x in on :: Special(x)) && c in on && c != '&'
    ensures c !in Coded(s, on)
  {
    if s != "" { CodedAvoids(s[1..], on, c); }
  }
}
