/** The regular expressions of eval/lib/wake-adapter.ts as scanners. Each of their parts ends at
    a character the part cannot contain (an attribute at its closing quote, a name at its equals
    sign, a tag at its angle bracket), so a leftmost match has no choices to retry. */
module XmlTags {
  import opened Options
  import opened XmlText

  /** `[\w-]` */
  predicate NameChar(c: char) {
    'a' <= c <= 'z' || 'A' <= c <= 'Z' || '0' <= c <= '9' || c == '_' || c == '-'
  }

  /** `\s` */
  predicate White(c: char) {
    || '\t' <= c <= '\r' || c == ' ' || c == '\U{A0}' || c == '\U{1680}' || '\U{2000}' <= c <= '\U{200A}'
    || c == '\U{2028}' || c == '\U{2029}' || c == '\U{202F}' || c == '\U{205F}' || c == '\U{3000}' || c == '\U{FEFF}'
  }

  function NameLen(s: string): (n: nat)
    ensures n <= |s|
  {
    if s == "" || !NameChar(s[0]) then 0 else 1 + NameLen(s[1..])
  }

  function WhiteLen(s: string): (n: nat)
    ensures n <= |s|
  {
    if s == "" || !White(s[0]) then 0 else 1 + WhiteLen(s[1..])
  }

  /** Up to the next quote, or to the end. */
  function QuoteLen(s: string): (n: nat)
    ensures n <= |s|
    ensures n < |s| ==> s[n] == '"'
  {
    if s == "" || s[0] == '"' then 0 else 1 + QuoteLen(s[1..])
  }

  /** `[\w-]+="[^"]*"` at the start: name, value and length. */
  function Pair(s: string): (p: Option<(string, string, nat)>)
    ensures p.Some? ==> 4 <= p.value.2 <= |s|
  {
    var n := NameLen(s);
    if n == 0 || !("=\"" <= s[n..]) then None
    else
      var t := s[n + 2..];
      var q := QuoteLen(t);
      if q == |t| then None else Some((s[..n], t[..q], n + q + 3))
  }

  /** `\s+[\w-]+="[^"]*"` at the start: its length, or 0. */
  function AttrLen(s: string): (n: nat)
    ensures n <= |s|
  {
    var w := WhiteLen(s);
    if w == 0 then 0 else match Pair(s[w..]) case Some((_, _, n)) => w + n case None => 0
  }

  function AttrsLen(s: string): (n: nat)
    ensures n <= |s|
    decreases |s|
  {
    var n := AttrLen(s);
    if n == 0 then 0 else n + AttrsLen(s[n..])
  }

  /** An opening tag `<name …>` at the start: its attributes' text, and its length. */
  function OpenTag(s: string, name: string): (tag: Option<(string, nat)>)
    ensures tag.Some? ==> 1 <= tag.value.1 <= |s|
  {
    if !("<" + name <= s) then None
    else
      var t := s[1 + |name|..];
      var a := AttrsLen(t);
      var w := WhiteLen(t[a..]);
      if a + w < |t| && t[a + w] == '>' then Some((t[..a], 1 + |name| + a + w + 1)) else None
  }

  function Index(s: string, pattern: string): (i: Option<nat>)
    ensures i.Some? ==> i.value + |pattern| <= |s|
  {
    if pattern <= s then Some(0)
    else if s == "" then None
    else match Index(s[1..], pattern) case Some(i) => Some(i + 1) case None => None
  }

  function LastIndex(s: string, pattern: string): (i: Option<nat>)
    ensures i.Some? ==> i.value + |pattern| <= |s|
  {
    if s == "" then if pattern == "" then Some(0) else None
    else
      match LastIndex(s[1..], pattern)
      case Some(i) => Some(i + 1)
      case None => if pattern <= s then Some(0) else None
  }

  datatype Element = Element(attrs: string, inner: string)

  /** `elements`: leftmost, not overlapping, each up to the first closing tag. */
  function Elements(s: string, name: string): seq<Element>
    decreases |s|
  {
    if s == "" then []
    else
      match OpenTag(s, name)
      case None => Elements(s[1..], name)
      case Some((attrs, n)) =>
        match Index(s[n..], "</" + name + ">")
        case None => Elements(s[1..], name)
        case Some(i) => [Element(attrs, s[n..][..i])] + Elements(s[n + i + |name| + 3..], name)
  }

  /** `parseAttrs`, in the order found; a later attribute of the same name wins. */
  function ParseAttrs(s: string): seq<(string, string)>
    decreases |s|
  {
    if s == "" then []
    else
      match Pair(s)
      case Some((k, v, n)) => [(k, UnescapeXml(v))] + ParseAttrs(s[n..])
      case None => ParseAttrs(s[1..])
  }

  function Get(attrs: seq<(string, string)>, key: string): Option<string> {
    if attrs == [] then None
    else
      match Get(attrs[1..], key)
      case Some(v) => Some(v)
      case None => if attrs[0].0 == key then Some(attrs[0].1) else None
  }

  function Child(text: string, name: string): Option<string> {
    var es := Elements(text, name);
    if es == [] then None else Some(UnescapeXml(es[0].inner))
  }

  /** `<pi-famulus-wake kind="…" …>`: the envelope always carries its kind first. */
  function RootTag(s: string, name: string): (tag: Option<(string, nat)>)
    ensures tag.Some? ==> tag == OpenTag(s, name)
  {
    match OpenTag(s, name)
    case None => None
    case Some((attrs, n)) => if "kind=\"" <= attrs[WhiteLen(attrs)..] then Some((attrs, n)) else None
  }

  /** The leftmost envelope, up to the last closing tag. */
  function Root(s: string, name: string): Option<Element> {
    if s == "" then None
    else
      match RootTag(s, name)
      case None => Root(s[1..], name)
      case Some((attrs, n)) =>
        match LastIndex(s[n..], "</" + name + ">")
        case None => Root(s[1..], name)
        case Some(i) => Some(Element(attrs, s[n..][..i]))
  }

  // ---- what a printer that escapes its texts produces ----

  function AttrText(attrs: seq<(string, string)>): string {
    if attrs == [] then "" else " " + attrs[0].0 + "=\"" + attrs[0].1 + "\"" + AttrText(attrs[1..])
  }

  function Open(name: string, attrs: seq<(string, string)>): string {
    "<" + name + AttrText(attrs) + ">"
  }

  function Close(name: string): string {
    "</" + name + ">"
  }

  function Wrapped(name: string, attrs: seq<(string, string)>, inner: string): string {
    Open(name, attrs) + inner + Close(name)
  }

  predicate IsName(s: string) {
    s != "" && forall i | 0 <= i < |s| :: NameChar(s[i])
  }

  predicate PlainAttr(a: (string, string)) {
    IsName(a.0) && '"' !in a.1 && '<' !in a.1 && '>' !in a.1
  }

  predicate PlainAttrs(attrs: seq<(string, string)>) {
    forall i | 0 <= i < |attrs| :: PlainAttr(attrs[i])
  }

  lemma {:induction false} NameLenOf(name: string, rest: string)
    requires (forall i | 0 <= i < |name| :: NameChar(name[i])) && (rest == "" || !NameChar(rest[0]))
    ensures NameLen(name + rest) == |name|
  {
    if name == "" {
      assert name + rest == rest;
    } else {
      NameLenOf(name[1..], rest);
      assert (name + rest)[1..] == name[1..] + rest;
    }
  }

  lemma {:induction false} QuoteLenOf(v: string, rest: string)
    requires '"' !in v
    ensures QuoteLen(v + "\"" + rest) == |v|
  {
    if v != "" {
      QuoteLenOf(v[1..], rest);
      assert (v + "\"" + rest)[1..] == v[1..] + "\"" + rest;
    }
  }

  function PairText(a: (string, string)): string {
    a.0 + "=\"" + a.1 + "\""
  }

  lemma PairOf(a: (string, string), rest: string)
    requires PlainAttr(a)
    ensures Pair(PairText(a) + rest) == Some((a.0, a.1, |PairText(a)|))
  {
    hide NameLen, QuoteLen;
    var s := PairText(a) + rest;
    var tail := "=\"" + a.1 + "\"" + rest;
    assert s == a.0 + tail;
    NameLenOf(a.0, tail);
    assert s[|a.0|..] == tail && tail[2..] == a.1 + "\"" + rest;
    assert s[|a.0| + 2..] == tail[2..];
    QuoteLenOf(a.1, rest);
    assert tail[2..][..|a.1|] == a.1;
  }

  lemma AttrTextCons(attrs: seq<(string, string)>)
    requires attrs != []
    ensures AttrText(attrs) == " " + PairText(attrs[0]) + AttrText(attrs[1..])
  {}

  lemma AttrLenOf(a: (string, string), rest: string)
    requires PlainAttr(a)
    ensures AttrLen(" " + PairText(a) + rest) == 1 + |PairText(a)|
  {
    hide Pair, NameChar;
    var s := " " + PairText(a) + rest;
    assert s[1..] == PairText(a) + rest;
    assert s[1] == a.0[0] && NameChar(a.0[0]);
    NoWhiteName(a.0[0]);
    assert WhiteLen(s) == 1 by { assert WhiteLen(s[1..]) == 0; }
    PairOf(a, rest);
  }

  lemma NoWhiteName(c: char)
    requires NameChar(c)
    ensures !White(c) && c != '"' && c != '=' && c != '<' && c != '>' && c != '/'
  {}

  /** The attributes are scanned to their end. */
  lemma {:induction false} AttrsLenOf(attrs: seq<(string, string)>, rest: string)
    requires PlainAttrs(attrs) && rest != "" && rest[0] == '>'
    ensures AttrsLen(AttrText(attrs) + rest) == |AttrText(attrs)|
  {
    hide AttrLen, PlainAttr;
    var s := AttrText(attrs) + rest;
    if attrs == [] {
      assert s == rest;
      NoAttr(rest);
    } else {
      var more := AttrText(attrs[1..]) + rest;
      AttrTextCons(attrs);
      assert PlainAttr(attrs[0]);
      assert s == " " + PairText(attrs[0]) + more;
      AttrLenOf(attrs[0], more);
      assert s[1 + |PairText(attrs[0])|..] == more;
      AttrsLenOf(attrs[1..], rest);
    }
  }

  lemma NoAttr(rest: string)
    requires rest != "" && rest[0] == '>'
    ensures AttrLen(rest) == 0 && WhiteLen(rest) == 0
  {}

  /** Parsing a tag's attributes undoes printing them. */
  lemma {:induction false} ParseAttrsOf(attrs: seq<(string, string)>)
    requires PlainAttrs(attrs)
    ensures ParseAttrs(AttrText(attrs)) == Unescaped(attrs)
  {
    hide Pair, PlainAttr, UnescapeXml;
    if attrs != [] {
      var s, more := AttrText(attrs), AttrText(attrs[1..]);
      AttrTextCons(attrs);
      assert PlainAttr(attrs[0]);
      BlankIsNoPair(s);
      assert s[1..] == PairText(attrs[0]) + more;
      PairOf(attrs[0], more);
      assert s[1..][|PairText(attrs[0])|..] == more;
      ParseAttrsOf(attrs[1..]);
    }
  }

  lemma BlankIsNoPair(s: string)
    requires s != "" && s[0] == ' '
    ensures Pair(s) == None
  {}

  function Unescaped(attrs: seq<(string, string)>): seq<(string, string)> {
    if attrs == [] then [] else [(attrs[0].0, UnescapeXml(attrs[0].1))] + Unescaped(attrs[1..])
  }

  lemma OpenTagOf(name: string, attrs: seq<(string, string)>, rest: string)
    requires PlainAttrs(attrs)
    ensures OpenTag(Open(name, attrs) + rest, name) == Some((AttrText(attrs), |Open(name, attrs)|))
  {
    hide AttrsLen, WhiteLen, PlainAttrs, AttrText;
    var s := Open(name, attrs) + rest;
    var t := ">" + rest;
    assert s == ("<" + name) + (AttrText(attrs) + t);
    assert s[..1 + |name|] == "<" + name && s[1 + |name|..] == AttrText(attrs) + t;
    AttrsLenOf(attrs, t);
    assert (AttrText(attrs) + t)[|AttrText(attrs)|..] == t;
    NoAttr(t);
  }

  // ---- text in which a name does not open ----

  /** Some angle bracket closes after position i. */
  ghost predicate ClosedAfter(s: string, i: nat) {
    exists j :: i < j < |s| && s[j] == '>'
  }

  /** No tag of this name starts in the text, nor can one start in it and go on after it. */
  ghost predicate Free(s: string, name: string) {
    forall i | 0 <= i < |s| && s[i] == '<' :: !("<" + name <= s[i..]) && ClosedAfter(s, i)
  }

  lemma FreeText(s: string, name: string)
    requires '<' !in s
    ensures Free(s, name)
  {}

  lemma FreeConcat(a: string, b: string, name: string)
    requires Free(a, name) && Free(b, name) && '>' !in name
    ensures Free(a + b, name)
  {
    var s := a + b;
    forall i | 0 <= i < |s| && s[i] == '<' ensures !("<" + name <= s[i..]) && ClosedAfter(s, i) {
      if i < |a| {
        NotAcross(a, b, i, name);
        var j :| i < j < |a| && a[j] == '>';
        assert s[j] == '>';
      } else {
        assert s[i..] == b[i - |a|..];
        var j :| i - |a| < j < |b| && b[j] == '>';
        assert s[|a| + j] == '>';
      }
    }
  }

  lemma NotAcross(a: string, b: string, i: nat, name: string)
    requires i < |a| && a[i] == '<' && !("<" + name <= a[i..]) && ClosedAfter(a, i) && '>' !in name
    ensures !("<" + name <= (a + b)[i..])
  {
    var j :| i < j < |a| && a[j] == '>';
    var t, p := (a + b)[i..], "<" + name;
    assert t == a[i..] + b;
    assert a[i..][j - i] == '>';
    PrefixesCompare(p, a[i..], t);
    PrefixHolds(a[i..], p, '>');
  }

  lemma PrefixesCompare(p: string, q: string, t: string)
    ensures p <= t && q <= t ==> p <= q || q <= p
  {}

  lemma PrefixHolds(p: string, t: string, c: char)
    ensures c in p && p <= t ==> c in t
  {}

  predicate Apart(a: string, b: string) {
    !(a <= b) && !(b <= a)
  }

  /** A tag `<t>` of another name. */
  lemma FreeTag(head: string, tail: string, name: string)
    requires Apart(head, name) && '<' !in head && '<' !in tail && '>' !in name
    ensures Free("<" + head + tail + ">", name)
  {
    var s := "<" + head + tail + ">";
    assert s[|s| - 1] == '>';
    assert s[1..] == head + (tail + ">");
    PrefixesCompare(name, head, s[1..]);
    AfterFirst("<" + name, s);
    assert ("<" + name)[1..] == name;
    assert s[0..] == s;
    forall i | 0 <= i < |s| && s[i] == '<' ensures i == 0 {}
  }

  lemma {:induction false} AttrTextSafe(attrs: seq<(string, string)>)
    requires PlainAttrs(attrs)
    ensures '<' !in AttrText(attrs)
  {
    hide NameChar;
    if attrs != [] {
      assert PlainAttr(attrs[0]);
      forall i | 0 <= i < |attrs[0].0| ensures attrs[0].0[i] != '<' { NoWhiteName(attrs[0].0[i]); }
      AttrTextSafe(attrs[1..]);
    }
  }

  lemma AfterFirst(p: string, s: string)
    requires p != ""
    ensures p <= s ==> p[1..] <= s[1..]
  {}

  /** A whole element of another name, if its content is free as well. */
  lemma FreeWrapped(other: string, attrs: seq<(string, string)>, inner: string, name: string)
    requires Apart(other, name) && Apart("/" + other, name) && '<' !in other && '>' !in name
    requires PlainAttrs(attrs) && Free(inner, name)
    ensures Free(Wrapped(other, attrs, inner), name)
  {
    hide AttrText, Apart, Free, PlainAttrs;
    AttrTextSafe(attrs);
    FreeTag(other, AttrText(attrs), name);
    FreeTag("/" + other, "", name);
    assert "<" + ("/" + other) + "" + ">" == Close(other);
    FreeConcat(Open(other, attrs), inner, name);
    FreeConcat(Open(other, attrs) + inner, Close(other), name);
  }

  /** A free text is passed over. */
  lemma {:induction false} ElementsSkip(a: string, s: string, name: string)
    requires Free(a, name) && '>' !in name
    ensures Elements(a + s, name) == Elements(s, name)
    decreases |a|
  {
    hide OpenTag, Index;
    if a == "" {
      assert a + s == s;
    } else {
      NoOpenTag(a, s, name);
      FreeRest(a, name);
      ElementsSkip(a[1..], s, name);
      assert (a + s)[1..] == a[1..] + s;
    }
  }

  lemma NoOpenTag(a: string, s: string, name: string)
    requires Free(a, name) && '>' !in name && a != ""
    ensures OpenTag(a + s, name) == None
  {
    assert (a + s)[0..] == a + s;
    if a[0] == '<' {
      NotAcross(a, s, 0, name);
    } else {
      assert !("<" + name <= a + s) by { assert ("<" + name)[0] == '<'; }
    }
  }

  lemma FreeRest(a: string, name: string)
    requires Free(a, name) && a != ""
    ensures Free(a[1..], name)
  {
    var b := a[1..];
    forall i | 0 <= i < |b| && b[i] == '<' ensures !("<" + name <= b[i..]) && ClosedAfter(b, i) {
      assert a[i + 1] == '<' && b[i..] == a[i + 1..];
      var j :| i + 1 < j < |a| && a[j] == '>';
      assert b[j - 1] == '>';
    }
  }

  lemma NoElements(a: string, name: string)
    requires Free(a, name) && '>' !in name
    ensures Elements(a, name) == [] && Child(a, name) == None
  {
    ElementsSkip(a, "", name);
    assert a + "" == a;
  }

  /** The first closing tag is the element's own. */
  lemma {:induction false} IndexOfClose(inner: string, name: string, rest: string)
    requires Free(inner, "/" + name) && '>' !in name
    ensures Index(inner + Close(name) + rest, Close(name)) == Some(|inner|)
    decreases |inner|
  {
    hide Free, Close;
    var s := inner + Close(name) + rest;
    if inner == "" {
      assert s == Close(name) + rest;
    } else {
      FreeRest(inner, "/" + name);
      IndexOfClose(inner[1..], name, rest);
      assert s[1..] == inner[1..] + Close(name) + rest;
      assert s == inner + (Close(name) + rest);
      NoCloseYet(inner, Close(name) + rest, name);
    }
  }

  lemma NoCloseYet(a: string, s: string, name: string)
    requires Free(a, "/" + name) && '>' !in name && a != ""
    ensures !(Close(name) <= a + s)
  {
    assert a[0..] == a && (a + s)[0..] == a + s;
    if a[0] == '<' {
      NotAcross(a, s, 0, "/" + name);
      LongerPrefix("<" + ("/" + name), ">", a + s);
      assert Close(name) == "<" + ("/" + name) + ">";
    } else {
      assert Close(name)[0] == '<' && (a + s)[0] == a[0];
    }
  }

  lemma LongerPrefix(p: string, more: string, s: string)
    ensures p + more <= s ==> p <= s
  {
    if p + more <= s { assert p == s[..|p|]; }
  }

  /** A printed element is found, with its attributes' text and its content. */
  lemma ElementsOf(name: string, attrs: seq<(string, string)>, inner: string, rest: string)
    requires PlainAttrs(attrs) && Free(inner, "/" + name) && '>' !in name
    ensures Elements(Wrapped(name, attrs, inner) + rest, name) ==
            [Element(AttrText(attrs), inner)] + Elements(rest, name)
  {
    hide OpenTag, Index, AttrText, Free, PlainAttrs;
    var s := Wrapped(name, attrs, inner) + rest;
    var n := |Open(name, attrs)|;
    var t := inner + Close(name) + rest;
    assert s == Open(name, attrs) + t;
    OpenTagOf(name, attrs, t);
    assert s[n..] == t;
    IndexOfClose(inner, name, rest);
    assert t[..|inner|] == inner;
    assert s[n + |inner| + |name| + 3..] == rest;
  }

  /** A printed leaf after other text is the child of its name. */
  lemma ChildOf(before: string, name: string, text: string, rest: string)
    requires Free(before, name) && '>' !in name
    ensures Child(before + (Wrapped(name, [], EscapeXml(text)) + rest), name) == Some(text)
  {
    hide Elements, EscapeXml, UnescapeXml;
    EscapedIsSafe(text);
    FreeText(EscapeXml(text), "/" + name);
    ElementsSkip(before, Wrapped(name, [], EscapeXml(text)) + rest, name);
    ElementsOf(name, [], EscapeXml(text), rest);
    UnescapeOfEscape(text);
  }

  // ---- the envelope ----

  lemma {:induction false} LastIndexAtEnd(inner: string, pattern: string)
    requires pattern != ""
    ensures LastIndex(inner + pattern, pattern) == Some(|inner|)
  {
    var s := inner + pattern;
    if inner == "" {
      assert s == pattern;
      TooShort(pattern[1..], pattern);
    } else {
      LastIndexAtEnd(inner[1..], pattern);
      assert s[1..] == inner[1..] + pattern;
    }
  }

  lemma TooShort(s: string, pattern: string)
    requires |s| < |pattern|
    ensures LastIndex(s, pattern) == None
  {}

  /** A lead-in mentions the element's bare name at most. */
  ghost predicate Harmless(lead: string, name: string) {
    forall i | 0 <= i < |lead| && lead[i] == '<' :: Open(name, []) <= lead[i..]
  }

  lemma {:induction false} RootOf(lead: string, name: string, attrs: seq<(string, string)>, inner: string)
    requires Harmless(lead, name) && PlainAttrs(attrs) && attrs != [] && attrs[0].0 == "kind"
    ensures Root(lead + Wrapped(name, attrs, inner), name) == Some(Element(AttrText(attrs), inner))
    decreases |lead|
  {
    hide OpenTag, AttrText, PlainAttrs, LastIndex;
    var s := lead + Wrapped(name, attrs, inner);
    if lead == "" {
      assert s == Open(name, attrs) + (inner + Close(name));
      OpenTagOf(name, attrs, inner + Close(name));
      KindFirst(attrs);
      assert s[|Open(name, attrs)|..] == inner + Close(name);
      LastIndexAtEnd(inner, Close(name));
      assert (inner + Close(name))[..|inner|] == inner;
    } else {
      NoRootTag(lead, Wrapped(name, attrs, inner), name);
      HarmlessRest(lead, name);
      RootOf(lead[1..], name, attrs, inner);
      assert s[1..] == lead[1..] + Wrapped(name, attrs, inner);
    }
  }

  lemma KindFirst(attrs: seq<(string, string)>)
    requires attrs != [] && attrs[0].0 == "kind"
    ensures "kind=\"" <= AttrText(attrs)[WhiteLen(AttrText(attrs))..]
  {
    var t := AttrText(attrs);
    AttrTextCons(attrs);
    assert t[1..] == "kind" + "=\"" + attrs[0].1 + "\"" + AttrText(attrs[1..]);
    assert WhiteLen(t[1..]) == 0;
    assert "kind" + "=\"" == "kind=\"";
    assert t[1..][..6] == "kind=\"";
  }

  lemma NoRootTag(lead: string, s: string, name: string)
    requires Harmless(lead, name) && lead != ""
    ensures RootTag(lead + s, name) == None
  {
    hide AttrText;
    assert lead[0..] == lead;
    if lead[0] == '<' {
      var bare := Open(name, []);
      assert AttrText([]) == "" by { NoAttrText(); }
      assert lead == bare + lead[|bare|..];
      OpenTagOf(name, [], lead[|bare|..] + s);
      assert lead + s == bare + (lead[|bare|..] + s);
    } else {
      assert !("<" + name <= lead + s) by { assert ("<" + name)[0] == '<'; }
    }
  }

  lemma NoAttrText()
    ensures AttrText([]) == ""
  {}

  lemma HarmlessRest(lead: string, name: string)
    requires Harmless(lead, name) && lead != ""
    ensures Harmless(lead[1..], name)
  {
    forall i | 0 <= i < |lead[1..]| && lead[1..][i] == '<' ensures Open(name, []) <= lead[1..][i..] {
      assert lead[1..][i..] == lead[i + 1..];
    }
  }

  /** Names other than the envelope's do not open in a harmless lead-in. */
  lemma HarmlessIsFree(lead: string, name: string, other: string)
    requires Harmless(lead, name) && Apart(name, other) && '>' !in other
    ensures Free(lead, other)
  {
    forall i | 0 <= i < |lead| && lead[i] == '<' ensures !("<" + other <= lead[i..]) && ClosedAfter(lead, i) {
      var bare := Open(name, []);
      NoAttrText();
      assert bare == "<" + name + ">" && bare <= lead[i..];
      assert lead[i + |bare| - 1] == lead[i..][|bare| - 1] == '>';
      AfterFirst("<" + other, lead[i..]);
      AfterFirst("<" + name + ">", lead[i..]);
      assert ("<" + other)[1..] == other && ("<" + name + ">")[1..] == name + ">";
      PrefixesCompare(other, name, lead[i..][1..]);
    }
  }

  lemma {:induction false} GetConcat(a: seq<(string, string)>, b: seq<(string, string)>, key: string)
    ensures Get(a + b, key) == if Get(b, key).Some? then Get(b, key) else Get(a, key)
  {
    if a == [] {
      assert a + b == b;
    } else {
      GetConcat(a[1..], b, key);
      assert (a + b)[1..] == a[1..] + b;
    }
  }
}
