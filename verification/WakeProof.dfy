/** Reading a printed wake gives what its details give. */
module WakeProof {
  import opened Options
  import opened Decimals
  import opened XmlText
  import opened XmlTags
  import opened WakeXml

  // ---- texts ----

  lemma UnescapePlain(s: string)
    requires '&' !in s
    ensures UnescapeXml(s) == s
  {
    hide ReplaceAll;
    assert s + "" == s;
    forall pattern: string, to: string | pattern != "" && pattern[0] == '&' ensures ReplaceAll(s, pattern, to) == s {
      ReplaceAllSkips(s, "", pattern, to);
      ReplaceAllEmpty(pattern, to);
    }
  }

  /** A printed number holds no special character and is read back. */
  lemma NumberRoundTrip(n: int)
    ensures ToNumber(NumberText(n)) == Num(n as real)
    ensures forall i | 0 <= i < |NumberText(n)| :: !Special(NumberText(n)[i])
  {
    hide Digits, Value;
    var m := if n < 0 then -n else n;
    var ds := Digits(m);
    DigitsRoundTrip(m);
    var text: string := seq(|ds|, i requires 0 <= i < |ds| => ds[i] as char);
    var t := NumberText(n);
    assert t == (if n < 0 then "-" else "") + text;
    assert text[0] != '-';
    var digits := if t[0] == '-' then t[1..] else t;
    assert digits == text;
    assert seq(|digits|, i requires 0 <= i < |digits| => digits[i] as Utf8.Scalar) == ds;
  }

  // ---- lines ----

  function Lines(parts: seq<string>): string {
    if parts == [] then "" else parts[0] + "\n" + Lines(parts[1..])
  }

  lemma {:induction false} LinesConcat(a: seq<string>, b: seq<string>)
    ensures Lines(a + b) == Lines(a) + Lines(b)
  {
    if a == [] {
      assert a + b == b;
    } else {
      LinesConcat(a[1..], b);
      assert (a + b)[1..] == a[1..] + b;
      assert Lines(a + b) == a[0] + "\n" + (Lines(a[1..]) + Lines(b));
    }
  }

  lemma {:induction false} JoinLines(parts: seq<string>, last: string)
    ensures Join(parts + [last], "\n") == Lines(parts) + last
  {
    if parts != [] {
      JoinLines(parts[1..], last);
      assert (parts + [last])[1..] == parts[1..] + [last];
      assert Join(parts + [last], "\n") == parts[0] + "\n" + (Lines(parts[1..]) + last);
    }
  }

  lemma JoinEnvelope(open: string, parts: seq<string>, close: string)
    ensures Join([open] + parts + [close], "\n") == open + ("\n" + Lines(parts)) + close
  {
    hide Join;
    JoinLines([open] + parts, close);
    assert ([open] + parts)[1..] == parts;
    assert open + ("\n" + Lines(parts)) == open + "\n" + Lines(parts);
  }

  lemma LinesOne(part: string)
    ensures Lines([part]) == part + "\n"
  {
    assert [part][1..] == [];
    assert part + "\n" + "" == part + "\n";
  }

  // ---- names of elements ----

  const NAMES := {"still-running", "item", "task", "summary", "command", "output-file", "preview", "event", "prompt",
                  "error", "result", "child", "message", "reply-with"}

  predicate IsTag(name: string) {
    name in NAMES
  }

  /** Different names differ within their first three letters. */
  lemma NamesApart(a: string, b: string)
    requires IsTag(a) && IsTag(b) && a != b
    ensures Apart(a, b) && Apart("/" + a, b) && Apart(a, "/" + b) && Apart("/" + a, "/" + b)
  {
    hide IsTag, Letters;
    FirstLetters(a);
    FirstLetters(b);
    LettersDiffer(a, b);
    var i := if a[0] != b[0] then 0 else if a[1] != b[1] then 1 else 2;
    assert a[i] != b[i];
    ApartAt(a, b, i);
    assert ("/" + a)[i + 1] == a[i] && ("/" + b)[i + 1] == b[i];
    ApartAt("/" + a, "/" + b, i + 1);
    ApartAt("/" + a, b, 0);
    ApartAt(a, "/" + b, 0);
  }

  lemma ApartAt(a: string, b: string, i: nat)
    requires i < |a| && i < |b| && a[i] != b[i]
    ensures Apart(a, b)
  {}

  lemma FirstLetters(a: string)
    requires IsTag(a)
    ensures |a| >= 4 && a[0] != '/' && (a[0], a[1], a[2]) == Letters(a)
  {}

  lemma LettersDiffer(a: string, b: string)
    requires IsTag(a) && IsTag(b) && a != b
    ensures Letters(a) != Letters(b)
  {
    hide Letters, IsTag, NameWith;
    LettersTell(a);
    LettersTell(b);
  }

  lemma LettersTell(a: string)
    requires IsTag(a)
    ensures NameWith(Letters(a)) == a
  {}

  function NameWith(l: (char, char, char)): string {
    if l == ('s', 't', 'i') then "still-running" else if l == ('i', 't', 'e') then "item"
    else if l == ('t', 'a', 's') then "task" else if l == ('s', 'u', 'm') then "summary"
    else if l == ('c', 'o', 'm') then "command" else if l == ('o', 'u', 't') then "output-file"
    else if l == ('p', 'r', 'e') then "preview" else if l == ('e', 'v', 'e') then "event"
    else if l == ('p', 'r', 'o') then "prompt" else if l == ('e', 'r', 'r') then "error"
    else if l == ('r', 'e', 's') then "result" else if l == ('c', 'h', 'i') then "child"
    else if l == ('m', 'e', 's') then "message" else "reply-with"
  }

  lemma TagIsName(a: string)
    requires IsTag(a)
    ensures '<' !in a && '>' !in a && '>' !in "/" + a
  {}

  function Letters(a: string): (char, char, char)
    requires IsTag(a)
  {
    if a == "still-running" then ('s', 't', 'i') else if a == "item" then ('i', 't', 'e')
    else if a == "task" then ('t', 'a', 's') else if a == "summary" then ('s', 'u', 'm')
    else if a == "command" then ('c', 'o', 'm') else if a == "output-file" then ('o', 'u', 't')
    else if a == "preview" then ('p', 'r', 'e') else if a == "event" then ('e', 'v', 'e')
    else if a == "prompt" then ('p', 'r', 'o') else if a == "error" then ('e', 'r', 'r')
    else if a == "result" then ('r', 'e', 's') else if a == "child" then ('c', 'h', 'i')
    else if a == "message" then ('m', 'e', 's') else ('r', 'e', 'p')
  }

  /** No element of this name starts or ends in the text. */
  ghost predicate Quiet(s: string, name: string) {
    Free(s, name) && Free(s, "/" + name)
  }

  lemma QuietConcat(a: string, b: string, name: string)
    requires Quiet(a, name) && Quiet(b, name) && IsTag(name)
    ensures Quiet(a + b, name)
  {
    hide IsTag, Free;
    TagIsName(name);
    FreeConcat(a, b, name);
    FreeConcat(a, b, "/" + name);
  }

  lemma QuietText(s: string, name: string)
    requires '<' !in s
    ensures Quiet(s, name)
  {}

  lemma QuietWrapped(other: string, attrs: seq<(string, string)>, inner: string, name: string)
    requires IsTag(other) && IsTag(name) && other != name && PlainAttrs(attrs) && Quiet(inner, name)
    ensures Quiet(Wrapped(other, attrs, inner), name)
  {
    hide Free, Wrapped, PlainAttrs, Apart, IsTag;
    TagIsName(name);
    TagIsName(other);
    NamesApart(other, name);
    NamesApart(name, other);
    FreeWrapped(other, attrs, inner, name);
    FreeWrapped(other, attrs, inner, "/" + name);
  }

  lemma QuietLeaf(indent: string, other: string, text: string, name: string)
    requires IsTag(other) && IsTag(name) && other != name && '<' !in indent
    ensures Quiet(indent + Leaf(other, text), name)
  {
    hide IsTag, Quiet;
    EscapedIsSafe(text);
    QuietText(EscapeXml(text), name);
    QuietWrapped(other, [], EscapeXml(text), name);
    QuietText(indent, name);
    QuietConcat(indent, Leaf(other, text), name);
  }

  ghost predicate QuietParts(parts: seq<string>, name: string) {
    forall i | 0 <= i < |parts| :: Quiet(parts[i], name)
  }

  lemma {:induction false} QuietLines(parts: seq<string>, name: string)
    requires QuietParts(parts, name) && IsTag(name)
    ensures Quiet(Lines(parts), name)
  {
    hide IsTag, Quiet;
    if parts == [] {
      QuietText("", name);
    } else {
      QuietLines(parts[1..], name);
      QuietText("\n", name);
      QuietConcat(parts[0], "\n", name);
      QuietConcat(parts[0] + "\n", Lines(parts[1..]), name);
    }
  }

  // ---- leaves ----

  /** The first leaf of a name among lines is its child; others are passed over. */
  lemma LeafFound(before: seq<string>, indent: string, name: string, text: string, after: seq<string>, tail: string)
    requires IsTag(name) && QuietParts(before, name) && '<' !in indent
    ensures Child("\n" + Lines(before + [indent + Leaf(name, text)] + after) + tail, name) == Some(text)
  {
    hide IsTag, Quiet, Leaf, Child, QuietParts, Lines;
    var line := indent + Leaf(name, text);
    var head, rest := "\n" + Lines(before) + indent, "\n" + Lines(after) + tail;
    QuietHead(before, indent, name);
    LeafLine(before, line, after);
    assert "\n" + Lines(before + [line] + after) + tail == head + (Leaf(name, text) + rest);
    QuietIsFree(head, name);
    TagIsName(name);
    LeafChild(head, name, text, rest);
  }

  lemma QuietHead(before: seq<string>, indent: string, name: string)
    requires IsTag(name) && QuietParts(before, name) && '<' !in indent
    ensures Quiet("\n" + Lines(before) + indent, name)
  {
    hide IsTag, Quiet;
    QuietLines(before, name);
    QuietText("\n", name);
    QuietText(indent, name);
    QuietConcat("\n", Lines(before), name);
    QuietConcat("\n" + Lines(before), indent, name);
  }

  lemma LeafLine(before: seq<string>, line: string, after: seq<string>)
    ensures Lines(before + [line] + after) == Lines(before) + (line + "\n" + Lines(after))
  {
    hide Lines;
    LinesConcat(before + [line], after);
    LinesConcat(before, [line]);
    LinesOne(line);
  }

  lemma QuietIsFree(s: string, name: string)
    requires Quiet(s, name)
    ensures Free(s, name) && Free(s, "/" + name)
  {}

  lemma LeafChild(before: string, name: string, text: string, rest: string)
    requires Free(before, name) && '>' !in name
    ensures Child(before + (Leaf(name, text) + rest), name) == Some(text)
  {
    hide Child, Wrapped, EscapeXml;
    ChildOf(before, name, text, rest);
  }

  /** A name that no line has is no child. */
  lemma LeafAbsent(parts: seq<string>, name: string, tail: string)
    requires IsTag(name) && QuietParts(parts, name) && '<' !in tail
    ensures Child("\n" + Lines(parts) + tail, name) == None && Elements("\n" + Lines(parts) + tail, name) == []
  {
    hide IsTag, Quiet;
    QuietLines(parts, name);
    QuietText("\n", name);
    QuietText(tail, name);
    QuietConcat("\n", Lines(parts), name);
    QuietConcat("\n" + Lines(parts), tail, name);
    QuietIsFree("\n" + Lines(parts) + tail, name);
    TagIsName(name);
    NoElements("\n" + Lines(parts) + tail, name);
  }

  // ---- attributes ----

  lemma {:induction false} GetIs(a: seq<(string, string)>, i: nat, key: string)
    requires i < |a| && a[i].0 == key && forall j | i < j < |a| :: a[j].0 != key
    ensures Get(a, key) == Some(a[i].1)
  {
    if i > 0 { GetIs(a[1..], i - 1, key); } else { GetMissing(a[1..], key); }
  }

  lemma {:induction false} GetMissing(a: seq<(string, string)>, key: string)
    requires forall j | 0 <= j < |a| :: a[j].0 != key
    ensures Get(a, key) == None
  {
    if a != [] { GetMissing(a[1..], key); }
  }

  lemma {:induction false} GetUnescaped(a: seq<(string, string)>, key: string)
    ensures Get(Unescaped(a), key) == match Get(a, key) case Some(v) => Some(UnescapeXml(v)) case None => None
  {
    hide UnescapeXml;
    if a != [] { GetUnescaped(a[1..], key); }
  }

  /** The attribute as a reader of the printed tag finds it. */
  function Read(a: seq<(string, string)>, key: string): Option<string> {
    Get(ParseAttrs(AttrText(a)), key)
  }

  lemma ReadIs(a: seq<(string, string)>, i: nat, key: string, value: string)
    requires PlainAttrs(a) && i < |a| && a[i].0 == key && forall j | i < j < |a| :: a[j].0 != key
    requires a[i].1 == EscapeXmlAttr(value) || (a[i].1 == value && '&' !in value)
    ensures Read(a, key) == Some(value)
  {
    hide ParseAttrs, AttrText, UnescapeXml, EscapeXmlAttr, PlainAttrs;
    ParseAttrsOf(a);
    GetUnescaped(a, key);
    GetIs(a, i, key);
    UnescapeOfEscape(value);
    if '&' !in value { UnescapePlain(value); }
  }

  lemma ReadMissing(a: seq<(string, string)>, key: string)
    requires PlainAttrs(a) && forall j | 0 <= j < |a| :: a[j].0 != key
    ensures Read(a, key) == None
  {
    hide ParseAttrs, AttrText, UnescapeXml, PlainAttrs;
    ParseAttrsOf(a);
    GetUnescaped(a, key);
    GetMissing(a, key);
  }

  lemma EscapedAttr(key: string, value: string)
    requires IsName(key)
    ensures PlainAttr((key, EscapeXmlAttr(value)))
  {
    EscapedIsSafe(value);
  }

  lemma NumberAttr(key: string, n: int)
    requires IsName(key)
    ensures PlainAttr((key, NumberText(n))) && '&' !in NumberText(n)
  {
    NumberRoundTrip(n);
  }
}
