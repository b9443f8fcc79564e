/** The renderers that push parts onto a list in a loop, proved against WakeXml. */
module WakePrinter {
  import opened Options
  import opened XmlText
  import opened XmlTags
  import opened WakeXml

  function PairTexts(attrs: seq<(string, string)>): seq<string> {
    if attrs == [] then [] else [PairText(attrs[0])] + PairTexts(attrs[1..])
  }

  /** Attributes joined by blanks after the name are the tag's attribute text. */
  lemma {:induction false} JoinedAttrs(attrs: seq<(string, string)>)
    requires attrs != []
    ensures " " + Join(PairTexts(attrs), " ") == AttrText(attrs) && PairTexts(attrs) != []
  {
    hide PairText, AttrText, Join;
    AttrTextCons(attrs);
    var t, more := PairText(attrs[0]), PairTexts(attrs[1..]);
    if |attrs| == 1 {
      assert attrs[1..] == [] && [t] + [] == [t];
      NoAttrText();
      JoinOne(t, " ");
    } else {
      JoinedAttrs(attrs[1..]);
      JoinCons(t, more, " ");
      assert " " + (t + " " + Join(more, " ")) == " " + t + (" " + Join(more, " "));
    }
  }

  lemma JoinOne(part: string, glue: string)
    ensures Join([part], glue) == part
  {}

  lemma JoinCons(part: string, parts: seq<string>, glue: string)
    requires parts != []
    ensures Join([part] + parts, glue) == part + glue + Join(parts, glue)
  {
    assert ([part] + parts)[1..] == parts;
  }

  lemma {:induction false} PairTextsMore(a: seq<(string, string)>, b: seq<(string, string)>)
    ensures PairTexts(a + b) == PairTexts(a) + PairTexts(b)
  {
    if a == [] {
      assert a + b == b;
    } else {
      PairTextsMore(a[1..], b);
      assert (a + b)[1..] == a[1..] + b;
    }
  }

  function Attr(name: string, value: string): string {
    name + "=\"" + value + "\""
  }

  lemma OpenJoined(name: string, attrs: seq<(string, string)>, texts: seq<string>)
    requires attrs != [] && texts == PairTexts(attrs)
    ensures "<" + name + " " + Join(texts, " ") + ">" == Open(name, attrs)
  {
    hide Join;
    JoinedAttrs(attrs);
    assert "<" + name + " " + Join(texts, " ") + ">" == "<" + name + (" " + Join(texts, " ")) + ">";
  }

  method TaskTag(task: TaskWake) returns (tag: string)
    ensures tag == Open("task", TaskAttrs(task))
  {
    hide Join, EscapeXmlAttr, NumberText, Round;
    var attrs := [Attr("id", EscapeXmlAttr(task.id)), Attr("kind", EscapeXmlAttr(task.taskKind)),
                  Attr("status", EscapeXmlAttr(task.status)), Attr("duration-ms", NumberText(Round(task.durationMs)))];
    ghost var pairs := [("id", EscapeXmlAttr(task.id)), ("kind", EscapeXmlAttr(task.taskKind)),
                        ("status", EscapeXmlAttr(task.status)), ("duration-ms", NumberText(Round(task.durationMs)))];
    FourPairs(pairs[0], pairs[1], pairs[2], pairs[3]);
    if task.exitCode.Some? {
      PushPair(pairs, ("exit-code", NumberText(task.exitCode.value)));
      attrs := attrs + [Attr("exit-code", NumberText(task.exitCode.value))];
      pairs := pairs + [("exit-code", NumberText(task.exitCode.value))];
    }
    if task.signal.Some? && task.signal.value != "" {
      PushPair(pairs, ("signal", EscapeXmlAttr(task.signal.value)));
      attrs := attrs + [Attr("signal", EscapeXmlAttr(task.signal.value))];
      pairs := pairs + [("signal", EscapeXmlAttr(task.signal.value))];
    }
    assert pairs == TaskAttrs(task);
    OpenJoined("task", pairs, attrs);
    tag := "<" + "task" + " " + Join(attrs, " ") + ">";
  }

  lemma FourPairs(a: (string, string), b: (string, string), c: (string, string), d: (string, string))
    ensures PairTexts([a, b, c, d]) == [PairText(a), PairText(b), PairText(c), PairText(d)]
  {
    assert [a, b, c, d] == [a] + ([b] + ([c] + [d]));
    PairTextsMore([a], [b] + ([c] + [d]));
    PairTextsMore([b], [c] + [d]);
    PairTextsMore([c], [d]);
    forall p: (string, string) ensures PairTexts([p]) == [PairText(p)] { OnePair(p); }
  }

  lemma OnePair(p: (string, string))
    ensures PairTexts([p]) == [PairText(p)]
  {
    assert [p][1..] == [];
  }

  lemma PushPair(pairs: seq<(string, string)>, p: (string, string))
    ensures PairTexts(pairs + [p]) == PairTexts(pairs) + [PairText(p)]
  {
    PairTextsMore(pairs, [p]);
    OnePair(p);
  }

  /** `renderTask`. */
  method RenderTask(d: Details) returns (xml: string)
    requires d.Task?
    ensures xml == RenderWake(d)
  {
    hide Join, Leaf, TaskAttrs, StillRunning, Open, Close, TaskParts;
    var parts := ["<pi-famulus-wake kind=\"task\">"] + StillRunning(d.stillRunning);
    ghost var all := ["<pi-famulus-wake kind=\"task\">"] + BodyParts(d);
    var k := 0;
    assert d.tasks[0..] == d.tasks;
    while k < |d.tasks|
      invariant k <= |d.tasks| && parts + TasksParts(d.tasks[k..]) == all
    {
      var task := d.tasks[k];
      var tag := TaskTag(task);
      TasksStep(d.tasks, k);
      ghost var before := parts;
      parts := parts + ["  " + tag];
      parts := parts + ["    " + Leaf("summary", task.summary)];
      parts := parts + ["    " + Leaf("command", task.command)];
      parts := parts + ["    " + Leaf("output-file", task.outputPath)];
      parts := parts + ["    " + Leaf("preview", task.preview)];
      parts := parts + ["  </task>"];
      CloseTexts();
      TaskPushed(before, parts, tag, task);
      k := k + 1;
    }
    assert d.tasks[k..] == [];
    TaskOpen();
    xml := Join(parts + ["</pi-famulus-wake>"], "\n");
    assert RootAttrs(d) == [("kind", "task")];
    assert parts + ["</pi-famulus-wake>"] == [Open(WAKE, RootAttrs(d))] + BodyParts(d) + [Close(WAKE)];
  }

  lemma CloseTexts()
    ensures "  </task>" == "  " + Close("task") && "  </child>" == "  " + Close("child")
  {
    assert Close("task") == "</task>" && Close("child") == "</child>";
  }

  lemma TaskPushed(before: seq<string>, parts: seq<string>, tag: string, t: TaskWake)
    requires tag == Open("task", TaskAttrs(t))
    requires parts == before + ["  " + tag]
                      + ["    " + Leaf("summary", t.summary)] + ["    " + Leaf("command", t.command)]
                      + ["    " + Leaf("output-file", t.outputPath)] + ["    " + Leaf("preview", t.preview)]
                      + ["  " + Close("task")]
    ensures parts == before + TaskParts(t)
  {
    hide Leaf, TaskAttrs, Open, Close;
  }

  lemma ChildPushed(before: seq<string>, parts: seq<string>, c: DoneChild)
    requires parts == before + ["  " + Open("child", ChildAttrs(c))] + ["    " + Leaf("prompt", c.prompt)]
                      + ErrorPart("    ", c.error) + ["    " + Leaf("result", c.result)] + ["  " + Close("child")]
    ensures parts == before + ChildParts(c)
  {
    hide Leaf, ChildAttrs, Open, Close, ErrorPart;
  }

  lemma TasksStep(tasks: seq<TaskWake>, k: nat)
    requires k < |tasks|
    ensures TasksParts(tasks[k..]) == TaskParts(tasks[k]) + TasksParts(tasks[k + 1..])
  {
    hide TaskParts;
    assert tasks[k..][0] == tasks[k] && tasks[k..][1..] == tasks[k + 1..];
  }

  lemma TaskOpen()
    ensures Open(WAKE, [("kind", "task")]) == "<pi-famulus-wake kind=\"task\">" && Close(WAKE) == "</pi-famulus-wake>"
  {
    AttrTextCons([("kind", "task")]);
    NoAttrText();
    assert [("kind", "task")][1..] == [];
    assert PairText(("kind", "task")) == "kind=\"task\"";
  }

  /** `renderDone`, after its opening tag and summary. */
  method RenderChildren(open: string, summary: string, children: seq<DoneChild>) returns (parts: seq<string>)
    ensures parts == [open, "  " + Leaf("summary", summary)] + ChildrenParts(children)
  {
    hide Leaf, ChildAttrs, Open, Close, ChildParts;
    parts := [open, "  " + Leaf("summary", summary)];
    ghost var all := parts + ChildrenParts(children);
    var k := 0;
    assert children[0..] == children;
    while k < |children|
      invariant k <= |children| && parts + ChildrenParts(children[k..]) == all
    {
      var child := children[k];
      ChildrenStep(children, k);
      ghost var before := parts;
      parts := parts + ["  " + Open("child", ChildAttrs(child))];
      parts := parts + ["    " + Leaf("prompt", child.prompt)];
      if child.error.Some? && child.error.value != "" {
        parts := parts + ["    " + Leaf("error", child.error.value)];
      }
      parts := parts + ["    " + Leaf("result", child.result)];
      parts := parts + ["  </child>"];
      CloseTexts();
      ChildPushed(before, parts, child);
      k := k + 1;
    }
    assert children[k..] == [];
  }

  lemma ChildrenStep(children: seq<DoneChild>, k: nat)
    requires k < |children|
    ensures ChildrenParts(children[k..]) == ChildParts(children[k]) + ChildrenParts(children[k + 1..])
  {
    hide ChildParts;
    assert children[k..][0] == children[k] && children[k..][1..] == children[k + 1..];
  }

  /** `parseAttrs`: leftmost matches in turn, each assigned over an earlier one of its name. */
  method ParseAttrMap(s: string) returns (out: map<string, string>)
    ensures forall key :: Get(ParseAttrs(s), key) == if key in out then Some(out[key]) else None
  {
    hide Pair, UnescapeXml, Get, ParseAttrs;
    out := map[];
    NoPairs();
    var rest := s;
    ghost var found: seq<(string, string)> := [];
    while rest != ""
      invariant ParseAttrs(s) == found + ParseAttrs(rest)
      invariant forall key :: Get(found, key) == if key in out then Some(out[key]) else None
      decreases |rest|
    {
      ParseAttrsStep(rest);
      var pair := Pair(rest);
      match pair {
        case Some(found') =>
          var name, value, n := found'.0, found'.1, found'.2;
          ghost var more := found + [(name, UnescapeXml(value))];
          forall key ensures Get(more, key) == if key == name then Some(UnescapeXml(value)) else Get(found, key) {
            GetConcat(found, [(name, UnescapeXml(value))], key);
            GetOne((name, UnescapeXml(value)), key);
          }
          assert found + ([(name, UnescapeXml(value))] + ParseAttrs(rest[n..])) == more + ParseAttrs(rest[n..]);
          out := out[name := UnescapeXml(value)];
          found := more;
          rest := rest[n..];
        case None =>
          rest := rest[1..];
      }
    }
    assert found + ParseAttrs("") == found;
  }

  lemma NoPairs()
    ensures ParseAttrs("") == [] && forall key :: Get([], key) == None
    ensures forall s :: [] + ParseAttrs(s) == ParseAttrs(s)
  {}

  lemma ParseAttrsStep(s: string)
    requires s != ""
    ensures ParseAttrs(s) ==
            if Pair(s).Some? then [(Pair(s).value.0, UnescapeXml(Pair(s).value.1))] + ParseAttrs(s[Pair(s).value.2..])
            else ParseAttrs(s[1..])
  {
    hide Pair, UnescapeXml;
  }

  lemma GetOne(a: (string, string), key: string)
    ensures Get([a], key) == if a.0 == key then Some(a.1) else None
  {
    assert [a][1..] == [];
  }
}
