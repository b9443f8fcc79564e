/** The printer and the parser agree, kind by kind and then for every wake. */
module WakeAgree {
  import opened Options
  import opened XmlText
  import opened XmlTags
  import opened WakeXml
  import opened WakeProof

  // ---- still running items ----

  lemma ItemAttrs(item: Item)
    ensures PlainAttrs([("id", EscapeXmlAttr(item.id))])
    ensures Read([("id", EscapeXmlAttr(item.id))], "id") == Some(item.id)
  {
    hide EscapeXmlAttr, Read;
    EscapedAttr("id", item.id);
    ReadIs([("id", EscapeXmlAttr(item.id))], 0, "id", item.id);
  }

  lemma {:induction false} ItemsParsed(items: seq<Item>, tail: string)
    requires '<' !in tail
    ensures ParseItems(Elements(Lines(ItemLines(items)) + tail, "item")) == items
  {
    hide Elements, Quiet, EscapeXml, EscapeXmlAttr, UnescapeXml, ParseAttrs, AttrText, IsTag, Wrapped;
    TagIsName("item") by { assert IsTag("item") by { IsTags(); } }
    if items == [] {
      assert "" + tail == tail;
      FreeText(tail, "item");
      NoElements(tail, "item");
    } else {
      var attrs, inner := [("id", EscapeXmlAttr(items[0].id))], EscapeXml(items[0].title);
      var rest := Lines(ItemLines(items[1..])) + tail;
      assert Lines(ItemLines(items)) + tail == "    " + (Wrapped("item", attrs, inner) + ("\n" + rest));
      FreeText("    ", "item");
      FreeText("\n", "item");
      EscapedIsSafe(items[0].title);
      FreeText(inner, "/item");
      ItemAttrs(items[0]);
      ElementsSkip("    ", Wrapped("item", attrs, inner) + ("\n" + rest), "item");
      ElementsOf("item", attrs, inner, "\n" + rest);
      ElementsSkip("\n", rest, "item");
      UnescapeOfEscape(items[0].title);
      ItemsParsed(items[1..], tail);
      ItemParsed(items[0], attrs, inner, Elements(rest, "item"));
      assert items == [items[0]] + items[1..];
    }
  }

  lemma ItemParsed(item: Item, attrs: seq<(string, string)>, inner: string, more: seq<Element>)
    requires Read(attrs, "id") == Some(item.id) && UnescapeXml(inner) == item.title
    ensures ParseItems([Element(AttrText(attrs), inner)] + more) == [item] + ParseItems(more)
  {
    var es := [Element(AttrText(attrs), inner)] + more;
    assert es[1..] == more;
  }

  lemma IsTags()
    ensures IsTag("still-running") && IsTag("item") && IsTag("task") && IsTag("summary") && IsTag("command")
    ensures IsTag("output-file") && IsTag("preview") && IsTag("event") && IsTag("prompt") && IsTag("error")
    ensures IsTag("result") && IsTag("child") && IsTag("message") && IsTag("reply-with")
  {}

  /** The block's lines, as one element. */
  lemma StillBlock(items: seq<Item>)
    requires items != []
    ensures Lines(StillRunning(items)) ==
            "  " + (Wrapped("still-running", [], "\n" + Lines(ItemLines(items)) + "  ") + "\n")
  {
    hide ItemLines, Lines, Open, Close;
    JoinEnvelope("  <still-running>", ItemLines(items), "  </still-running>");
    LinesOne(Join(["  <still-running>"] + ItemLines(items) + ["  </still-running>"], "\n"));
    hide Join;
    StillTags();
  }

  lemma StillTags()
    ensures "  <still-running>" == "  " + Open("still-running", [])
    ensures "  </still-running>" == "  " + Close("still-running")
  {
    NoAttrText();
    assert Open("still-running", []) == "<still-running>" && Close("still-running") == "</still-running>";
  }

  lemma {:induction false} ItemsQuiet(items: seq<Item>, name: string)
    requires IsTag(name) && name != "item"
    ensures QuietParts(ItemLines(items), name)
  {
    hide Quiet, EscapeXml, EscapeXmlAttr, IsTag, Wrapped, PlainAttrs;
    IsTags();
    if items != [] {
      ItemsQuiet(items[1..], name);
      var attrs, inner := [("id", EscapeXmlAttr(items[0].id))], EscapeXml(items[0].title);
      ItemAttrs(items[0]);
      EscapedIsSafe(items[0].title);
      QuietText(inner, name);
      QuietText("    ", name);
      QuietWrapped("item", attrs, inner, name);
      QuietConcat("    ", Wrapped("item", attrs, inner), name);
    }
  }

  /** The block is quiet about every other name. */
  lemma StillQuiet(items: seq<Item>, name: string)
    requires IsTag(name) && name != "item" && name != "still-running"
    ensures Quiet(Lines(StillRunning(items)), name)
  {
    hide Quiet, IsTag, Wrapped, Lines, ItemLines, QuietParts;
    IsTags();
    if items == [] {
      NoLines();
      QuietText("", name);
    } else {
      StillBlock(items);
      ItemsQuiet(items, name);
      QuietLines(ItemLines(items), name);
      QuietText("\n", name);
      QuietText("  ", name);
      QuietConcat("\n", Lines(ItemLines(items)), name);
      QuietConcat("\n" + Lines(ItemLines(items)), "  ", name);
      QuietWrapped("still-running", [], "\n" + Lines(ItemLines(items)) + "  ", name);
      QuietConcat(Wrapped("still-running", [], "\n" + Lines(ItemLines(items)) + "  "), "\n", name);
      QuietConcat("  ", Wrapped("still-running", [], "\n" + Lines(ItemLines(items)) + "  ") + "\n", name);
    }
  }

  lemma NoLines()
    ensures Lines([]) == ""
  {}

  /** The still running work is read back, whatever follows that has no such block. */
  lemma StillParsed(items: seq<Item>, rest: string)
    requires Quiet(rest, "still-running")
    ensures ParseStillRunning("\n" + Lines(StillRunning(items)) + rest) == items
  {
    hide Quiet, IsTag, Wrapped, Lines, ItemLines, QuietParts, Elements, AttrText, ParseItems;
    IsTags();
    var name := "still-running";
    TagIsName(name);
    QuietIsFree(rest, name);
    FreeText("\n", name);
    var text := "\n" + Lines(StillRunning(items)) + rest;
    if items == [] {
      NoLines();
      assert text == "\n" + rest;
      FreeConcat("\n", rest, name);
      NoElements(text, name);
    } else {
      StillBlock(items);
      var inner := "\n" + Lines(ItemLines(items)) + "  ";
      assert text == "\n  " + (Wrapped(name, [], inner) + ("\n" + rest));
      FreeText("\n  ", name);
      ElementsSkip("\n  ", Wrapped(name, [], inner) + ("\n" + rest), name);
      ItemsQuiet(items, name);
      QuietLines(ItemLines(items), name);
      QuietText("\n", name);
      QuietText("  ", name);
      QuietConcat("\n", Lines(ItemLines(items)), name);
      QuietConcat("\n" + Lines(ItemLines(items)), "  ", name);
      QuietIsFree(inner, name);
      ElementsOf(name, [], inner, "\n" + rest);
      FreeText("\n", "item");
      TagIsName("item");
      ElementsSkip("\n", Lines(ItemLines(items)) + "  ", "item");
      assert inner == "\n" + (Lines(ItemLines(items)) + "  ");
      ItemsParsed(items, "  ");
    }
  }

  // ---- tasks ----

  lemma OptionalPlain(name: string, value: Option<string>)
    requires IsName(name)
    ensures PlainAttrs(Optional(name, value))
  {
    if value.Some? { EscapedAttr(name, value.value); }
  }

  lemma TaskAttrsPlain(t: TaskWake)
    ensures PlainAttrs(TaskAttrs(t))
  {
    hide EscapeXmlAttr, NumberText, PlainAttr, IsName;
    NamesOfAttrs();
    EscapedAttr("id", t.id);
    EscapedAttr("kind", t.taskKind);
    EscapedAttr("status", t.status);
    NumberAttr("duration-ms", Round(t.durationMs));
    if t.exitCode.Some? { NumberAttr("exit-code", t.exitCode.value); }
    OptionalPlain("signal", t.signal);
  }

  lemma NamesOfAttrs()
    ensures IsName("id") && IsName("kind") && IsName("status") && IsName("duration-ms") && IsName("exit-code")
    ensures IsName("signal") && IsName("name") && IsName("run-id") && IsName("child-id") && IsName("from")
    ensures IsName("description") && IsName("event-count") && IsName("dropped-lines")
  {}

  lemma TaskAttrsRead(t: TaskWake)
    ensures var a := TaskAttrs(t);
      && Read(a, "id") == Some(t.id) && Read(a, "kind") == Some(t.taskKind) && Read(a, "status") == Some(t.status)
      && Read(a, "duration-ms") == Some(NumberText(Round(t.durationMs)))
      && Read(a, "exit-code") == (match t.exitCode case Some(c) => Some(NumberText(c)) case None => None)
      && Read(a, "signal") == Truthy(t.signal)
  {
    hide EscapeXmlAttr, NumberText, PlainAttr, IsName, Read, PlainAttrs;
    TaskAttrsPlain(t);
    NamesOfAttrs();
    NumberAttr("duration-ms", Round(t.durationMs));
    var a := TaskAttrs(t);
    ReadIs(a, 0, "id", t.id);
    ReadIs(a, 1, "kind", t.taskKind);
    ReadIs(a, 2, "status", t.status);
    ReadIs(a, 3, "duration-ms", NumberText(Round(t.durationMs)));
    if t.exitCode.Some? {
      NumberAttr("exit-code", t.exitCode.value);
      ReadIs(a, 4, "exit-code", NumberText(t.exitCode.value));
    } else {
      ReadMissing(a, "exit-code");
    }
    if t.signal.Some? && t.signal.value != "" {
      ReadIs(a, |a| - 1, "signal", t.signal.value);
    } else {
      ReadMissing(a, "signal");
    }
  }

  /** A task as it reads once printed: its duration rounded. */
  function Printed(t: TaskWake): TaskWake {
    t.(durationMs := Round(t.durationMs) as real)
  }

  function TaskElement(t: TaskWake): Element {
    Element(AttrText(TaskAttrs(t)), "\n" + Lines(TaskBody(t)) + "  ")
  }

  lemma TaskParsed(t: TaskWake)
    ensures ParseTask(TaskElement(t)) == NormalOf(Printed(t))
  {
    hide TaskAttrs, Child, Lines, Leaf, NumberText, ParseAttrs, Get, ToNumber;
    TaskAttrsRead(t);
    NumberRoundTrip(Round(t.durationMs));
    if t.exitCode.Some? { NumberRoundTrip(t.exitCode.value); }
    TaskChildren(t);
    SignalOfNothing();
  }

  lemma SignalOfNothing()
    ensures SignalName(Some("")) == None && forall v :: SignalName(Truthy(v)) == SignalName(v)
  {}

  lemma TaskChildren(t: TaskWake)
    ensures var inner := "\n" + Lines(TaskBody(t)) + "  ";
      && Child(inner, "summary") == Some(t.summary) && Child(inner, "command") == Some(t.command)
      && Child(inner, "output-file") == Some(t.outputPath) && Child(inner, "preview") == Some(t.preview)
  {
    hide IsTag, Quiet, Leaf, Lines, Child;
    IsTags();
    var s, c, o, p := "    " + Leaf("summary", t.summary), "    " + Leaf("command", t.command),
        "    " + Leaf("output-file", t.outputPath), "    " + Leaf("preview", t.preview);
    assert TaskBody(t) == [] + [s] + [c, o, p] && TaskBody(t) == [s] + [c] + [o, p];
    assert TaskBody(t) == [s, c] + [o] + [p] && TaskBody(t) == [s, c, o] + [p] + [];
    QuietLeaf("    ", "summary", t.summary, "command");
    QuietLeaf("    ", "summary", t.summary, "output-file");
    QuietLeaf("    ", "summary", t.summary, "preview");
    QuietLeaf("    ", "command", t.command, "output-file");
    QuietLeaf("    ", "command", t.command, "preview");
    QuietLeaf("    ", "output-file", t.outputPath, "preview");
    LeafFound([], "    ", "summary", t.summary, [c, o, p], "  ");
    LeafFound([s], "    ", "command", t.command, [o, p], "  ");
    LeafFound([s, c], "    ", "output-file", t.outputPath, [p], "  ");
    LeafFound([s, c, o], "    ", "preview", t.preview, [], "  ");
  }

  lemma TaskBodyQuiet(t: TaskWake, name: string)
    requires IsTag(name) && name !in {"summary", "command", "output-file", "preview"}
    ensures QuietParts(TaskBody(t), name)
  {
    hide IsTag, Quiet, Leaf;
    IsTags();
    QuietLeaf("    ", "summary", t.summary, name);
    QuietLeaf("    ", "command", t.command, name);
    QuietLeaf("    ", "output-file", t.outputPath, name);
    QuietLeaf("    ", "preview", t.preview, name);
  }

  /** Lines between an opening and a closing one are one element. */
  lemma BlockIsElement(name: string, attrs: seq<(string, string)>, body: seq<string>)
    ensures Lines(["  " + Open(name, attrs)] + body + ["  " + Close(name)]) ==
            "  " + (Wrapped(name, attrs, "\n" + Lines(body) + "  ") + "\n")
  {
    hide Lines, AttrText;
    var open, close := "  " + Open(name, attrs), "  " + Close(name);
    LinesConcat([open] + body, [close]);
    LinesConcat([open], body);
    LinesOne(open);
    LinesOne(close);
  }

  lemma BlockQuiet(name: string, attrs: seq<(string, string)>, body: seq<string>, other: string)
    requires IsTag(name) && IsTag(other) && name != other && PlainAttrs(attrs) && QuietParts(body, other)
    ensures Quiet("\n" + Lines(body) + "  ", other)
    ensures Quiet("  " + (Wrapped(name, attrs, "\n" + Lines(body) + "  ") + "\n"), other)
  {
    hide IsTag, Quiet, Wrapped, Lines, QuietParts, PlainAttrs;
    var inner := "\n" + Lines(body) + "  ";
    InnerQuiet(body, other);
    QuietText("\n", other);
    QuietText("  ", other);
    QuietWrapped(name, attrs, inner, other);
    QuietConcat(Wrapped(name, attrs, inner), "\n", other);
    QuietConcat("  ", Wrapped(name, attrs, inner) + "\n", other);
  }

  lemma InnerQuiet(body: seq<string>, name: string)
    requires IsTag(name) && QuietParts(body, name)
    ensures Quiet("\n" + Lines(body) + "  ", name)
  {
    hide IsTag, Quiet, Lines, QuietParts;
    QuietLines(body, name);
    QuietText("\n", name);
    QuietText("  ", name);
    QuietConcat("\n", Lines(body), name);
    QuietConcat("\n" + Lines(body), "  ", name);
  }

  /** A block is found and what follows is looked at next. */
  lemma BlockFound(name: string, attrs: seq<(string, string)>, body: seq<string>, rest: string)
    requires IsTag(name) && PlainAttrs(attrs) && QuietParts(body, name)
    ensures Elements("  " + (Wrapped(name, attrs, "\n" + Lines(body) + "  ") + "\n") + rest, name) ==
            [Element(AttrText(attrs), "\n" + Lines(body) + "  ")] + Elements(rest, name)
  {
    hide IsTag, Quiet, Wrapped, Lines, QuietParts, PlainAttrs, AttrText, Elements;
    var inner := "\n" + Lines(body) + "  ";
    TagIsName(name);
    InnerQuiet(body, name);
    QuietIsFree(inner, name);
    FreeText("  ", name);
    FreeText("\n", name);
    ElementsSkip("  ", Wrapped(name, attrs, inner) + ("\n" + rest), name);
    ElementsOf(name, attrs, inner, "\n" + rest);
    ElementsSkip("\n", rest, name);
    assert "  " + (Wrapped(name, attrs, inner) + "\n") + rest == "  " + (Wrapped(name, attrs, inner) + ("\n" + rest));
  }

  function PrintedTasks(tasks: seq<TaskWake>): seq<TaskWake> {
    if tasks == [] then [] else [Printed(tasks[0])] + PrintedTasks(tasks[1..])
  }

  lemma {:induction false} TasksParsed(tasks: seq<TaskWake>)
    ensures ParseTasks(Elements(Lines(TasksParts(tasks)), "task")) == NormalTasks(PrintedTasks(tasks))
  {
    hide IsTag, QuietParts, TaskBody, TaskAttrs, ParseTask, NormalOf, Printed, Elements, Wrapped, Lines;
    if tasks == [] {
      NoLines();
      FreeText("", "task");
      NoElements("", "task");
    } else {
      var t := tasks[0];
      IsTags();
      LinesConcat(TaskParts(t), TasksParts(tasks[1..]));
      BlockIsElement("task", TaskAttrs(t), TaskBody(t));
      TaskAttrsPlain(t);
      TaskBodyQuiet(t, "task");
      BlockFound("task", TaskAttrs(t), TaskBody(t), Lines(TasksParts(tasks[1..])));
      var more := Elements(Lines(TasksParts(tasks[1..])), "task");
      assert ([TaskElement(t)] + more)[1..] == more;
      TaskParsed(t);
      TasksParsed(tasks[1..]);
      assert PrintedTasks(tasks)[1..] == PrintedTasks(tasks[1..]);
    }
  }

  lemma {:induction false} TasksQuiet(tasks: seq<TaskWake>, name: string)
    requires IsTag(name) && name !in {"task", "summary", "command", "output-file", "preview"}
    ensures Quiet(Lines(TasksParts(tasks)), name)
  {
    hide IsTag, Quiet, QuietParts, TaskBody, TaskAttrs, Wrapped, Lines;
    if tasks == [] {
      NoLines();
      QuietText("", name);
    } else {
      var t := tasks[0];
      IsTags();
      LinesConcat(TaskParts(t), TasksParts(tasks[1..]));
      BlockIsElement("task", TaskAttrs(t), TaskBody(t));
      TaskAttrsPlain(t);
      TaskBodyQuiet(t, name);
      BlockQuiet("task", TaskAttrs(t), TaskBody(t), name);
      TasksQuiet(tasks[1..], name);
      QuietConcat(Lines(TaskParts(t)), Lines(TasksParts(tasks[1..])), name);
    }
  }

  // ---- children of a finished run ----

  lemma ChildAttrsRead(c: DoneChild)
    ensures PlainAttrs(ChildAttrs(c))
    ensures var a := ChildAttrs(c);
      Read(a, "id") == Some(c.childId) && Read(a, "name") == Some(c.name) && Read(a, "status") == Some(c.status)
  {
    hide EscapeXmlAttr, PlainAttr, IsName, Read;
    NamesOfAttrs();
    EscapedAttr("id", c.childId);
    EscapedAttr("name", c.name);
    EscapedAttr("status", c.status);
    var a := ChildAttrs(c);
    ReadIs(a, 0, "id", c.childId);
    ReadIs(a, 1, "name", c.name);
    ReadIs(a, 2, "status", c.status);
  }

  lemma ErrorQuiet(indent: string, error: Option<string>, name: string)
    requires IsTag(name) && name != "error" && '<' !in indent
    ensures QuietParts(ErrorPart(indent, error), name)
  {
    hide IsTag, Quiet, Leaf;
    IsTags();
    if error.Some? { QuietLeaf(indent, "error", error.value, name); }
  }

  lemma QuietPartsConcat(a: seq<string>, b: seq<string>, name: string)
    requires QuietParts(a, name) && QuietParts(b, name)
    ensures QuietParts(a + b, name)
  {
    hide Quiet;
  }

  lemma ChildBodyQuiet(c: DoneChild, name: string)
    requires IsTag(name) && name !in {"prompt", "error", "result"}
    ensures QuietParts(ChildBody(c), name)
  {
    hide IsTag, Quiet, Leaf, ErrorPart;
    IsTags();
    var p, r := ["    " + Leaf("prompt", c.prompt)], ["    " + Leaf("result", c.result)];
    QuietLeaf("    ", "prompt", c.prompt, name);
    QuietLeaf("    ", "result", c.result, name);
    ErrorQuiet("    ", c.error, name);
    QuietPartsConcat(p, ErrorPart("    ", c.error), name);
    QuietPartsConcat(p + ErrorPart("    ", c.error), r, name);
  }

  function ChildElement(c: DoneChild): Element {
    Element(AttrText(ChildAttrs(c)), "\n" + Lines(ChildBody(c)) + "  ")
  }

  lemma ChildLeaves(c: DoneChild)
    ensures var inner := "\n" + Lines(ChildBody(c)) + "  ";
      && Child(inner, "prompt") == Some(c.prompt) && Child(inner, "result") == Some(c.result)
      && Truthy(Child(inner, "error")) == Truthy(c.error)
  {
    hide IsTag, Quiet, Leaf, Lines, Child;
    IsTags();
    var p, e, r := ["    " + Leaf("prompt", c.prompt)], ErrorPart("    ", c.error), ["    " + Leaf("result", c.result)];
    assert ChildBody(c) == [] + p + (e + r) && ChildBody(c) == p + e + r && ChildBody(c) == (p + e) + r + [];
    LeafFound([], "    ", "prompt", c.prompt, e + r, "  ");
    QuietLeaf("    ", "prompt", c.prompt, "result");
    ErrorQuiet("    ", c.error, "result");
    QuietPartsConcat(p, e, "result");
    LeafFound(p + e, "    ", "result", c.result, [], "  ");
    QuietLeaf("    ", "prompt", c.prompt, "error");
    if e == [] {
      QuietLeaf("    ", "result", c.result, "error");
      QuietPartsConcat(p, r, "error");
      assert ChildBody(c) == p + r;
      LeafAbsent(ChildBody(c), "error", "  ");
    } else {
      LeafFound(p, "    ", "error", c.error.value, r, "  ");
    }
  }

  lemma ChildParsed(c: DoneChild)
    ensures ParseChild(ChildElement(c)) == c.(error := Truthy(c.error))
  {
    hide ChildAttrs, Child, Lines, Leaf, ParseAttrs, Get;
    ChildAttrsRead(c);
    ChildLeaves(c);
  }

  lemma {:induction false} ChildrenParsed(children: seq<DoneChild>, before: string)
    requires Quiet(before, "child")
    ensures ParseChildren(Elements(before + Lines(ChildrenParts(children)), "child")) == NormalChildren(children)
  {
    hide IsTag, Quiet, QuietParts, ChildBody, ChildAttrs, ParseChild, Elements, Wrapped, Lines;
    IsTags();
    TagIsName("child");
    QuietIsFree(before, "child");
    ElementsSkip(before, Lines(ChildrenParts(children)), "child");
    if children == [] {
      NoLines();
      FreeText("", "child");
      NoElements("", "child");
    } else {
      var c := children[0];
      LinesConcat(ChildParts(c), ChildrenParts(children[1..]));
      BlockIsElement("child", ChildAttrs(c), ChildBody(c));
      ChildAttrsRead(c);
      ChildBodyQuiet(c, "child");
      BlockFound("child", ChildAttrs(c), ChildBody(c), Lines(ChildrenParts(children[1..])));
      var more := Elements(Lines(ChildrenParts(children[1..])), "child");
      assert ([ChildElement(c)] + more)[1..] == more;
      ChildParsed(c);
      QuietText("", "child");
      ChildrenParsed(children[1..], "");
      assert "" + Lines(ChildrenParts(children[1..])) == Lines(ChildrenParts(children[1..]));
    }
  }

  // ---- the envelope ----

  function Kind(d: Details): string {
    match d
    case Task(_, _) => "task"
    case Monitor(_, _, _, _, _, _) => "monitor"
    case Handover(_, _, _, _, _, _, _, _, _) => "subagent-handover"
    case Finished(_, _, _, _, _) => "subagent-done"
    case Request(_, _, _) => "supervisor-request"
    case Update(_, _, _) => "supervisor-update"
  }

  lemma RootAttrsPlain(d: Details)
    ensures PlainAttrs(RootAttrs(d)) && RootAttrs(d) != [] && RootAttrs(d)[0] == ("kind", Kind(d))
  {
    hide EscapeXmlAttr, NumberText, PlainAttr, IsName;
    NamesOfAttrs();
    KindPlain(d);
    match d
    case Task(_, _) =>
    case Monitor(id, description, status, _, eventCount, droppedLines) =>
      EscapedAttr("id", id);
      EscapedAttr("description", description);
      OptionalPlain("status", status);
      if eventCount.Some? { NumberAttr("event-count", eventCount.value); }
      if droppedLines.Some? { NumberAttr("dropped-lines", droppedLines.value); }
    case Handover(runId, childId, name, status, _, _, _, _, _) =>
      EscapedAttr("run-id", runId);
      EscapedAttr("child-id", childId);
      EscapedAttr("name", name);
      EscapedAttr("status", status);
    case Finished(runId, status, elapsedMs, _, _) =>
      EscapedAttr("run-id", runId);
      EscapedAttr("status", status);
      NumberAttr("duration-ms", Round(elapsedMs));
    case Request(from, name, _) =>
      EscapedAttr("from", from);
      EscapedAttr("name", name);
    case Update(from, name, _) =>
      EscapedAttr("from", from);
      EscapedAttr("name", name);
  }

  lemma KindPlain(d: Details)
    ensures PlainAttr(("kind", Kind(d))) && '&' !in Kind(d)
  {
    hide NameChar;
    KindIsName(d);
    forall i | 0 <= i < |Kind(d)| ensures !Special(Kind(d)[i]) { NameIsNotSpecial(Kind(d)[i]); }
    NamesOfAttrs();
  }

  lemma KindIsName(d: Details)
    ensures IsName(Kind(d))
  {}

  lemma NameIsNotSpecial(c: char)
    requires NameChar(c)
    ensures !Special(c)
  {}

  /** The kind is read back, and no other attribute is named so. */
  lemma RootKind(d: Details)
    ensures Read(RootAttrs(d), "kind") == Some(Kind(d))
  {
    hide EscapeXmlAttr, NumberText, PlainAttrs, Read, Kind;
    RootAttrsPlain(d);
    KindPlain(d);
    ReadIs(RootAttrs(d), 0, "kind", Kind(d));
  }

  function RootElement(d: Details): Element {
    Element(AttrText(RootAttrs(d)), "\n" + Lines(BodyParts(d)))
  }

  lemma RenderIsWrapped(d: Details)
    ensures RenderWake(d) == Wrapped(WAKE, RootAttrs(d), "\n" + Lines(BodyParts(d)))
  {
    hide Join, Lines, AttrText, RootAttrs, BodyParts;
    JoinEnvelope(Open(WAKE, RootAttrs(d)), BodyParts(d), Close(WAKE));
  }

  function Prefix(leadIn: string): string {
    if leadIn == "" then "" else leadIn + "\n\n"
  }

  lemma PrefixHarmless(leadIn: string)
    requires Harmless(leadIn, WAKE)
    ensures Harmless(Prefix(leadIn), WAKE)
  {
    var p := Prefix(leadIn);
    forall i | 0 <= i < |p| && p[i] == '<' ensures Open(WAKE, []) <= p[i..] {
      assert leadIn[i] == '<' && Open(WAKE, []) <= leadIn[i..];
      assert p[i..] == leadIn[i..] + "\n\n";
    }
  }

  lemma XmlIsRoot(d: Details, leadIn: string)
    requires Harmless(leadIn, WAKE)
    ensures FromXml(FormatWake(d, leadIn)) == FromElement(RootElement(d))
  {
    hide RenderWake, FromElement, Root, RootAttrs, BodyParts, Lines, Harmless, PlainAttrs, Wrapped;
    RenderIsWrapped(d);
    PrefixHarmless(leadIn);
    RootAttrsPlain(d);
    RootOf(Prefix(leadIn), WAKE, RootAttrs(d), "\n" + Lines(BodyParts(d)));
    assert FormatWake(d, leadIn) == Prefix(leadIn) + RenderWake(d);
  }

  // ---- kind by kind ----

  lemma TaskAgrees(d: Details)
    requires d.Task?
    ensures FromElement(RootElement(d)) == TaskWakeOf(NormalTasks(PrintedTasks(d.tasks)), d.stillRunning)
  {
    hide ParseTasks, ParseStillRunning, Elements, TaskWakeOf, NormalTasks, PrintedTasks, IsTag, Quiet,
         StillRunning, TasksParts, Get;
    RootKind(d);
    IsTags();
    var still, tasks := Lines(StillRunning(d.stillRunning)), Lines(TasksParts(d.tasks));
    LinesConcat(StillRunning(d.stillRunning), TasksParts(d.tasks));
    assert "\n" + Lines(BodyParts(d)) == "\n" + still + tasks;
    TasksQuiet(d.tasks, "still-running");
    StillParsed(d.stillRunning, tasks);
    StillQuiet(d.stillRunning, "task");
    QuietText("\n", "task");
    QuietConcat("\n", still, "task");
    QuietIsFree("\n" + still, "task");
    ElementsSkip("\n" + still, tasks, "task");
    TasksParsed(d.tasks);
  }

  lemma MonitorAgrees(d: Details)
    requires d.Monitor?
    ensures FromElement(RootElement(d)) ==
            BLANK.(kind := "monitor", taskIds := if d.id == "" then [] else [d.id],
                   status := Some(Or(Truthy(d.eventStatus), "event")), body := d.event)
  {
    hide Lines, Leaf, Child, EscapeXmlAttr, NumberText, PlainAttrs, IsName, Quiet, Get;
    RootKind(d);
    RootAttrsPlain(d);
    IsTags();
    var a := RootAttrs(d);
    ReadIs(a, 1, "id", d.id);
    if d.eventStatus.Some? && d.eventStatus.value != "" {
      ReadIs(a, 3, "status", d.eventStatus.value);
    } else {
      ReadMissing(a, "status");
    }
    LeafFound([], "  ", "event", d.event, [], "");
    assert [] + ["  " + Leaf("event", d.event)] + [] == BodyParts(d);
    assert "\n" + Lines(BodyParts(d)) + "" == "\n" + Lines(BodyParts(d));
  }

  lemma HandoverAgrees(d: Details)
    requires d.Handover?
    ensures FromElement(RootElement(d)) ==
            BLANK.(kind := "subagent-handover", runId := Some(d.runId), childId := Some(d.childId),
                 childName := Some(d.name),
                   status := Some(d.status), stillRunning := d.stillRunning, body := d.result)
  {
    hide ParseStillRunning, Elements, Lines, Leaf, Child, EscapeXmlAttr, PlainAttrs, Quiet, QuietParts,
         StillRunning, ErrorPart, Get;
    RootKind(d);
    RootAttrsPlain(d);
    var a := RootAttrs(d);
    ReadIs(a, 1, "run-id", d.runId);
    ReadIs(a, 2, "child-id", d.childId);
    ReadIs(a, 3, "name", d.name);
    ReadIs(a, 4, "status", d.status);
    HandoverBody(d);
  }

  lemma HandoverBody(d: Details)
    requires d.Handover?
    ensures var inner := "\n" + Lines(BodyParts(d));
      ParseStillRunning(inner) == d.stillRunning && Child(inner, "result") == Some(d.result)
  {
    hide ParseStillRunning, Elements, Lines, Leaf, Child, IsTag, Quiet, QuietParts, StillRunning, ErrorPart;
    IsTags();
    var still := StillRunning(d.stillRunning);
    var sp := ["  " + Leaf("summary", d.summary), "  " + Leaf("prompt", d.prompt)];
    var e, r := ErrorPart("  ", d.error), ["  " + Leaf("result", d.result)];
    var before := sp + e;
    assert BodyParts(d) == still + (before + r);
    LinesConcat(still, before + r);
    HandoverQuiet(d, "still-running");
    HandoverQuiet(d, "result");
    QuietLeaf("  ", "result", d.result, "still-running");
    QuietOne("  " + Leaf("result", d.result), "still-running");
    QuietPartsConcat(before, r, "still-running");
    QuietLines(before + r, "still-running");
    StillParsed(d.stillRunning, Lines(before + r));
    assert "\n" + Lines(BodyParts(d)) == "\n" + Lines(still) + Lines(before + r);
    ResultAfter(still, before, d.stillRunning, d.result);
  }

  lemma QuietOne(part: string, name: string)
    requires Quiet(part, name)
    ensures QuietParts([part], name)
  {}

  lemma HandoverQuiet(d: Details, name: string)
    requires d.Handover? && IsTag(name) && name !in {"summary", "prompt", "error"}
    ensures var parts := ["  " + Leaf("summary", d.summary), "  " + Leaf("prompt", d.prompt)];
      QuietParts(parts + ErrorPart("  ", d.error), name)
  {
    hide Leaf, IsTag, Quiet, ErrorPart;
    IsTags();
    QuietLeaf("  ", "summary", d.summary, name);
    QuietLeaf("  ", "prompt", d.prompt, name);
    ErrorQuiet("  ", d.error, name);
    var parts := ["  " + Leaf("summary", d.summary), "  " + Leaf("prompt", d.prompt)];
    QuietPartsConcat(parts, ErrorPart("  ", d.error), name);
  }

  /** The result after the block of running work and other lines. */
  lemma ResultAfter(still: seq<string>, before: seq<string>, items: seq<Item>, result: string)
    requires still == StillRunning(items) && QuietParts(before, "result")
    ensures Child("\n" + Lines(still) + Lines(before + ["  " + Leaf("result", result)]), "result") == Some(result)
  {
    hide Lines, Leaf, Child, IsTag, Quiet, QuietParts, StillRunning;
    IsTags();
    TagIsName("result");
    StillQuiet(items, "result");
    QuietText("\n", "result");
    QuietConcat("\n", Lines(still), "result");
    QuietLines(before, "result");
    QuietConcat("\n" + Lines(still), Lines(before), "result");
    QuietText("  ", "result");
    QuietConcat("\n" + Lines(still) + Lines(before), "  ", "result");
    var head := "\n" + Lines(still) + Lines(before) + "  ";
    QuietIsFree(head, "result");
    LeafChild(head, "result", result, "\n");
    LinesConcat(before, ["  " + Leaf("result", result)]);
    LinesOne("  " + Leaf("result", result));
    assert "\n" + Lines(still) + Lines(before + ["  " + Leaf("result", result)]) ==
           head + (Leaf("result", result) + "\n");
  }

  lemma FinishedAgrees(d: Details)
    requires d.Finished?
    ensures FromElement(RootElement(d)) == DoneWakeOf(Some(d.runId), Some(d.status), NormalChildren(d.children))
  {
    hide ParseChildren, Elements, Lines, Leaf, EscapeXmlAttr, NumberText, PlainAttrs, IsTag, Quiet, ChildrenParts,
         NormalChildren, DoneWakeOf, Get;
    RootKind(d);
    RootAttrsPlain(d);
    var a := RootAttrs(d);
    ReadIs(a, 1, "run-id", d.runId);
    ReadIs(a, 2, "status", d.status);
    IsTags();
    var summary := "  " + Leaf("summary", d.summary);
    QuietLeaf("  ", "summary", d.summary, "child");
    QuietText("\n", "child");
    QuietConcat("\n", summary, "child");
    QuietConcat("\n" + summary, "\n", "child");
    LinesConcat([summary], ChildrenParts(d.children));
    LinesOne(summary);
    assert "\n" + Lines(BodyParts(d)) == ("\n" + summary + "\n") + Lines(ChildrenParts(d.children));
    ChildrenParsed(d.children, "\n" + summary + "\n");
  }

  lemma SupervisorAgrees(d: Details)
    requires d.Request? || d.Update?
    ensures FromElement(RootElement(d)) ==
            BLANK.(kind := Kind(d), childId := Some(d.from), childName := Some(d.name), body := d.message,
                   replyWith := if d.Request? then Some(Recipe(d.from)) else None)
  {
    hide Lines, Leaf, Child, EscapeXmlAttr, PlainAttrs, IsTag, Quiet, Get;
    RootKind(d);
    RootAttrsPlain(d);
    var a := RootAttrs(d);
    ReadIs(a, 1, "from", d.from);
    ReadIs(a, 2, "name", d.name);
    IsTags();
    var m := "  " + Leaf("message", d.message);
    QuietLeaf("  ", "message", d.message, "reply-with");
    QuietOne(m, "reply-with");
    assert "\n" + Lines(BodyParts(d)) + "" == "\n" + Lines(BodyParts(d));
    if d.Request? {
      var r := "  " + Leaf("reply-with", Recipe(d.from));
      assert BodyParts(d) == [] + [m] + [r] && BodyParts(d) == [m] + [r] + [];
      LeafFound([], "  ", "message", d.message, [r], "");
      LeafFound([m], "  ", "reply-with", Recipe(d.from), [], "");
      assert Recipe(d.from)[0] == 'a';
    } else {
      assert BodyParts(d) == [] + [m] + [];
      LeafFound([], "  ", "message", d.message, [], "");
      LeafAbsent([m], "reply-with", "");
    }
  }

  /** The recipe is found in the whole text too, past the lead-in and the envelope's tag. */
  lemma RecipeInText(d: Details, leadIn: string)
    requires d.Request? && Harmless(leadIn, WAKE)
    ensures Child(FormatWake(d, leadIn), "reply-with") == Some(Recipe(d.from))
  {
    hide Lines, Leaf, Child, RenderWake, Harmless, Free, Recipe, RootAttrs, IsTag;
    IsTags();
    TagIsName("reply-with");
    RecipeHeadFree(d, leadIn);
    var m, leaf := "  " + Leaf("message", d.message), Leaf("reply-with", Recipe(d.from));
    LeafChild(RecipeHead(d, leadIn), "reply-with", Recipe(d.from), "\n" + Close(WAKE));
    RenderIsWrapped(d);
    LinesConcat([m], ["  " + leaf]);
    LinesOne(m);
    LinesOne("  " + leaf);
    assert BodyParts(d) == [m] + ["  " + leaf];
    RecipeText(Prefix(leadIn), Open(WAKE, RootAttrs(d)), m, leaf);
    assert FormatWake(d, leadIn) == Prefix(leadIn) + RenderWake(d);
  }

  lemma RecipeText(prefix: string, open: string, m: string, leaf: string)
    ensures prefix + (open + ("\n" + (m + "\n" + ("  " + leaf + "\n"))) + Close(WAKE)) ==
            (prefix + open + "\n" + m + "\n  ") + (leaf + ("\n" + Close(WAKE)))
  {}

  /** Everything before the recipe's element. */
  function RecipeHead(d: Details, leadIn: string): string
    requires d.Request?
  {
    Prefix(leadIn) + Open(WAKE, RootAttrs(d)) + "\n" + ("  " + Leaf("message", d.message)) + "\n  "
  }

  lemma RecipeHeadFree(d: Details, leadIn: string)
    requires d.Request? && Harmless(leadIn, WAKE)
    ensures Free(RecipeHead(d, leadIn), "reply-with")
  {
    hide Lines, Leaf, PlainAttrs, IsTag, Quiet, Harmless, AttrText, Free, RootAttrs;
    var name := "reply-with";
    IsTags();
    TagIsName(name);
    RootAttrsPlain(d);
    PrefixHarmless(leadIn);
    WakeApart();
    HarmlessIsFree(Prefix(leadIn), WAKE, name);
    AttrTextSafe(RootAttrs(d));
    FreeTag(WAKE, AttrText(RootAttrs(d)), name);
    var m, open := "  " + Leaf("message", d.message), Open(WAKE, RootAttrs(d));
    QuietLeaf("  ", "message", d.message, name);
    QuietIsFree(m, name);
    FreeText("\n", name);
    FreeText("\n  ", name);
    FreeConcat(Prefix(leadIn), open, name);
    FreeConcat(Prefix(leadIn) + open, "\n", name);
    FreeConcat(Prefix(leadIn) + open + "\n", m, name);
    FreeConcat(Prefix(leadIn) + open + "\n" + m, "\n  ", name);
  }

  lemma WakeApart()
    ensures Apart(WAKE, "reply-with") && '<' !in WAKE
  {
    assert WAKE[0] != "reply-with"[0];
  }

  // ---- the theorem ----

  /** What the text can say: no empty monitor id or status, and whole milliseconds. */
  predicate Readable(d: Details) {
    match d
    case Monitor(id, _, status, _, _, _) => id != "" && status != Some("")
    case Task(_, tasks) => forall i | 0 <= i < |tasks| :: tasks[i].durationMs == Round(tasks[i].durationMs) as real
    case _ => true
  }

  lemma {:induction false} WholeDurations(tasks: seq<TaskWake>)
    ensures NormalTasks(PrintedTasks(tasks)) == NormalTasks(tasks) <==>
            forall i | 0 <= i < |tasks| :: tasks[i].durationMs == Round(tasks[i].durationMs) as real
    ensures |NormalTasks(tasks)| == |tasks|
  {
    hide Round;
    if tasks != [] {
      WholeDurations(tasks[1..]);
      var a, b := NormalTasks(PrintedTasks(tasks)), NormalTasks(tasks);
      assert a[0] == NormalOf(Printed(tasks[0])) && b[0] == NormalOf(tasks[0]);
      assert PrintedTasks(tasks)[1..] == PrintedTasks(tasks[1..]);
      assert a[1..] == NormalTasks(PrintedTasks(tasks[1..])) && b[1..] == NormalTasks(tasks[1..]);
      assert a == b <==> a[0] == b[0] && a[1..] == b[1..] by { assert a == [a[0]] + a[1..] && b == [b[0]] + b[1..]; }
      assert a[0] == b[0] <==> tasks[0].durationMs == Round(tasks[0].durationMs) as real;
      AllOrFirstAndRest(tasks);
    }
  }

  lemma AllOrFirstAndRest(tasks: seq<TaskWake>)
    requires tasks != []
    ensures (forall i | 0 <= i < |tasks| :: tasks[i].durationMs == Round(tasks[i].durationMs) as real) <==>
            tasks[0].durationMs == Round(tasks[0].durationMs) as real &&
            forall i | 0 <= i < |tasks[1..]| :: tasks[1..][i].durationMs == Round(tasks[1..][i].durationMs) as real
  {
    hide Round;
    assert tasks == [tasks[0]] + tasks[1..];
  }

  /** For every wake, after every harmless lead-in, reading the printed text gives exactly what
      the details give if and only if the text can say it. */
  lemma PrinterAndParserAgree(d: Details, leadIn: string)
    requires Harmless(leadIn, WAKE)
    ensures var raw := FormatWake(d, leadIn); FromXml(raw) == FromDetails(raw, d) <==> Readable(d)
  {
    hide FromXml, FromElement, FormatWake, RootElement, Harmless, TaskWakeOf, Child, NormalTasks, PrintedTasks,
         NormalChildren, DoneWakeOf, Round, Recipe;
    XmlIsRoot(d, leadIn);
    match d
    case Task(stillRunning, tasks) =>
      TaskAgrees(d);
      WholeDurations(tasks);
      SameTasks(NormalTasks(PrintedTasks(tasks)), NormalTasks(tasks), stillRunning);
    case Monitor(_, _, _, _, _, _) => MonitorAgrees(d);
    case Handover(_, _, _, _, _, _, _, _, _) => HandoverAgrees(d);
    case Finished(_, _, _, _, _) => FinishedAgrees(d);
    case Request(_, _, _) => SupervisorAgrees(d); RecipeInText(d, leadIn); RecipeSays(d.from);
    case Update(_, _, _) => SupervisorAgrees(d);
  }

  lemma RecipeSays(from: string)
    ensures Recipe(from) != ""
  {}

  lemma SameTasks(a: seq<NormalTask>, b: seq<NormalTask>, items: seq<Item>)
    ensures TaskWakeOf(a, items) == TaskWakeOf(b, items) <==> a == b
  {
    assert TaskWakeOf(a, items).tasks == a && TaskWakeOf(b, items).tasks == b;
  }

  const LEAD_IN :=
    "System wake — not a " + "new user message. " + "Handle this " + "<pi-famulus-wake>" + " before other work."

  /** The lead-in pi-famulus uses, and leaving it out. */
  lemma LeadInsAreHarmless()
    ensures Harmless("", WAKE) && Harmless(LEAD_IN, WAKE)
  {
    var x, y, z := "System wake — not a ", "new user message. ", "Handle this ";
    NoAngle(x);
    NoAngle(y);
    NoAngle(z);
    NoAngle(" before other work.");
    NoAttrText();
    assert Open(WAKE, []) == "<pi-famulus-wake>";
    LeadHarmless(x + y + z, " before other work.");
  }

  lemma NoAngle(s: string)
    requires forall i | 0 <= i < |s| :: s[i] != '<'
    ensures '<' !in s
  {}

  lemma WhereFrom(a: string, b: string, c: string, i: nat)
    requires i < |a + b + c| && b != ""
    ensures i < |a| ==> (a + b + c)[i] in a
    ensures |a| < i < |a| + |b| ==> (a + b + c)[i] in b[1..]
    ensures i >= |a| + |b| ==> (a + b + c)[i] in c
  {
    if |a| < i < |a| + |b| { assert b[1..][i - |a| - 1] == (a + b + c)[i]; }
  }

  lemma LeadHarmless(a: string, b: string)
    requires '<' !in a && '<' !in b
    ensures Harmless(a + Open(WAKE, []) + b, WAKE)
  {
    var tag, lead := Open(WAKE, []), a + Open(WAKE, []) + b;
    NoAttrText();
    NoAngle(WAKE);
    assert tag == "<" + WAKE + ">";
    forall i | 0 <= i < |lead| && lead[i] == '<' ensures tag <= lead[i..] {
      WhereFrom(a, tag, b, i);
      assert '<' !in tag[1..];
      assert lead[i..] == tag + b;
    }
  }
}
