/** The wake envelope: extension/src/wake.ts prints it, eval/lib/wake-adapter.ts reads it back
    when the details object beside it is lost. */
module WakeXml {
  import opened Options
  import opened Decimals
  import opened XmlText
  import opened XmlTags

  datatype Item = Item(id: string, title: string)

  datatype TaskWake = TaskWake(
    id: string, taskKind: string, status: string, summary: string, command: string, outputPath: string,
    preview: string, durationMs: real, exitCode: Option<int>, signal: Option<string>)

  datatype DoneChild = DoneChild(
    childId: string, name: string, status: string, prompt: string, result: string, error: Option<string>)

  datatype Details =
    | Task(stillRunning: seq<Item>, tasks: seq<TaskWake>)
    | Monitor(id: string, description: string, eventStatus: Option<string>, event: string,
              eventCount: Option<int>, droppedLines: Option<int>)
    | Handover(runId: string, childId: string, name: string, status: string, stillRunning: seq<Item>,
               summary: string, prompt: string, result: string, error: Option<string>)
    | Finished(runId: string, status: string, elapsedMs: real, summary: string, children: seq<DoneChild>)
    | Request(from: string, name: string, message: string)
    | Update(from: string, name: string, message: string)

  const WAKE := "pi-famulus-wake"

  // ---- printing ----

  function Round(x: real): int {
    (x + 0.5).Floor
  }

  function NumberText(n: int): string {
    var ds := Digits(if n < 0 then -n else n);
    (if n < 0 then "-" else "") + seq(|ds|, i requires 0 <= i < |ds| => ds[i] as char)
  }

  function Join(parts: seq<string>, glue: string): string {
    if parts == [] then "" else if |parts| == 1 then parts[0] else parts[0] + glue + Join(parts[1..], glue)
  }

  function Leaf(name: string, text: string): string {
    Wrapped(name, [], EscapeXml(text))
  }

  function ItemLine(item: Item): string {
    "    " + Wrapped("item", [("id", EscapeXmlAttr(item.id))], EscapeXml(item.title))
  }

  function ItemLines(items: seq<Item>): seq<string> {
    if items == [] then [] else [ItemLine(items[0])] + ItemLines(items[1..])
  }

  /** The block of still running work, as one part; none when there is none. */
  function StillRunning(items: seq<Item>): seq<string> {
    if items == [] then []
    else [Join(["  <still-running>"] + ItemLines(items) + ["  </still-running>"], "\n")]
  }

  function Optional(name: string, value: Option<string>): seq<(string, string)> {
    if value.Some? && value.value != "" then [(name, EscapeXmlAttr(value.value))] else []
  }

  function TaskAttrs(t: TaskWake): seq<(string, string)> {
    [("id", EscapeXmlAttr(t.id)), ("kind", EscapeXmlAttr(t.taskKind)), ("status", EscapeXmlAttr(t.status)),
     ("duration-ms", NumberText(Round(t.durationMs)))]
    + (if t.exitCode.Some? then [("exit-code", NumberText(t.exitCode.value))] else [])
    + Optional("signal", t.signal)
  }

  function TaskBody(t: TaskWake): seq<string> {
    ["    " + Leaf("summary", t.summary), "    " + Leaf("command", t.command),
     "    " + Leaf("output-file", t.outputPath), "    " + Leaf("preview", t.preview)]
  }

  function TaskParts(t: TaskWake): seq<string> {
    ["  " + Open("task", TaskAttrs(t))] + TaskBody(t) + ["  " + Close("task")]
  }

  function TasksParts(tasks: seq<TaskWake>): seq<string> {
    if tasks == [] then [] else TaskParts(tasks[0]) + TasksParts(tasks[1..])
  }

  function ErrorPart(indent: string, error: Option<string>): seq<string> {
    if error.Some? && error.value != "" then [indent + Leaf("error", error.value)] else []
  }

  function ChildAttrs(c: DoneChild): seq<(string, string)> {
    [("id", EscapeXmlAttr(c.childId)), ("name", EscapeXmlAttr(c.name)), ("status", EscapeXmlAttr(c.status))]
  }

  function ChildBody(c: DoneChild): seq<string> {
    ["    " + Leaf("prompt", c.prompt)] + ErrorPart("    ", c.error) + ["    " + Leaf("result", c.result)]
  }

  function ChildParts(c: DoneChild): seq<string> {
    ["  " + Open("child", ChildAttrs(c))] + ChildBody(c) + ["  " + Close("child")]
  }

  function ChildrenParts(children: seq<DoneChild>): seq<string> {
    if children == [] then [] else ChildParts(children[0]) + ChildrenParts(children[1..])
  }

  function Recipe(from: string): string {
    "agent_message { action: \"reply\", to: \"" + from + "\", message: \"<your decision>\" }"
  }

  function RootAttrs(d: Details): seq<(string, string)> {
    match d
    case Task(_, _) => [("kind", "task")]
    case Monitor(id, description, status, _, eventCount, droppedLines) =>
      [("kind", "monitor"), ("id", EscapeXmlAttr(id)), ("description", EscapeXmlAttr(description))]
      + Optional("status", status)
      + (if eventCount.Some? && eventCount.value > 1 then [("event-count", NumberText(eventCount.value))] else [])
      + (if droppedLines.Some? && droppedLines.value > 0
         then [("dropped-lines", NumberText(droppedLines.value))] else [])
    case Handover(runId, childId, name, status, _, _, _, _, _) =>
      [("kind", "subagent-handover"), ("run-id", EscapeXmlAttr(runId)), ("child-id", EscapeXmlAttr(childId)),
       ("name", EscapeXmlAttr(name)), ("status", EscapeXmlAttr(status))]
    case Finished(runId, status, elapsedMs, _, _) =>
      [("kind", "subagent-done"), ("run-id", EscapeXmlAttr(runId)), ("status", EscapeXmlAttr(status)),
       ("duration-ms", NumberText(Round(elapsedMs)))]
    case Request(from, name, _) =>
      [("kind", "supervisor-request"), ("from", EscapeXmlAttr(from)), ("name", EscapeXmlAttr(name))]
    case Update(from, name, _) =>
      [("kind", "supervisor-update"), ("from", EscapeXmlAttr(from)), ("name", EscapeXmlAttr(name))]
  }

  /** The parts between the envelope's tags. */
  function BodyParts(d: Details): seq<string> {
    match d
    case Task(stillRunning, tasks) => StillRunning(stillRunning) + TasksParts(tasks)
    case Monitor(_, _, _, event, _, _) => ["  " + Leaf("event", event)]
    case Handover(_, _, _, _, stillRunning, summary, prompt, result, error) =>
      StillRunning(stillRunning) + ["  " + Leaf("summary", summary), "  " + Leaf("prompt", prompt)]
      + ErrorPart("  ", error) + ["  " + Leaf("result", result)]
    case Finished(_, _, _, summary, children) => ["  " + Leaf("summary", summary)] + ChildrenParts(children)
    case Request(from, _, message) => ["  " + Leaf("message", message), "  " + Leaf("reply-with", Recipe(from))]
    case Update(_, _, message) => ["  " + Leaf("message", message)]
  }

  function RenderWake(d: Details): string {
    Join([Open(WAKE, RootAttrs(d))] + BodyParts(d) + [Close(WAKE)], "\n")
  }

  function FormatWake(d: Details, leadIn: string): string {
    if leadIn == "" then RenderWake(d) else leadIn + "\n\n" + RenderWake(d)
  }

  // ---- the normalized wake ----

  /** A number as read from text; other numerals than whole decimal ones are not read here. */
  datatype Num = Num(value: real) | NaN

  datatype NormalTask = NormalTask(
    id: string, taskKind: string, status: string, exitCode: Option<Num>, signal: Option<string>, summary: string,
    command: string, outputPath: string, preview: string, durationMs: Num)

  /** What graders see, but for the text itself, its lead-in and where the fields came from. */
  datatype Wake = Wake(
    kind: string,
    taskIds: seq<string>,
    status: Option<string>,
    tasks: seq<NormalTask>,
    runId: Option<string>,
    childId: Option<string>,
    childName: Option<string>,
    children: seq<DoneChild>,
    stillRunning: seq<Item>,
    body: string,
    replyWith: Option<string>)

  const BLANK := Wake("unknown", [], None, [], None, None, None, [], [], "", None)

  function ToNumber(s: string): Num {
    var digits := if s != "" && s[0] == '-' then s[1..] else s;
    match ParseDigits(seq(|digits|, i requires 0 <= i < |digits| => digits[i] as Utf8.Scalar))
    case Some(n) => Num(if s != "" && s[0] == '-' then -(n as real) else n as real)
    case None => NaN
  }

  predicate AllNumeric(s: string) {
    s != "" && forall i | 0 <= i < |s| :: '0' <= s[i] <= '9'
  }

  function SignalName(v: Option<string>): Option<string> {
    match v
    case None => None
    case Some(s) =>
      if s == "" then None
      else if AllNumeric(s) then
        var n := ToNumber(s);
        Some(if n == Num(1.0) then "SIGHUP" else if n == Num(2.0) then "SIGINT" else if n == Num(9.0) then "SIGKILL"
             else if n == Num(15.0) then "SIGTERM" else "SIG" + s)
      else Some(s)
  }

  function Or(v: Option<string>, default: string): string {
    match v case Some(s) => s case None => default
  }

  /** Kept only when there is something to say. */
  function Truthy(v: Option<string>): Option<string> {
    if v == Some("") then None else v
  }

  function TaskIds(tasks: seq<NormalTask>): seq<string> {
    seq(|tasks|, i requires 0 <= i < |tasks| => tasks[i].id)
  }

  function TaskWakeOf(tasks: seq<NormalTask>, stillRunning: seq<Item>): Wake {
    BLANK.(kind := "task", tasks := tasks, taskIds := TaskIds(tasks),
           status := Some(Join(seq(|tasks|, i requires 0 <= i < |tasks| => tasks[i].status), ",")),
           stillRunning := stillRunning,
           body := Join(seq(|tasks|, i requires 0 <= i < |tasks| => tasks[i].preview), "\n"))
  }

  function DoneWakeOf(runId: Option<string>, status: Option<string>, children: seq<DoneChild>): Wake {
    BLANK.(kind := "subagent-done", runId := runId, status := status, children := children,
           body := Join(seq(|children|, i requires 0 <= i < |children| =>
                              "## " + children[i].name + "\n" + children[i].result), "\n\n"))
  }

  // ---- from the details ----

  function NormalOf(t: TaskWake): NormalTask {
    NormalTask(t.id, t.taskKind, t.status, match t.exitCode case Some(c) => Some(Num(c as real)) case None => None,
               SignalName(t.signal), t.summary, t.command, t.outputPath, t.preview, Num(t.durationMs))
  }

  function NormalTasks(tasks: seq<TaskWake>): seq<NormalTask> {
    if tasks == [] then [] else [NormalOf(tasks[0])] + NormalTasks(tasks[1..])
  }

  function NormalChildren(children: seq<DoneChild>): seq<DoneChild> {
    if children == [] then []
    else [children[0].(error := Truthy(children[0].error))] + NormalChildren(children[1..])
  }

  function FromDetails(raw: string, d: Details): Wake {
    match d
    case Task(stillRunning, tasks) => TaskWakeOf(NormalTasks(tasks), stillRunning)
    case Monitor(id, _, status, event, _, _) =>
      BLANK.(kind := "monitor", taskIds := [id], status := Some(Or(status, "event")), body := event)
    case Handover(runId, childId, name, status, stillRunning, _, _, result, _) =>
      BLANK.(kind := "subagent-handover", runId := Some(runId), childId := Some(childId), childName := Some(name),
             status := Some(status), stillRunning := stillRunning, body := result)
    case Finished(runId, status, _, _, children) => DoneWakeOf(Some(runId), Some(status), NormalChildren(children))
    case Request(from, name, message) =>
      BLANK.(kind := "supervisor-request", childId := Some(from), childName := Some(name), body := message,
             replyWith := Truthy(Child(raw, "reply-with")))
    case Update(from, name, message) =>
      BLANK.(kind := "supervisor-update", childId := Some(from), childName := Some(name), body := message)
  }

  // ---- from the text ----

  function ParseTask(e: Element): NormalTask {
    var a := ParseAttrs(e.attrs);
    NormalTask(
      Or(Get(a, "id"), ""), Or(Get(a, "kind"), "shell"), Or(Get(a, "status"), ""),
      match Get(a, "exit-code") case Some(c) => Some(ToNumber(c)) case None => None,
      SignalName(Get(a, "signal")),
      Or(Child(e.inner, "summary"), ""), Or(Child(e.inner, "command"), ""), Or(Child(e.inner, "output-file"), ""),
      Or(Child(e.inner, "preview"), ""),
      match Get(a, "duration-ms") case Some(n) => ToNumber(n) case None => Num(0.0))
  }

  function ParseTasks(es: seq<Element>): seq<NormalTask> {
    if es == [] then [] else [ParseTask(es[0])] + ParseTasks(es[1..])
  }

  function ParseChild(e: Element): DoneChild {
    var a := ParseAttrs(e.attrs);
    DoneChild(Or(Get(a, "id"), ""), Or(Get(a, "name"), ""), Or(Get(a, "status"), ""), Or(Child(e.inner, "prompt"), ""),
              Or(Child(e.inner, "result"), ""), Truthy(Child(e.inner, "error")))
  }

  function ParseChildren(es: seq<Element>): seq<DoneChild> {
    if es == [] then [] else [ParseChild(es[0])] + ParseChildren(es[1..])
  }

  function ParseItems(es: seq<Element>): seq<Item> {
    if es == [] then []
    else [Item(Or(Get(ParseAttrs(es[0].attrs), "id"), ""), UnescapeXml(es[0].inner))] + ParseItems(es[1..])
  }

  function ParseStillRunning(text: string): seq<Item> {
    var blocks := Elements(text, "still-running");
    if blocks == [] then [] else ParseItems(Elements(blocks[0].inner, "item"))
  }

  function FromElement(root: Element): Wake {
    var a, inner := ParseAttrs(root.attrs), root.inner;
    match Get(a, "kind")
    case None => BLANK
    case Some(kind) =>
      if kind == "task" then TaskWakeOf(ParseTasks(Elements(inner, "task")), ParseStillRunning(inner))
      else if kind == "monitor" then
        BLANK.(kind := "monitor", taskIds := if Truthy(Get(a, "id")).Some? then [Or(Get(a, "id"), "")] else [],
               status := Some(Or(Get(a, "status"), "event")), body := Or(Child(inner, "event"), ""))
      else if kind == "subagent-handover" then
        BLANK.(kind := kind, runId := Get(a, "run-id"), childId := Get(a, "child-id"), childName := Get(a, "name"),
               status := Get(a, "status"), stillRunning := ParseStillRunning(inner),
               body := Or(Child(inner, "result"), ""))
      else if kind == "subagent-done" then
        DoneWakeOf(Get(a, "run-id"), Get(a, "status"), ParseChildren(Elements(inner, "child")))
      else if kind == "supervisor-request" || kind == "supervisor-update" then
        BLANK.(kind := kind, childId := Get(a, "from"), childName := Get(a, "name"),
               body := Or(Child(inner, "message"), ""), replyWith := Truthy(Child(inner, "reply-with")))
      else BLANK
  }

  function FromXml(raw: string): Wake {
    match Root(raw, WAKE) case None => BLANK case Some(e) => FromElement(e)
  }
}
