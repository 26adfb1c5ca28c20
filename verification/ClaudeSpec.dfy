/**
 The Claude stream-json accumulator as a function on values: what each event of the CLI does to the
 accumulated state and which events it becomes. Fields that steer nothing are left as text.
 */
module ClaudeSpec {
  import opened Wrappers

  /** A JSON field where only text counts. */
  datatype Field = Absent | OtherValue | Text(text: string)

  datatype Block =
    | TextBlock(text: Option<string>)
    | ToolUse(id: string, name: string)
    | ThinkingBlock(thinking: string)
    | OtherBlock

  datatype Delta =
    | TextDelta(text: Option<string>)
    | ThinkDelta(thinking: string)
    | InputJson(partial: Option<string>)
    | OtherDelta

  datatype ResultBlock = ToolResult(id: string, isError: bool) | OtherResult

  datatype UserContent =
    | CommandStdout(output: string)
    | TaskNote(taskId: Option<string>, status: Option<string>)
    | Results(blocks: seq<ResultBlock>)
    | NothingKnown

  datatype Denial = Denial(tool: string, id: string)

  datatype Body =
    | Init
    | LocalCommandOutput(output: string)
    | KnownSystem(subtype: string)
    | UnknownSystem(subtype: string)
    | BlockStart(block: Option<Block>)
    | BlockDelta(delta: Option<Delta>)
    | NoOp                                // content_block_stop, message_stop
    | Assistant(messageId: string, content: Option<seq<Block>>)
    | User(user: UserContent)
    | Result(subtype: string, usage: bool, denials: seq<Denial>, error: string)
    | UserRejected(id: string, name: string)
    | Progress(id: string)
    | Summary(id: string)
    | RateLimit
    | UnknownType(name: string)

  /** A line of the CLI, bare or inside a stream_event envelope, which may be malformed. */
  datatype Raw = Bare(body: Body, parent: Field) | Envelope(inner: Option<Enclosed>, parent: Field)

  datatype Enclosed = Enclosed(body: Body, parent: Field)

  datatype Event =
    | ToolStart(id: string, name: string, parent: Option<string>)
    | ToolInputDelta(id: string, partial: string, parent: Option<string>)
    | ToolEnd(id: string, name: string, status: string, parent: Option<string>)
    | ToolProgress(id: string, parent: Option<string>)
    | ToolOutputDelta(id: string, parent: Option<string>)
    | ToolUseSummary(id: string, parent: Option<string>)
    | MessageDelta(text: string, parent: Option<string>)
    | ThinkingDelta(text: string, parent: Option<string>)
    | MessageComplete(id: string, text: string, parent: Option<string>)
    | RunState(state: string, error: Option<string>)
    | SessionInit
    | UsageUpdate
    | CommandOutput(content: string)
    | PermissionDenied(tool: string, id: string)
    | TaskNotification(taskId: string, status: string)
    | Notice(kind: string)
    | RawEvent(source: string)

  datatype State = State(
    tools: map<string, string>,
    inputs: map<string, string>,
    last: Option<string>,
    resume: bool,
    seenInit: bool,
    pendingCommand: Option<string>,
    gotResult: bool,
    resultSubtype: Option<string>)

  function Initial(resume: bool): State {
    State(map[], map[], None, resume, false, None, false, None)
  }

  datatype Mapped = Mapped(s: State, events: seq<Event>)

  // ---- Envelopes ----

  function Parent(f: Field): Option<string> {
    if f.Text? && f.text != "" then Some(f.text) else None
  }

  /** The event inside, and the tool it belongs to: the inner field wins when it is there at all. */
  function Unwrap(raw: Raw): (Body, Option<string>) {
    match raw
    case Bare(body, parent) => (body, Parent(parent))
    case Envelope(Some(inner), outer) =>
      (inner.body, Parent(if inner.parent.Absent? then outer else inner.parent))
    case Envelope(None, outer) => (UnknownType("stream_event"), Parent(outer))
  }

  // ---- Tools ----

  /** A tool block seen as its streaming starts. */
  function StartTool(s: State, id: string, name: string, parent: Option<string>): Mapped {
    if id == "" then Mapped(s, [])
    else Mapped(s.(tools := s.tools[id := name], inputs := s.inputs[id := ""], last := Some(id)),
                [ToolStart(id, name, parent)])
  }

  /** A tool block seen in a complete assistant message. */
  function WholeTool(s: State, id: string, name: string, parent: Option<string>): Mapped {
    if id in s.tools then Mapped(s, [])
    else Mapped(s.(tools := s.tools[id := name]), [ToolStart(id, name, parent)])
  }

  function InputPart(s: State, partial: string, parent: Option<string>): Mapped {
    if s.last.None? then Mapped(s, [])
    else
      var id := s.last.value;
      Mapped(if id in s.inputs then s.(inputs := s.inputs[id := s.inputs[id] + partial]) else s,
             if partial == "" then [] else [ToolInputDelta(id, partial, parent)])
  }

  /** The tool blocks of a complete message, in order. */
  function WholeTools(s: State, content: seq<Block>, parent: Option<string>): Mapped {
    if content == [] then Mapped(s, [])
    else
      var n := |content| - 1;
      var r := WholeTools(s, content[..n], parent);
      match content[n]
      case ToolUse(id, name) =>
        var t := WholeTool(r.s, id, name, parent);
        Mapped(t.s, r.events + t.events)
      case _ => r
  }

  function Texts(content: seq<Block>): seq<string> {
    if content == [] then []
    else
      var n := |content| - 1;
      Texts(content[..n]) + (if content[n].TextBlock? && content[n].text.Some? then [content[n].text.value] else [])
  }

  function Join(parts: seq<string>): string {
    if parts == [] then "" else Join(parts[..|parts| - 1]) + parts[|parts| - 1]
  }

  function ToolEnds(s: State, blocks: seq<ResultBlock>, parent: Option<string>): seq<Event> {
    if blocks == [] then []
    else
      var n := |blocks| - 1;
      ToolEnds(s, blocks[..n], parent)
      + (match blocks[n]
         case ToolResult(id, isError) =>
           [ToolEnd(id, if id in s.tools then s.tools[id] else "", if isError then "error" else "success", parent)]
         case OtherResult => [])
  }

  function Denied(denials: seq<Denial>): seq<Event> {
    if denials == [] then []
    else
      var n := |denials| - 1;
      Denied(denials[..n]) + (if denials[n].tool != "" then [PermissionDenied(denials[n].tool, denials[n].id)] else [])
  }

  const COST_HINT := "The /cost output is not available in the current CLI version. Cumulative cost is shown in the status bar."
  const CONTEXT_HINT := "The /context output is not available in the current CLI version. Run /context in a terminal session instead."

  function Hint(command: Option<string>): seq<Event> {
    match command
    case Some(c) =>
      if c == "/cost" then [CommandOutput(COST_HINT)]
      else if c == "/context" then [CommandOutput(CONTEXT_HINT)]
      else []
    case None => []
  }

  predicate IsError(subtype: string) {
    "error" <= subtype
  }

  // ---- One event ----

  function MapAssistant(s: State, messageId: string, content: seq<Block>, parent: Option<string>): Mapped {
    var r := WholeTools(s, content, parent);
    var texts := Texts(content);
    Mapped(r.s, r.events + (if texts == [] then [] else [MessageComplete(messageId, Join(texts), parent)]))
  }

  function MapResult(s: State, subtype: string, usage: bool, denials: seq<Denial>, error: string): Mapped {
    var s1 := if usage then s.(pendingCommand := None) else s;
    Mapped(
      if IsError(subtype) then s1.(gotResult := true, resultSubtype := Some(subtype)) else s1,
      ((if usage then [UsageUpdate] + Hint(s.pendingCommand) else []) + Denied(denials))
      + [RunState("idle", if IsError(subtype) then Some(error) else None)])
  }

  function MapUser(s: State, content: UserContent, parent: Option<string>): Mapped {
    match content
    case CommandStdout(output) => Mapped(s.(pendingCommand := None), [CommandOutput(output)])
    case TaskNote(taskId, status) =>
      Mapped(s, if taskId.Some? && status.Some? then [TaskNotification(taskId.value, status.value)] else [])
    case Results(blocks) => Mapped(s, ToolEnds(s, blocks, parent))
    case NothingKnown => Mapped(s, [])
  }

  function MapBody(s: State, body: Body, parent: Option<string>): Mapped {
    match body
    case Init =>
      Mapped(s.(seenInit := true),
             [SessionInit] + (if !s.seenInit && !s.resume then [RunState("running", None)] else []))
    case LocalCommandOutput(output) =>
      Mapped(s.(pendingCommand := None), if output == "" then [] else [CommandOutput(output)])
    case KnownSystem(subtype) => Mapped(s, [Notice(subtype)])
    case UnknownSystem(subtype) => Mapped(s, if subtype == "" then [] else [RawEvent("claude_system_" + subtype)])
    case BlockStart(Some(ToolUse(id, name))) => StartTool(s, id, name, parent)
    case BlockStart(Some(ThinkingBlock(text))) => Mapped(s, if text == "" then [] else [ThinkingDelta(text, parent)])
    case BlockStart(_) => Mapped(s, [])
    case BlockDelta(Some(TextDelta(text))) =>
      Mapped(s, if text.GetOr("") == "" then [] else [MessageDelta(text.value, parent)])
    case BlockDelta(Some(ThinkDelta(text))) => Mapped(s, if text == "" then [] else [ThinkingDelta(text, parent)])
    case BlockDelta(Some(InputJson(partial))) =>
      if partial.Some? then InputPart(s, partial.value, parent) else Mapped(s, [])
    case BlockDelta(_) => Mapped(s, [])
    case NoOp => Mapped(s, [])
    case Assistant(messageId, content) =>
      if content.Some? then MapAssistant(s, messageId, content.value, parent) else Mapped(s, [])
    case User(content) => MapUser(s, content, parent)
    case Result(subtype, usage, denials, error) => MapResult(s, subtype, usage, denials, error)
    case UserRejected(id, name) => Mapped(s, [ToolEnd(id, name, "rejected", parent)])
    case Progress(id) => Mapped(s, [ToolProgress(id, parent)])
    case Summary(id) => Mapped(s, [ToolUseSummary(id, parent)])
    case RateLimit => Mapped(s, [Notice("rate_limit_event")])
    case UnknownType(name) => Mapped(s, if name == "" then [] else [RawEvent("claude_" + name)])
  }

  function MapEvent(s: State, raw: Raw): Mapped {
    MapBody(s, Unwrap(raw).0, Unwrap(raw).1)
  }

  /** Tool events need an id; nothing else is ever dropped. */
  predicate Valid(e: Event) {
    match e
    case ToolStart(id, _, _) => id != ""
    case ToolInputDelta(id, _, _) => id != ""
    case ToolEnd(id, _, _, _) => id != ""
    case ToolProgress(id, _) => id != ""
    case ToolOutputDelta(id, _) => id != ""
    case ToolUseSummary(id, _) => id != ""
    case _ => true
  }

  // ---- Whole sessions ----

  datatype Action = Receive(raw: Raw) | SetCommand(command: Option<string>)

  function Step(s: State, a: Action): Mapped {
    match a
    case Receive(raw) => MapEvent(s, raw)
    case SetCommand(command) => Mapped(s.(pendingCommand := command), [])
  }

  /** The state after a session's actions, and everything it emitted in order. */
  function Session(resume: bool, run: seq<Action>): Mapped {
    if run == [] then Mapped(Initial(resume), [])
    else
      var before := Session(resume, run[..|run| - 1]);
      var r := Step(before.s, run[|run| - 1]);
      Mapped(r.s, before.events + r.events)
  }
}
