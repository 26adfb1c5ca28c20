/**
 The wire vocabulary of the Codex app-server transport. JSON values are reduced to the fields the
 multiplexer reads; every other payload is carried as text.
 */
module AppServerTypes {
  import opened Wrappers
  import Decimal

  /** A JSON-RPC id as it arrived. */
  datatype JsonId = Number(n: int) | Text(text: string) | OtherJson(json: string)

  /** The key under which a request is offered to the user: the stringified id. */
  function RequestKey(id: JsonId): string {
    match id
    case Number(n) => Decimal.ToString(n)
    case Text(s) => s
    case OtherJson(j) => j
  }

  /** The seven server requests the client answers. */
  datatype RequestMethod =
    | CommandApproval
    | CommandApprovalLegacy
    | FileApproval
    | FileApprovalLegacy
    | PermissionsApproval
    | UserInputRequest
    | ElicitationRequest
  {
    predicate Legacy() {
      CommandApprovalLegacy? || FileApprovalLegacy?
    }
  }

  /** `size` is the length of the method name plus the serialised message. */
  datatype Request = Request(
    id: JsonId, call: RequestMethod, thread: Option<string>,
    itemId: Option<string>, permissions: Option<string>, size: nat)

  datatype Item =
    | SubAgentActivity(id: Option<string>, kind: string, agentThread: Option<string>)
    | CollabCall(id: Option<string>, tool: string, receivers: seq<string>)
    | ToolItem(id: Option<string>, name: string)
    | AgentMessage(id: Option<string>, text: string)
    | ContextCompaction(id: Option<string>)
    | OtherItem(id: Option<string>)

  datatype Body =
    | ThreadStarted(subject: Option<string>)
    | TurnStarted(turn: Option<string>)
    | TurnCompleted
    | TurnFailed(error: Option<string>)
    | ErrorNote(text: string, willRetry: bool)
    | MessageDeltaNote(delta: Option<string>)
    | ReasoningDeltaNote(delta: Option<string>)
    | ItemStarted(item: Option<Item>)
    | ItemCompleted(item: Option<Item>)
    | CommandOutputNote(itemId: string, chunk: string)
    | McpProgressNote(itemId: string, chunk: string)
      // usage, goals, plans, diffs, hooks, rate limits and notices
    | UpdateNote(content: Option<string>)
  {
    /** The notifications a sub-agent thread may contribute to its card. */
    predicate AllowedFromChild() {
      !ThreadStarted? && !UpdateNote?
    }

    /** Threads named by a spawn item; a repeated or later activity names none. */
    function Spawns(): seq<string> {
      if (ItemStarted? || ItemCompleted?) && item.Some? then
        match item.value
        case SubAgentActivity(_, kind, agent) =>
          if kind == "started" && agent.Some? then [agent.value] else []
        case CollabCall(_, tool, receivers) =>
          if tool == "spawnAgent" then receivers else []
        case _ => []
      else
        []
    }

    function ItemId(): Option<string> {
      if (ItemStarted? || ItemCompleted?) && item.Some? then item.value.id else None
    }
  }

  datatype Note = Note(thread: Option<string>, body: Body, size: nat)

  /** What the multiplexer may have to hold back. */
  datatype ThreadMessage = Notification(note: Note) | Interactive(request: Request) {
    function Size(): nat {
      match this
      case Notification(n) => n.size
      case Interactive(r) => r.size
    }
  }

  datatype ThreadInfo = ThreadInfo(id: Option<string>, nickname: Option<string>, role: Option<string>)

  /** One line of child stdout. */
  datatype Line =
    | Unparsable
    | UnhandledRequest
    | RequestLine(request: Request)
    | NoteLine(note: Note)
    | Reply(id: Option<int>, thread: Option<ThreadInfo>, hasError: bool, payload: string)

  datatype Event =
    | MessageDelta(text: string, parent: Option<string>)
    | ThinkingDelta(text: string, parent: Option<string>)
    | MessageComplete(id: string, text: string, parent: Option<string>)
    | ToolStart(id: string, name: string, parent: Option<string>)
    | ToolEnd(id: string, name: string, parent: Option<string>)
    | ToolOutputDelta(id: string, delta: string, parent: Option<string>)
    | PermissionPrompt(key: string, tool: string, id: string, parent: Option<string>)
    | ElicitationPrompt(key: string)
    | CompactionNotice
    | CommandOutput(content: string)
    | RunUpdate(content: string)
    | AgentInfo(agent: string, nickname: Option<string>, role: Option<string>)

  datatype PendingKind = Permission | Hook | Elicitation | UserInput

  datatype PendingInteractive = PendingInteractive(key: string, kind: PendingKind)

  datatype PendingServerReq = PendingServerReq(
    rawId: JsonId, call: RequestMethod, permissions: Option<string>, kind: PendingKind)

  datatype Lifecycle = Started | Completed | Failed(error: Option<string>)

  datatype SandboxPolicy = ReadOnly | DangerFullAccess | WorkspaceWrite(writableRoots: seq<string>)

  /** The answer put in a JSON-RPC result. */
  datatype Answer =
    | Grant(permissions: Option<string>)
    | Decision(decision: string)
    | ElicitationAnswer(action: string, content: Option<string>)
    | Answers(answers: string)
    | Echo

  /** What the client writes to the child. */
  datatype Frame =
    | Initialize
    | OpenThread(resume: Option<string>)
    | ErrorReply(replyTo: JsonId, code: int, message: string)
    | ResultReply(replyTo: JsonId, answer: Answer)
    | ThreadRead(id: int, thread: string)
    | Tracked(id: int, command: string, thread: string)
    | TurnStart(id: int, thread: string, text: string, approval: Option<string>,
                sandbox: Option<SandboxPolicy>, model: Option<string>, effort: Option<string>)
    | TurnInterrupt(id: int, thread: string, turn: string)
    | TurnSteer(id: int, thread: string, turn: string, text: string)

  /** The result of parsing one line. */
  datatype ParsedLine = ParsedLine(
    events: seq<Event>,
    interactive: seq<PendingInteractive>,
    lifecycle: Option<Lifecycle>,
    thread: Option<string>,
    control: Option<(string, string)>,
    outbound: seq<Frame>)

  const SILENT := ParsedLine([], [], None, None, None, [])

  function Emitted(events: seq<Event>): ParsedLine {
    SILENT.(events := events)
  }

  function Sent(frames: seq<Frame>): ParsedLine {
    SILENT.(outbound := frames)
  }

  /** Everything `a` reported, then everything `b` reported on the same accumulator. */
  function Merge(a: ParsedLine, b: ParsedLine): ParsedLine {
    ParsedLine(
      a.events + b.events, a.interactive + b.interactive, Later(a.lifecycle, b.lifecycle),
      Later(a.thread, b.thread), Later(a.control, b.control), a.outbound + b.outbound)
  }

  lemma MergeSilent(a: ParsedLine)
    ensures Merge(a, SILENT) == a && Merge(SILENT, a) == a
  {
  }

  lemma MergeAssociative(a: ParsedLine, b: ParsedLine, c: ParsedLine)
    ensures Merge(Merge(a, b), c) == Merge(a, Merge(b, c))
  {
  }
}
