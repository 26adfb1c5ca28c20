/**
 The exec-mode Codex parser: ids scoped by process and turn, so that across resumed processes and
 successive turns two events concern the same card exactly when they concern the same item.
 */
module ScopedIds {
  import Decimal
  import opened Wrappers

  // ---- Lines and events ----

  /** Fields of an item that matter here; `server` and `tool` name an MCP call. */
  datatype Item = Item(
    itemType: string, id: Option<string>, server: Option<string>, tool: Option<string>,
    status: Option<string>, text: Option<string>)

  datatype Line =
    | TurnStarted
    | ItemStarted(item: Option<Item>)
    | ItemUpdated(item: Option<Item>)
    | ItemCompleted(item: Option<Item>)
    | TurnCompleted(usage: bool)
    | TurnFailed(message: string)
    | ErrorLine(message: string)
    | OtherLine

  datatype Event =
    | ToolStart(id: string, name: string)
    | ToolEnd(id: string, name: string, status: string)
    | MessageComplete(id: string, text: string)
    | ThinkingDelta(text: string)
    | CommandOutput(content: string)
    | RawItem
    | UsageUpdate(turnIndex: nat)
    | RunFailed(error: string)

  const TURN_LIMIT: nat := 0x1_0000_0000

  /** `format!("codex-{}-{}-{}")` */
  function ScopedId(process: nat, turn: nat, id: string): string {
    "codex-" + (Decimal.ToString(process) + "-" + (Decimal.ToString(turn) + "-" + id))
  }

  /** `CodexToolKind`, in either spelling, with the name its tool goes by. */
  function StartedName(item: Item): Option<string> {
    match item.itemType
    case "command_execution" => Some("Bash")
    case "commandExecution" => Some("Bash")
    case "file_change" => Some("Edit")
    case "fileChange" => Some("Edit")
    case "web_search" => Some("WebSearch")
    case "webSearch" => Some("WebSearch")
    case "collab_tool_call" => Some("Agent")
    case "collabToolCall" => Some("Agent")
    case "mcp_tool_call" => Some(McpName(item))
    case "mcpToolCall" => Some(McpName(item))
    case _ => None
  }

  function McpName(item: Item): string {
    item.server.GetOr("mcp") + ":" + item.tool.GetOr("unknown")
  }

  function NormalStatus(status: string): string {
    if status == "failed" || status == "declined" then "error" else "success"
  }

  function StartedEvents(process: nat, turn: nat, item: Item): seq<Event> {
    if StartedName(item).Some?
    then [ToolStart(ScopedId(process, turn, item.id.GetOr("unknown")), StartedName(item).value)]
    else []
  }

  function TodoEvents(process: nat, turn: nat, item: Item): seq<Event> {
    var id := ScopedId(process, turn, item.id.GetOr("todo"));
    [ToolStart(id, "TodoWrite"), ToolEnd(id, "TodoWrite", "success")]
  }

  function CompletedEvents(process: nat, turn: nat, item: Item): seq<Event> {
    var id := ScopedId(process, turn, item.id.GetOr("unknown"));
    var status := NormalStatus(item.status.GetOr("completed"));
    match item.itemType
    case "agent_message" => [MessageComplete(id, item.text.GetOr(""))]
    case "command_execution" => [ToolEnd(id, "Bash", status)]
    case "file_change" => [ToolEnd(id, "Edit", status)]
    case "mcp_tool_call" => [ToolEnd(id, McpName(item), status)]
    case "web_search" => [ToolEnd(id, "WebSearch", status)]
    case "collab_tool_call" => [ToolEnd(id, "Agent", status)]
    case "todo_list" => TodoEvents(process, turn, item)
    case "error" => [CommandOutput("[error] " + item.text.GetOr("unknown error"))]
    case "reasoning" => if item.text.GetOr("") == "" then [] else [ThinkingDelta(item.text.value)]
    case _ => []
  }

  function UpdatedEvents(process: nat, turn: nat, item: Item): seq<Event> {
    if item.itemType == "todo_list" then TodoEvents(process, turn, item) else [RawItem]
  }

  function EventsOf(process: nat, turn: nat, line: Line): seq<Event> {
    match line
    case TurnStarted => []
    case ItemStarted(item) => if item.Some? then StartedEvents(process, turn, item.value) else []
    case ItemUpdated(item) => if item.Some? then UpdatedEvents(process, turn, item.value) else []
    case ItemCompleted(item) => if item.Some? then CompletedEvents(process, turn, item.value) else []
    case TurnCompleted(usage) => if usage then [UsageUpdate(turn)] else []
    case TurnFailed(message) => [RunFailed(message)]
    case ErrorLine(message) => [CommandOutput("[codex error] " + message)]
    case OtherLine => []
  }

  /** The 32-bit counter after a line. */
  function TurnAfter(turn: nat, line: Line): nat {
    if line.TurnStarted? then (turn + 1) % TURN_LIMIT else turn
  }

  class CodexStdoutParser {
    const processSeq: nat
    var turnCounter: nat

    constructor (processSeq: nat)
      ensures this.processSeq == processSeq && turnCounter == 0
    {
      this.processSeq := processSeq;
      turnCounter := 0;
    }

    method ParseLine(line: Line) returns (events: seq<Event>)
      modifies this`turnCounter
      ensures turnCounter == TurnAfter(old(turnCounter), line)
      ensures events == EventsOf(processSeq, old(turnCounter), line)
    {
      events := [];
      match line {
        case TurnStarted => turnCounter := (turnCounter + 1) % TURN_LIMIT;
        case ItemStarted(item) =>
          if item.Some? {
            events := StartedEvents(processSeq, turnCounter, item.value);
          }
        case ItemUpdated(item) =>
          if item.Some? {
            events := UpdatedEvents(processSeq, turnCounter, item.value);
          }
        case ItemCompleted(item) =>
          if item.Some? {
            events := CompletedEvents(processSeq, turnCounter, item.value);
          }
        case TurnCompleted(usage) =>
          if usage {
            events := [UsageUpdate(turnCounter)];
          }
        case TurnFailed(message) => events := [RunFailed(message)];
        case ErrorLine(message) => events := [CommandOutput("[codex error] " + message)];
        case OtherLine =>
      }
    }
  }

  // ---- Ids determine what they are made of ----

  /** Position of the first dash, or the length when there is none. */
  function Dash(s: string): nat {
    if s == "" || s[0] == '-' then 0 else 1 + Dash(s[1..])
  }

  lemma {:induction false} DashAt(a: string, x: string)
    requires '-' !in a
    ensures Dash(a + "-" + x) == |a|
  {
    if a != "" {
      assert (a + "-" + x)[1..] == a[1..] + "-" + x;
      DashAt(a[1..], x);
    }
  }

  /** A part without a dash ends at the first dash. */
  lemma FirstField(a: string, b: string, x: string, y: string)
    requires '-' !in a && '-' !in b && a + "-" + x == b + "-" + y
    ensures a == b && x == y
  {
    var s, t := a + "-" + x, b + "-" + y;
    DashAt(a, x);
    DashAt(b, y);
    assert s[..|a|] == a && t[..|b|] == b && s[|a| + 1..] == x && t[|b| + 1..] == y;
  }

  lemma NumeralHasNoDash(n: nat)
    ensures '-' !in Decimal.ToString(n)
  {
    Decimal.DigitsAreDigits(n);
  }

  /** Scoped ids are the same exactly when process, turn and item id are, whatever the item id holds. */
  lemma ScopedIdInjective(p: nat, t: nat, i: string, q: nat, u: nat, j: string)
    ensures ScopedId(p, t, i) == ScopedId(q, u, j) <==> p == q && t == u && i == j
  {
    if ScopedId(p, t, i) == ScopedId(q, u, j) {
      var x, y := Decimal.ToString(t) + "-" + i, Decimal.ToString(u) + "-" + j;
      assert ScopedId(p, t, i)[6..] == Decimal.ToString(p) + "-" + x;
      assert ScopedId(q, u, j)[6..] == Decimal.ToString(q) + "-" + y;
      NumeralHasNoDash(p);
      NumeralHasNoDash(q);
      NumeralHasNoDash(t);
      NumeralHasNoDash(u);
      FirstField(Decimal.ToString(p), Decimal.ToString(q), x, y);
      FirstField(Decimal.ToString(t), Decimal.ToString(u), i, j);
      Decimal.DigitsInjective(p, q);
      Decimal.DigitsInjective(t, u);
    }
  }

  // ---- Over runs ----

  /** How many turns have started. */
  function Turns(lines: seq<Line>): nat {
    if lines == [] then 0
    else Turns(lines[..|lines| - 1]) + (if lines[|lines| - 1].TurnStarted? then 1 else 0)
  }

  /** The parser's counter after these lines. */
  function Counter(lines: seq<Line>): nat {
    if lines == [] then 0 else TurnAfter(Counter(lines[..|lines| - 1]), lines[|lines| - 1])
  }

  /** The item a card event of this line is about: its id, or the stand-in for a missing one. */
  function ItemOf(line: Line): Option<string> {
    match line
    case ItemStarted(Some(item)) => if StartedName(item).Some? then Some(item.id.GetOr("unknown")) else None
    case ItemUpdated(Some(item)) => if item.itemType == "todo_list" then Some(item.id.GetOr("todo")) else None
    case ItemCompleted(Some(item)) =>
      if item.itemType == "todo_list" then Some(item.id.GetOr("todo"))
      else if item.itemType in {"agent_message", "command_execution", "file_change", "mcp_tool_call",
                                "web_search", "collab_tool_call"} then Some(item.id.GetOr("unknown"))
      else None
    case _ => None
  }

  function CardIds(events: seq<Event>): set<string> {
    set e | e in events && (e.ToolStart? || e.ToolEnd? || e.MessageComplete?) :: e.id
  }

  /** The cards the events of one line touch. */
  function Cards(process: nat, lines: seq<Line>, k: nat): set<string>
    requires k < |lines|
  {
    CardIds(EventsOf(process, Counter(lines[..k]), lines[k]))
  }

  lemma {:induction false} CounterCountsTurns(lines: seq<Line>)
    ensures Counter(lines) == Turns(lines) % TURN_LIMIT
  {
    if lines != [] {
      CounterCountsTurns(lines[..|lines| - 1]);
    }
  }

  lemma CardsOfLine(process: nat, turn: nat, line: Line)
    ensures CardIds(EventsOf(process, turn, line))
         == if ItemOf(line).Some? then {ScopedId(process, turn, ItemOf(line).value)} else {}
  {
    var events := EventsOf(process, turn, line);
    if ItemOf(line).Some? {
      var id := ScopedId(process, turn, ItemOf(line).value);
      assert events != [] && events[0] in events;
      assert forall e :: e in events ==> (e.ToolStart? || e.ToolEnd? || e.MessageComplete?) && e.id == id;
      assert events[0].id in CardIds(events);
    } else {
      assert forall e :: e in events ==> !(e.ToolStart? || e.ToolEnd? || e.MessageComplete?);
    }
  }

  /**
   Two lines, of one process or of two, touch the same card exactly when they are about the same item
   of the same turn of the same process; 32 bits are enough to count the turns.
   */
  lemma SameCardSameItem(p: nat, lines: seq<Line>, j: nat, q: nat, others: seq<Line>, k: nat)
    requires j < |lines| && k < |others| && ItemOf(lines[j]).Some? && ItemOf(others[k]).Some?
    requires Turns(lines[..j]) < TURN_LIMIT && Turns(others[..k]) < TURN_LIMIT
    ensures Cards(p, lines, j) == Cards(q, others, k)
            <==> p == q && Turns(lines[..j]) == Turns(others[..k]) && ItemOf(lines[j]) == ItemOf(others[k])
    ensures Cards(p, lines, j) * Cards(q, others, k) == {} || Cards(p, lines, j) == Cards(q, others, k)
  {
    hide ScopedId, EventsOf, CardIds, ItemOf, Turns;
    CounterCountsTurns(lines[..j]);
    CounterCountsTurns(others[..k]);
    CardsOfLine(p, Counter(lines[..j]), lines[j]);
    CardsOfLine(q, Counter(others[..k]), others[k]);
    var a := ScopedId(p, Counter(lines[..j]), ItemOf(lines[j]).value);
    var b := ScopedId(q, Counter(others[..k]), ItemOf(others[k]).value);
    ScopedIdInjective(p, Counter(lines[..j]), ItemOf(lines[j]).value, q, Counter(others[..k]), ItemOf(others[k]).value);
    assert {a} == {b} <==> a == b by {
      assert a in {a};
    }
  }

  /** The spellings the completion arm knows. */
  predicate SnakeCase(item: Item) {
    item.itemType in {"command_execution", "file_change", "mcp_tool_call", "web_search", "collab_tool_call"}
  }

  /**
   A tool announced when its item starts is closed, on the same card and under the same name, when the
   item completes in the same turn, exactly when its type is spelled in snake case: the other spelling
   is known to the start and not to the end.
   */
  lemma StartedIsEnded(process: nat, turn: nat, item: Item)
    requires StartedName(item).Some?
    ensures var start := StartedEvents(process, turn, item);
            && |start| == 1 && start[0].ToolStart?
            && ((exists e :: e in CompletedEvents(process, turn, item)
                             && e == ToolEnd(start[0].id, start[0].name, NormalStatus(item.status.GetOr("completed"))))
                <==> SnakeCase(item))
  {
    var start := StartedEvents(process, turn, item);
    var end := CompletedEvents(process, turn, item);
    if SnakeCase(item) {
      assert end[0] in end;
    } else {
      assert end == [];
    }
  }

  // ---- What a line says ----

  /** Whether an item is a call of the tool with this name, under one of two spellings of its type. */
  predicate Calls(item: Item, name: string, snakeOnly: bool) {
    || (Spelled(item, "command_execution", "commandExecution", snakeOnly) && name == "Bash")
    || (Spelled(item, "file_change", "fileChange", snakeOnly) && name == "Edit")
    || (Spelled(item, "web_search", "webSearch", snakeOnly) && name == "WebSearch")
    || (Spelled(item, "collab_tool_call", "collabToolCall", snakeOnly) && name == "Agent")
    || (Spelled(item, "mcp_tool_call", "mcpToolCall", snakeOnly)
        && name == item.server.GetOr("mcp") + ":" + item.tool.GetOr("unknown"))
  }

  predicate Spelled(item: Item, snake: string, camel: string, snakeOnly: bool) {
    item.itemType == snake || (!snakeOnly && item.itemType == camel)
  }

  predicate Fails(item: Item) {
    item.status == Some("failed") || item.status == Some("declined")
  }

  /** Whether a line is about a list of things to do. */
  predicate IsTodo(line: Line) {
    (line.ItemUpdated? || line.ItemCompleted?) && line.item.Some? && line.item.value.itemType == "todo_list"
  }

  /** Whether a line completes an item of this type. */
  predicate Completes(line: Line, itemType: string) {
    line.ItemCompleted? && line.item.Some? && line.item.value.itemType == itemType
  }

  /** Whether a line warrants an event, read off the event. */
  predicate Warrants(process: nat, turn: nat, line: Line, e: Event) {
    match e
    case ToolStart(id, name) =>
      || (line.ItemStarted? && line.item.Some? && Calls(line.item.value, name, false)
          && id == ScopedId(process, turn, line.item.value.id.GetOr("unknown")))
      || (IsTodo(line) && name == "TodoWrite" && id == ScopedId(process, turn, line.item.value.id.GetOr("todo")))
    case ToolEnd(id, name, status) =>
      || (line.ItemCompleted? && line.item.Some? && Calls(line.item.value, name, true)
          && id == ScopedId(process, turn, line.item.value.id.GetOr("unknown"))
          && status == (if Fails(line.item.value) then "error" else "success"))
      || (IsTodo(line) && name == "TodoWrite" && status == "success"
          && id == ScopedId(process, turn, line.item.value.id.GetOr("todo")))
    case MessageComplete(id, text) =>
      && Completes(line, "agent_message") && text == line.item.value.text.GetOr("")
      && id == ScopedId(process, turn, line.item.value.id.GetOr("unknown"))
    case ThinkingDelta(text) => Completes(line, "reasoning") && text != "" && line.item.value.text == Some(text)
    case CommandOutput(content) =>
      || (line.ErrorLine? && content == "[codex error] " + line.message)
      || (Completes(line, "error") && content == "[error] " + line.item.value.text.GetOr("unknown error"))
    case RawItem => line.ItemUpdated? && line.item.Some? && !IsTodo(line)
    case UsageUpdate(index) => line.TurnCompleted? && line.usage && index == turn
    case RunFailed(error) => line.TurnFailed? && error == line.message
  }

  lemma StartedSays(process: nat, turn: nat, item: Item, e: Event)
    ensures e in StartedEvents(process, turn, item) <==> Warrants(process, turn, ItemStarted(Some(item)), e)
  {
    hide ScopedId;
  }

  lemma CompletedSays(process: nat, turn: nat, item: Item, e: Event)
    ensures e in CompletedEvents(process, turn, item) <==> Warrants(process, turn, ItemCompleted(Some(item)), e)
  {
    hide ScopedId;
  }

  lemma UpdatedSays(process: nat, turn: nat, item: Item, e: Event)
    ensures e in UpdatedEvents(process, turn, item) <==> Warrants(process, turn, ItemUpdated(Some(item)), e)
  {
    hide ScopedId;
  }

  /**
   A line becomes exactly the events it warrants: each tool under its name, ending in an error exactly
   when its item failed or was declined.
   */
  lemma LineSays(process: nat, turn: nat, line: Line, e: Event)
    ensures e in EventsOf(process, turn, line) <==> Warrants(process, turn, line, e)
    ensures |EventsOf(process, turn, line)| <= 1 || (IsTodo(line) && |EventsOf(process, turn, line)| == 2)
  {
    match line {
      case ItemStarted(Some(item)) => StartedSays(process, turn, item, e);
      case ItemUpdated(Some(item)) => UpdatedSays(process, turn, item, e);
      case ItemCompleted(Some(item)) => CompletedSays(process, turn, item, e);
      case _ =>
    }
  }
}
