/**
 What a Claude session tells the user, from the lines received alone: kind by kind, in order, and each
 event under the tool its own line or envelope names.
 */
module ClaudeReports {
  import opened ClaudeSpec
  import opened ToolAccounting
  import opened TurnReports
  import opened Wrappers

  // ---- A line ----

  /** The event a line holds; an envelope without one is of an unknown type. */
  function BodyIn(raw: Raw): Body {
    if raw.Bare? then raw.body else if raw.inner.Some? then raw.inner.value.body else UnknownType("stream_event")
  }

  /** The field that names the tool a line belongs to: the enclosed one whenever it is there at all. */
  function OwnerField(raw: Raw): Field {
    if raw.Envelope? && raw.inner.Some? && raw.inner.value.parent != Absent then raw.inner.value.parent else raw.parent
  }

  function Owner(raw: Raw): Option<string> {
    match OwnerField(raw)
    case Text(text) => if text == "" then None else Some(text)
    case _ => None
  }

  lemma UnwrapIs(raw: Raw)
    ensures Unwrap(raw) == (BodyIn(raw), Owner(raw))
  {
  }

  // ---- What a line calls for, kind by kind ----

  /** One event, unless the text in it is empty. */
  function Unless(empty: bool, e: Event): seq<Event> {
    if empty then [] else [e]
  }

  /** A tool is announced when it streams, and when a message is the first to mention it. */
  function Announcements(ms: seq<Mention>, body: Body, p: Option<string>): seq<Event> {
    match body
    case BlockStart(Some(ToolUse(id, name))) => Unless(id == "", ToolStart(id, name, p))
    case Assistant(_, Some(content)) => FirstMentions(ms, content, p)
    case _ => []
  }

  function FirstMentions(ms: seq<Mention>, content: seq<Block>, p: Option<string>): seq<Event> {
    if content == [] then []
    else
      var n := |content| - 1;
      FirstMentions(ms, content[..n], p)
      + (if content[n].ToolUse? && First(ms + WholeMentions(content[..n]), content[n].id).None?
         then [ToolStart(content[n].id, content[n].name, p)] else [])
  }

  /** The tool that streamed last. */
  function Recent(ms: seq<Mention>): Option<string> {
    if ms == [] then None
    else if ms[|ms| - 1].Streamed? then Some(ms[|ms| - 1].id)
    else Recent(ms[..|ms| - 1])
  }

  /** An input fragment goes to the tool that streamed last. */
  function Fragments(ms: seq<Mention>, body: Body, p: Option<string>): seq<Event> {
    match body
    case BlockDelta(Some(InputJson(Some(partial)))) =>
      if Recent(ms).Some? then Unless(partial == "", ToolInputDelta(Recent(ms).value, partial, p)) else []
    case _ => []
  }

  /** The answer as it streams. */
  function Speech(body: Body, p: Option<string>): seq<Event> {
    match body
    case BlockDelta(Some(TextDelta(Some(text)))) => Unless(text == "", MessageDelta(text, p))
    case _ => []
  }

  /** The thinking as it streams, and what a thinking block starts with. */
  function Thought(body: Body, p: Option<string>): seq<Event> {
    match body
    case BlockDelta(Some(ThinkDelta(text))) => Unless(text == "", ThinkingDelta(text, p))
    case BlockStart(Some(ThinkingBlock(text))) => Unless(text == "", ThinkingDelta(text, p))
    case _ => []
  }

  predicate IsText(b: Block) {
    b.TextBlock? && b.text.Some?
  }

  predicate HasText(content: seq<Block>) {
    exists b :: b in content && IsText(b)
  }

  /** The text blocks of a message, joined. */
  function Wording(content: seq<Block>): string {
    if content == [] then ""
    else
      Wording(content[..|content| - 1])
      + (if IsText(content[|content| - 1]) then content[|content| - 1].text.value else "")
  }

  /** A message with text is completed once, under its id, with all of its text. */
  function Completion(body: Body, p: Option<string>): seq<Event> {
    match body
    case Assistant(id, Some(content)) =>
      if HasText(content) then [MessageComplete(id, Wording(content), p)] else []
    case _ => []
  }

  /** A result ends its tool under the name it goes by, as an error exactly when it is marked as one. */
  function Ends(ms: seq<Mention>, body: Body, p: Option<string>): seq<Event> {
    match body
    case User(Results(blocks)) => EndsOf(ms, blocks, p)
    case UserRejected(id, name) => [ToolEnd(id, name, "rejected", p)]
    case _ => []
  }

  function EndsOf(ms: seq<Mention>, blocks: seq<ResultBlock>, p: Option<string>): seq<Event> {
    if blocks == [] then []
    else
      var last := blocks[|blocks| - 1];
      EndsOf(ms, blocks[..|blocks| - 1], p)
      + (if last.ToolResult?
         then [ToolEnd(last.id, NameOf(ms, last.id).GetOr(""), if last.isError then "error" else "success", p)] else [])
  }

  function Marks(body: Body, p: Option<string>): seq<Event> {
    match body
    case Progress(id) => [ToolProgress(id, p)]
    case Summary(id) => [ToolUseSummary(id, p)]
    case _ => []
  }

  /** Output of a slash command, and the hint that takes its place when a usage report comes first. */
  function Outputs(command: Option<string>, body: Body): seq<Event> {
    match body
    case LocalCommandOutput(output) => Unless(output == "", CommandOutput(output))
    case User(CommandStdout(output)) => [CommandOutput(output)]
    case Result(_, true, _, _) =>
      if command == Some("/cost") then [CommandOutput(COST_HINT)]
      else if command == Some("/context") then [CommandOutput(CONTEXT_HINT)]
      else []
    case _ => []
  }

  function Refused(denials: seq<Denial>): seq<Event> {
    if denials == [] then []
    else
      var last := denials[|denials| - 1];
      Refused(denials[..|denials| - 1]) + Unless(last.tool == "", PermissionDenied(last.tool, last.id))
  }

  function Notes(body: Body): seq<Event> {
    match body
    case User(TaskNote(Some(id), Some(status))) => [TaskNotification(id, status)]
    case KnownSystem(subtype) => [Notice(subtype)]
    case RateLimit => [Notice("rate_limit_event")]
    case UnknownSystem(subtype) => Unless(subtype == "", RawEvent("claude_system_" + subtype))
    case UnknownType(name) => Unless(name == "", RawEvent("claude_" + name))
    case _ => []
  }

  /** The state of the turn: running at the first init unless resumed, idle at each result. */
  function Turn(begun: bool, resume: bool, body: Body): seq<Event> {
    match body
    case Init => if begun || resume then [] else [RunState("running", None)]
    case Result(subtype, _, _, error) => [RunState("idle", if "error" <= subtype then Some(error) else None)]
    case _ => []
  }

  /** The slash command whose output is awaited. */
  function Awaited(run: seq<Action>): Option<string> {
    if run == [] then None
    else
      match run[|run| - 1]
      case SetCommand(command) => command
      case Receive(raw) => if ClearsCommand(BodyIn(raw)) then None else Awaited(run[..|run| - 1])
  }

  predicate ClearsCommand(body: Body) {
    body.LocalCommandOutput? || (body.User? && body.user.CommandStdout?) || (body.Result? && body.usage)
  }

  /** What has been received so far, as far as it matters. */
  datatype Past = Past(ms: seq<Mention>, command: Option<string>, begun: bool, resume: bool)

  function PastOf(resume: bool, run: seq<Action>): Past {
    Past(Mentions(run), Awaited(run), Begun(run), resume)
  }

  function ToolReports(ms: seq<Mention>, body: Body, p: Option<string>): seq<Event> {
    Announcements(ms, body, p) + Fragments(ms, body, p) + Ends(ms, body, p) + Marks(body, p)
  }

  function TextReports(body: Body, p: Option<string>): seq<Event> {
    Speech(body, p) + Thought(body, p) + Completion(body, p)
  }

  function StatusReports(past: Past, body: Body): seq<Event> {
    match body
    case Init => [SessionInit] + Turn(past.begun, past.resume, body)
    case Result(_, usage, denials, _) =>
      (if usage then [UsageUpdate] else []) + Outputs(past.command, body) + Refused(denials)
      + Turn(past.begun, past.resume, body)
    case _ => Outputs(past.command, body) + Notes(body)
  }

  /** What a line calls for, given the past. */
  function Due(past: Past, body: Body, p: Option<string>): seq<Event> {
    ToolReports(past.ms, body, p) + TextReports(body, p) + StatusReports(past, body)
  }

  function AllDue(resume: bool, run: seq<Action>): seq<Event> {
    if run == [] then []
    else
      var before, last := run[..|run| - 1], run[|run| - 1];
      AllDue(resume, before)
      + (if last.Receive? then Due(PastOf(resume, before), BodyIn(last.raw), Owner(last.raw)) else [])
  }

  // ---- The accumulator remembers what matters of the past ----

  ghost predicate Remembers(s: State, past: Past) {
    && (forall id :: id in s.tools <==> First(past.ms, id).Some?)
    && (forall id :: id in s.tools ==> NameOf(past.ms, id) == Some(s.tools[id]))
    && s.last == Recent(past.ms) && s.pendingCommand == past.command
    && s.seenInit == past.begun && s.resume == past.resume
  }

  lemma {:induction false} RecentConcat(a: seq<Mention>, b: seq<Mention>)
    ensures Recent(a + b) == if Recent(b).Some? then Recent(b) else Recent(a)
  {
    if b == [] {
      assert a + b == a;
    } else {
      var n := |b| - 1;
      assert (a + b)[|a + b| - 1] == b[n] && (a + b)[..|a + b| - 1] == a + b[..n];
      RecentConcat(a, b[..n]);
    }
  }

  lemma {:induction false} WholesAreNotRecent(content: seq<Block>)
    ensures Recent(WholeMentions(content)) == None
  {
    if content != [] {
      var n := |content| - 1;
      WholesAreNotRecent(content[..n]);
      var last: seq<Mention> := if content[n].ToolUse? then [Whole(content[n].id, content[n].name)] else [];
      RecentConcat(WholeMentions(content[..n]), last);
      assert last == [] || last[..0] == [];
    }
  }

  lemma {:induction false} ToolsKeepRest(s: State, content: seq<Block>, p: Option<string>)
    ensures var w := WholeTools(s, content, p).s; w == s.(tools := w.tools)
  {
    if content != [] {
      ToolsKeepRest(s, content[..|content| - 1], p);
    }
  }

  /** What a line does to the last tool and to the awaited command. */
  lemma BodyMoves(s: State, body: Body, p: Option<string>)
    ensures var w := MapBody(s, body, p).s;
            && w.last == (if Recent(Mentioned(body)).Some? then Recent(Mentioned(body)) else s.last)
            && w.pendingCommand == (if ClearsCommand(body) then None else s.pendingCommand)
  {
    match body {
      case Assistant(_, Some(content)) =>
        ToolsKeepRest(s, content, p);
        WholesAreNotRecent(content);
      case BlockStart(Some(ToolUse(id, name))) =>
        assert id != "" ==> Recent([Mention.Streamed(id, name)]) == Some(id);
      case _ =>
    }
  }

  lemma {:induction false} LastAndAwaited(resume: bool, run: seq<Action>)
    ensures var s := Session(resume, run).s; s.last == Recent(Mentions(run)) && s.pendingCommand == Awaited(run)
  {
    if run != [] {
      var n := |run| - 1;
      LastAndAwaited(resume, run[..n]);
      if run[n].Receive? {
        hide MapBody, Mentioned, ClearsCommand;
        UnwrapIs(run[n].raw);
        BodyMoves(Session(resume, run[..n]).s, BodyIn(run[n].raw), Owner(run[n].raw));
        RecentConcat(Mentions(run[..n]), Mentioned(BodyIn(run[n].raw)));
      } else {
        assert Mentions(run[..n]) + [] == Mentions(run[..n]);
      }
    }
  }

  lemma SessionRemembers(resume: bool, run: seq<Action>)
    ensures Remembers(Session(resume, run).s, PastOf(resume, run))
  {
    hide Session, Mentions, Awaited, Begun, NameOf;
    SessionAccounts(resume, run);
    TurnsAreReported(resume, run);
    LastAndAwaited(resume, run);
    var r := Session(resume, run);
    forall id ensures id in r.s.tools <==> First(Mentions(run), id).Some?
      ensures id in r.s.tools ==> NameOf(Mentions(run), id) == Some(r.s.tools[id])
    {
      assert Accounts(r.s, Mentions(run), r.events, id);
    }
  }

  // ---- What each line emits is what it calls for ----

  lemma JoinMore(parts: seq<string>, part: string)
    ensures Join(parts + [part]) == Join(parts) + part
  {
    assert (parts + [part])[..|parts|] == parts;
  }

  lemma HasTextNext(content: seq<Block>)
    requires content != []
    ensures HasText(content) <==> HasText(content[..|content| - 1]) || IsText(content[|content| - 1])
  {
    hide IsText;
    var n := |content| - 1;
    assert content == content[..n] + [content[n]];
    if HasText(content[..n]) {
      var b :| b in content[..n] && IsText(b);
      assert b in content;
    }
    if IsText(content[n]) {
      assert content[n] in content;
    }
  }

  lemma {:induction false} WordingIsJoin(content: seq<Block>)
    ensures Join(Texts(content)) == Wording(content)
    ensures Texts(content) != [] <==> HasText(content)
  {
    if content != [] {
      hide Join, HasText;
      var n := |content| - 1;
      WordingIsJoin(content[..n]);
      HasTextNext(content);
      if IsText(content[n]) {
        JoinMore(Texts(content[..n]), content[n].text.value);
      } else {
        assert Texts(content[..n]) + [] == Texts(content[..n]) && Wording(content[..n]) + "" == Wording(content[..n]);
      }
    }
  }

  /** The names of tools, as a run of mentions grows. */
  ghost predicate Names(s: State, ms: seq<Mention>) {
    forall id :: id in s.tools <==> First(ms, id).Some?
  }

  lemma {:induction false} ToolsAreFirst(s: State, ms: seq<Mention>, content: seq<Block>, p: Option<string>)
    requires Names(s, ms)
    ensures var r := WholeTools(s, content, p);
            r.events == FirstMentions(ms, content, p) && Names(r.s, ms + WholeMentions(content))
  {
    if content == [] {
      assert ms + [] == ms;
    } else {
      var n := |content| - 1;
      ToolsAreFirst(s, ms, content[..n], p);
      ToolIsFirst(WholeTools(s, content[..n], p).s, ms + WholeMentions(content[..n]), content[n], p);
      if content[n].ToolUse? {
        Associate(ms, WholeMentions(content[..n]), [Whole(content[n].id, content[n].name)]);
      } else {
        assert WholeMentions(content[..n]) + [] == WholeMentions(content[..n]);
        assert FirstMentions(ms, content[..n], p) + [] == FirstMentions(ms, content[..n], p);
      }
    }
  }

  lemma ToolIsFirst(s: State, ms: seq<Mention>, block: Block, p: Option<string>)
    requires Names(s, ms)
    ensures block.ToolUse? ==>
              var t := WholeTool(s, block.id, block.name, p);
              && t.events == (if First(ms, block.id).None? then [ToolStart(block.id, block.name, p)] else [])
              && Names(t.s, ms + [Whole(block.id, block.name)])
  {
    if block.ToolUse? {
      forall id ensures id in WholeTool(s, block.id, block.name, p).s.tools
                        <==> First(ms + [Whole(block.id, block.name)], id).Some? {
        FirstMore(ms, Whole(block.id, block.name), id);
      }
    }
  }

  lemma {:induction false} EndsAreNamed(s: State, past: Past, blocks: seq<ResultBlock>, p: Option<string>)
    requires Remembers(s, past)
    ensures ToolEnds(s, blocks, p) == EndsOf(past.ms, blocks, p)
  {
    if blocks != [] {
      EndsAreNamed(s, past, blocks[..|blocks| - 1], p);
      var last := blocks[|blocks| - 1];
      if last.ToolResult? {
        OneEnd(s, past, last.id);
      }
    }
  }

  lemma OneEnd(s: State, past: Past, id: string)
    requires Remembers(s, past)
    ensures (if id in s.tools then s.tools[id] else "") == NameOf(past.ms, id).GetOr("")
  {
    if id !in s.tools && LastStreamed(past.ms, id).Some? {
      StreamedIsMentioned(past.ms, id);
    }
  }

  lemma {:induction false} DeniedIsRefused(denials: seq<Denial>)
    ensures Denied(denials) == Refused(denials)
  {
    if denials != [] {
      DeniedIsRefused(denials[..|denials| - 1]);
    }
  }

  predicate AboutTools(body: Body) {
    match body
    case BlockStart(Some(ToolUse(_, _))) => true
    case BlockDelta(Some(InputJson(_))) => true
    case User(Results(_)) => true
    case UserRejected(_, _) => true
    case Progress(_) => true
    case Summary(_) => true
    case _ => false
  }

  predicate AboutText(body: Body) {
    match body
    case BlockStart(Some(ThinkingBlock(_))) => true
    case BlockDelta(Some(TextDelta(_))) => true
    case BlockDelta(Some(ThinkDelta(_))) => true
    case _ => false
  }

  lemma NoTools(ms: seq<Mention>, body: Body, p: Option<string>)
    requires !AboutTools(body) && !body.Assistant?
    ensures ToolReports(ms, body, p) == []
  {
  }

  lemma NoText(body: Body, p: Option<string>)
    requires !AboutText(body) && !body.Assistant?
    ensures TextReports(body, p) == []
  {
  }

  lemma NoStatus(past: Past, body: Body)
    requires AboutTools(body) || AboutText(body) || body.Assistant?
    ensures StatusReports(past, body) == []
  {
  }

  lemma ToolsDue(s: State, past: Past, body: Body, p: Option<string>)
    requires Remembers(s, past) && AboutTools(body)
    ensures MapBody(s, body, p).events == ToolReports(past.ms, body, p)
  {
    hide First, NameOf, Recent;
    if body.User? {
      EndsAreNamed(s, past, body.user.blocks, p);
    }
  }

  lemma TextDue(s: State, body: Body, p: Option<string>)
    requires AboutText(body)
    ensures MapBody(s, body, p).events == TextReports(body, p)
  {
  }

  lemma AssistantDue(s: State, past: Past, id: string, content: seq<Block>, p: Option<string>)
    requires Remembers(s, past)
    ensures var body := Assistant(id, Some(content));
            MapBody(s, body, p).events == ToolReports(past.ms, body, p) + TextReports(body, p)
  {
    hide WholeTools, Join, Texts, Wording, HasText;
    WordingIsJoin(content);
    ToolsAreFirst(s, past.ms, content, p);
  }

  lemma StatusDue(s: State, past: Past, body: Body, p: Option<string>)
    requires Remembers(s, past) && !AboutTools(body) && !AboutText(body) && !body.Assistant?
    ensures MapBody(s, body, p).events == StatusReports(past, body)
  {
    if body.Result? {
      ResultDue(s, past, body, p);
    } else {
      hide First, NameOf, Recent, Hint, Denied;
    }
  }

  lemma ResultDue(s: State, past: Past, body: Body, p: Option<string>)
    requires Remembers(s, past) && body.Result?
    ensures MapBody(s, body, p).events == StatusReports(past, body)
  {
    hide First, NameOf, Recent;
    DeniedIsRefused(body.denials);
  }

  lemma NoAssistant(s: State, id: string, p: Option<string>, past: Past)
    ensures var body := Assistant(id, None);
            MapBody(s, body, p).events == [] && ToolReports(past.ms, body, p) == [] && TextReports(body, p) == []
  {
  }

  lemma BodyDue(s: State, past: Past, body: Body, p: Option<string>)
    requires Remembers(s, past)
    ensures MapBody(s, body, p).events == Due(past, body, p)
  {
    hide MapBody, Remembers, ToolReports, TextReports, StatusReports, AboutTools, AboutText;
    if body.Assistant? {
      NoStatus(past, body);
      if body.content.Some? {
        AssistantDue(s, past, body.messageId, body.content.value, p);
      } else {
        NoAssistant(s, body.messageId, p, past);
      }
    } else if AboutTools(body) {
      ApartTools(body);
      ToolsDue(s, past, body, p);
      NoText(body, p);
      NoStatus(past, body);
    } else if AboutText(body) {
      TextDue(s, body, p);
      NoTools(past.ms, body, p);
      NoStatus(past, body);
    } else {
      StatusDue(s, past, body, p);
      NoTools(past.ms, body, p);
      NoText(body, p);
    }
  }

  lemma ApartTools(body: Body)
    requires AboutTools(body)
    ensures !AboutText(body) && !body.Assistant?
  {
  }

  // ---- Over a session ----

  /** Over any session the events are, line by line, exactly those that the lines call for. */
  lemma {:induction false} SessionIsDue(resume: bool, run: seq<Action>)
    ensures Session(resume, run).events == AllDue(resume, run)
  {
    if run != [] {
      hide Due, MapBody, PastOf, Remembers;
      var n := |run| - 1;
      var b := Session(resume, run[..n]);
      SessionIsDue(resume, run[..n]);
      if run[n].Receive? {
        SessionRemembers(resume, run[..n]);
        UnwrapIs(run[n].raw);
        BodyDue(b.s, PastOf(resume, run[..n]), BodyIn(run[n].raw), Owner(run[n].raw));
      }
    }
  }

  // ---- In the user's terms ----

  /** The tool an event is shown under, for the kinds that are. */
  function ShownUnder(e: Event): Option<Option<string>> {
    match e
    case ToolStart(_, _, p) => Some(p)
    case ToolInputDelta(_, _, p) => Some(p)
    case ToolEnd(_, _, _, p) => Some(p)
    case ToolProgress(_, p) => Some(p)
    case ToolOutputDelta(_, p) => Some(p)
    case ToolUseSummary(_, p) => Some(p)
    case MessageDelta(_, p) => Some(p)
    case ThinkingDelta(_, p) => Some(p)
    case MessageComplete(_, _, p) => Some(p)
    case _ => None
  }

  predicate Under(events: seq<Event>, p: Option<string>) {
    forall e :: e in events && ShownUnder(e).Some? ==> ShownUnder(e) == Some(p)
  }

  lemma {:induction false} MentionsUnder(ms: seq<Mention>, content: seq<Block>, p: Option<string>)
    ensures forall e :: e in FirstMentions(ms, content, p) ==> e.ToolStart? && e.parent == p
  {
    if content != [] {
      MentionsUnder(ms, content[..|content| - 1], p);
    }
  }

  lemma {:induction false} EndsUnder(ms: seq<Mention>, blocks: seq<ResultBlock>, p: Option<string>)
    ensures forall e :: e in EndsOf(ms, blocks, p) ==> e.ToolEnd? && e.parent == p
  {
    if blocks != [] {
      EndsUnder(ms, blocks[..|blocks| - 1], p);
    }
  }

  lemma {:induction false} RefusedUnder(denials: seq<Denial>)
    ensures forall e :: e in Refused(denials) ==> e.PermissionDenied?
  {
    if denials != [] {
      RefusedUnder(denials[..|denials| - 1]);
    }
  }

  /** Every event a line emits is under the tool that the line or its envelope names. */
  lemma LinesOwnTheirEvents(resume: bool, run: seq<Action>, raw: Raw)
    ensures Under(MapEvent(Session(resume, run).s, raw).events, Owner(raw))
  {
    hide MapBody, Session, Remembers, Due;
    var past := PastOf(resume, run);
    SessionRemembers(resume, run);
    UnwrapIs(raw);
    BodyDue(Session(resume, run).s, past, BodyIn(raw), Owner(raw));
    DueUnder(past, BodyIn(raw), Owner(raw));
  }

  lemma ToolsUnder(ms: seq<Mention>, body: Body, p: Option<string>)
    ensures Under(ToolReports(ms, body, p), p)
  {
    match body {
      case Assistant(_, Some(content)) => MentionsUnder(ms, content, p);
      case User(Results(blocks)) => EndsUnder(ms, blocks, p);
      case _ =>
    }
  }

  lemma TextUnder(body: Body, p: Option<string>)
    ensures Under(TextReports(body, p), p)
  {
  }

  lemma StatusUnder(past: Past, body: Body, p: Option<string>)
    ensures Under(StatusReports(past, body), p)
  {
    if body.Result? {
      RefusedUnder(body.denials);
    }
  }

  lemma DueUnder(past: Past, body: Body, p: Option<string>)
    ensures Under(Due(past, body, p), p)
  {
    hide ToolReports, TextReports, StatusReports;
    ToolsUnder(past.ms, body, p);
    TextUnder(body, p);
    StatusUnder(past, body, p);
  }

  // ---- The streamed texts ----

  /** What an event adds to the text streamed under a tool, or to the thinking. */
  function TextIn(e: Event, thinking: bool, p: Option<string>): string {
    match e
    case MessageDelta(text, q) => if !thinking && q == p then text else ""
    case ThinkingDelta(text, q) => if thinking && q == p then text else ""
    case _ => ""
  }

  function Streamed(events: seq<Event>, thinking: bool, p: Option<string>): string {
    if events == [] then "" else TextIn(events[0], thinking, p) + Streamed(events[1..], thinking, p)
  }

  /** What a line brings of it. */
  function TextOf(raw: Raw, thinking: bool, p: Option<string>): string {
    if Owner(raw) != p then ""
    else
      match BodyIn(raw)
      case BlockDelta(Some(TextDelta(text))) => if thinking then "" else text.GetOr("")
      case BlockDelta(Some(ThinkDelta(text))) => if thinking then text else ""
      case BlockStart(Some(ThinkingBlock(text))) => if thinking then text else ""
      case _ => ""
  }

  function Received(run: seq<Action>, thinking: bool, p: Option<string>): string {
    if run == [] then ""
    else
      var last := run[|run| - 1];
      Received(run[..|run| - 1], thinking, p) + (if last.Receive? then TextOf(last.raw, thinking, p) else "")
  }

  /** The completed messages among these events. */
  function Completed(events: seq<Event>): seq<Event> {
    if events == [] then [] else (if events[0].MessageComplete? then [events[0]] else []) + Completed(events[1..])
  }

  function CompletedBy(run: seq<Action>): seq<Event> {
    if run == [] then []
    else
      var last := run[|run| - 1];
      CompletedBy(run[..|run| - 1]) + (if last.Receive? then Completion(BodyIn(last.raw), Owner(last.raw)) else [])
  }

  lemma {:induction false} StreamedConcat(a: seq<Event>, b: seq<Event>, thinking: bool, p: Option<string>)
    ensures Streamed(a + b, thinking, p) == Streamed(a, thinking, p) + Streamed(b, thinking, p)
  {
    if a == [] {
      assert a + b == b;
    } else {
      assert (a + b)[0] == a[0] && (a + b)[1..] == a[1..] + b;
      StreamedConcat(a[1..], b, thinking, p);
    }
  }

  lemma {:induction false} CompletedConcat(a: seq<Event>, b: seq<Event>)
    ensures Completed(a + b) == Completed(a) + Completed(b)
  {
    if a == [] {
      assert a + b == b;
    } else {
      assert (a + b)[0] == a[0] && (a + b)[1..] == a[1..] + b;
      CompletedConcat(a[1..], b);
    }
  }

  predicate Textless(events: seq<Event>) {
    forall e :: e in events ==> !e.MessageDelta? && !e.ThinkingDelta? && !e.MessageComplete?
  }

  lemma {:induction false} NoTextIn(events: seq<Event>, thinking: bool, p: Option<string>)
    requires Textless(events)
    ensures Streamed(events, thinking, p) == "" && Completed(events) == []
  {
    if events != [] {
      assert events[0] in events;
      NoTextIn(events[1..], thinking, p);
    }
  }

  lemma ToolsAreTextless(ms: seq<Mention>, body: Body, p: Option<string>)
    ensures Textless(ToolReports(ms, body, p))
  {
    match body {
      case Assistant(_, Some(content)) => MentionsUnder(ms, content, p);
      case User(Results(blocks)) => EndsUnder(ms, blocks, p);
      case _ =>
    }
  }

  lemma PartsAreTextless(past: Past, body: Body)
    ensures Textless(Turn(past.begun, past.resume, body)) && Textless(Outputs(past.command, body)) && Textless(Notes(body))
  {
  }

  lemma StatusIsTextless(past: Past, body: Body)
    ensures Textless(StatusReports(past, body))
  {
    hide Refused, Turn, Outputs, Notes;
    PartsAreTextless(past, body);
    if body.Result? {
      RefusedUnder(body.denials);
    }
  }

  lemma OneReport(e: Event, thinking: bool, p: Option<string>)
    ensures Streamed([e], thinking, p) == TextIn(e, thinking, p)
    ensures Completed([e]) == if e.MessageComplete? then [e] else []
  {
    assert [e][1..] == [] && TextIn(e, thinking, p) + "" == TextIn(e, thinking, p);
  }

  /** A line makes at most one report of text, and that is the text it brings. */
  lemma OneText(raw: Raw, thinking: bool, p: Option<string>)
    ensures var events := TextReports(BodyIn(raw), Owner(raw));
            && |events| <= 1
            && (events == [] ==> TextOf(raw, thinking, p) == "" && Completion(BodyIn(raw), Owner(raw)) == [])
            && (events != [] ==> TextIn(events[0], thinking, p) == TextOf(raw, thinking, p)
                                 && Completion(BodyIn(raw), Owner(raw))
                                    == if events[0].MessageComplete? then events else [])
  {
    hide Owner, BodyIn, HasText, Wording;
  }

  lemma TextReported(raw: Raw, thinking: bool, p: Option<string>)
    ensures Streamed(TextReports(BodyIn(raw), Owner(raw)), thinking, p) == TextOf(raw, thinking, p)
    ensures Completed(TextReports(BodyIn(raw), Owner(raw))) == Completion(BodyIn(raw), Owner(raw))
  {
    hide TextReports, TextOf, Completion, TextIn;
    var events := TextReports(BodyIn(raw), Owner(raw));
    OneText(raw, thinking, p);
    if events != [] {
      OneReport(events[0], thinking, p);
      assert events == [events[0]];
    }
  }

  lemma LineText(past: Past, raw: Raw, thinking: bool, p: Option<string>)
    ensures var due := Due(past, BodyIn(raw), Owner(raw));
            && Streamed(due, thinking, p) == TextOf(raw, thinking, p)
            && Completed(due) == Completion(BodyIn(raw), Owner(raw))
  {
    hide ToolReports, TextReports, StatusReports, Textless, Streamed, Completed, TextOf, Completion;
    var body, q := BodyIn(raw), Owner(raw);
    var tools, text, status := ToolReports(past.ms, body, q), TextReports(body, q), StatusReports(past, body);
    ToolsAreTextless(past.ms, body, q);
    StatusIsTextless(past, body);
    NoTextIn(tools, thinking, p);
    NoTextIn(status, thinking, p);
    TextReported(raw, thinking, p);
    StreamedConcat(tools + text, status, thinking, p);
    StreamedConcat(tools, text, thinking, p);
    CompletedConcat(tools + text, status);
    CompletedConcat(tools, text);
  }

  /**
   Over any session, and under each tool: the answer streamed is the text deltas received, the thinking
   streamed is the thinking received, and each message with text is completed once, with all its text.
   */
  lemma {:induction false} TextsAddUp(resume: bool, run: seq<Action>, thinking: bool, p: Option<string>)
    ensures Streamed(Session(resume, run).events, thinking, p) == Received(run, thinking, p)
    ensures Completed(Session(resume, run).events) == CompletedBy(run)
  {
    SessionIsDue(resume, run);
    if run != [] {
      hide Session, Due, Streamed, Completed, TextOf, Completion, PastOf;
      var n := |run| - 1;
      TextsAddUp(resume, run[..n], thinking, p);
      SessionIsDue(resume, run[..n]);
      if run[n].Receive? {
        var due := Due(PastOf(resume, run[..n]), BodyIn(run[n].raw), Owner(run[n].raw));
        LineText(PastOf(resume, run[..n]), run[n].raw, thinking, p);
        StreamedConcat(AllDue(resume, run[..n]), due, thinking, p);
        CompletedConcat(AllDue(resume, run[..n]), due);
      } else {
        assert AllDue(resume, run[..n]) + [] == AllDue(resume, run[..n]);
        assert Received(run[..n], thinking, p) + "" == Received(run[..n], thinking, p);
      }
    }
  }
}
