/**
 Tools are announced by two sources, blocks that start streaming and complete messages. Over a whole
 session each tool is announced, named and fed its input as the account below says.
 */
module ToolAccounting {
  import opened ClaudeSpec
  import opened Wrappers

  // ---- Mentions: what arrived ----

  datatype Mention = Streamed(id: string, name: string) | Whole(id: string, name: string)

  function WholeMentions(content: seq<Block>): seq<Mention> {
    if content == [] then []
    else
      var n := |content| - 1;
      WholeMentions(content[..n]) + (if content[n].ToolUse? then [Whole(content[n].id, content[n].name)] else [])
  }

  /** The tool blocks an event mentions; a streamed block without an id is none. */
  function Mentioned(body: Body): seq<Mention> {
    match body
    case BlockStart(Some(ToolUse(id, name))) => if id == "" then [] else [Streamed(id, name)]
    case Assistant(_, Some(content)) => WholeMentions(content)
    case _ => []
  }

  function Mentions(run: seq<Action>): seq<Mention> {
    if run == [] then []
    else
      var last := run[|run| - 1];
      Mentions(run[..|run| - 1]) + (if last.Receive? then Mentioned(Unwrap(last.raw).0) else [])
  }

  function First(ms: seq<Mention>, id: string): Option<Mention> {
    if ms == [] then None else if ms[0].id == id then Some(ms[0]) else First(ms[1..], id)
  }

  function Streams(ms: seq<Mention>, id: string): nat {
    if ms == [] then 0 else (if ms[0].Streamed? && ms[0].id == id then 1 else 0) + Streams(ms[1..], id)
  }

  function LastStreamed(ms: seq<Mention>, id: string): Option<string> {
    if ms == [] then None
    else
      var n := |ms| - 1;
      if ms[n].Streamed? && ms[n].id == id then Some(ms[n].name) else LastStreamed(ms[..n], id)
  }

  /** The announcements owed to a tool: one per streamed block, and one if a message came first. */
  function Owed(ms: seq<Mention>, id: string): nat {
    Streams(ms, id) + (if First(ms, id).Some? && First(ms, id).value.Whole? then 1 else 0)
  }

  /** The name a tool goes by: that of its last streamed block, else of its first mention. */
  function NameOf(ms: seq<Mention>, id: string): Option<string> {
    if LastStreamed(ms, id).Some? then LastStreamed(ms, id)
    else if First(ms, id).Some? then Some(First(ms, id).value.name)
    else None
  }

  // ---- Events: what was emitted ----

  function Starts(events: seq<Event>, id: string): nat {
    if events == [] then 0 else (if events[0].ToolStart? && events[0].id == id then 1 else 0) + Starts(events[1..], id)
  }

  /** The input fragments emitted for a tool since it was last announced. */
  function InputSinceStart(events: seq<Event>, id: string): string {
    if events == [] then ""
    else
      var n := |events| - 1;
      match events[n]
      case ToolStart(i, _, _) => if i == id then "" else InputSinceStart(events[..n], id)
      case ToolInputDelta(i, partial, _) => InputSinceStart(events[..n], id) + (if i == id then partial else "")
      case _ => InputSinceStart(events[..n], id)
  }

  // ---- Appending ----

  lemma {:induction false} FirstMore(ms: seq<Mention>, m: Mention, id: string)
    ensures First(ms + [m], id)
         == if First(ms, id).Some? then First(ms, id) else if m.id == id then Some(m) else None
    ensures Streams(ms + [m], id) == Streams(ms, id) + (if m.Streamed? && m.id == id then 1 else 0)
  {
    if ms == [] {
      assert [m][1..] == [] && ms + [m] == [m];
    } else {
      assert (ms + [m])[1..] == ms[1..] + [m];
      FirstMore(ms[1..], m, id);
    }
  }

  lemma LastMore(ms: seq<Mention>, m: Mention, id: string)
    ensures LastStreamed(ms + [m], id)
         == if m.Streamed? && m.id == id then Some(m.name) else LastStreamed(ms, id)
  {
    assert (ms + [m])[..|ms|] == ms;
  }

  lemma {:induction false} StreamedIsMentioned(ms: seq<Mention>, id: string)
    requires LastStreamed(ms, id).Some?
    ensures First(ms, id).Some?
  {
    var n := |ms| - 1;
    assert ms == ms[..n] + [ms[n]];
    FirstMore(ms[..n], ms[n], id);
    if !(ms[n].Streamed? && ms[n].id == id) {
      StreamedIsMentioned(ms[..n], id);
    }
  }

  lemma {:induction false} StartsConcat(a: seq<Event>, b: seq<Event>, id: string)
    ensures Starts(a + b, id) == Starts(a, id) + Starts(b, id)
  {
    if a == [] {
      assert a + b == b;
    } else {
      assert (a + b)[1..] == a[1..] + b && (a + b)[0] == a[0];
      StartsConcat(a[1..], b, id);
    }
  }

  lemma StartsOne(e: Event, id: string)
    ensures Starts([e], id) == (if e.ToolStart? && e.id == id then 1 else 0)
  {
    assert [e][1..] == [];
  }

  lemma InputMore(events: seq<Event>, e: Event, id: string)
    ensures InputSinceStart(events + [e], id) ==
            match e
            case ToolStart(i, _, _) => if i == id then "" else InputSinceStart(events, id)
            case ToolInputDelta(i, partial, _) => InputSinceStart(events, id) + (if i == id then partial else "")
            case _ => InputSinceStart(events, id)
  {
    assert (events + [e])[..|events|] == events;
  }

  predicate Quiet(events: seq<Event>) {
    forall e :: e in events ==> !e.ToolStart? && !e.ToolInputDelta?
  }

  lemma {:induction false} QuietAfter(events: seq<Event>, more: seq<Event>, id: string)
    requires Quiet(more)
    ensures Starts(events + more, id) == Starts(events, id)
    ensures InputSinceStart(events + more, id) == InputSinceStart(events, id)
  {
    if more == [] {
      assert events + more == events;
    } else {
      var n := |more| - 1;
      QuietAfter(events, more[..n], id);
      assert events + more == (events + more[..n]) + [more[n]];
      StartsConcat(events + more[..n], [more[n]], id);
      StartsOne(more[n], id);
      InputMore(events + more[..n], more[n], id);
    }
  }

  // ---- The account of one tool ----

  /** How one tool stands: what is remembered of it, what was mentioned, and what was emitted. */
  predicate Accounts(s: State, ms: seq<Mention>, events: seq<Event>, id: string) {
    && (id in s.tools <==> First(ms, id).Some?)
    && (id in s.tools ==> NameOf(ms, id) == Some(s.tools[id]))
    && Starts(events, id) == Owed(ms, id)
    && (id in s.inputs <==> LastStreamed(ms, id).Some?)
    && (id in s.inputs ==> s.inputs[id] == InputSinceStart(events, id))
    && (s.last == Some(id) ==> id in s.inputs && id != "")
  }

  ghost predicate AllAccount(s: State, ms: seq<Mention>, events: seq<Event>) {
    forall id :: Accounts(s, ms, events, id)
  }

  lemma StreamedAccounts(s: State, ms: seq<Mention>, events: seq<Event>, id: string, name: string, parent: Option<string>, who: string)
    requires AllAccount(s, ms, events) && id != ""
    ensures var m := StartTool(s, id, name, parent);
            Accounts(m.s, ms + [Streamed(id, name)], events + m.events, who)
  {
    var e := ToolStart(id, name, parent);
    assert Accounts(s, ms, events, who);
    FirstMore(ms, Streamed(id, name), who);
    LastMore(ms, Streamed(id, name), who);
    StartsConcat(events, [e], who);
    StartsOne(e, who);
    InputMore(events, e, who);
  }

  /** A tool mentioned again in a complete message is not announced again. */
  lemma WholeAgain(s: State, ms: seq<Mention>, events: seq<Event>, id: string, name: string, who: string)
    requires Accounts(s, ms, events, who) && First(ms, id).Some?
    ensures Accounts(s, ms + [Whole(id, name)], events, who)
  {
    FirstMore(ms, Whole(id, name), who);
    LastMore(ms, Whole(id, name), who);
  }

  /** A tool first mentioned in a complete message is announced there. */
  lemma WholeFirst(s: State, ms: seq<Mention>, events: seq<Event>, id: string, name: string, parent: Option<string>, who: string)
    requires Accounts(s, ms, events, who) && First(ms, id).None? && LastStreamed(ms, id).None?
    ensures Accounts(s.(tools := s.tools[id := name]), ms + [Whole(id, name)], events + [ToolStart(id, name, parent)], who)
  {
    var e := ToolStart(id, name, parent);
    FirstMore(ms, Whole(id, name), who);
    LastMore(ms, Whole(id, name), who);
    StartsConcat(events, [e], who);
    StartsOne(e, who);
    InputMore(events, e, who);
  }

  lemma WholeAccounts(s: State, ms: seq<Mention>, events: seq<Event>, id: string, name: string, parent: Option<string>, who: string)
    requires AllAccount(s, ms, events)
    ensures var m := WholeTool(s, id, name, parent);
            Accounts(m.s, ms + [Whole(id, name)], events + m.events, who)
  {
    assert Accounts(s, ms, events, who) && Accounts(s, ms, events, id);
    if id in s.tools {
      WholeAgain(s, ms, events, id, name, who);
      assert events + [] == events;
    } else {
      if LastStreamed(ms, id).Some? {
        StreamedIsMentioned(ms, id);
      }
      WholeFirst(s, ms, events, id, name, parent, who);
    }
  }

  lemma InputAccounts(s: State, ms: seq<Mention>, events: seq<Event>, partial: string, parent: Option<string>, who: string)
    requires AllAccount(s, ms, events)
    ensures var m := InputPart(s, partial, parent); Accounts(m.s, ms, events + m.events, who)
  {
    assert Accounts(s, ms, events, who);
    if s.last.None? || partial == "" {
      assert events + [] == events;
      if s.last.Some? {
        assert Accounts(s, ms, events, s.last.value);
      }
    } else {
      var e := ToolInputDelta(s.last.value, partial, parent);
      assert Accounts(s, ms, events, s.last.value);
      StartsConcat(events, [e], who);
      StartsOne(e, who);
      InputMore(events, e, who);
    }
  }

  /** An event that emits neither announcements nor fragments, and remembers no tool. */
  lemma QuietAccounts(s: State, w: State, ms: seq<Mention>, events: seq<Event>, more: seq<Event>, who: string)
    requires AllAccount(s, ms, events) && Quiet(more)
    requires w.tools == s.tools && w.inputs == s.inputs && w.last == s.last
    ensures Accounts(w, ms + [], events + more, who)
  {
    assert Accounts(s, ms, events, who);
    assert ms + [] == ms;
    QuietAfter(events, more, who);
  }

  lemma {:induction false} WholesAccount(s: State, ms: seq<Mention>, events: seq<Event>, content: seq<Block>, parent: Option<string>)
    requires AllAccount(s, ms, events)
    ensures var m := WholeTools(s, content, parent);
            AllAccount(m.s, ms + WholeMentions(content), events + m.events)
  {
    if content == [] {
      assert ms + [] == ms && events + [] == events;
    } else {
      var n := |content| - 1;
      WholesAccount(s, ms, events, content[..n], parent);
      var r := WholeTools(s, content[..n], parent);
      var ms1 := ms + WholeMentions(content[..n]);
      if content[n].ToolUse? {
        var id, name := content[n].id, content[n].name;
        var t := WholeTool(r.s, id, name, parent);
        forall who ensures Accounts(t.s, ms1 + [Whole(id, name)], (events + r.events) + t.events, who) {
          WholeAccounts(r.s, ms1, events + r.events, id, name, parent, who);
        }
        assert ms1 + [Whole(id, name)] == ms + WholeMentions(content);
        assert (events + r.events) + t.events == events + (r.events + t.events);
      } else {
        assert ms + WholeMentions(content) == ms1;
      }
    }
  }

  lemma {:induction false} ToolEndsAreQuiet(s: State, blocks: seq<ResultBlock>, parent: Option<string>)
    ensures Quiet(ToolEnds(s, blocks, parent))
  {
    if blocks != [] {
      ToolEndsAreQuiet(s, blocks[..|blocks| - 1], parent);
    }
  }

  lemma {:induction false} DeniedIsQuiet(denials: seq<Denial>)
    ensures Quiet(Denied(denials))
  {
    if denials != [] {
      DeniedIsQuiet(denials[..|denials| - 1]);
    }
  }

  /** Events that mention no tool and carry no input fragment. */
  predicate Elsewhere(body: Body) {
    match body
    case BlockStart(Some(ToolUse(id, _))) => id == ""
    case BlockDelta(Some(InputJson(Some(_)))) => false
    case Assistant(_, Some(_)) => false
    case _ => true
  }

  lemma ElsewhereEvents(s: State, body: Body, parent: Option<string>)
    requires Elsewhere(body)
    ensures Quiet(MapBody(s, body, parent).events)
  {
    match body {
      case User(Results(blocks)) => ToolEndsAreQuiet(s, blocks, parent);
      case Result(_, _, denials, _) => DeniedIsQuiet(denials);
      case _ =>
    }
  }

  lemma ElsewhereState(s: State, body: Body, parent: Option<string>)
    requires Elsewhere(body)
    ensures var w := MapBody(s, body, parent).s; w.tools == s.tools && w.inputs == s.inputs && w.last == s.last
  {
  }

  lemma ElsewhereIsQuiet(s: State, body: Body, parent: Option<string>)
    requires Elsewhere(body)
    ensures var m := MapBody(s, body, parent);
            Quiet(m.events) && m.s.tools == s.tools && m.s.inputs == s.inputs && m.s.last == s.last
    ensures Mentioned(body) == []
  {
    hide MapBody, Quiet;
    ElsewhereEvents(s, body, parent);
    ElsewhereState(s, body, parent);
  }

  lemma AssistantAccounts(s: State, ms: seq<Mention>, events: seq<Event>, messageId: string, content: seq<Block>, parent: Option<string>)
    requires AllAccount(s, ms, events)
    ensures var m := MapAssistant(s, messageId, content, parent);
            AllAccount(m.s, ms + WholeMentions(content), events + m.events)
  {
    var r := WholeTools(s, content, parent);
    var more := if Texts(content) == [] then [] else [MessageComplete(messageId, Join(Texts(content)), parent)];
    WholesAccount(s, ms, events, content, parent);
    forall who ensures Accounts(r.s, ms + WholeMentions(content), (events + r.events) + more, who) {
      QuietAccounts(r.s, r.s, ms + WholeMentions(content), events + r.events, more, who);
      assert (ms + WholeMentions(content)) + [] == ms + WholeMentions(content);
    }
    assert (events + r.events) + more == events + (r.events + more);
  }

  /** Every event keeps the account of every tool. */
  lemma BodyAccounts(s: State, ms: seq<Mention>, events: seq<Event>, body: Body, parent: Option<string>)
    requires AllAccount(s, ms, events)
    ensures var m := MapBody(s, body, parent); AllAccount(m.s, ms + Mentioned(body), events + m.events)
  {
    var m := MapBody(s, body, parent);
    if Elsewhere(body) {
      ElsewhereIsQuiet(s, body, parent);
      forall who ensures Accounts(m.s, ms + Mentioned(body), events + m.events, who) {
        QuietAccounts(s, m.s, ms, events, m.events, who);
      }
    } else {
      match body {
        case BlockStart(Some(ToolUse(id, name))) =>
          forall who ensures Accounts(m.s, ms + Mentioned(body), events + m.events, who) {
            StreamedAccounts(s, ms, events, id, name, parent, who);
          }
        case BlockDelta(Some(InputJson(Some(partial)))) =>
          assert ms + Mentioned(body) == ms;
          forall who ensures Accounts(m.s, ms + Mentioned(body), events + m.events, who) {
            InputAccounts(s, ms, events, partial, parent, who);
          }
        case Assistant(messageId, Some(content)) => AssistantAccounts(s, ms, events, messageId, content, parent);
      }
    }
  }

  lemma {:induction false} SessionAccounts(resume: bool, run: seq<Action>)
    ensures var r := Session(resume, run); AllAccount(r.s, Mentions(run), r.events)
  {
    if run != [] {
      var n := |run| - 1;
      var b := Session(resume, run[..n]);
      SessionAccounts(resume, run[..n]);
      if run[n].Receive? {
        BodyAccounts(b.s, Mentions(run[..n]), b.events, Unwrap(run[n].raw).0, Unwrap(run[n].raw).1);
      } else {
        assert b.events + [] == b.events && Mentions(run[..n]) + [] == Mentions(run[..n]);
        assert AllAccount(Step(b.s, run[n]).s, Mentions(run[..n]), b.events) by {
          forall id ensures Accounts(Step(b.s, run[n]).s, Mentions(run[..n]), b.events, id) {
            assert Accounts(b.s, Mentions(run[..n]), b.events, id);
          }
        }
      }
    }
  }

  // ---- Over a session ----

  /** A tool is announced once for each block that streams it, and once more if a message came first. */
  lemma AnnouncementsAreOwed(resume: bool, run: seq<Action>, id: string)
    ensures Starts(Session(resume, run).events, id) == Owed(Mentions(run), id)
  {
    SessionAccounts(resume, run);
    assert Accounts(Session(resume, run).s, Mentions(run), Session(resume, run).events, id);
  }

  /** The input remembered for a tool is what the user has been shown of it since its last announcement. */
  lemma InputIsWhatWasShown(resume: bool, run: seq<Action>, id: string)
    ensures var r := Session(resume, run);
            && (id in r.s.inputs <==> LastStreamed(Mentions(run), id).Some?)
            && (id in r.s.inputs ==> r.s.inputs[id] == InputSinceStart(r.events, id))
  {
    SessionAccounts(resume, run);
    assert Accounts(Session(resume, run).s, Mentions(run), Session(resume, run).events, id);
  }

  /** A result ends the tool under the name of its last streamed block, else of its first mention. */
  lemma ResultsAreNamed(resume: bool, run: seq<Action>, id: string, isError: bool, parent: Field)
    ensures var raw := Bare(User(Results([ToolResult(id, isError)])), parent);
            MapEvent(Session(resume, run).s, raw).events
            == [ToolEnd(id, NameOf(Mentions(run), id).GetOr(""), if isError then "error" else "success", Parent(parent))]
  {
    SessionAccounts(resume, run);
    var r := Session(resume, run);
    assert Accounts(r.s, Mentions(run), r.events, id);
    var blocks := [ToolResult(id, isError)];
    assert blocks[..0] == [];
    assert ToolEnds(r.s, blocks, Parent(parent)) == ToolEnds(r.s, [], Parent(parent))
        + [ToolEnd(id, if id in r.s.tools then r.s.tools[id] else "", if isError then "error" else "success", Parent(parent))];
    if id !in r.s.tools && LastStreamed(Mentions(run), id).Some? {
      StreamedIsMentioned(Mentions(run), id);
    }
  }

  function Surviving(events: seq<Event>): seq<Event> {
    if events == [] then []
    else (if Valid(events[0]) then [events[0]] else []) + Surviving(events[1..])
  }

  lemma {:induction false} SurvivingStarts(events: seq<Event>, id: string)
    ensures Starts(Surviving(events), id) == if id == "" then 0 else Starts(events, id)
  {
    if events != [] {
      SurvivingStarts(events[1..], id);
      var head := if Valid(events[0]) then [events[0]] else [];
      StartsConcat(head, Surviving(events[1..]), id);
      StartsOne(events[0], id);
    }
  }

  /**
   Validation costs no announcement but those of a tool without an id: a block without one is never
   announced when it streams, and at most once, in vain, when a message carries it.
   */
  lemma SurvivingAnnouncements(resume: bool, run: seq<Action>, id: string)
    ensures var shown := Starts(Surviving(Session(resume, run).events), id);
            shown == if id == "" then 0 else Owed(Mentions(run), id)
    ensures Starts(Session(resume, run).events, "") <= 1
  {
    SurvivingStarts(Session(resume, run).events, id);
    AnnouncementsAreOwed(resume, run, id);
    AnnouncementsAreOwed(resume, run, "");
    NamelessNeverStream(run);
  }

  lemma {:induction false} NamelessNeverStream(run: seq<Action>)
    ensures Streams(Mentions(run), "") == 0
  {
    if run != [] {
      var n := |run| - 1;
      NamelessNeverStream(run[..n]);
      if run[n].Receive? {
        var body := Unwrap(run[n].raw).0;
        NamelessBody(body);
        StreamsConcat(Mentions(run[..n]), Mentioned(body), "");
      } else {
        assert Mentions(run[..n]) + [] == Mentions(run[..n]);
      }
    }
  }

  lemma {:induction false} StreamsConcat(a: seq<Mention>, b: seq<Mention>, id: string)
    ensures Streams(a + b, id) == Streams(a, id) + Streams(b, id)
  {
    if a == [] {
      assert a + b == b;
    } else {
      assert (a + b)[1..] == a[1..] + b && (a + b)[0] == a[0];
      StreamsConcat(a[1..], b, id);
    }
  }

  lemma NamelessBody(body: Body)
    ensures Streams(Mentioned(body), "") == 0
  {
    match body {
      case BlockStart(Some(ToolUse(id, name))) =>
        assert [Streamed(id, name)][1..] == [];
      case Assistant(_, Some(content)) => WholesNeverStream(content);
      case _ =>
    }
  }

  lemma {:induction false} WholesNeverStream(content: seq<Block>)
    ensures forall id :: Streams(WholeMentions(content), id) == 0
  {
    if content != [] {
      var n := |content| - 1;
      WholesNeverStream(content[..n]);
      forall id ensures Streams(WholeMentions(content), id) == 0 {
        var last := if content[n].ToolUse? then [Whole(content[n].id, content[n].name)] else [];
        StreamsConcat(WholeMentions(content[..n]), last, id);
        assert last == [] || last[1..] == [];
      }
    }
  }
}
