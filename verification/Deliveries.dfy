/**
 What reaches the session over a run, and what the user must be told of it: tables over what the
 messages say, against which the session is proved to report every event, prompt and signal.
 */
module Deliveries {
  import opened AppServerSpec
  import opened AppServerTypes
  import opened DeferredBuffer
  import opened IdCorrelation
  import opened IdentityLookups
  import opened Wrappers

  // ---- What is delivered ----

  /** A notification of an owned thread, or a request offered to the user, with its thread's card. */
  datatype Delivery = Told(note: Note, parent: Option<string>) | Offered(request: Request, parent: Option<string>)

  function Offer(s: State, r: Request): seq<Delivery> {
    if LacksThread(r) then [] else [Offered(r, ParentOf(s, r.thread))]
  }

  function TaskDelivers(s: State, task: Task, now: nat): seq<Delivery> {
    match task
    case Deliver(n) => [Told(n, ParentOf(s, n.thread))]
    case Replay(e) =>
      if Stale(e, now) then []
      else
        (match e.message
         case Notification(n) => [Told(n, ParentOf(s, n.thread))]
         case Interactive(r) => Offer(s, r))
    case _ => []
  }

  function WorkDelivers(s: State, tasks: seq<Task>, now: nat): seq<Delivery>
    decreases |s.log|, Weights(tasks)
  {
    if tasks == [] then []
    else
      StepTaskShrinks(s, tasks, now);
      var m := StepTask(s, tasks[0], now);
      TaskDelivers(s, tasks[0], now) + WorkDelivers(m.s, m.more + tasks[1..], now)
  }

  /** What one line delivers: itself unless it is held back, and what it sets free. */
  function LineDelivers(s: State, line: Line, now: nat): seq<Delivery> {
    match line
    case NoteLine(n) =>
      if Foreign(s, n.thread) && !n.body.ThreadStarted? then [] else WorkDelivers(s, [Deliver(n)], now)
    case RequestLine(r) => if !LacksThread(r) && Foreign(s, r.thread) then [] else Offer(s, r)
    case Reply(id, thread, hasError, _) =>
      var root := Opened(s, id, thread, hasError);
      if root.Some? then WorkDelivers(s.(root := root), [Drain(root.value)], now) else []
    case _ => []
  }

  function StepDelivers(s: State, a: Action): seq<Delivery> {
    if a.Hear? then LineDelivers(s, a.line, a.now) else []
  }

  /** Everything delivered over a run, in order. */
  function Delivered(ctx: StartupCtx, run: seq<Action>): seq<Delivery> {
    if run == [] then []
    else
      var before := run[..|run| - 1];
      Delivered(ctx, before) + StepDelivers(Run(Initial(ctx), before).s, run[|run| - 1])
  }

  // ---- What it means ----

  /** The name of the tool an item is about, if it is about one. */
  function ToolNamed(item: Item): Option<string> {
    if item.ToolItem? then Some(item.name)
    else if item.SubAgentActivity? || item.CollabCall? then Some("Agent")
    else None
  }

  /** The tool a request asks leave for, if it asks for leave. */
  function Approves(call: RequestMethod): Option<string> {
    match call
    case CommandApproval => Some("Bash")
    case CommandApprovalLegacy => Some("Bash")
    case FileApproval => Some("Edit")
    case FileApprovalLegacy => Some("Edit")
    case PermissionsApproval => Some("RequestPermissions")
    case UserInputRequest => None
    case ElicitationRequest => None
  }

  /** The kind of answer a request calls for. */
  function Asks(call: RequestMethod): PendingKind {
    if Approves(call).Some? then Permission
    else if call == UserInputRequest then UserInput
    else Elicitation
  }

  /** Whether a delivery warrants an event, read off the event. */
  predicate Warrants(d: Delivery, e: Event) {
    match e
    case MessageDelta(text, p) => d.Told? && d.parent == p && d.note.body == MessageDeltaNote(Some(text))
    case ThinkingDelta(text, p) => d.Told? && d.parent == p && d.note.body == ReasoningDeltaNote(Some(text))
    case MessageComplete(id, text, p) =>
      && d.Told? && d.parent == p && d.note.body.ItemCompleted? && d.note.body.item.Some?
      && d.note.body.item.value.AgentMessage? && d.note.body.item.value.text == text
      && d.note.body.item.value.id.GetOr("") == id
    case ToolStart(id, name, p) =>
      if d.Told? then
        && d.parent == p && d.note.body.ItemStarted? && d.note.body.item.Some?
        && ToolNamed(d.note.body.item.value) == Some(name) && d.note.body.item.value.id.GetOr("") == id
      else
        IsQuestion(d, id, name, p)
    case ToolEnd(id, name, p) =>
      if d.Told? then
        && d.parent == p && d.note.body.ItemCompleted? && d.note.body.item.Some?
        && ToolNamed(d.note.body.item.value) == Some(name) && d.note.body.item.value.id.GetOr("") == id
      else
        IsQuestion(d, id, name, p)
    case ToolOutputDelta(id, delta, p) =>
      && d.Told? && d.parent == p && id != "" && delta != ""
      && (d.note.body == CommandOutputNote(id, delta)
          || (d.note.body.McpProgressNote? && d.note.body.itemId == id && d.note.body.chunk != ""
              && d.note.body.chunk + "\n" == delta))
    case PermissionPrompt(key, tool, id, p) =>
      && d.Offered? && d.parent == p && Approves(d.request.call) == Some(tool)
      && RequestKey(d.request.id) == key && d.request.itemId.GetOr(key) == id
    case ElicitationPrompt(key) =>
      d.Offered? && d.request.call == ElicitationRequest && RequestKey(d.request.id) == key
    case CompactionNotice =>
      d.Told? && d.note.body.ItemCompleted? && d.note.body.item.Some? && d.note.body.item.value.ContextCompaction?
    case CommandOutput(content) =>
      && d.Told? && d.parent.None? && d.note.body.ErrorNote? && !d.note.body.willRetry
      && content == "[error] " + d.note.body.text
    case RunUpdate(content) => d.Told? && d.parent.None? && d.note.body == UpdateNote(Some(content))
    case AgentInfo(_, _, _) => false
  }

  /** A question put to the user is shown as a tool that starts and ends. */
  predicate IsQuestion(d: Delivery, id: string, name: string, parent: Option<string>) {
    && d.Offered? && d.request.call == UserInputRequest && d.parent == parent
    && id == RequestKey(d.request.id) && name == "AskUserQuestion"
  }

  /** The events of one delivery: those it warrants, each once, a question's start before its end. */
  ghost predicate Exactly(d: Delivery, events: seq<Event>) {
    && (forall e :: e in events <==> Warrants(d, e))
    && (|events| <= 1 || (|events| == 2 && events[0].ToolStart? && events[1].ToolEnd?))
  }

  /** Events that are, delivery by delivery, exactly those warranted. */
  ghost predicate Reports(events: seq<Event>, ds: seq<Delivery>)
    decreases ds
  {
    if ds == [] then events == []
    else exists n :: 0 <= n <= |events| && Exactly(ds[0], events[..n]) && Reports(events[n..], ds[1..])
  }

  /** The prompts of these deliveries. */
  function Prompted(ds: seq<Delivery>): seq<PendingInteractive> {
    if ds == [] then []
    else
      (if ds[0].Offered? then [PendingInteractive(RequestKey(ds[0].request.id), Asks(ds[0].request.call))] else [])
      + Prompted(ds[1..])
  }

  /** What is recorded of a request once it is offered. */
  function Record(r: Request): PendingServerReq {
    PendingServerReq(r.id, r.call, if r.call == PermissionsApproval then r.permissions else None, Asks(r.call))
  }

  /** The requests on offer, by key: a later one under the same key takes the place of an earlier one. */
  function OnOffer(open: map<string, Request>, ds: seq<Delivery>): map<string, Request>
    decreases ds
  {
    if ds == [] then open
    else
      OnOffer(if ds[0].Offered? then open[RequestKey(ds[0].request.id) := ds[0].request] else open, ds[1..])
  }

  predicate Recorded(pending: map<string, PendingServerReq>, open: map<string, Request>) {
    pending.Keys == open.Keys && forall key :: key in open ==> pending[key] == Record(open[key])
  }

  /** Whether a delivery is about the run itself: it belongs to no card. */
  predicate OfRun(d: Delivery) {
    d.Told? && d.parent.None?
  }

  /** The signal a delivery gives about the run. */
  function Signal(d: Delivery): Option<Lifecycle> {
    if !OfRun(d) then None
    else
      match d.note.body
      case TurnStarted(_) => Some(Started)
      case TurnCompleted => Some(Completed)
      case TurnFailed(error) => Some(Failed(error))
      case _ => None
  }

  function LastSignal(ds: seq<Delivery>): Option<Lifecycle> {
    if ds == [] then None else Later(Signal(ds[0]), LastSignal(ds[1..]))
  }

  /** The turn that is live after a delivery. */
  function TurnAfter(turn: Option<string>, d: Delivery): Option<string> {
    if !OfRun(d) then turn
    else if d.note.body.TurnStarted? && d.note.body.turn.Some? then d.note.body.turn
    else if EndsTurn(d.note.body) then None
    else turn
  }

  /** A completion, a failure, or an error that will not be retried. */
  predicate EndsTurn(body: Body) {
    body.TurnCompleted? || body.TurnFailed? || (body.ErrorNote? && !body.willRetry)
  }

  function TurnAfterAll(turn: Option<string>, ds: seq<Delivery>): Option<string> {
    if ds == [] then turn else TurnAfter(TurnAfterAll(turn, ds[..|ds| - 1]), ds[|ds| - 1])
  }

  /** Whether a delivery announces this thread, on no card. */
  predicate Announces(d: Delivery, root: Option<string>) {
    OfRun(d) && d.note.body.ThreadStarted? && root.Some? && d.note.body.subject == root
  }

  predicate Announced(ds: seq<Delivery>, root: Option<string>) {
    exists d :: d in ds && Announces(d, root)
  }

  // ---- The session reflects what is delivered ----

  /** From `s` to `w` these deliveries were reported and recorded. */
  ghost predicate Reflects(s: State, w: State, out: ParsedLine, ds: seq<Delivery>) {
    && Reports(out.events, ds) && out.interactive == Prompted(ds) && out.lifecycle == LastSignal(ds)
    && w.activeTurn == TurnAfterAll(s.activeTurn, ds) && w.root == s.root
    && (forall open :: Recorded(s.pending, open) ==> Recorded(w.pending, OnOffer(open, ds)))
    && w.phase == (if Announced(ds, s.root) then Ready else s.phase)
    && out.thread == (if Announced(ds, s.root) then s.root else None)
  }

  lemma ReportsCons(d: Delivery, events: seq<Event>, more: seq<Event>, ds: seq<Delivery>)
    requires Exactly(d, events) && Reports(more, ds)
    ensures Reports(events + more, [d] + ds)
  {
    hide Exactly;
    var all, n := events + more, |events|;
    assert all[..n] == events && all[n..] == more && ([d] + ds)[1..] == ds;
    assert Exactly(d, all[..n]) && Reports(all[n..], ([d] + ds)[1..]);
  }

  lemma ReportsHead(events: seq<Event>, ds: seq<Delivery>) returns (first: seq<Event>, more: seq<Event>)
    requires ds != [] && Reports(events, ds)
    ensures events == first + more && Exactly(ds[0], first) && Reports(more, ds[1..])
  {
    hide Exactly;
    var n :| 0 <= n <= |events| && Exactly(ds[0], events[..n]) && Reports(events[n..], ds[1..]);
    first, more := events[..n], events[n..];
  }

  lemma HeadApart<T>(x: seq<T>, y: seq<T>)
    requires x != []
    ensures [x[0]] + (x[1..] + y) == x + y
  {
  }

  lemma {:induction false} ReportsConcat(a: seq<Event>, b: seq<Event>, x: seq<Delivery>, y: seq<Delivery>)
    requires Reports(a, x) && Reports(b, y)
    ensures Reports(a + b, x + y)
    decreases x
  {
    if x == [] {
      assert a + b == b && x + y == y;
    } else {
      hide Exactly, Reports;
      var first, more := ReportsHead(a, x);
      ReportsConcat(more, b, x[1..], y);
      ReportsCons(x[0], first, more + b, x[1..] + y);
      Associate(first, more, b);
      HeadApart(x, y);
    }
  }

  lemma ReportsOne(d: Delivery, events: seq<Event>)
    requires Exactly(d, events)
    ensures Reports(events, [d])
  {
    hide Exactly;
    ReportsCons(d, events, [], []);
    assert events + [] == events && [d] + [] == [d];
  }

  lemma {:induction false} PromptedConcat(x: seq<Delivery>, y: seq<Delivery>)
    ensures Prompted(x + y) == Prompted(x) + Prompted(y)
  {
    if x == [] {
      assert x + y == y;
    } else {
      assert (x + y)[0] == x[0] && (x + y)[1..] == x[1..] + y;
      PromptedConcat(x[1..], y);
    }
  }

  lemma {:induction false} SignalConcat(x: seq<Delivery>, y: seq<Delivery>)
    ensures LastSignal(x + y) == Later(LastSignal(x), LastSignal(y))
  {
    if x == [] {
      assert x + y == y;
    } else {
      assert (x + y)[0] == x[0] && (x + y)[1..] == x[1..] + y;
      SignalConcat(x[1..], y);
    }
  }

  lemma {:induction false} TurnConcat(turn: Option<string>, x: seq<Delivery>, y: seq<Delivery>)
    ensures TurnAfterAll(turn, x + y) == TurnAfterAll(TurnAfterAll(turn, x), y)
  {
    if y == [] {
      assert x + y == x;
    } else {
      var n := |y| - 1;
      assert (x + y)[..|x + y| - 1] == x + y[..n] && (x + y)[|x + y| - 1] == y[n];
      TurnConcat(turn, x, y[..n]);
    }
  }

  lemma {:induction false} OfferConcat(open: map<string, Request>, x: seq<Delivery>, y: seq<Delivery>)
    ensures OnOffer(open, x + y) == OnOffer(OnOffer(open, x), y)
    decreases x
  {
    if x == [] {
      assert x + y == y;
    } else {
      assert (x + y)[0] == x[0] && (x + y)[1..] == x[1..] + y;
      OfferConcat(if x[0].Offered? then open[RequestKey(x[0].request.id) := x[0].request] else open, x[1..], y);
    }
  }

  lemma AnnouncedConcat(x: seq<Delivery>, y: seq<Delivery>, root: Option<string>)
    ensures Announced(x + y, root) <==> Announced(x, root) || Announced(y, root)
  {
  }

  lemma ReflectsThen(s: State, m: State, w: State, a: ParsedLine, b: ParsedLine, x: seq<Delivery>, y: seq<Delivery>)
    requires Reflects(s, m, a, x) && Reflects(m, w, b, y)
    ensures Reflects(s, w, Merge(a, b), x + y)
  {
    hide Reports, Prompted, LastSignal, TurnAfterAll, OnOffer, Recorded, Announced;
    ReportsConcat(a.events, b.events, x, y);
    PromptedConcat(x, y);
    SignalConcat(x, y);
    TurnConcat(s.activeTurn, x, y);
    AnnouncedConcat(x, y, s.root);
    forall open | Recorded(s.pending, open) ensures Recorded(w.pending, OnOffer(open, x + y)) {
      OfferConcat(open, x, y);
    }
  }

  /** A step that delivers nothing. */
  lemma ReflectsNothing(s: State, w: State, out: ParsedLine)
    requires w.activeTurn == s.activeTurn && w.root == s.root && w.pending == s.pending && w.phase == s.phase
    requires out.events == [] && out.interactive == [] && out.lifecycle == None && out.thread == None
    ensures Reflects(s, w, out, [])
  {
  }

  // ---- One delivery ----

  lemma ItemSays(n: Note, parent: Option<string>)
    requires n.body.ItemStarted? || n.body.ItemCompleted?
    ensures Exactly(Told(n, parent), ItemEvents(n.body, parent))
  {
  }

  lemma OutputSays(n: Note, parent: Option<string>)
    ensures n.body.CommandOutputNote? ==>
              Exactly(Told(n, parent), DeltaEvents(n.body.itemId, n.body.chunk, parent))
    ensures n.body.McpProgressNote? ==>
              Exactly(Told(n, parent),
                      DeltaEvents(n.body.itemId, if n.body.chunk == "" then "" else n.body.chunk + "\n", parent))
  {
  }

  /** What a notification makes the session say is what it warrants. */
  lemma NoteSays(s: State, n: Note, parent: Option<string>)
    ensures Exactly(Told(n, parent), Observe(s, n.body, parent).out.events)
  {
    hide ItemEvents, DeltaEvents;
    if n.body.ItemStarted? || n.body.ItemCompleted? {
      hide Warrants;
      ItemSays(n, parent);
    } else if n.body.CommandOutputNote? || n.body.McpProgressNote? {
      hide Warrants;
      OutputSays(n, parent);
    }
  }

  lemma ReflectsOne(s: State, w: State, out: ParsedLine, d: Delivery)
    requires Exactly(d, out.events)
    requires out.interactive
          == (if d.Offered? then [PendingInteractive(RequestKey(d.request.id), Asks(d.request.call))] else [])
    requires out.lifecycle == Signal(d) && w.activeTurn == TurnAfter(s.activeTurn, d) && w.root == s.root
    requires w.pending == (if d.Offered? then s.pending[RequestKey(d.request.id) := Record(d.request)] else s.pending)
    requires w.phase == (if Announces(d, s.root) then Ready else s.phase)
    requires out.thread == (if Announces(d, s.root) then s.root else None)
    ensures Reflects(s, w, out, [d])
  {
    ReportsOne(d, out.events);
    assert [d][1..] == [] && [d][..0] == [];
    assert Announces(d, s.root) ==> d in [d];
    forall open | Recorded(s.pending, open) ensures Recorded(w.pending, OnOffer(open, [d])) {
      assert OnOffer(open, [d])
          == OnOffer(if d.Offered? then open[RequestKey(d.request.id) := d.request] else open, []);
    }
  }

  lemma TellReflects(s: State, n: Note)
    ensures var m := DeliverNote(s, n); Reflects(s, m.s, m.out, [Told(n, ParentOf(s, n.thread))])
  {
    var parent := ParentOf(s, n.thread);
    NoteSays(s, n, parent);
    ObserveFrame(s, n.body, parent);
    ReflectsOne(s, DeliverNote(s, n).s, DeliverNote(s, n).out, Told(n, parent));
  }

  lemma RequestAsks(r: Request, parent: Option<string>)
    ensures Exactly(Offered(r, parent), PromptEvents(r, parent)) && KindOf(r.call) == Asks(r.call)
  {
  }

  lemma OfferReflects(s: State, r: Request)
    ensures var p := Present(s, r); Reflects(s, p.s, p.out, Offer(s, r))
  {
    if LacksThread(r) {
      ReflectsNothing(s, s, Present(s, r).out);
    } else {
      RequestAsks(r, ParentOf(s, r.thread));
      ReflectsOne(s, Present(s, r).s, Present(s, r).out, Offered(r, ParentOf(s, r.thread)));
    }
  }

  lemma TaskReflects(s: State, task: Task, now: nat)
    ensures var m := StepTask(s, task, now); Reflects(s, m.s, m.out, TaskDelivers(s, task, now))
  {
    match task {
      case Deliver(n) => TellReflects(s, n);
      case Replay(e) =>
        if Stale(e, now) {
          ReflectsNothing(s, s, Sent(Rejection(e.message, EXPIRED)));
        } else {
          match e.message {
            case Notification(n) => TellReflects(s, n);
            case Interactive(r) => OfferReflects(s, r);
          }
        }
      case _ => ReflectsNothing(s, StepTask(s, task, now).s, StepTask(s, task, now).out);
    }
  }

  /** Replay reports what it delivers, through all nesting. */
  lemma {:induction false} WorkReflects(s: State, tasks: seq<Task>, now: nat)
    ensures var w := Work(s, tasks, now); Reflects(s, w.s, w.out, WorkDelivers(s, tasks, now))
    decreases |s.log|, Weights(tasks)
  {
    if tasks == [] {
      ReflectsNothing(s, s, SILENT);
    } else {
      hide Reflects;
      StepTaskShrinks(s, tasks, now);
      TaskReflects(s, tasks[0], now);
      var m := StepTask(s, tasks[0], now);
      WorkReflects(m.s, m.more + tasks[1..], now);
      var w := Work(m.s, m.more + tasks[1..], now);
      ReflectsThen(s, m.s, w.s, m.out, w.out,
                   TaskDelivers(s, tasks[0], now), WorkDelivers(m.s, m.more + tasks[1..], now));
    }
  }
}
