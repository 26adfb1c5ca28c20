/**
 The app-server session as a function on values: what each line, tick and user action does to the
 session state and what it reports. Replay, which the code does by mutual recursion, is here one
 worklist of small tasks.
 */
module AppServerSpec {
  import opened AppServerTypes
  import opened DeferredBuffer
  import opened Wrappers

  datatype Phase = Opening | Ready

  datatype Overrides = Overrides(
    approval: Option<string>, sandbox: Option<string>, model: Option<string>, effort: Option<string>)

  datatype StartupCtx = StartupCtx(resume: Option<string>, settings: Overrides, addDirs: seq<string>)

  datatype State = State(
    phase: Phase,
    root: Option<string>,
    activeTurn: Option<string>,
    nextId: int,
    pending: map<string, PendingServerReq>,
    clientWaiters: map<int, string>,
    internalWaiters: map<int, string>,
    seen: set<string>,
    parents: map<string, string>,
    log: seq<Slot>,
    nextSequence: nat,
    addDirs: seq<string>,
    startup: Overrides,
    replayStartup: bool)

  const FIRST_CLIENT_ID := 3

  function Initial(ctx: StartupCtx): State {
    State(Opening, ctx.resume, None, FIRST_CLIENT_ID, map[], map[], map[], {}, map[], [], 0,
          ctx.addDirs, ctx.settings, true)
  }

  const NO_CTX := StartupCtx(None, Overrides(None, None, None, None), [])

  datatype Result = Result(s: State, out: ParsedLine)

  datatype Framed = Framed(s: State, frames: seq<Frame>)

  /** Opening the session: settings remembered, a resumed thread taken for the root at once. */
  function Startup(s: State, ctx: StartupCtx): Framed {
    Framed(s.(root := if ctx.resume.Some? then ctx.resume else s.root,
              addDirs := ctx.addDirs, startup := ctx.settings, replayStartup := true),
           [Initialize, OpenThread(ctx.resume)])
  }

  // ---- Ownership ----

  predicate Claimed(s: State, thread: string) {
    s.root == Some(thread) || thread in s.parents
  }

  predicate Foreign(s: State, thread: Option<string>) {
    thread.Some? && !Claimed(s, thread.value)
  }

  function ParentOf(s: State, thread: Option<string>): Option<string> {
    if thread.Some? && thread.value in s.parents then Some(s.parents[thread.value]) else None
  }

  // ---- Rejections ----

  const ERROR_INVALID_REQUEST := -32600
  const ERROR_INVALID_PARAMS := -32602

  function Rejection(m: ThreadMessage, reason: string): seq<Frame> {
    if m.Interactive? then [ErrorReply(m.request.id, ERROR_INVALID_REQUEST, reason)] else []
  }

  function Rejections(slots: seq<Slot>, reason: string): seq<Frame> {
    if slots == [] then [] else Rejection(slots[0].entry.message, reason) + Rejections(slots[1..], reason)
  }

  const EXPIRED := "Interactive request expired"
  const EVICTED := "Interactive request evicted from buffer"
  const FULL := "Interactive request buffer is full"
  const TOO_LARGE := "Interactive request exceeds buffer limit"

  /** Expiry goes thread by thread; the order of the threads is the map's and not fixed. */
  function ExpirySlots(log: seq<Slot>, now: nat, order: seq<string>): seq<Slot> {
    if order == [] then []
    else Select(Select(log, OfThread(order[0])), ExpiredAt(now)) + ExpirySlots(log, now, order[1..])
  }

  ghost predicate Enumerates(order: seq<string>, threads: set<string>) {
    && (forall t :: t in order <==> t in threads)
    && (forall i, j :: 0 <= i < j < |order| ==> order[i] != order[j])
  }

  // ---- Deferral ----

  function Expire(s: State, now: nat, order: seq<string>): Result {
    Result(s.(log := Select(s.log, LiveAt(now))), Sent(Rejections(ExpirySlots(s.log, now, order), EXPIRED)))
  }

  function Refusal(m: ThreadMessage): string {
    if m.Size() > MAX_DEFERRED_PAYLOAD_BYTES then TOO_LARGE else FULL
  }

  /** Whether a message would be held, given the log left by the sweep. */
  function Admission(s: State, thread: string, m: ThreadMessage, now: nat): Relief {
    Admit(Select(s.log, LiveAt(now)), thread, m.Size(), m.Interactive?)
  }

  function Defer(s: State, thread: string, m: ThreadMessage, now: nat, order: seq<string>): Result {
    var swept := Expire(s, now, order);
    var a := Admission(s, thread, m, now);
    var evicted := Sent(Rejections(a.victims, EVICTED));
    if a.ok then
      Result(
        s.(log := a.log + [Slot(thread, Entry(m, now, s.nextSequence, m.Size()))],
           nextSequence := WrappingSucc(s.nextSequence)),
        Merge(swept.out, evicted))
    else
      Result(s.(log := a.log), Merge(Merge(swept.out, evicted), Sent(Rejection(m, Refusal(m)))))
  }

  /** A message larger than the whole buffer makes no room. */
  lemma TooLargeIsRefused(s: State, t: string, m: ThreadMessage, now: nat, order: seq<string>)
    requires m.Size() > MAX_DEFERRED_PAYLOAD_BYTES
    ensures !Admission(s, t, m, now).ok
    ensures var swept := Expire(s, now, order);
            Defer(s, t, m, now, order)
            == Result(swept.s, Merge(Merge(swept.out, Sent([])), Sent(Rejection(m, TOO_LARGE))))
  {
  }

  /** Deferral touches nothing but the buffer, and reports nothing but refusals. */
  lemma DeferMoves(s: State, t: string, m: ThreadMessage, now: nat, order: seq<string>)
    ensures var r := Defer(s, t, m, now, order);
            && r.s == s.(log := r.s.log, nextSequence := r.s.nextSequence) && r.out == Sent(r.out.outbound)
  {
  }

  // ---- Interactive requests ----

  function KindOf(m: RequestMethod): PendingKind {
    match m
    case UserInputRequest => UserInput
    case ElicitationRequest => Elicitation
    case _ => Permission
  }

  function PromptEvents(r: Request, parent: Option<string>): seq<Event> {
    var key := RequestKey(r.id);
    var id := r.itemId.GetOr(key);
    match r.call
    case CommandApproval | CommandApprovalLegacy => [PermissionPrompt(key, "Bash", id, parent)]
    case FileApproval | FileApprovalLegacy => [PermissionPrompt(key, "Edit", id, parent)]
    case PermissionsApproval => [PermissionPrompt(key, "RequestPermissions", id, parent)]
    case UserInputRequest =>
      [ToolStart(key, "AskUserQuestion", parent), ToolEnd(key, "AskUserQuestion", parent)]
    case ElicitationRequest => [ElicitationPrompt(key)]
  }

  predicate LacksThread(r: Request) {
    !r.call.Legacy() && r.thread.GetOr("") == ""
  }

  /** Offer a request of an owned thread to the user. */
  function Present(s: State, r: Request): Result {
    if LacksThread(r) then
      Result(s, Sent([ErrorReply(r.id, ERROR_INVALID_PARAMS, "Interactive request is missing threadId")]))
    else
      var key := RequestKey(r.id);
      var grant := if r.call.PermissionsApproval? then r.permissions else None;
      Result(
        s.(pending := s.pending[key := PendingServerReq(r.id, r.call, grant, KindOf(r.call))]),
        Emitted(PromptEvents(r, ParentOf(s, r.thread))).(interactive := [PendingInteractive(key, KindOf(r.call))]))
  }

  function HandleRequest(s: State, r: Request, now: nat, order: seq<string>): Result {
    if !LacksThread(r) && Foreign(s, r.thread) then
      Defer(s, r.thread.value, Interactive(r), now, order)
    else
      Present(s, r)
  }

  // ---- Notifications of owned threads ----

  function ItemEvents(body: Body, parent: Option<string>): seq<Event> {
    match body
    case ItemStarted(Some(item)) =>
      var id := item.id.GetOr("");
      (match item
       case SubAgentActivity(_, _, _) => [ToolStart(id, "Agent", parent)]
       case CollabCall(_, _, _) => [ToolStart(id, "Agent", parent)]
       case ToolItem(_, name) => [ToolStart(id, name, parent)]
       case _ => [])
    case ItemCompleted(Some(item)) =>
      var id := item.id.GetOr("");
      (match item
       case SubAgentActivity(_, _, _) => [ToolEnd(id, "Agent", parent)]
       case CollabCall(_, _, _) => [ToolEnd(id, "Agent", parent)]
       case ToolItem(_, name) => [ToolEnd(id, name, parent)]
       case AgentMessage(_, text) => [MessageComplete(id, text, parent)]
       case ContextCompaction(_) => [CompactionNotice]
       case OtherItem(_) => [])
    case _ => []
  }

  function DeltaEvents(itemId: string, text: string, parent: Option<string>): seq<Event> {
    if itemId != "" && text != "" then [ToolOutputDelta(itemId, text, parent)] else []
  }

  /** The effect of one notification apart from the threads its item spawns. */
  function Observe(s: State, body: Body, parent: Option<string>): Result {
    var child := parent.Some?;
    if child && !body.AllowedFromChild() then Result(s, SILENT)
    else
      match body
      case ThreadStarted(subject) =>
        if subject.Some? && s.root == subject
        then Result(s.(phase := Ready), SILENT.(thread := subject))
        else Result(s, SILENT)
      case TurnStarted(turn) =>
        if child then Result(s, SILENT)
        else Result(if turn.Some? then s.(activeTurn := turn) else s, SILENT.(lifecycle := Some(Started)))
      case TurnCompleted =>
        if child then Result(s, SILENT)
        else Result(s.(activeTurn := None), SILENT.(lifecycle := Some(Completed)))
      case TurnFailed(error) =>
        if child then Result(s, SILENT)
        else Result(s.(activeTurn := None), SILENT.(lifecycle := Some(Failed(error))))
      case ErrorNote(text, willRetry) =>
        if willRetry || child then Result(s, SILENT)
        else Result(s.(activeTurn := None), Emitted([CommandOutput("[error] " + text)]))
      case MessageDeltaNote(delta) =>
        Result(s, Emitted(if delta.Some? then [MessageDelta(delta.value, parent)] else []))
      case ReasoningDeltaNote(delta) =>
        Result(s, Emitted(if delta.Some? then [ThinkingDelta(delta.value, parent)] else []))
      case ItemStarted(_) => Result(s, Emitted(ItemEvents(body, parent)))
      case ItemCompleted(_) => Result(s, Emitted(ItemEvents(body, parent)))
      case CommandOutputNote(itemId, chunk) => Result(s, Emitted(DeltaEvents(itemId, chunk, parent)))
      case McpProgressNote(itemId, chunk) =>
        Result(s, Emitted(DeltaEvents(itemId, if chunk == "" then "" else chunk + "\n", parent)))
      case UpdateNote(content) =>
        Result(s, Emitted(if content.Some? then [RunUpdate(content.value)] else []))
  }

  // ---- The worklist ----

  datatype Task =
    | Deliver(note: Note)                     // a notification of an owned thread
    | Replay(entry: Entry)                    // one held message of a thread now owned
    | Adopt(child: string, card: string)      // record the card of a spawned thread
    | Drain(thread: string)                   // take the thread's queue out of the buffer
    | Identify(agent: string)                 // ask for the identity of a spawned thread

  /** The card of everything a thread spawns: its own card for a child, the item's for the root. */
  function CardFor(parent: Option<string>, body: Body): string {
    if parent.Some? then parent.value else body.ItemId().GetOr("")
  }

  function SpawnTasks(threads: seq<string>, card: string): seq<Task> {
    if threads == [] then []
    else
      var t := threads[0];
      (if t == "" then []
       else (if card == "" then [] else [Adopt(t, card)]) + [Identify(t)])
      + SpawnTasks(threads[1..], card)
  }

  function Replays(q: seq<Entry>): (r: seq<Task>)
    ensures |r| == |q|
  {
    seq(|q|, i requires 0 <= i < |q| => Replay(q[i]))
  }

  datatype Micro = Micro(s: State, out: ParsedLine, more: seq<Task>)

  function DeliverNote(s: State, n: Note): Micro {
    var parent := ParentOf(s, n.thread);
    var r := Observe(s, n.body, parent);
    Micro(r.s, r.out, SpawnTasks(n.body.Spawns(), CardFor(parent, n.body)))
  }

  function StepTask(s: State, task: Task, now: nat): Micro {
    match task
    case Deliver(n) => DeliverNote(s, n)
    case Replay(e) =>
      if Stale(e, now) then Micro(s, Sent(Rejection(e.message, EXPIRED)), [])
      else
        (match e.message
         case Notification(n) => DeliverNote(s, n)
         case Interactive(r) => var p := Present(s, r); Micro(p.s, p.out, []))
    case Adopt(t, card) => Micro(s.(parents := s.parents[t := card]), SILENT, [Drain(t)])
    case Drain(t) => Micro(s.(log := Select(s.log, OffThread(t))), SILENT, Replays(Queue(s.log, t)))
    case Identify(t) =>
      if t in s.seen then Micro(s, SILENT, [])
      else
        Micro(s.(seen := s.seen + {t}, nextId := s.nextId + 1,
                 internalWaiters := s.internalWaiters[s.nextId := t]),
              Sent([ThreadRead(s.nextId, t)]), [])
  }

  function Weight(task: Task): nat {
    match task
    case Deliver(n) => 1 + 3 * |n.body.Spawns()|
    case Replay(e) => if e.message.Notification? then 1 + 3 * |e.message.note.body.Spawns()| else 1
    case Adopt(_, _) => 2
    case Drain(_) => 1
    case Identify(_) => 1
  }

  function Weights(tasks: seq<Task>): nat {
    if tasks == [] then 0 else Weight(tasks[0]) + Weights(tasks[1..])
  }

  lemma {:induction false} WeightsConcat(a: seq<Task>, b: seq<Task>)
    ensures Weights(a + b) == Weights(a) + Weights(b)
  {
    if a == [] {
      assert a + b == b;
    } else {
      assert (a + b)[1..] == a[1..] + b;
      WeightsConcat(a[1..], b);
    }
  }

  lemma {:induction false} SpawnTasksWeight(threads: seq<string>, card: string)
    ensures Weights(SpawnTasks(threads, card)) <= 3 * |threads|
  {
    if threads != [] {
      SpawnTasksWeight(threads[1..], card);
      var t := threads[0];
      var head: seq<Task> := if t == "" then [] else (if card == "" then [] else [Adopt(t, card)]) + [Identify(t)];
      WeightsConcat(head, SpawnTasks(threads[1..], card));
      assert Weights([Identify(t)]) == 1;
      assert [Adopt(t, card)] + [Identify(t)] == [Adopt(t, card), Identify(t)];
      assert [Adopt(t, card), Identify(t)][1..] == [Identify(t)];
      assert Weights(head) <= 3;
    }
  }

  /** Observing a notification moves at most the phase and the active turn. */
  lemma ObserveFrame(s: State, body: Body, parent: Option<string>)
    ensures var r := Observe(s, body, parent);
            && r.s == s.(phase := r.s.phase, activeTurn := r.s.activeTurn)
            && r.out.interactive == [] && r.out.control == None && r.out.outbound == []
            && (parent.Some? ==> r.s == s && r.out.lifecycle == None && r.out.thread == None)
  {
  }

  lemma DeliverNoteShrinks(s: State, n: Note)
    ensures var m := DeliverNote(s, n);
            m.s.log == s.log && Weights(m.more) <= 3 * |n.body.Spawns()|
  {
    ObserveFrame(s, n.body, ParentOf(s, n.thread));
    SpawnTasksWeight(n.body.Spawns(), CardFor(ParentOf(s, n.thread), n.body));
  }

  predicate Shrinks(s: State, task: Task, m: Micro) {
    |m.s.log| < |s.log| || (|m.s.log| == |s.log| && Weights(m.more) < Weight(task))
  }

  lemma TaskShrinks(s: State, task: Task, now: nat)
    ensures Shrinks(s, task, StepTask(s, task, now))
  {
    match task
    case Deliver(n) => DeliverNoteShrinks(s, n);
    case Replay(e) =>
      if e.message.Notification? {
        DeliverNoteShrinks(s, e.message.note);
      }
    case Drain(t) => SelectOffThread(s.log, t, t);
    case Adopt(t, card) => assert Weights([Drain(t)]) == 1;
    case Identify(t) =>
  }

  /** Every task either shrinks the buffer or leaves it alone and shrinks the work to do. */
  lemma StepTaskShrinks(s: State, tasks: seq<Task>, now: nat)
    requires tasks != []
    ensures var m := StepTask(s, tasks[0], now);
            || |m.s.log| < |s.log|
            || (|m.s.log| == |s.log| && Weights(m.more + tasks[1..]) < Weights(tasks))
  {
    TaskShrinks(s, tasks[0], now);
    WeightsConcat(StepTask(s, tasks[0], now).more, tasks[1..]);
  }

  function Work(s: State, tasks: seq<Task>, now: nat): Result
    decreases |s.log|, Weights(tasks)
  {
    if tasks == [] then Result(s, SILENT)
    else
      StepTaskShrinks(s, tasks, now);
      var m := StepTask(s, tasks[0], now);
      var rest := Work(m.s, m.more + tasks[1..], now);
      Result(rest.s, Merge(m.out, rest.out))
  }

  /** Working through a list is working through its first part and then its second. */
  lemma {:induction false} WorkConcat(s: State, a: seq<Task>, b: seq<Task>, now: nat)
    ensures var r1 := Work(s, a, now);
            var r2 := Work(r1.s, b, now);
            Work(s, a + b, now) == Result(r2.s, Merge(r1.out, r2.out))
    decreases |s.log|, Weights(a)
  {
    if a == [] {
      assert a + b == b;
      MergeSilent(Work(s, b, now).out);
    } else {
      StepTaskShrinks(s, a, now);
      var m := StepTask(s, a[0], now);
      assert (a + b)[0] == a[0] && m.more + (a + b)[1..] == (m.more + a[1..]) + b;
      WorkConcat(m.s, m.more + a[1..], b, now);
      var r1 := Work(m.s, m.more + a[1..], now);
      MergeAssociative(m.out, r1.out, Work(r1.s, b, now).out);
    }
  }

  /** What working through tasks can and cannot move. */
  ghost predicate WorkMoves(s: State, w: State) {
    && w == s.(phase := w.phase, activeTurn := w.activeTurn, nextId := w.nextId, pending := w.pending,
               internalWaiters := w.internalWaiters, seen := w.seen, parents := w.parents, log := w.log)
    && s.parents.Keys <= w.parents.Keys
    && |w.log| <= |s.log|
    && (forall x :: x in w.log ==> x in s.log)
    && (forall next, clock :: Ordered(s.log, next, clock) ==> Ordered(w.log, next, clock))
  }

  lemma DrainMoves(s: State, t: string)
    ensures WorkMoves(s, s.(log := Select(s.log, OffThread(t))))
  {
    SelectMembers(s.log, OffThread(t));
    forall next, clock | Ordered(s.log, next, clock)
      ensures Ordered(Select(s.log, OffThread(t)), next, clock)
    {
      SelectKeepsOrder(s.log, OffThread(t), next, clock);
    }
  }

  lemma DeliverMoves(s: State, n: Note)
    ensures WorkMoves(s, DeliverNote(s, n).s)
  {
    ObserveFrame(s, n.body, ParentOf(s, n.thread));
  }

  lemma StepTaskMoves(s: State, task: Task, now: nat)
    ensures WorkMoves(s, StepTask(s, task, now).s)
  {
    hide DeliverNote, Select, Queue;
    match task
    case Deliver(n) => DeliverMoves(s, n);
    case Replay(e) =>
      if e.message.Notification? {
        DeliverMoves(s, e.message.note);
      }
    case Drain(t) => DrainMoves(s, t);
    case Adopt(t, card) =>
    case Identify(t) =>
  }

  lemma {:induction false} WorkFrame(s: State, tasks: seq<Task>, now: nat)
    ensures WorkMoves(s, Work(s, tasks, now).s)
    decreases |s.log|, Weights(tasks)
  {
    if tasks != [] {
      StepTaskShrinks(s, tasks, now);
      StepTaskMoves(s, tasks[0], now);
      var m := StepTask(s, tasks[0], now);
      WorkFrame(m.s, m.more + tasks[1..], now);
    }
  }

  /** A single task is its own effect and then the work it leaves. */
  lemma WorkOne(s: State, task: Task, now: nat)
    ensures var m := StepTask(s, task, now);
            var r := Work(m.s, m.more, now);
            Work(s, [task], now) == Result(r.s, Merge(m.out, r.out))
  {
    var m := StepTask(s, task, now);
    assert [task][1..] == [] && m.more + [] == m.more;
  }

  // ---- Lines ----

  function HandleNotification(s: State, n: Note, now: nat, order: seq<string>): Result {
    if Foreign(s, n.thread) && !n.body.ThreadStarted? then
      Defer(s, n.thread.value, Notification(n), now, order)
    else
      Work(s, [Deliver(n)], now)
  }

  /** The id:2 reply names the root: what waited for it is replayed, and the session is ready. */
  function OpenRoot(s: State, root: string, now: nat): Result {
    var r := Work(s.(root := Some(root)), [Drain(root)], now);
    Result(r.s.(phase := Ready), Merge(SILENT.(thread := Some(root)), r.out))
  }

  /** The root that a reply makes known, if it does: nobody waits for id 2, and the root is not known yet. */
  function Opened(s: State, id: Option<int>, thread: Option<ThreadInfo>, hasError: bool): Option<string> {
    if id == Some(2) && 2 !in s.internalWaiters && 2 !in s.clientWaiters && !hasError && s.root.None? && thread.Some?
    then thread.value.id else None
  }

  /** Any other reply: to an identity lookup, to a caller, to the opening request again, or to nobody. */
  function SettleReply(s: State, id: Option<int>, thread: Option<ThreadInfo>, hasError: bool, payload: string): Result {
    if id.Some? && id.value in s.internalWaiters then
      var agent := s.internalWaiters[id.value];
      Result(
        s.(internalWaiters := s.internalWaiters - {id.value}),
        Emitted(if thread.Some? then [AgentInfo(agent, thread.value.nickname, thread.value.role)] else []))
    else if id.Some? && id.value in s.clientWaiters then
      Result(
        s.(clientWaiters := s.clientWaiters - {id.value}),
        SILENT.(control := Some((s.clientWaiters[id.value], payload))))
    else if id == Some(2) && !hasError then
      Result(s.(phase := Ready), SILENT)
    else
      Result(s, SILENT)
  }

  function HandleReply(
    s: State, id: Option<int>, thread: Option<ThreadInfo>, hasError: bool, payload: string, now: nat): Result
  {
    var root := Opened(s, id, thread, hasError);
    if root.Some? then OpenRoot(s, root.value, now) else SettleReply(s, id, thread, hasError, payload)
  }

  /** Settling a reply moves the phase and the waiters alone, and writes nothing. */
  lemma SettlingFrame(s: State, id: Option<int>, thread: Option<ThreadInfo>, hasError: bool, payload: string)
    ensures var r := SettleReply(s, id, thread, hasError, payload);
            && r.s == s.(phase := r.s.phase, clientWaiters := r.s.clientWaiters, internalWaiters := r.s.internalWaiters)
            && r.out.outbound == [] && r.s.clientWaiters.Keys <= s.clientWaiters.Keys
            && r.s.internalWaiters.Keys <= s.internalWaiters.Keys
  {
  }

  function ParseLine(s: State, line: Line, now: nat, order: seq<string>): Result {
    match line
    case Unparsable => Result(s, SILENT)
    case UnhandledRequest => Result(s, SILENT)
    case RequestLine(r) => HandleRequest(s, r, now, order)
    case NoteLine(n) => HandleNotification(s, n, now, order)
    case Reply(id, thread, hasError, payload) => HandleReply(s, id, thread, hasError, payload, now)
  }

  // ---- Frames the client sends ----

  function FrameTracked(s: State, requestId: string, command: string): Framed {
    if s.root.None? then Framed(s, [])
    else
      Framed(s.(nextId := s.nextId + 1, clientWaiters := s.clientWaiters[s.nextId := requestId]),
             [Tracked(s.nextId, command, s.root.value)])
  }

  function FrameInterrupt(s: State): Framed {
    if s.root.None? || s.activeTurn.None? then Framed(s, [])
    else Framed(s.(nextId := s.nextId + 1), [TurnInterrupt(s.nextId, s.root.value, s.activeTurn.value)])
  }

  function FrameSteer(s: State, text: string): Framed {
    if s.root.None? || s.activeTurn.None? then Framed(s, [])
    else Framed(s.(nextId := s.nextId + 1), [TurnSteer(s.nextId, s.root.value, s.activeTurn.value, text)])
  }

  function SandboxPolicyFor(mode: string, roots: seq<string>): SandboxPolicy {
    if mode == "read-only" then ReadOnly
    else if mode == "danger-full-access" then DangerFullAccess
    else WorkspaceWrite(roots)
  }

  function Pick(live: Option<string>, startup: Option<string>, first: bool): Option<string> {
    if live.Some? then live else if first then startup else None
  }

  function TurnSandbox(s: State, o: Overrides): Option<SandboxPolicy> {
    var mode := Pick(o.sandbox, s.startup.sandbox, s.replayStartup);
    if mode.Some? then Some(SandboxPolicyFor(mode.value, s.addDirs))
    else if s.replayStartup && s.addDirs != [] then Some(SandboxPolicyFor("workspace-write", s.addDirs))
    else None
  }

  function FrameUserTurn(s: State, text: string, o: Overrides): Framed {
    if s.root.None? then Framed(s, [])
    else
      Framed(
        s.(nextId := s.nextId + 1, replayStartup := false),
        [TurnStart(s.nextId, s.root.value, text,
                   Pick(o.approval, s.startup.approval, s.replayStartup),
                   TurnSandbox(s, o),
                   Pick(o.model, s.startup.model, s.replayStartup),
                   Pick(o.effort, s.startup.effort, s.replayStartup))])
  }

  datatype Response = Response(
    behavior: Option<string>, interrupt: bool, action: Option<string>, content: Option<string>, answers: string)

  function AnswerFor(p: PendingServerReq, response: Response): Answer {
    match p.kind
    case Hook => Echo
    case Permission =>
      if p.call.PermissionsApproval? then
        Grant(if response.behavior == Some("allow") then p.permissions else None)
      else
        Decision(if response.behavior == Some("allow") then "accept"
                 else if response.interrupt then "cancel" else "decline")
    case Elicitation => ElicitationAnswer(response.action.GetOr("decline"), response.content)
    case UserInput => Answers(response.answers)
  }

  predicate Answerable(s: State, kind: PendingKind, key: string) {
    key in s.pending && s.pending[key].kind == kind
  }

  /** Answer a pending request; a denied permission profile may also stop the turn. */
  function Respond(s: State, key: string, response: Response): Framed
    requires key in s.pending
  {
    var p := s.pending[key];
    var s1 := s.(pending := s.pending - {key});
    var reply := [ResultReply(p.rawId, AnswerFor(p, response))];
    if p.call.PermissionsApproval? && response.behavior != Some("allow") && response.interrupt then
      var f := FrameInterrupt(s1);
      Framed(f.s, reply + f.frames)
    else
      Framed(s1, reply)
  }

  // ---- Runs ----

  datatype Action =
    | Hear(line: Line, now: nat, order: seq<string>)
    | Tick(now: nat, order: seq<string>)
    | Reacts(kind: PendingKind, key: string, response: Response)
    | UserTurn(text: string, overrides: Overrides)
    | Interrupt
    | Steer(text: string)
    | Ask(requestId: string, command: string)

  function Framing(f: Framed): Result {
    Result(f.s, Sent(f.frames))
  }

  function Step(s: State, a: Action): Result {
    match a
    case Hear(line, now, order) => ParseLine(s, line, now, order)
    case Tick(now, order) => Expire(s, now, order)
    case Reacts(kind, key, response) =>
      if Answerable(s, kind, key) then Framing(Respond(s, key, response)) else Result(s, SILENT)
    case UserTurn(text, overrides) => Framing(FrameUserTurn(s, text, overrides))
    case Interrupt => Framing(FrameInterrupt(s))
    case Steer(text) => Framing(FrameSteer(s, text))
    case Ask(requestId, command) => Framing(FrameTracked(s, requestId, command))
  }

  /** The user's own actions move ids, waiters, pending requests and the one-shot defaults alone. */
  ghost predicate FramingOnly(s: State, w: State) {
    w == s.(nextId := w.nextId, clientWaiters := w.clientWaiters, pending := w.pending, replayStartup := w.replayStartup)
  }

  lemma RespondMoves(s: State, key: string, response: Response)
    requires key in s.pending
    ensures FramingOnly(s, Respond(s, key, response).s)
  {
  }

  lemma FramingMoves(s: State, a: Action)
    requires !a.Hear? && !a.Tick?
    ensures FramingOnly(s, Step(s, a).s) && Step(s, a).out == Sent(Step(s, a).out.outbound)
  {
    hide Respond, TurnSandbox, AnswerFor;
    if a.Reacts? && Answerable(s, a.kind, a.key) {
      RespondMoves(s, a.key, a.response);
    }
  }

  /** The state after a run, and everything it reported in order. */
  datatype Outcome = Outcome(s: State, outs: seq<ParsedLine>)

  function Run(s: State, run: seq<Action>): (r: Outcome)
    ensures |r.outs| == |run|
  {
    if run == [] then Outcome(s, [])
    else
      var before := Run(s, run[..|run| - 1]);
      var r := Step(before.s, run[|run| - 1]);
      Outcome(r.s, before.outs + [r.out])
  }

  // ---- The environment ----

  function TimeOf(a: Action, clock: nat): nat {
    if a.Hear? || a.Tick? then a.now else clock
  }

  function OrderOf(a: Action): seq<string> {
    if a.Hear? || a.Tick? then a.order else []
  }

  function Clock(run: seq<Action>): nat {
    if run == [] then 0 else TimeOf(run[|run| - 1], Clock(run[..|run| - 1]))
  }

  /** One action is possible: time does not run backwards and the sweep visits each buffered thread once. */
  ghost predicate Possible(s: State, clock: nat, a: Action) {
    && clock <= TimeOf(a, clock)
    && (a.Hear? || a.Tick? ==> Enumerates(OrderOf(a), Threads(s.log)))
    && !Wraps(s.nextSequence)
  }

  /** A run the environment can produce from a start of the session. */
  ghost predicate Feasible(s: State, run: seq<Action>) {
    run == [] || (
      var before := run[..|run| - 1];
      Feasible(s, before) && Possible(Run(s, before).s, Clock(before), run[|run| - 1]))
  }
}
