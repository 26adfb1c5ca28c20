/**
 Who owns what, and by whose word: over any run every registered thread was named by a spawn item
 that arrived, and the card it reports to is that of a top-level one, however deep the nesting and
 whether or not the item waited in the buffer.
 */
module Ownership {
  import opened AppServerSpec
  import opened AppServerTypes
  import opened DeferredBuffer
  import opened QueueRefinement
  import opened Registration
  import opened SessionInvariant
  import opened Wrappers

  // ---- What a run has heard ----

  function Carried(a: Action): set<ThreadMessage> {
    if a.Hear? && a.line.NoteLine? then {Notification(a.line.note)}
    else if a.Hear? && a.line.RequestLine? then {Interactive(a.line.request)}
    else {}
  }

  function Heard(run: seq<Action>): set<ThreadMessage> {
    if run == [] then {} else Heard(run[..|run| - 1]) + Carried(run[|run| - 1])
  }

  /** Some spawn item named this thread. */
  ghost predicate Named(heard: set<ThreadMessage>, t: string) {
    exists n :: Notification(n) in heard && t in n.body.Spawns()
  }

  /** The id of a spawn item that arrived on the root or without a thread. */
  ghost predicate TopCard(heard: set<ThreadMessage>, root: Option<string>, card: string) {
    exists n :: Notification(n) in heard && TopSpawn(n, root) && n.body.ItemId() == Some(card)
  }

  predicate TopSpawn(n: Note, root: Option<string>) {
    (n.thread.None? || n.thread == root) && n.body.Spawns() != []
  }

  ghost predicate Traced(s: State, heard: set<ThreadMessage>) {
    && (forall x :: x in s.log ==> x.entry.message in heard && Holdable(x.thread, x.entry.message))
    && (forall t :: t in s.parents ==> Named(heard, t) && TopCard(heard, s.root, s.parents[t]))
  }

  /** A notification that may be delivered: heard, and of an owned thread if it can spawn. */
  predicate Deliverable(s: State, heard: set<ThreadMessage>, n: Note) {
    Notification(n) in heard && (!Foreign(s, n.thread) || n.body.ThreadStarted?)
  }

  ghost predicate TracedTask(s: State, heard: set<ThreadMessage>, task: Task) {
    match task
    case Deliver(n) => Deliverable(s, heard, n)
    case Replay(e) => e.message in heard && (e.message.Notification? ==> Deliverable(s, heard, e.message.note))
    case Adopt(t, card) => Named(heard, t) && TopCard(heard, s.root, card)
    case Drain(t) => Claimed(s, t)
    case Identify(_) => true
  }

  ghost predicate TracedTasks(s: State, heard: set<ThreadMessage>, tasks: seq<Task>) {
    forall task :: task in tasks ==> TracedTask(s, heard, task)
  }

  function EventParent(e: Event): Option<string> {
    match e
    case MessageDelta(_, p) => p
    case ThinkingDelta(_, p) => p
    case MessageComplete(_, _, p) => p
    case ToolStart(_, _, p) => p
    case ToolEnd(_, _, p) => p
    case ToolOutputDelta(_, _, p) => p
    case PermissionPrompt(_, _, _, p) => p
    case _ => None
  }

  /** Every event that names a card names a top-level one. */
  ghost predicate TracedEvents(heard: set<ThreadMessage>, root: Option<string>, events: seq<Event>) {
    forall e :: e in events && EventParent(e).Some? ==> TopCard(heard, root, EventParent(e).value)
  }

  // ---- One task ----

  lemma ObserveParents(s: State, body: Body, parent: Option<string>)
    ensures forall e :: e in Observe(s, body, parent).out.events && EventParent(e).Some? ==> EventParent(e) == parent
  {
  }

  /** The card a delivered item gives to what it spawns. */
  lemma DeliveredCard(s: State, heard: set<ThreadMessage>, n: Note)
    requires Traced(s, heard) && Deliverable(s, heard, n) && n.body.Spawns() != []
    ensures var card := CardFor(ParentOf(s, n.thread), n.body); card != "" ==> TopCard(heard, s.root, card)
    ensures forall t :: t in n.body.Spawns() ==> Named(heard, t)
  {
    if ParentOf(s, n.thread).None? && n.body.ItemId().Some? {
      assert TopSpawn(n, s.root);
    }
  }

  lemma DeliverTraced(s: State, heard: set<ThreadMessage>, n: Note)
    requires Traced(s, heard) && Deliverable(s, heard, n)
    ensures var m := DeliverNote(s, n);
            && m.s == s.(phase := m.s.phase, activeTurn := m.s.activeTurn)
            && TracedTasks(s, heard, m.more)
            && TracedEvents(heard, s.root, m.out.events)
  {
    var parent := ParentOf(s, n.thread);
    ObserveFrame(s, n.body, parent);
    ObserveParents(s, n.body, parent);
    if n.body.Spawns() != [] {
      DeliveredCard(s, heard, n);
      SpawnTasksKinds(n.body.Spawns(), CardFor(parent, n.body));
    }
  }

  lemma ReplaysTraced(s: State, heard: set<ThreadMessage>, t: string)
    requires Traced(s, heard) && Claimed(s, t)
    ensures TracedTasks(s, heard, Replays(Queue(s.log, t)))
  {
    var q := Queue(s.log, t);
    QueueMembers(s.log, t);
    forall task | task in Replays(q) ensures TracedTask(s, heard, task) {
      var k :| 0 <= k < |q| && task == Replays(q)[k];
      assert Slot(t, q[k]) in s.log;
    }
  }

  lemma PresentTraced(s: State, heard: set<ThreadMessage>, r: Request)
    requires Traced(s, heard)
    ensures TracedEvents(heard, s.root, Present(s, r).out.events)
  {
    forall e | e in PromptEvents(r, ParentOf(s, r.thread)) && EventParent(e).Some?
      ensures EventParent(e) == ParentOf(s, r.thread)
    {
    }
  }

  lemma ReplayTraced(s: State, heard: set<ThreadMessage>, e: Entry, now: nat)
    requires Traced(s, heard) && TracedTask(s, heard, Replay(e))
    ensures var m := StepTask(s, Replay(e), now);
            && Traced(m.s, heard) && TracedTasks(m.s, heard, m.more)
            && TracedEvents(heard, s.root, m.out.events)
  {
    hide DeliverNote, Named, TopCard, Stale;
    if !Stale(e, now) {
      match e.message {
        case Notification(n) => DeliverTraced(s, heard, n);
        case Interactive(r) => PresentTraced(s, heard, r);
      }
    }
  }

  lemma TaskTraced(s: State, heard: set<ThreadMessage>, task: Task, now: nat)
    requires Traced(s, heard) && TracedTask(s, heard, task)
    ensures var m := StepTask(s, task, now);
            && Traced(m.s, heard) && TracedTasks(m.s, heard, m.more)
            && TracedEvents(heard, s.root, m.out.events)
  {
    hide DeliverNote, Present, Stale, Named, TopCard, Select, Queue;
    match task {
      case Deliver(n) => DeliverTraced(s, heard, n);
      case Replay(e) => ReplayTraced(s, heard, e, now);
      case Drain(t) =>
        ReplaysTraced(s, heard, t);
        SelectMembers(s.log, OffThread(t));
      case Adopt(_, _) =>
      case Identify(_) =>
    }
  }

  /** Ownership only grows, so what could be done before still can. */
  lemma StillTraced(s: State, w: State, heard: set<ThreadMessage>, tasks: seq<Task>)
    requires TracedTasks(s, heard, tasks) && w.root == s.root && s.parents.Keys <= w.parents.Keys
    ensures TracedTasks(w, heard, tasks)
  {
    forall task | task in tasks ensures TracedTask(w, heard, task) {
      assert TracedTask(s, heard, task);
    }
  }

  lemma EventsConcat(heard: set<ThreadMessage>, root: Option<string>, a: seq<Event>, b: seq<Event>)
    requires TracedEvents(heard, root, a) && TracedEvents(heard, root, b)
    ensures TracedEvents(heard, root, a + b)
  {
  }

  lemma {:induction false} WorkTraced(s: State, heard: set<ThreadMessage>, tasks: seq<Task>, now: nat)
    requires Traced(s, heard) && TracedTasks(s, heard, tasks)
    ensures var w := Work(s, tasks, now); Traced(w.s, heard) && TracedEvents(heard, s.root, w.out.events)
    decreases |s.log|, Weights(tasks)
  {
    if tasks != [] {
      StepTaskShrinks(s, tasks, now);
      var m := StepTask(s, tasks[0], now);
      TaskTraced(s, heard, tasks[0], now);
      StepTaskMoves(s, tasks[0], now);
      StillTraced(s, m.s, heard, tasks[1..]);
      WorkTraced(m.s, heard, m.more + tasks[1..], now);
      EventsConcat(heard, s.root, m.out.events, Work(m.s, m.more + tasks[1..], now).out.events);
    }
  }

  // ---- Deferral ----

  lemma {:induction false} RelieveMembers(p: Pressure, log: seq<Slot>, t: string, size: nat, interactive: bool)
    ensures forall x :: x in Relieve(p, log, t, size, interactive).log ==> x in log
    decreases |log|
  {
    RelieveUnfold(p, log, t, size, interactive);
    var i := OldestEvictable(log, Scope(p, t), interactive);
    if Over(p, log, t, size) && i < |log| {
      RelieveMembers(p, RemoveAt(log, i), t, size, interactive);
      SplitAt(log, i);
    }
  }

  lemma AdmitMembers(log: seq<Slot>, t: string, size: nat, interactive: bool)
    ensures forall x :: x in Admit(log, t, size, interactive).log ==> x in log
  {
    var r1 := Relieve(TooManyThreads, log, t, size, interactive);
    var r2 := Relieve(QueueFull, r1.log, t, size, interactive);
    RelieveMembers(TooManyThreads, log, t, size, interactive);
    RelieveMembers(QueueFull, r1.log, t, size, interactive);
    RelieveMembers(TooManyBytes, r2.log, t, size, interactive);
  }

  /** Deferral adds at most the message itself to the buffer, and touches nothing else. */
  lemma DeferMembers(s: State, t: string, m: ThreadMessage, now: nat, order: seq<string>)
    ensures var r := Defer(s, t, m, now, order);
            && r.s == s.(log := r.s.log, nextSequence := r.s.nextSequence)
            && r.out == Sent(r.out.outbound)
            && forall x :: x in r.s.log ==> x in s.log || (x.thread == t && x.entry.message == m)
  {
    AdmitMembers(Select(s.log, LiveAt(now)), t, m.Size(), m.Interactive?);
    SelectMembers(s.log, LiveAt(now));
  }

  // ---- Runs ----

  lemma TracedLater(s: State, heard: set<ThreadMessage>, more: set<ThreadMessage>)
    requires Traced(s, heard) && heard <= more
    ensures Traced(s, more)
  {
    forall t | t in s.parents ensures Named(more, t) && TopCard(more, s.root, s.parents[t]) {
      var n :| Notification(n) in heard && t in n.body.Spawns();
      assert Notification(n) in more;
      var m :| Notification(m) in heard && TopSpawn(m, s.root) && m.body.ItemId() == Some(s.parents[t]);
      assert Notification(m) in more;
    }
  }

  ghost predicate TracedResult(s: State, heard: set<ThreadMessage>, r: Result) {
    Traced(r.s, heard) && TracedEvents(heard, r.s.root, r.out.events)
  }

  lemma NoteTraced(s: State, heard: set<ThreadMessage>, n: Note, now: nat, order: seq<string>)
    requires Traced(s, heard) && Notification(n) in heard
    ensures TracedResult(s, heard, HandleNotification(s, n, now, order))
  {
    if Foreign(s, n.thread) && !n.body.ThreadStarted? {
      DeferMembers(s, n.thread.value, Notification(n), now, order);
    } else {
      WorkTraced(s, heard, [Deliver(n)], now);
      WorkFrame(s, [Deliver(n)], now);
    }
  }

  lemma RequestTraced(s: State, heard: set<ThreadMessage>, r: Request, now: nat, order: seq<string>)
    requires Traced(s, heard) && Interactive(r) in heard
    ensures TracedResult(s, heard, HandleRequest(s, r, now, order))
  {
    if !LacksThread(r) && Foreign(s, r.thread) {
      DeferMembers(s, r.thread.value, Interactive(r), now, order);
    } else {
      PresentTraced(s, heard, r);
    }
  }

  lemma OpenTraced(s: State, heard: set<ThreadMessage>, root: string, now: nat)
    requires Traced(s, heard) && s.root.None?
    ensures TracedResult(s, heard, OpenRoot(s, root, now))
  {
    var s1 := s.(root := Some(root));
    forall t | t in s.parents ensures TopCard(heard, s1.root, s.parents[t]) {
      var n :| Notification(n) in heard && TopSpawn(n, s.root) && n.body.ItemId() == Some(s.parents[t]);
      assert TopSpawn(n, s1.root);
    }
    WorkTraced(s1, heard, [Drain(root)], now);
    WorkFrame(s1, [Drain(root)], now);
  }

  lemma SettlingTraced(s: State, heard: set<ThreadMessage>, id: Option<int>, thread: Option<ThreadInfo>,
                       hasError: bool, payload: string)
    requires Traced(s, heard)
    ensures TracedResult(s, heard, SettleReply(s, id, thread, hasError, payload))
  {
    SettlingFrame(s, id, thread, hasError, payload);
    assert forall e :: e in SettleReply(s, id, thread, hasError, payload).out.events ==> e.AgentInfo?;
  }

  lemma ReplyTraced(s: State, heard: set<ThreadMessage>, id: Option<int>, thread: Option<ThreadInfo>,
                    hasError: bool, payload: string, now: nat)
    requires Traced(s, heard)
    ensures TracedResult(s, heard, HandleReply(s, id, thread, hasError, payload, now))
  {
    hide TracedResult, Traced, OpenRoot, SettleReply;
    var root := Opened(s, id, thread, hasError);
    if root.Some? {
      OpenTraced(s, heard, root.value, now);
    } else {
      SettlingTraced(s, heard, id, thread, hasError, payload);
    }
  }

  lemma LineTraced(s: State, heard: set<ThreadMessage>, a: Action)
    requires Traced(s, heard) && a.Hear? && Carried(a) <= heard
    ensures TracedResult(s, heard, Step(s, a))
  {
    match a.line {
      case NoteLine(n) => NoteTraced(s, heard, n, a.now, a.order);
      case RequestLine(r) => RequestTraced(s, heard, r, a.now, a.order);
      case Reply(id, thread, hasError, payload) => ReplyTraced(s, heard, id, thread, hasError, payload, a.now);
      case Unparsable =>
      case UnhandledRequest =>
    }
  }

  lemma StepTraced(s: State, heard: set<ThreadMessage>, a: Action)
    requires Traced(s, heard)
    ensures TracedResult(s, heard + Carried(a), Step(s, a))
  {
    TracedLater(s, heard, heard + Carried(a));
    if a.Hear? {
      LineTraced(s, heard + Carried(a), a);
    } else if a.Tick? {
      SelectMembers(s.log, LiveAt(a.now));
    } else {
      FramingMoves(s, a);
    }
  }

  /**
   Flattened ownership: in every reachable state each registered thread was named by some spawn item
   that arrived, its card is the id of a spawn item that arrived at top level, and all that still
   waits in the buffer did arrive.
   */
  lemma {:induction false} CardsAreTopLevel(ctx: StartupCtx, run: seq<Action>)
    ensures Traced(Run(Initial(ctx), run).s, Heard(run))
  {
    if run != [] {
      var n := |run| - 1;
      CardsAreTopLevel(ctx, run[..n]);
      StepTraced(Run(Initial(ctx), run[..n]).s, Heard(run[..n]), run[n]);
    }
  }

  /** Every event that names a card, at any depth of nesting, names a top-level one. */
  lemma EventsPointAtTopLevel(ctx: StartupCtx, run: seq<Action>, a: Action)
    ensures var s := Run(Initial(ctx), run).s;
            TracedEvents(Heard(run) + Carried(a), Step(s, a).s.root, Step(s, a).out.events)
  {
    CardsAreTopLevel(ctx, run);
    StepTraced(Run(Initial(ctx), run).s, Heard(run), a);
  }
}
