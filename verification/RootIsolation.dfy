/**
 The root thread's own session is out of reach of every other thread: a run and the same run with
 all other threads' messages erased agree on everything the root's user sees.
 */
module RootIsolation {
  import opened AppServerSpec
  import opened AppServerTypes
  import opened DeferredBuffer
  import opened Ownership
  import opened QueueRefinement
  import opened SessionInvariant
  import opened Wrappers

  // ---- The root's view ----

  datatype RootView = RootView(
    phase: Phase, root: Option<string>, activeTurn: Option<string>, pending: map<string, PendingServerReq>,
    addDirs: seq<string>, startup: Overrides, replayStartup: bool)

  /** The root's part of the session; `keys` are the requests the root makes. */
  function ViewOf(s: State, keys: set<string>): RootView {
    RootView(s.phase, s.root, s.activeTurn, map k | k in s.pending && k in keys :: s.pending[k],
             s.addDirs, s.startup, s.replayStartup)
  }

  /** Events of the root itself; the two kinds that never name a parent are told apart where possible. */
  predicate RootEvent(keys: set<string>, e: Event) {
    match e
    case ElicitationPrompt(key) => key in keys
    case CompactionNotice => false
    case AgentInfo(_, _, _) => false
    case _ => EventParent(e).None?
  }

  function RootEvents(keys: set<string>, events: seq<Event>): seq<Event> {
    if events == [] then []
    else if RootEvent(keys, events[0]) then [events[0]] + RootEvents(keys, events[1..])
    else RootEvents(keys, events[1..])
  }

  function RootPrompts(keys: set<string>, prompts: seq<PendingInteractive>): seq<PendingInteractive> {
    if prompts == [] then []
    else if prompts[0].key in keys then [prompts[0]] + RootPrompts(keys, prompts[1..])
    else RootPrompts(keys, prompts[1..])
  }

  /** What the client writes on the root's behalf, apart from the ids it numbers its requests with. */
  function RootFrame(keys: set<string>, f: Frame): seq<Frame> {
    match f
    case ResultReply(id, _) => if RequestKey(id) in keys then [f] else []
    case TurnStart(_, t, text, approval, sandbox, model, effort) =>
      [TurnStart(0, t, text, approval, sandbox, model, effort)]
    case TurnInterrupt(_, t, turn) => [TurnInterrupt(0, t, turn)]
    case TurnSteer(_, t, turn, text) => [TurnSteer(0, t, turn, text)]
    case Tracked(_, command, t) => [Tracked(0, command, t)]
    case _ => []
  }

  function RootFrames(keys: set<string>, frames: seq<Frame>): seq<Frame> {
    if frames == [] then [] else RootFrame(keys, frames[0]) + RootFrames(keys, frames[1..])
  }

  datatype Report = Report(
    events: seq<Event>, prompts: seq<PendingInteractive>, lifecycle: Option<Lifecycle>, thread: Option<string>)

  const NOTHING := Report([], [], None, None)

  /** The part of an output that concerns the root. */
  function Shown(keys: set<string>, out: ParsedLine): Report {
    Report(RootEvents(keys, out.events), RootPrompts(keys, out.interactive), out.lifecycle, out.thread)
  }

  lemma {:induction false} RootEventsConcat(keys: set<string>, a: seq<Event>, b: seq<Event>)
    ensures RootEvents(keys, a + b) == RootEvents(keys, a) + RootEvents(keys, b)
  {
    if a == [] {
      assert a + b == b;
    } else {
      assert (a + b)[1..] == a[1..] + b;
      RootEventsConcat(keys, a[1..], b);
    }
  }

  lemma {:induction false} RootPromptsConcat(keys: set<string>, a: seq<PendingInteractive>, b: seq<PendingInteractive>)
    ensures RootPrompts(keys, a + b) == RootPrompts(keys, a) + RootPrompts(keys, b)
  {
    if a == [] {
      assert a + b == b;
    } else {
      assert (a + b)[1..] == a[1..] + b && (a + b)[0] == a[0];
      RootPromptsConcat(keys, a[1..], b);
    }
  }

  /** Output that shows nothing adds nothing. */
  lemma SilentAfter(keys: set<string>, a: ParsedLine, b: ParsedLine)
    requires Shown(keys, b) == NOTHING
    ensures Shown(keys, Merge(a, b)) == Shown(keys, a)
  {
    RootEventsConcat(keys, a.events, b.events);
    RootPromptsConcat(keys, a.interactive, b.interactive);
  }

  // ---- Hypotheses ----

  predicate FromRoot(root: string, thread: Option<string>) {
    thread.None? || thread == Some(root)
  }

  /**
   No spawn item names the root, no other thread announces it, and no other thread's request bears a
   key of the root's.
   */
  predicate SoundMessage(root: string, keys: set<string>, m: ThreadMessage) {
    match m
    case Notification(n) =>
      root !in n.body.Spawns() && (n.body == ThreadStarted(Some(root)) ==> FromRoot(root, n.thread))
    case Interactive(r) => RequestKey(r.id) in keys <==> FromRoot(root, r.thread)
  }

  ghost predicate Sound(root: string, keys: set<string>, run: seq<Action>) {
    forall m :: m in Heard(run) ==> SoundMessage(root, keys, m)
  }

  /** Actions of other threads, answers to their requests, and the buffer's own housekeeping. */
  predicate Outside(root: string, keys: set<string>, a: Action) {
    match a
    case Hear(NoteLine(n), _, _) => !FromRoot(root, n.thread)
    case Hear(RequestLine(r), _, _) => !FromRoot(root, r.thread)
    case Tick(_, _) => true
    case Reacts(_, key, _) => key !in keys
    case _ => false
  }

  /** The root is known, no thread's owner, and only other threads' messages wait. */
  ghost predicate Quarantined(s: State, root: string, keys: set<string>) {
    && s.root == Some(root) && root !in s.parents && IdsKept(s)
    && forall x :: x in s.log ==>
         x.thread != root && Holdable(x.thread, x.entry.message) && SoundMessage(root, keys, x.entry.message)
  }

  // ---- What other threads can do ----

  predicate ChildMessageOf(s: State, root: string, keys: set<string>, m: ThreadMessage) {
    && SoundMessage(root, keys, m)
    && match m
       case Notification(n) => n.thread.Some? && n.thread != Some(root) && n.thread.value in s.parents
       case Interactive(r) => r.thread.Some? && r.thread != Some(root) && r.thread.value in s.parents
  }

  predicate OutsideTask(s: State, root: string, keys: set<string>, task: Task) {
    match task
    case Deliver(n) => ChildMessageOf(s, root, keys, Notification(n))
    case Replay(e) => ChildMessageOf(s, root, keys, e.message)
    case Adopt(t, _) => t != root
    case Drain(t) => t != root && t in s.parents
    case Identify(_) => true
  }

  ghost predicate OutsideTasks(s: State, root: string, keys: set<string>, tasks: seq<Task>) {
    forall task :: task in tasks ==> OutsideTask(s, root, keys, task)
  }

  /** What a child's notification shows is on its card, none of it the root's. */
  lemma ChildObserved(s: State, keys: set<string>, body: Body, card: string)
    ensures Observe(s, body, Some(card)).s == s
    ensures Shown(keys, Observe(s, body, Some(card)).out) == NOTHING
  {
    ObserveFrame(s, body, Some(card));
    ChildEvents(s, body, card);
    NoRootEvents(keys, Observe(s, body, Some(card)).out.events);
  }

  lemma ChildEvents(s: State, body: Body, card: string)
    ensures var events := Observe(s, body, Some(card)).out.events;
            |events| <= 1 && forall e :: e in events ==> e == CompactionNotice || EventParent(e) == Some(card)
  {
  }

  lemma SpawnsOutside(s: State, root: string, keys: set<string>, n: Note)
    requires root !in n.body.Spawns()
    ensures OutsideTasks(s, root, keys, SpawnTasks(n.body.Spawns(), CardFor(ParentOf(s, n.thread), n.body)))
  {
    SpawnTasksKinds(n.body.Spawns(), CardFor(ParentOf(s, n.thread), n.body));
  }

  lemma PresentOutside(s: State, root: string, keys: set<string>, r: Request)
    requires RequestKey(r.id) !in keys && r.thread.Some? && r.thread.value in s.parents
    ensures var p := Present(s, r);
            && ViewOf(p.s, keys) == ViewOf(s, keys)
            && p.s == s.(pending := p.s.pending) && Shown(keys, p.out) == NOTHING
  {
    PromptsCarryParent(s, keys, r);
    NoRootPrompt(keys, PendingInteractive(RequestKey(r.id), KindOf(r.call)));
  }

  lemma NoRootPrompt(keys: set<string>, p: PendingInteractive)
    requires p.key !in keys
    ensures RootPrompts(keys, [p]) == [] && RootPrompts(keys, []) == []
  {
    assert [p][1..] == [];
  }

  lemma PromptsCarryParent(s: State, keys: set<string>, r: Request)
    requires RequestKey(r.id) !in keys && r.thread.Some? && r.thread.value in s.parents
    ensures RootEvents(keys, PromptEvents(r, ParentOf(s, r.thread))) == []
  {
    var events := PromptEvents(r, ParentOf(s, r.thread));
    assert forall e :: e in events ==> !RootEvent(keys, e);
    NoRootEvents(keys, events);
  }

  lemma {:induction false} NoRootEvents(keys: set<string>, events: seq<Event>)
    requires forall e :: e in events ==> !RootEvent(keys, e)
    ensures RootEvents(keys, events) == []
  {
    if events != [] {
      NoRootEvents(keys, events[1..]);
    }
  }

  lemma ReplaysOutside(s: State, root: string, keys: set<string>, t: string)
    requires Quarantined(s, root, keys) && t in s.parents && t != root
    ensures OutsideTasks(s, root, keys, Replays(Queue(s.log, t)))
  {
    var q := Queue(s.log, t);
    QueueMembers(s.log, t);
    forall task | task in Replays(q) ensures OutsideTask(s, root, keys, task) {
      var k :| 0 <= k < |q| && task == Replays(q)[k];
      assert Slot(t, q[k]) in s.log;
    }
  }

  ghost predicate Untouched(s: State, w: State, root: string, keys: set<string>, out: ParsedLine) {
    && Quarantined(w, root, keys)
    && ViewOf(w, keys) == ViewOf(s, keys)
    && Shown(keys, out) == NOTHING
  }

  lemma DeliverOutside(s: State, root: string, keys: set<string>, n: Note)
    requires Quarantined(s, root, keys) && ChildMessageOf(s, root, keys, Notification(n))
    ensures var m := DeliverNote(s, n);
            m.s == s && Shown(keys, m.out) == NOTHING && OutsideTasks(s, root, keys, m.more)
  {
    ChildObserved(s, keys, n.body, s.parents[n.thread.value]);
    SpawnsOutside(s, root, keys, n);
  }

  lemma ReplayOutside(s: State, root: string, keys: set<string>, e: Entry, now: nat)
    requires Quarantined(s, root, keys) && ChildMessageOf(s, root, keys, e.message)
    ensures var m := StepTask(s, Replay(e), now);
            && m.s == s.(pending := m.s.pending) && ViewOf(m.s, keys) == ViewOf(s, keys)
            && Shown(keys, m.out) == NOTHING && OutsideTasks(m.s, root, keys, m.more)
  {
    if e.message.Notification? {
      DeliverOutside(s, root, keys, e.message.note);
    } else {
      PresentOutside(s, root, keys, e.message.request);
    }
  }

  lemma DrainOutside(s: State, root: string, keys: set<string>, t: string)
    requires Quarantined(s, root, keys) && t != root && t in s.parents
    ensures var w := s.(log := Select(s.log, OffThread(t)));
            Untouched(s, w, root, keys, SILENT) && OutsideTasks(w, root, keys, Replays(Queue(s.log, t)))
  {
    ReplaysOutside(s, root, keys, t);
    SelectMembers(s.log, OffThread(t));
  }

  lemma IdentifyOutside(s: State, root: string, keys: set<string>, t: string)
    requires Quarantined(s, root, keys)
    ensures var m := StepTask(s, Identify(t), 0); Untouched(s, m.s, root, keys, m.out) && m.more == []
  {
    hide SoundMessage, Holdable;
  }

  lemma AdoptOutside(s: State, root: string, keys: set<string>, t: string, card: string)
    requires Quarantined(s, root, keys) && t != root
    ensures var w := s.(parents := s.parents[t := card]);
            Untouched(s, w, root, keys, SILENT) && OutsideTasks(w, root, keys, [Drain(t)])
  {
  }

  lemma TaskOutside(s: State, root: string, keys: set<string>, task: Task, now: nat)
    requires Quarantined(s, root, keys) && OutsideTask(s, root, keys, task)
    ensures var m := StepTask(s, task, now);
            Untouched(s, m.s, root, keys, m.out) && OutsideTasks(m.s, root, keys, m.more)
  {
    match task {
      case Deliver(n) => DeliverOutside(s, root, keys, n);
      case Replay(e) => ReplayOutside(s, root, keys, e, now);
      case Drain(t) => DrainOutside(s, root, keys, t);
      case Adopt(t, card) => AdoptOutside(s, root, keys, t, card);
      case Identify(t) => IdentifyOutside(s, root, keys, t);
    }
  }

  lemma StillOutside(s: State, w: State, root: string, keys: set<string>, tasks: seq<Task>)
    requires OutsideTasks(s, root, keys, tasks) && s.parents.Keys <= w.parents.Keys
    ensures OutsideTasks(w, root, keys, tasks)
  {
    forall task | task in tasks ensures OutsideTask(w, root, keys, task) {
      assert OutsideTask(s, root, keys, task);
    }
  }

  /** Whatever other threads' tasks set off, the root is untouched and shown nothing. */
  lemma {:induction false} WorkOutside(s: State, root: string, keys: set<string>, tasks: seq<Task>, now: nat)
    requires Quarantined(s, root, keys) && OutsideTasks(s, root, keys, tasks)
    ensures var w := Work(s, tasks, now); Untouched(s, w.s, root, keys, w.out)
    decreases |s.log|, Weights(tasks)
  {
    if tasks != [] {
      StepTaskShrinks(s, tasks, now);
      var m := StepTask(s, tasks[0], now);
      TaskOutside(s, root, keys, tasks[0], now);
      StepTaskMoves(s, tasks[0], now);
      StillOutside(s, m.s, root, keys, tasks[1..]);
      WorkOutside(m.s, root, keys, m.more + tasks[1..], now);
      SilentAfter(keys, m.out, Work(m.s, m.more + tasks[1..], now).out);
    }
  }

  lemma DeferOutside(s: State, root: string, keys: set<string>, t: string, m: ThreadMessage, now: nat, order: seq<string>)
    requires Quarantined(s, root, keys) && t != root && Holdable(t, m) && SoundMessage(root, keys, m)
    ensures var r := Defer(s, t, m, now, order); Untouched(s, r.s, root, keys, r.out)
  {
    DeferMembers(s, t, m, now, order);
  }

  lemma NoteOutside(s: State, root: string, keys: set<string>, n: Note, now: nat, order: seq<string>)
    requires Quarantined(s, root, keys) && SoundMessage(root, keys, Notification(n))
    requires !FromRoot(root, n.thread)
    ensures var r := HandleNotification(s, n, now, order); Untouched(s, r.s, root, keys, r.out)
  {
    if n.thread.value in s.parents {
      WorkOutside(s, root, keys, [Deliver(n)], now);
    } else if n.body.ThreadStarted? {
      NotificationUnfold(s, n, now, order);
      MergeSilent(SILENT);
    } else {
      DeferOutside(s, root, keys, n.thread.value, Notification(n), now, order);
    }
  }

  lemma RequestOutside(s: State, root: string, keys: set<string>, r: Request, now: nat, order: seq<string>)
    requires Quarantined(s, root, keys) && SoundMessage(root, keys, Interactive(r)) && !FromRoot(root, r.thread)
    ensures var p := HandleRequest(s, r, now, order); Untouched(s, p.s, root, keys, p.out)
  {
    if !LacksThread(r) {
      if r.thread.value in s.parents {
        PresentOutside(s, root, keys, r);
      } else {
        DeferOutside(s, root, keys, r.thread.value, Interactive(r), now, order);
      }
    }
  }

  /** Taking a request of another thread out of the pending ones, and perhaps a number for an interrupt. */
  lemma ForgottenOutside(s: State, w: State, root: string, keys: set<string>, key: string)
    requires Quarantined(s, root, keys) && key !in keys && IdsKept(w)
    requires w == s.(pending := s.pending - {key}, nextId := w.nextId)
    ensures Quarantined(w, root, keys) && ViewOf(w, keys) == ViewOf(s, keys)
  {
    assert (map k | k in w.pending && k in keys :: w.pending[k]) == (map k | k in s.pending && k in keys :: s.pending[k]);
  }

  lemma RespondForgets(s: State, key: string, response: Response)
    requires key in s.pending
    ensures var w := Respond(s, key, response).s; w == s.(pending := s.pending - {key}, nextId := w.nextId)
  {
  }

  lemma AnswerOutside(s: State, root: string, keys: set<string>, kind: PendingKind, key: string, response: Response)
    requires Quarantined(s, root, keys) && key !in keys
    ensures var r := Step(s, Reacts(kind, key, response)); Untouched(s, r.s, root, keys, r.out)
  {
    hide Quarantined, IdsKept, ViewOf, Respond;
    FramingMoves(s, Reacts(kind, key, response));
    if Answerable(s, kind, key) {
      AnswerKeepsIds(s, root, keys, kind, key, response);
      RespondForgets(s, key, response);
      ForgottenOutside(s, Respond(s, key, response).s, root, keys, key);
    }
  }

  lemma AnswerKeepsIds(s: State, root: string, keys: set<string>, kind: PendingKind, key: string, response: Response)
    requires Quarantined(s, root, keys) && Answerable(s, kind, key)
    ensures IdsKept(Respond(s, key, response).s)
  {
    hide IdsKept, Respond;
    StepKeepsIds(s, Reacts(kind, key, response));
  }

  /**
   An action of another thread, an answer to it, or a tick of the clock leaves the root's session as
   it was, sets no lifecycle, and shows nothing of the root's.
   */
  lemma OutsideStep(s: State, root: string, keys: set<string>, a: Action)
    requires Quarantined(s, root, keys) && Outside(root, keys, a)
    requires forall m :: m in Carried(a) ==> SoundMessage(root, keys, m)
    ensures Untouched(s, Step(s, a).s, root, keys, Step(s, a).out)
  {
    match a {
      case Hear(NoteLine(n), now, order) =>
        assert Notification(n) in Carried(a);
        NoteOutside(s, root, keys, n, now, order);
      case Hear(RequestLine(r), now, order) =>
        assert Interactive(r) in Carried(a);
        RequestOutside(s, root, keys, r, now, order);
      case Tick(now, _) => SelectMembers(s.log, LiveAt(now));
      case Reacts(kind, key, response) => AnswerOutside(s, root, keys, kind, key, response);
    }
  }

  // ---- Frames ----

  /** Refusals and identity requests: all that hearing a line or a tick can write. */
  predicate Housekeeping(f: Frame) {
    f.ErrorReply? || f.ThreadRead?
  }

  ghost predicate OnlyHousekeeping(frames: seq<Frame>) {
    forall f :: f in frames ==> Housekeeping(f)
  }

  lemma {:induction false} HousekeepingIsNotShown(keys: set<string>, frames: seq<Frame>)
    requires OnlyHousekeeping(frames)
    ensures RootFrames(keys, frames) == []
  {
    if frames != [] {
      assert Housekeeping(frames[0]);
      HousekeepingIsNotShown(keys, frames[1..]);
    }
  }

  lemma {:induction false} RejectionsAreHousekeeping(slots: seq<Slot>, reason: string)
    ensures OnlyHousekeeping(Rejections(slots, reason))
  {
    if slots != [] {
      RejectionsAreHousekeeping(slots[1..], reason);
    }
  }

  lemma TaskWrites(s: State, task: Task, now: nat)
    ensures OnlyHousekeeping(StepTask(s, task, now).out.outbound)
  {
    match task {
      case Deliver(n) => ObserveFrame(s, n.body, ParentOf(s, n.thread));
      case Replay(e) =>
        if e.message.Notification? {
          ObserveFrame(s, e.message.note.body, ParentOf(s, e.message.note.thread));
        }
      case Drain(_) =>
      case Adopt(_, _) =>
      case Identify(_) =>
    }
  }

  lemma {:induction false} WorkWrites(s: State, tasks: seq<Task>, now: nat)
    ensures OnlyHousekeeping(Work(s, tasks, now).out.outbound)
    decreases |s.log|, Weights(tasks)
  {
    if tasks != [] {
      StepTaskShrinks(s, tasks, now);
      TaskWrites(s, tasks[0], now);
      WorkWrites(StepTask(s, tasks[0], now).s, StepTask(s, tasks[0], now).more + tasks[1..], now);
    }
  }

  lemma DeferWrites(s: State, t: string, m: ThreadMessage, now: nat, order: seq<string>)
    ensures OnlyHousekeeping(Defer(s, t, m, now, order).out.outbound)
  {
    RejectionsAreHousekeeping(ExpirySlots(s.log, now, order), EXPIRED);
    RejectionsAreHousekeeping(Admission(s, t, m, now).victims, EVICTED);
  }

  lemma PresentWrites(s: State, r: Request)
    ensures OnlyHousekeeping(Present(s, r).out.outbound)
  {
  }

  lemma HearingWrites(s: State, a: Action)
    requires a.Hear?
    ensures OnlyHousekeeping(Step(s, a).out.outbound)
  {
    hide Work, Defer, Present;
    match a.line {
      case NoteLine(n) =>
        WorkWrites(s, [Deliver(n)], a.now);
        if n.thread.Some? {
          DeferWrites(s, n.thread.value, Notification(n), a.now, a.order);
        }
      case RequestLine(r) =>
        PresentWrites(s, r);
        if r.thread.Some? {
          DeferWrites(s, r.thread.value, Interactive(r), a.now, a.order);
        }
      case Reply(id, thread, hasError, payload) =>
        var root := Opened(s, id, thread, hasError);
        if root.Some? {
          WorkWrites(s.(root := root), [Drain(root.value)], a.now);
        } else {
          SettlingFrame(s, id, thread, hasError, payload);
        }
      case Unparsable =>
      case UnhandledRequest =>
    }
  }

  // ---- The root's own steps ----

  ghost predicate Alike(s: State, w: State, root: string, keys: set<string>) {
    Quarantined(s, root, keys) && Quarantined(w, root, keys) && ViewOf(s, keys) == ViewOf(w, keys)
  }

  /** Two sessions alike before are alike after, and have shown and written the same for the root. */
  ghost predicate AlikeResults(r: Result, q: Result, root: string, keys: set<string>) {
    && Alike(r.s, q.s, root, keys)
    && Shown(keys, r.out) == Shown(keys, q.out)
    && RootFrames(keys, r.out.outbound) == RootFrames(keys, q.out.outbound)
  }

  lemma ObserveAlike(s: State, w: State, root: string, keys: set<string>, body: Body)
    requires Alike(s, w, root, keys)
    ensures var o, p := Observe(s, body, None), Observe(w, body, None);
            o.out == p.out && Alike(o.s, p.s, root, keys)
  {
    ObserveFrame(s, body, None);
    ObserveFrame(w, body, None);
    ObserveSameOut(s, w, body);
    ObserveSamePhase(s, w, body);
    ObserveSameTurn(s, w, body);
  }

  lemma ObserveSameOut(s: State, w: State, body: Body)
    requires s.root == w.root
    ensures Observe(s, body, None).out == Observe(w, body, None).out
  {
  }

  lemma ObserveSamePhase(s: State, w: State, body: Body)
    requires s.root == w.root && s.phase == w.phase
    ensures Observe(s, body, None).s.phase == Observe(w, body, None).s.phase
  {
  }

  lemma ObserveSameTurn(s: State, w: State, body: Body)
    requires s.activeTurn == w.activeTurn
    ensures Observe(s, body, None).s.activeTurn == Observe(w, body, None).s.activeTurn
  {
  }

  /** A root notification, up to the tasks it leaves behind for other threads. */
  lemma RootNote(s: State, root: string, keys: set<string>, n: Note, now: nat, order: seq<string>)
    requires Quarantined(s, root, keys) && SoundMessage(root, keys, Notification(n)) && FromRoot(root, n.thread)
    ensures var o := Observe(s, n.body, None);
            var r := HandleNotification(s, n, now, order);
            && Quarantined(r.s, root, keys) && ViewOf(r.s, keys) == ViewOf(o.s, keys)
            && Shown(keys, r.out) == Shown(keys, o.out)
  {
    hide Work, Observe, ViewOf, SpawnTasks;
    var o := Observe(s, n.body, None);
    NotificationUnfold(s, n, now, order);
    ObserveFrame(s, n.body, None);
    SpawnTasksKinds(n.body.Spawns(), CardFor(None, n.body));
    WorkOutside(o.s, root, keys, SpawnTasks(n.body.Spawns(), CardFor(None, n.body)), now);
    SilentAfter(keys, o.out, Work(o.s, SpawnTasks(n.body.Spawns(), CardFor(None, n.body)), now).out);
  }

  lemma NoteAlike(s: State, w: State, root: string, keys: set<string>, n: Note, now: nat, order: seq<string>)
    requires Alike(s, w, root, keys) && SoundMessage(root, keys, Notification(n)) && FromRoot(root, n.thread)
    ensures var r, q := HandleNotification(s, n, now, order), HandleNotification(w, n, now, order);
            Alike(r.s, q.s, root, keys) && Shown(keys, r.out) == Shown(keys, q.out)
  {
    RootNote(s, root, keys, n, now, order);
    RootNote(w, root, keys, n, now, order);
    ObserveAlike(s, w, root, keys, n.body);
  }

  lemma RequestAlike(s: State, w: State, root: string, keys: set<string>, r: Request, now: nat, order: seq<string>)
    requires Alike(s, w, root, keys) && SoundMessage(root, keys, Interactive(r)) && FromRoot(root, r.thread)
    ensures var p, q := HandleRequest(s, r, now, order), HandleRequest(w, r, now, order);
            Alike(p.s, q.s, root, keys) && Shown(keys, p.out) == Shown(keys, q.out)
  {
    PresentAlike(s, w, root, keys, r);
  }

  lemma PresentAlike(s: State, w: State, root: string, keys: set<string>, r: Request)
    requires Alike(s, w, root, keys) && FromRoot(root, r.thread)
    ensures var p, q := Present(s, r), Present(w, r); Alike(p.s, q.s, root, keys) && p.out == q.out
  {
    hide PromptEvents, KindOf;
    if !LacksThread(r) {
      PendingAlike(s.pending, w.pending, Present(s, r).s.pending, Present(w, r).s.pending, keys, RequestKey(r.id));
    }
  }

  /** Writing the same request under the same key keeps two tables alike. */
  lemma PendingAlike(a: map<string, PendingServerReq>, b: map<string, PendingServerReq>,
                     c: map<string, PendingServerReq>, d: map<string, PendingServerReq>, keys: set<string>, key: string)
    requires (map k | k in a && k in keys :: a[k]) == (map k | k in b && k in keys :: b[k])
    requires key in c && key in d && c[key] == d[key] && c == a[key := c[key]] && d == b[key := d[key]]
    ensures (map k | k in c && k in keys :: c[k]) == (map k | k in d && k in keys :: d[k])
  {
    var p, q := map k | k in a && k in keys :: a[k], map k | k in b && k in keys :: b[k];
    forall k ensures k in c && k in keys <==> k in d && k in keys
      ensures k in c && k in keys ==> c[k] == d[k]
    {
      assert k in p <==> k in q;
      assert k in p ==> p[k] == q[k];
    }
  }

  lemma ReplyAlike(s: State, w: State, root: string, keys: set<string>, id: Option<int>, thread: Option<ThreadInfo>,
                   hasError: bool, payload: string, now: nat)
    requires Alike(s, w, root, keys)
    ensures var r, q := HandleReply(s, id, thread, hasError, payload, now), HandleReply(w, id, thread, hasError, payload, now);
            Alike(r.s, q.s, root, keys) && Shown(keys, r.out) == Shown(keys, q.out)
  {
    ReplyOfKnownRoot(s, root, keys, id, thread, hasError, payload, now);
    ReplyOfKnownRoot(w, root, keys, id, thread, hasError, payload, now);
  }

  /** Once the root is known, a reply can at most make the session ready. */
  lemma ReplyOfKnownRoot(s: State, root: string, keys: set<string>, id: Option<int>, thread: Option<ThreadInfo>,
                         hasError: bool, payload: string, now: nat)
    requires Quarantined(s, root, keys)
    ensures var r := HandleReply(s, id, thread, hasError, payload, now);
            && Quarantined(r.s, root, keys)
            && r.s == s.(phase := r.s.phase, clientWaiters := r.s.clientWaiters, internalWaiters := r.s.internalWaiters)
            && r.s.phase == (if id == Some(2) && !hasError then Phase.Ready else s.phase)
            && Shown(keys, r.out) == NOTHING
  {
    hide IdsKept, OpenRoot;
    assert Opened(s, id, thread, hasError).None?;
    ReplyKeepsIds(s, id, thread, hasError, payload, now);
    SettlingFrame(s, id, thread, hasError, payload);
    SettlingPhase(s, id, thread, hasError, payload);
    SettlingShows(keys, s, id, thread, hasError, payload);
  }

  /** Replies to id 2 are nobody else's: ids in use start at 3. */
  lemma SettlingPhase(s: State, id: Option<int>, thread: Option<ThreadInfo>, hasError: bool, payload: string)
    requires IdsKept(s)
    ensures SettleReply(s, id, thread, hasError, payload).s.phase
         == if id == Some(2) && !hasError then Phase.Ready else s.phase
  {
  }

  lemma SettlingShows(keys: set<string>, s: State, id: Option<int>, thread: Option<ThreadInfo>, hasError: bool,
                      payload: string)
    ensures Shown(keys, SettleReply(s, id, thread, hasError, payload).out) == NOTHING
  {
    var out := SettleReply(s, id, thread, hasError, payload).out;
    assert forall e :: e in out.events ==> e.AgentInfo?;
    NoRootEvents(keys, out.events);
  }

  /** Why no spawn item may name the root: its own turns would stop being heard, and only then. */
  lemma RootIsHeardUnlessSpawned(s: State, root: string, size: nat, now: nat, order: seq<string>)
    requires s.root == Some(root)
    ensures Step(s, Hear(NoteLine(Note(Some(root), TurnCompleted, size)), now, order)).out.lifecycle == Some(Completed)
            <==> root !in s.parents
  {
    NotificationUnfold(s, Note(Some(root), TurnCompleted, size), now, order);
    assert SpawnTasks([], CardFor(ParentOf(s, Some(root)), TurnCompleted)) == [];
  }
}
