/** What every reachable session state keeps about its buffer and its ids. */
module SessionInvariant {
  import opened AppServerSpec
  import opened AppServerTypes
  import opened BufferPolicy
  import opened DeferredBuffer
  import opened Wrappers

  /** The buffer is ordered and within its caps, and holds no thread that has an owner. */
  ghost predicate BufferKept(s: State, clock: nat) {
    && Ordered(s.log, s.nextSequence, clock)
    && WithinCaps(s.log)
    && (forall x :: x in s.log ==> !Claimed(s, x.thread))
  }

  /** Ids in use are in [3, next), each waits for one kind of reply, and each identity was asked for once. */
  ghost predicate IdsKept(s: State) {
    && s.nextId >= FIRST_CLIENT_ID
    && (forall id :: id in s.clientWaiters ==> FIRST_CLIENT_ID <= id < s.nextId)
    && (forall id :: id in s.internalWaiters ==> FIRST_CLIENT_ID <= id < s.nextId)
    && (forall id :: id in s.clientWaiters ==> id !in s.internalWaiters)
    && (forall id :: id in s.internalWaiters ==> s.internalWaiters[id] in s.seen)
  }

  ghost predicate Invariant(s: State, clock: nat) {
    BufferKept(s, clock) && IdsKept(s)
  }

  // ---- Replay ----

  /** Only a thread about to be drained may be owned and still buffered. */
  ghost predicate Settling(s: State, tasks: seq<Task>) {
    && (forall x :: x in s.log && Claimed(s, x.thread) ==> tasks != [] && tasks[0] == Drain(x.thread))
    && (forall task :: task in tasks && task.Drain? ==> Claimed(s, task.thread))
  }

  lemma SpawnTasksKinds(threads: seq<string>, card: string)
    ensures forall task :: task in SpawnTasks(threads, card) ==>
              (task.Adopt? && task.card == card && card != "" && task.child in threads)
              || (task.Identify? && task.agent in threads)
  {
    if threads != [] {
      SpawnTasksKinds(threads[1..], card);
    }
  }

  /** What a task does to ownership and to the buffer. */
  ghost predicate TaskEffect(s: State, task: Task, m: Micro) {
    && m.s.root == s.root
    && m.s.parents == (if task.Adopt? then s.parents[task.child := task.card] else s.parents)
    && m.s.log == (if task.Drain? then Select(s.log, OffThread(task.thread)) else s.log)
    && (task.Adopt? ==> m.more == [Drain(task.child)])
    && (!task.Adopt? ==> forall next :: next in m.more ==> !next.Drain?)
  }

  lemma DeliverEffect(s: State, n: Note)
    ensures var m := DeliverNote(s, n);
            && m.s == s.(phase := m.s.phase, activeTurn := m.s.activeTurn)
            && forall next :: next in m.more ==> !next.Drain?
  {
    ObserveFrame(s, n.body, ParentOf(s, n.thread));
    SpawnTasksKinds(n.body.Spawns(), CardFor(ParentOf(s, n.thread), n.body));
  }

  lemma TaskHasEffect(s: State, task: Task, now: nat)
    ensures TaskEffect(s, task, StepTask(s, task, now))
  {
    hide DeliverNote, Select, Queue;
    if task.Deliver? {
      DeliverEffect(s, task.note);
    } else if task.Replay? && task.entry.message.Notification? {
      DeliverEffect(s, task.entry.message.note);
    }
  }

  lemma StepSettles(s: State, task: Task, rest: seq<Task>, m: Micro)
    requires Settling(s, [task] + rest) && TaskEffect(s, task, m)
    ensures Settling(m.s, m.more + rest)
    ensures forall x :: x in m.s.log <==> x in s.log && task != Drain(x.thread)
  {
    if task.Drain? {
      SelectMembers(s.log, OffThread(task.thread));
    }
    forall next | next in m.more + rest && next.Drain? ensures Claimed(m.s, next.thread) {
      if next !in m.more {
        assert next in [task] + rest;
      }
    }
  }

  /** Replay takes out of the buffer exactly the queues of the threads that came to be owned. */
  lemma {:induction false} WorkSettles(s: State, tasks: seq<Task>, now: nat)
    requires Settling(s, tasks)
    ensures var w := Work(s, tasks, now).s;
            forall x :: x in w.log <==> x in s.log && !Claimed(w, x.thread)
    decreases |s.log|, Weights(tasks)
  {
    if tasks != [] {
      StepTaskShrinks(s, tasks, now);
      var m := StepTask(s, tasks[0], now);
      TaskHasEffect(s, tasks[0], now);
      assert tasks == [tasks[0]] + tasks[1..];
      StepSettles(s, tasks[0], tasks[1..], m);
      WorkSettles(m.s, m.more + tasks[1..], now);
      WorkFrame(m.s, m.more + tasks[1..], now);
    }
  }

  lemma {:induction false} WorkKeepsCaps(s: State, tasks: seq<Task>, now: nat, next: nat, clock: nat)
    requires Ordered(s.log, next, clock) && WithinCaps(s.log)
    ensures WithinCaps(Work(s, tasks, now).s.log)
    decreases |s.log|, Weights(tasks)
  {
    if tasks != [] {
      StepTaskShrinks(s, tasks, now);
      var m := StepTask(s, tasks[0], now);
      TaskHasEffect(s, tasks[0], now);
      if tasks[0].Drain? {
        SelectKeepsOrder(s.log, OffThread(tasks[0].thread), next, clock);
        SelectKeepsCaps(s.log, OffThread(tasks[0].thread), next, clock);
      }
      WorkKeepsCaps(m.s, m.more + tasks[1..], now, next, clock);
    }
  }

  lemma WorkKeepsBuffer(s: State, tasks: seq<Task>, now: nat, clock: nat)
    requires Settling(s, tasks) && Ordered(s.log, s.nextSequence, clock) && WithinCaps(s.log)
    ensures BufferKept(Work(s, tasks, now).s, clock)
  {
    WorkSettles(s, tasks, now);
    WorkKeepsCaps(s, tasks, now, s.nextSequence, clock);
    WorkFrame(s, tasks, now);
  }

  // ---- Deferral ----

  lemma OrderedLater(log: seq<Slot>, next: nat, clock: nat, now: nat)
    requires Ordered(log, next, clock) && clock <= now
    ensures Ordered(log, next, now)
  {
  }

  lemma SweepKeepsBuffer(s: State, now: nat, order: seq<string>)
    requires BufferKept(s, now)
    ensures BufferKept(Expire(s, now, order).s, now)
  {
    SelectKeepsOrder(s.log, LiveAt(now), s.nextSequence, now);
    SelectKeepsCaps(s.log, LiveAt(now), s.nextSequence, now);
    SelectMembers(s.log, LiveAt(now));
  }

  /** What is left when room has been made, or could not be. */
  lemma AdmissionKeepsBuffer(s: State, t: string, m: ThreadMessage, now: nat)
    requires BufferKept(s, now)
    ensures var a := Admission(s, t, m, now);
            && BufferKept(s.(log := a.log), now)
            && (a.ok ==> WithinCaps(a.log + [Slot(t, Entry(m, now, s.nextSequence, m.Size()))]))
  {
    var log := Select(s.log, LiveAt(now));
    SweepKeepsBuffer(s, now, []);
    AdmissionPolicy(log, t, m.Size(), m.Interactive?, s.nextSequence, now);
    AdmissionKeepsCaps(log, t, Entry(m, now, s.nextSequence, m.Size()), m.Interactive?, s.nextSequence, now);
    SurvivorsMembers(log, Admission(s, t, m, now).victims);
  }

  /** One more entry, with room for it. */
  lemma HoldKeepsBuffer(s: State, t: string, e: Entry, now: nat)
    requires BufferKept(s, now) && !Claimed(s, t) && WithinCaps(s.log + [Slot(t, e)])
    requires e == Entry(e.message, now, s.nextSequence, e.message.Size()) && Holdable(t, e.message)
    ensures BufferKept(s.(log := s.log + [Slot(t, e)], nextSequence := WrappingSucc(s.nextSequence)), now)
            <==> !Wraps(s.nextSequence)
  {
    AppendKeepsOrder(s.log, Slot(t, e), s.nextSequence, now);
  }

  /**
   Deferral keeps the buffer within its caps, in order and free of owned threads, exactly when it does
   not use up the last sequence number: after that one the numbers no longer follow arrival.
   */
  lemma DeferKeepsBuffer(s: State, t: string, m: ThreadMessage, now: nat, order: seq<string>)
    requires BufferKept(s, now) && !Claimed(s, t) && Holdable(t, m)
    ensures BufferKept(Defer(s, t, m, now, order).s, now)
            <==> !(Admission(s, t, m, now).ok && Wraps(s.nextSequence))
  {
    var a := Admission(s, t, m, now);
    AdmissionKeepsBuffer(s, t, m, now);
    if a.ok {
      HoldKeepsBuffer(s.(log := a.log), t, Entry(m, now, s.nextSequence, m.Size()), now);
    }
  }

  lemma NotificationKeepsBuffer(s: State, n: Note, now: nat, order: seq<string>)
    requires BufferKept(s, now) && !Wraps(s.nextSequence)
    ensures BufferKept(HandleNotification(s, n, now, order).s, now)
  {
    if Foreign(s, n.thread) && !n.body.ThreadStarted? {
      DeferKeepsBuffer(s, n.thread.value, Notification(n), now, order);
    } else {
      WorkKeepsBuffer(s, [Deliver(n)], now, now);
    }
  }

  lemma RequestKeepsBuffer(s: State, r: Request, now: nat, order: seq<string>)
    requires BufferKept(s, now) && !Wraps(s.nextSequence)
    ensures BufferKept(HandleRequest(s, r, now, order).s, now)
  {
    if !LacksThread(r) && Foreign(s, r.thread) {
      DeferKeepsBuffer(s, r.thread.value, Interactive(r), now, order);
    }
  }

  lemma OpenRootKeepsBuffer(s: State, root: string, now: nat)
    requires BufferKept(s, now) && s.root.None?
    ensures BufferKept(OpenRoot(s, root, now).s, now)
  {
    WorkKeepsBuffer(s.(root := Some(root)), [Drain(root)], now, now);
  }

  lemma ReplyKeepsBuffer(s: State, id: Option<int>, thread: Option<ThreadInfo>, hasError: bool, payload: string, now: nat)
    requires BufferKept(s, now)
    ensures BufferKept(HandleReply(s, id, thread, hasError, payload, now).s, now)
  {
    var root := Opened(s, id, thread, hasError);
    if root.Some? {
      OpenRootKeepsBuffer(s, root.value, now);
    } else {
      SettlingFrame(s, id, thread, hasError, payload);
    }
  }

  lemma LineKeepsBuffer(s: State, line: Line, now: nat, order: seq<string>)
    requires BufferKept(s, now) && !Wraps(s.nextSequence)
    ensures BufferKept(ParseLine(s, line, now, order).s, now)
  {
    match line {
      case NoteLine(n) => NotificationKeepsBuffer(s, n, now, order);
      case RequestLine(r) => RequestKeepsBuffer(s, r, now, order);
      case Reply(id, thread, hasError, payload) => ReplyKeepsBuffer(s, id, thread, hasError, payload, now);
      case Unparsable =>
      case UnhandledRequest =>
    }
  }

  lemma StepKeepsBuffer(s: State, clock: nat, a: Action)
    requires BufferKept(s, clock) && Possible(s, clock, a)
    ensures BufferKept(Step(s, a).s, TimeOf(a, clock))
  {
    OrderedLater(s.log, s.nextSequence, clock, TimeOf(a, clock));
    if a.Hear? {
      LineKeepsBuffer(s, a.line, a.now, a.order);
    } else if a.Tick? {
      SweepKeepsBuffer(s, a.now, a.order);
    } else {
      FramingMoves(s, a);
    }
  }

  // ---- Ids ----

  /** What a task does to the ids in use. */
  ghost predicate IdEffect(s: State, task: Task, m: Micro) {
    && m.s.clientWaiters == s.clientWaiters
    && (if task.Identify? && task.agent !in s.seen then
          && m.s.nextId == s.nextId + 1
          && m.s.internalWaiters == s.internalWaiters[s.nextId := task.agent]
          && m.s.seen == s.seen + {task.agent}
        else
          && m.s.nextId == s.nextId && m.s.internalWaiters == s.internalWaiters && m.s.seen == s.seen)
  }

  lemma TaskHasIdEffect(s: State, task: Task, now: nat)
    ensures IdEffect(s, task, StepTask(s, task, now))
  {
    if task.Deliver? {
      DeliverEffect(s, task.note);
    } else if task.Replay? && task.entry.message.Notification? {
      DeliverEffect(s, task.entry.message.note);
    }
  }

  lemma {:induction false} WorkKeepsIds(s: State, tasks: seq<Task>, now: nat)
    requires IdsKept(s)
    ensures IdsKept(Work(s, tasks, now).s)
    decreases |s.log|, Weights(tasks)
  {
    if tasks != [] {
      StepTaskShrinks(s, tasks, now);
      TaskHasIdEffect(s, tasks[0], now);
      var m := StepTask(s, tasks[0], now);
      WorkKeepsIds(m.s, m.more + tasks[1..], now);
    }
  }

  lemma DeferKeepsIds(s: State, t: string, m: ThreadMessage, now: nat, order: seq<string>)
    requires IdsKept(s)
    ensures IdsKept(Defer(s, t, m, now, order).s)
  {
    DeferMoves(s, t, m, now, order);
  }

  lemma PresentKeepsIds(s: State, r: Request)
    requires IdsKept(s)
    ensures IdsKept(Present(s, r).s)
  {
  }

  lemma OpenRootKeepsIds(s: State, root: string, now: nat)
    requires IdsKept(s)
    ensures IdsKept(OpenRoot(s, root, now).s)
  {
    WorkKeepsIds(s.(root := Some(root)), [Drain(root)], now);
  }

  lemma SettlingKeepsIds(s: State, id: Option<int>, thread: Option<ThreadInfo>, hasError: bool, payload: string)
    requires IdsKept(s)
    ensures IdsKept(SettleReply(s, id, thread, hasError, payload).s)
  {
  }

  lemma ReplyKeepsIds(s: State, id: Option<int>, thread: Option<ThreadInfo>, hasError: bool, payload: string, now: nat)
    requires IdsKept(s)
    ensures IdsKept(HandleReply(s, id, thread, hasError, payload, now).s)
  {
    hide IdsKept, OpenRoot, SettleReply;
    var root := Opened(s, id, thread, hasError);
    if root.Some? {
      OpenRootKeepsIds(s, root.value, now);
    } else {
      SettlingKeepsIds(s, id, thread, hasError, payload);
    }
  }

  lemma NotificationKeepsIds(s: State, n: Note, now: nat, order: seq<string>)
    requires IdsKept(s)
    ensures IdsKept(HandleNotification(s, n, now, order).s)
  {
    if Foreign(s, n.thread) && !n.body.ThreadStarted? {
      DeferKeepsIds(s, n.thread.value, Notification(n), now, order);
    } else {
      WorkKeepsIds(s, [Deliver(n)], now);
    }
  }

  lemma RequestKeepsIds(s: State, r: Request, now: nat, order: seq<string>)
    requires IdsKept(s)
    ensures IdsKept(HandleRequest(s, r, now, order).s)
  {
    if !LacksThread(r) && Foreign(s, r.thread) {
      DeferKeepsIds(s, r.thread.value, Interactive(r), now, order);
    } else {
      PresentKeepsIds(s, r);
    }
  }

  lemma LineKeepsIds(s: State, line: Line, now: nat, order: seq<string>)
    requires IdsKept(s)
    ensures IdsKept(ParseLine(s, line, now, order).s)
  {
    match line {
      case NoteLine(n) => NotificationKeepsIds(s, n, now, order);
      case RequestLine(r) => RequestKeepsIds(s, r, now, order);
      case Reply(id, thread, hasError, payload) => ReplyKeepsIds(s, id, thread, hasError, payload, now);
      case Unparsable =>
      case UnhandledRequest =>
    }
  }

  /** The user's own requests take fresh ids. */
  lemma AskKeepsIds(s: State, requestId: string, command: string)
    requires IdsKept(s)
    ensures IdsKept(FrameTracked(s, requestId, command).s)
  {
  }

  lemma FramingKeepsIds(s: State, a: Action)
    requires IdsKept(s) && !a.Hear? && !a.Tick? && !a.Ask?
    ensures IdsKept(Step(s, a).s)
  {
    FramingMoves(s, a);
    FramingCounts(s, a);
  }

  lemma FramingCounts(s: State, a: Action)
    requires !a.Hear? && !a.Tick? && !a.Ask?
    ensures Step(s, a).s.nextId >= s.nextId && Step(s, a).s.clientWaiters == s.clientWaiters
  {
  }

  lemma StepKeepsIds(s: State, a: Action)
    requires IdsKept(s)
    ensures IdsKept(Step(s, a).s)
  {
    if a.Hear? {
      LineKeepsIds(s, a.line, a.now, a.order);
    } else if a.Ask? {
      AskKeepsIds(s, a.requestId, a.command);
    } else if !a.Tick? {
      FramingKeepsIds(s, a);
    }
  }

  // ---- Opening ----

  /**
   Startup sets the root without a replay. From a new session it leads to the initial state; in a
   later one it keeps the invariant exactly when nothing is held for the thread it resumes.
   */
  lemma StartupKeeps(s: State, ctx: StartupCtx, clock: nat)
    requires Invariant(s, clock)
    ensures Startup(Initial(NO_CTX), ctx).s == Initial(ctx)
    ensures Invariant(Startup(s, ctx).s, clock) <==> ctx.resume.None? || ctx.resume.value !in Threads(s.log)
  {
    var w := Startup(s, ctx).s;
    if ctx.resume.Some? && ctx.resume.value in Threads(s.log) {
      var x :| x in s.log && x.thread == ctx.resume.value;
      assert Claimed(w, x.thread);
    } else {
      forall x | x in s.log ensures !Claimed(w, x.thread) {
        assert x.thread in Threads(s.log);
      }
    }
  }

  // ---- Runs ----

  /** Every state the session can reach keeps its buffer and its ids in order. */
  lemma {:induction false} ReachableInvariant(ctx: StartupCtx, run: seq<Action>)
    requires Feasible(Initial(ctx), run)
    ensures Invariant(Run(Initial(ctx), run).s, Clock(run))
  {
    if run != [] {
      var before := run[..|run| - 1];
      ReachableInvariant(ctx, before);
      StepKeepsBuffer(Run(Initial(ctx), before).s, Clock(before), run[|run| - 1]);
      StepKeepsIds(Run(Initial(ctx), before).s, run[|run| - 1]);
    }
  }
}
