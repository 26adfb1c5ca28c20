/**
 Which thread is the session's root and when the session is ready, from the lines heard alone.
 */
module Readiness {
  import opened AppServerSpec
  import opened AppServerTypes
  import opened Deliveries
  import opened DeferredBuffer
  import opened Ownership
  import opened RootOpening
  import opened SessionInvariant
  import opened SessionReports
  import opened Wrappers

  /** An error-free reply to the opening request. */
  predicate Acknowledges(a: Action) {
    a.Hear? && a.line.Reply? && a.line.id == Some(2) && !a.line.hasError
  }

  /** The thread it names, if it names one. */
  function NamedBy(a: Action): Option<string> {
    if Acknowledges(a) && a.line.thread.Some? then a.line.thread.value.id else None
  }

  /** The root: the thread resumed, or else the one named by the first such reply that names one. */
  function RootNamed(ctx: StartupCtx, run: seq<Action>): Option<string> {
    if run == [] then ctx.resume
    else
      var before := RootNamed(ctx, run[..|run| - 1]);
      if before.Some? then before else NamedBy(run[|run| - 1])
  }

  /** A thread/started of this thread that arrives on no registered child. */
  predicate Announcement(s: State, a: Action, root: Option<string>) {
    && a.Hear? && a.line.NoteLine? && root.Some?
    && a.line.note.body == ThreadStarted(root)
    && (a.line.note.thread.None? || a.line.note.thread.value !in s.parents)
  }

  // ---- The root ----

  lemma OthersKeepRoot(s: State, a: Action)
    requires !a.Hear? || !a.line.Reply?
    ensures Step(s, a).s.root == s.root
  {
    if a.Hear? {
      hide Reflects;
      match a.line {
        case NoteLine(n) => NoteKeepsRoot(s, n, a.now, a.order);
        case RequestLine(r) => RequestKeepsRoot(s, r, a.now, a.order);
        case Unparsable =>
        case UnhandledRequest =>
      }
    } else if !a.Tick? {
      hide Step;
      FramingMoves(s, a);
    }
  }

  lemma NoteKeepsRoot(s: State, n: Note, now: nat, order: seq<string>)
    ensures HandleNotification(s, n, now, order).s.root == s.root
  {
    NoteReflects(s, n, now, order);
  }

  lemma RequestKeepsRoot(s: State, r: Request, now: nat, order: seq<string>)
    ensures HandleRequest(s, r, now, order).s.root == s.root
  {
    RequestReflects(s, r, now, order);
  }

  /** Ids in use start at 3, so a reply with id 2 answers the opening request. */
  lemma ReplyNamesRoot(s: State, a: Action)
    requires IdsKept(s) && a.Hear? && a.line.Reply?
    ensures Opened(s, a.line.id, a.line.thread, a.line.hasError) == if s.root.None? then NamedBy(a) else None
    ensures Step(s, a).s.root == if s.root.Some? then s.root else NamedBy(a)
  {
    hide OpenRoot;
    var root := Opened(s, a.line.id, a.line.thread, a.line.hasError);
    if root.Some? {
      OpeningReports(s, root.value, a.now);
    } else {
      SettlingFrame(s, a.line.id, a.line.thread, a.line.hasError, a.line.payload);
    }
  }

  lemma {:induction false} IdsStayKept(ctx: StartupCtx, run: seq<Action>)
    ensures IdsKept(Run(Initial(ctx), run).s)
  {
    if run != [] {
      hide IdsKept, Step;
      var n := |run| - 1;
      IdsStayKept(ctx, run[..n]);
      StepKeepsIds(Run(Initial(ctx), run[..n]).s, run[n]);
    } else {
      assert IdsKept(Initial(ctx));
    }
  }

  /** The root is the thread resumed, or else the one named by the first error-free reply to the opening request. */
  lemma {:induction false} RootIsNamed(ctx: StartupCtx, run: seq<Action>)
    ensures Run(Initial(ctx), run).s.root == RootNamed(ctx, run)
  {
    if run != [] {
      hide Step, IdsKept;
      var n := |run| - 1;
      var s := Run(Initial(ctx), run[..n]).s;
      RootIsNamed(ctx, run[..n]);
      if run[n].Hear? && run[n].line.Reply? {
        IdsStayKept(ctx, run[..n]);
        ReplyNamesRoot(s, run[n]);
      } else {
        OthersKeepRoot(s, run[n]);
      }
    }
  }

  // ---- Announcements are never held back ----

  lemma TaskAnnouncesNone(s: State, task: Task, now: nat, root: Option<string>)
    requires NoStarts(s.log, [task])
    ensures !Announced(TaskDelivers(s, task, now), root)
  {
    assert task in [task];
  }

  lemma {:induction false} WorkAnnouncesNone(s: State, tasks: seq<Task>, now: nat, root: Option<string>)
    requires NoStarts(s.log, tasks)
    ensures !Announced(WorkDelivers(s, tasks, now), root)
    decreases |s.log|, Weights(tasks)
  {
    if tasks != [] {
      hide Announced, StepTask, TaskDelivers;
      StepTaskShrinks(s, tasks, now);
      var m := StepTask(s, tasks[0], now);
      FirstAndRest(s.log, tasks);
      TaskAnnouncesNone(s, tasks[0], now, root);
      TaskPhase(s, s.phase, tasks[0], now);
      WorkAnnouncesNone(m.s, m.more + tasks[1..], now, root);
      AnnouncedConcat(TaskDelivers(s, tasks[0], now), WorkDelivers(m.s, m.more + tasks[1..], now), root);
    } else {
      assert !Announced([], root);
    }
  }

  lemma FirstAndRest(log: seq<Slot>, tasks: seq<Task>)
    requires tasks != [] && NoStarts(log, tasks)
    ensures NoStarts(log, [tasks[0]]) && NoStarts([], tasks[1..])
  {
  }

  lemma StartDelivers(s: State, n: Note, now: nat, root: Option<string>)
    requires n.body.ThreadStarted?
    ensures LineDelivers(s, NoteLine(n), now) == [Told(n, ParentOf(s, n.thread))]
  {
    var m := StepTask(s, Deliver(n), now);
    assert n.body.Spawns() == [] && m.more == [];
    assert m.more + [Deliver(n)][1..] == [] && WorkDelivers(m.s, [], now) == [];
    assert [Told(n, ParentOf(s, n.thread))] + [] == [Told(n, ParentOf(s, n.thread))];
  }

  lemma HeldLogStarts(s: State)
    requires forall x :: x in s.log ==> Holdable(x.thread, x.entry.message)
    ensures NoStarts(s.log, [])
  {
  }

  lemma LineAnnounces(s: State, a: Action, root: Option<string>)
    requires a.Hear? && forall x :: x in s.log ==> Holdable(x.thread, x.entry.message)
    ensures Announced(StepDelivers(s, a), root) <==> Announcement(s, a, root)
  {
    hide Holdable, WorkDelivers;
    HeldLogStarts(s);
    match a.line {
      case NoteLine(n) =>
        if n.body.ThreadStarted? {
          StartDelivers(s, n, a.now, root);
          OneAnnounced(Told(n, ParentOf(s, n.thread)), root);
        } else if !Foreign(s, n.thread) {
          WorkAnnouncesNone(s, [Deliver(n)], a.now, root);
        }
      case RequestLine(r) =>
      case Reply(id, thread, hasError, _) =>
        var newRoot := Opened(s, id, thread, hasError);
        if newRoot.Some? {
          WorkAnnouncesNone(s.(root := newRoot), [Drain(newRoot.value)], a.now, root);
        }
      case Unparsable =>
      case UnhandledRequest =>
    }
  }

  lemma OneAnnounced(d: Delivery, root: Option<string>)
    ensures Announced([d], root) <==> Announces(d, root)
  {
    assert d in [d];
  }

  // ---- Readiness ----

  /** The session is ready once the opening is acknowledged or the root announced. */
  predicate MakesReady(s: State, a: Action, root: Option<string>) {
    Acknowledges(a) || Announcement(s, a, root)
  }

  lemma ReplyMakesReady(s: State, a: Action)
    requires IdsKept(s) && a.Hear? && a.line.Reply?
    ensures Step(s, a).s.phase == if Acknowledges(a) then Ready else s.phase
  {
    hide OpenRoot;
    var root := Opened(s, a.line.id, a.line.thread, a.line.hasError);
    if root.Some? {
      OpeningReports(s, root.value, a.now);
    }
  }

  lemma StepMakesReady(s: State, a: Action)
    requires IdsKept(s) && forall x :: x in s.log ==> Holdable(x.thread, x.entry.message)
    ensures Step(s, a).s.phase == if MakesReady(s, a, s.root) then Ready else s.phase
  {
    if a.Hear? {
      hide IdsKept, Holdable, Announced, Reports;
      LineAnnounces(s, a, s.root);
      match a.line {
        case NoteLine(n) => NoteReflects(s, n, a.now, a.order);
        case RequestLine(r) => RequestReflects(s, r, a.now, a.order);
        case Reply(_, _, _, _) => ReplyMakesReady(s, a);
        case Unparsable =>
        case UnhandledRequest =>
      }
    } else if !a.Tick? {
      hide Step;
      FramingMoves(s, a);
    }
  }

  /** Some action of the run made the session ready. */
  predicate MadeReady(ctx: StartupCtx, run: seq<Action>) {
    exists k :: 0 <= k < |run| && MakesReady(Run(Initial(ctx), run[..k]).s, run[k], RootNamed(ctx, run[..k]))
  }

  lemma MadeReadyMore(ctx: StartupCtx, run: seq<Action>)
    requires run != []
    ensures var n := |run| - 1;
            MadeReady(ctx, run) <==>
            MadeReady(ctx, run[..n]) || MakesReady(Run(Initial(ctx), run[..n]).s, run[n], RootNamed(ctx, run[..n]))
  {
    hide MakesReady, Run, RootNamed;
    var n := |run| - 1;
    var before := run[..n];
    assert forall k :: 0 <= k < n ==> before[..k] == run[..k] && before[k] == run[k];
    if MadeReady(ctx, before) {
      var k :| 0 <= k < |before| && MakesReady(Run(Initial(ctx), before[..k]).s, before[k], RootNamed(ctx, before[..k]));
      assert MakesReady(Run(Initial(ctx), run[..k]).s, run[k], RootNamed(ctx, run[..k]));
    }
  }

  /**
   The session is ready exactly when an error-free reply to the opening request was heard, or the
   thread that was the root at that moment announced itself.
   */
  lemma {:induction false} ReadyWhenOpened(ctx: StartupCtx, run: seq<Action>)
    ensures Run(Initial(ctx), run).s.phase == Ready <==> MadeReady(ctx, run)
  {
    if run != [] {
      hide Step, IdsKept, MadeReady, MakesReady, Holdable;
      var n := |run| - 1;
      var s := Run(Initial(ctx), run[..n]).s;
      ReadyWhenOpened(ctx, run[..n]);
      IdsStayKept(ctx, run[..n]);
      CardsAreTopLevel(ctx, run[..n]);
      RootIsNamed(ctx, run[..n]);
      StepMakesReady(s, run[n]);
      MadeReadyMore(ctx, run);
    }
  }

  /**
   The thread reported to the client is the root: when the opening reply names it, and whenever it
   announces itself.
   */
  lemma RootIsReported(ctx: StartupCtx, run: seq<Action>, a: Action)
    ensures var root := RootNamed(ctx, run);
            Step(Run(Initial(ctx), run).s, a).out.thread
            == if root.None? then NamedBy(a) else if Announcement(Run(Initial(ctx), run).s, a, root) then root else None
  {
    hide Run, RootNamed, IdsKept;
    var s := Run(Initial(ctx), run).s;
    RootIsNamed(ctx, run);
    IdsStayKept(ctx, run);
    CardsAreTopLevel(ctx, run);
    StepReportsThread(s, a);
  }

  lemma StepReportsThread(s: State, a: Action)
    requires IdsKept(s) && forall x :: x in s.log ==> Holdable(x.thread, x.entry.message)
    ensures Step(s, a).out.thread
         == if s.root.None? then NamedBy(a) else if Announcement(s, a, s.root) then s.root else None
  {
    if a.Hear? {
      hide IdsKept, Holdable, Announced, Reports;
      LineAnnounces(s, a, s.root);
      match a.line {
        case NoteLine(n) => NoteReflects(s, n, a.now, a.order);
        case RequestLine(r) => RequestReflects(s, r, a.now, a.order);
        case Reply(_, _, _, _) => ReplyReportsThread(s, a);
        case Unparsable =>
        case UnhandledRequest =>
      }
    } else if !a.Tick? {
      hide Step;
      FramingMoves(s, a);
    }
  }

  lemma ReplyReportsThread(s: State, a: Action)
    requires IdsKept(s) && a.Hear? && a.line.Reply?
    requires forall x :: x in s.log ==> Holdable(x.thread, x.entry.message)
    ensures Step(s, a).out.thread == if s.root.None? then NamedBy(a) else None
  {
    hide OpenRoot, Announced, Reports, WorkDelivers;
    ReplyNamesRoot(s, a);
    var root := Opened(s, a.line.id, a.line.thread, a.line.hasError);
    if root.Some? {
      HeldLogStarts(s);
      WorkAnnouncesNone(s.(root := root), [Drain(root.value)], a.now, root);
      OpeningReports(s, root.value, a.now);
    }
  }
}
