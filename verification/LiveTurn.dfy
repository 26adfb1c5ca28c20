/**
 The live turn and the run's signals, from what was delivered on no card: which turn can be steered or
 interrupted, and which starts, completions and failures are signalled.
 */
module LiveTurn {
  import opened AppServerSpec
  import opened AppServerTypes
  import opened Deliveries
  import opened DeferredBuffer
  import opened DirectReplay
  import opened Ownership
  import opened QueueRefinement
  import opened Readiness
  import opened RoomyBuffer
  import opened SessionInvariant
  import opened SessionReports
  import opened Wrappers

  // ---- The live turn ----

  predicate StartsTurn(d: Delivery, turn: string) {
    OfRun(d) && d.note.body == TurnStarted(Some(turn))
  }

  /** A delivery after which another turn, or none, is live. */
  predicate MovesTurn(d: Delivery) {
    OfRun(d) && (EndsTurn(d.note.body) || (d.note.body.TurnStarted? && d.note.body.turn.Some?))
  }

  /** This turn was started, and nothing since has ended it or started another. */
  predicate Live(ds: seq<Delivery>, turn: string) {
    exists k :: 0 <= k < |ds| && StartsTurn(ds[k], turn) && forall j :: k < j < |ds| ==> !MovesTurn(ds[j])
  }

  lemma LiveMore(ds: seq<Delivery>, d: Delivery, turn: string)
    ensures Live(ds + [d], turn) <==> StartsTurn(d, turn) || (Live(ds, turn) && !MovesTurn(d))
  {
    hide StartsTurn, MovesTurn;
    var all := ds + [d];
    if StartsTurn(d, turn) {
      assert all[|ds|] == d;
    }
    if Live(ds, turn) && !MovesTurn(d) {
      var k :| 0 <= k < |ds| && StartsTurn(ds[k], turn) && forall j :: k < j < |ds| ==> !MovesTurn(ds[j]);
      assert StartsTurn(all[k], turn);
      assert forall j :: k < j < |all| ==> !MovesTurn(all[j]);
    }
    if Live(all, turn) {
      var k :| 0 <= k < |all| && StartsTurn(all[k], turn) && forall j :: k < j < |all| ==> !MovesTurn(all[j]);
      if k < |ds| {
        assert StartsTurn(ds[k], turn) && !MovesTurn(all[|ds|]);
        forall j | k < j < |ds| ensures !MovesTurn(ds[j]) {
          assert all[j] == ds[j];
        }
      }
    }
  }

  lemma {:induction false} FoldIsLive(ds: seq<Delivery>, turn: string)
    ensures TurnAfterAll(None, ds) == Some(turn) <==> Live(ds, turn)
  {
    if ds != [] {
      hide Live;
      var n := |ds| - 1;
      FoldIsLive(ds[..n], turn);
      LiveMore(ds[..n], ds[n], turn);
      assert ds[..n] + [ds[n]] == ds;
    }
  }

  lemma {:induction false} TurnIsFolded(ctx: StartupCtx, run: seq<Action>)
    ensures Run(Initial(ctx), run).s.activeTurn == TurnAfterAll(None, Delivered(ctx, run))
  {
    if run != [] {
      hide Step, StepDelivers, TurnAfterAll, Reports;
      var n := |run| - 1;
      var s := Run(Initial(ctx), run[..n]).s;
      TurnIsFolded(ctx, run[..n]);
      EveryStepReports(s, run[n]);
      TurnConcat(None, Delivered(ctx, run[..n]), StepDelivers(s, run[n]));
    }
  }

  /**
   The active turn is the one the last turn/started with an id named, as long as no completion, failure
   or terminal error has followed; otherwise there is none.
   */
  lemma TurnIsLive(ctx: StartupCtx, run: seq<Action>, turn: string)
    ensures Run(Initial(ctx), run).s.activeTurn == Some(turn) <==> Live(Delivered(ctx, run), turn)
  {
    hide Live, TurnAfterAll, Run, Delivered;
    TurnIsFolded(ctx, run);
    FoldIsLive(Delivered(ctx, run), turn);
  }

  // ---- What is delivered on no card ----

  /** Work that can only deliver on cards. */
  ghost predicate OnCards(s: State, tasks: seq<Task>) {
    && (forall x :: x in s.log ==> Holdable(x.thread, x.entry.message))
    && (forall task :: task in tasks ==> OnCard(s, task))
  }

  predicate OnCard(s: State, task: Task) {
    match task
    case Deliver(_) => false
    case Replay(e) =>
      (match e.message
       case Notification(n) => n.thread.Some? && n.thread.value in s.parents
       case Interactive(_) => true)
    case Drain(t) => t in s.parents
    case Adopt(_, _) => true
    case Identify(_) => true
  }

  lemma TaskOnCard(s: State, task: Task, now: nat)
    requires OnCards(s, [task])
    ensures forall d :: d in TaskDelivers(s, task, now) ==> !OfRun(d)
    ensures var m := StepTask(s, task, now); OnCards(m.s, m.more)
  {
    assert task in [task];
    match task {
      case Replay(e) =>
        if e.message.Notification? {
          NoteOnCard(s, e.message.note);
        }
      case Drain(t) => DrainOnCard(s, t);
      case Adopt(t, card) => assert OnCard(s.(parents := s.parents[t := card]), Drain(t));
      case Identify(_) =>
    }
  }

  lemma NoteOnCard(s: State, n: Note)
    requires forall x :: x in s.log ==> Holdable(x.thread, x.entry.message)
    ensures var m := DeliverNote(s, n); OnCards(m.s, m.more)
  {
    DeliverEffect(s, n);
    SpawnTasksKinds(n.body.Spawns(), CardFor(ParentOf(s, n.thread), n.body));
  }

  lemma DrainOnCard(s: State, t: string)
    requires t in s.parents && forall x :: x in s.log ==> Holdable(x.thread, x.entry.message)
    ensures OnCards(s.(log := Select(s.log, OffThread(t))), Replays(Queue(s.log, t)))
  {
    var q := Queue(s.log, t);
    SelectMembers(s.log, OffThread(t));
    QueueMembers(s.log, t);
    forall task | task in Replays(q) ensures OnCard(s, task) {
      var k :| 0 <= k < |q| && task == Replays(q)[k];
      assert Slot(t, q[k]) in s.log;
    }
  }

  lemma StillOnCards(s: State, w: State, tasks: seq<Task>)
    requires OnCards(s, tasks) && s.parents.Keys <= w.parents.Keys
    ensures forall task :: task in tasks ==> OnCard(w, task)
  {
    forall task | task in tasks ensures OnCard(w, task) {
      assert OnCard(s, task);
    }
  }

  /** Work of other threads delivers nothing about the run. */
  lemma {:induction false} WorkOnCards(s: State, tasks: seq<Task>, now: nat)
    requires OnCards(s, tasks)
    ensures forall d :: d in WorkDelivers(s, tasks, now) ==> !OfRun(d)
    decreases |s.log|, Weights(tasks)
  {
    if tasks != [] {
      hide OnCard, StepTask, TaskDelivers;
      StepTaskShrinks(s, tasks, now);
      var m := StepTask(s, tasks[0], now);
      assert OnCards(s, [tasks[0]]);
      TaskOnCard(s, tasks[0], now);
      StepTaskMoves(s, tasks[0], now);
      StillOnCards(s, m.s, tasks[1..]);
      WorkOnCards(m.s, m.more + tasks[1..], now);
    }
  }

  /** A notification of an owned thread delivers itself first, and nothing more about the run. */
  lemma NoteDelivers(s: State, n: Note, now: nat)
    requires !Foreign(s, n.thread) || n.body.ThreadStarted?
    requires forall x :: x in s.log ==> Holdable(x.thread, x.entry.message)
    ensures var ds := LineDelivers(s, NoteLine(n), now);
            && ds != [] && ds[0] == Told(n, ParentOf(s, n.thread)) && forall d :: d in ds[1..] ==> !OfRun(d)
  {
    hide Holdable;
    var m := StepTask(s, Deliver(n), now);
    NoteOnCard(s, n);
    WorkOnCards(m.s, m.more, now);
    assert m.more + [Deliver(n)][1..] == m.more;
    assert ([Told(n, ParentOf(s, n.thread))] + WorkDelivers(m.s, m.more, now))[1..] == WorkDelivers(m.s, m.more, now);
  }

  // ---- Signals ----

  /** Everything signalled about the run, in order. */
  function Signalled(outs: seq<ParsedLine>): seq<Lifecycle> {
    if outs == [] then []
    else
      var last := outs[|outs| - 1].lifecycle;
      Signalled(outs[..|outs| - 1]) + (if last.Some? then [last.value] else [])
  }

  /** Every start, completion and failure delivered, in order. */
  function Signals(ds: seq<Delivery>): seq<Lifecycle> {
    if ds == [] then [] else (if Signal(ds[0]).Some? then [Signal(ds[0]).value] else []) + Signals(ds[1..])
  }

  lemma SignalsUnfold(ds: seq<Delivery>)
    ensures Signals(ds)
         == if ds == [] then [] else (if Signal(ds[0]).Some? then [Signal(ds[0]).value] else []) + Signals(ds[1..])
  {
  }

  lemma {:induction false} SignalsConcat(x: seq<Delivery>, y: seq<Delivery>)
    ensures Signals(x + y) == Signals(x) + Signals(y)
  {
    hide Signals, Signal;
    SignalsUnfold(x);
    if x == [] {
      assert x + y == y;
    } else {
      SignalsUnfold(x + y);
      assert (x + y)[0] == x[0] && (x + y)[1..] == x[1..] + y;
      SignalsConcat(x[1..], y);
      Associate(if Signal(x[0]).Some? then [Signal(x[0]).value] else [], Signals(x[1..]), Signals(y));
    }
  }

  /** The signal of a step is the last of those it delivers. */
  lemma {:induction false} LastOfSignals(ds: seq<Delivery>)
    ensures LastSignal(ds) == if Signals(ds) == [] then None else Some(Signals(ds)[|Signals(ds)| - 1])
  {
    if ds != [] {
      LastOfSignals(ds[1..]);
    }
  }

  lemma {:induction false} NoSignals(ds: seq<Delivery>)
    requires forall d :: d in ds ==> !OfRun(d)
    ensures Signals(ds) == []
  {
    if ds != [] {
      assert ds[0] in ds;
      NoSignals(ds[1..]);
    }
  }

  /** A line that is no reply delivers at most one signal: that of its own notification. */
  lemma LineSignals(s: State, a: Action)
    requires forall x :: x in s.log ==> Holdable(x.thread, x.entry.message)
    requires !(a.Hear? && a.line.Reply?)
    ensures |Signals(StepDelivers(s, a))| <= 1
    ensures a.Hear? && a.line.NoteLine? && (!Foreign(s, a.line.note.thread) || a.line.note.body.ThreadStarted?) ==>
              LastSignal(StepDelivers(s, a)) == Signal(Told(a.line.note, ParentOf(s, a.line.note.thread)))
  {
    if a.Hear? {
      match a.line {
        case NoteLine(n) =>
          if !Foreign(s, n.thread) || n.body.ThreadStarted? {
            hide Holdable, OfRun;
            NoteDelivers(s, n, a.now);
            var ds := StepDelivers(s, a);
            NoSignals(ds[1..]);
            LastOfSignals(ds);
          }
        case RequestLine(r) => OfferSignals(s, r);
        case Unparsable =>
        case UnhandledRequest =>
      }
    }
  }

  lemma OfferSignals(s: State, r: Request)
    ensures Signals(Offer(s, r)) == []
  {
    NoSignals(Offer(s, r));
  }

  /** No step of the run delivers two signals. */
  predicate NoneOverwritten(ctx: StartupCtx, run: seq<Action>) {
    run == [] || (
      var before := run[..|run| - 1];
      NoneOverwritten(ctx, before) && |Signals(StepDelivers(Run(Initial(ctx), before).s, run[|run| - 1]))| <= 1)
  }

  /** Signalling the last of some more signals keeps up with all of them exactly when there is at most one. */
  lemma KeepsUp<T>(signalled: seq<T>, all: seq<T>, more: seq<T>)
    requires |signalled| <= |all|
    ensures var next := signalled + (if more == [] then [] else [more[|more| - 1]]);
            |next| <= |all + more| && (next == all + more <==> signalled == all && |more| <= 1)
  {
    var next := signalled + (if more == [] then [] else [more[|more| - 1]]);
    if |more| <= 1 {
      assert more == [] || more == [more[0]];
      if next == all + more {
        assert next[..|signalled|] == signalled && (all + more)[..|all|] == all;
      }
    }
  }

  /**
   The starts, completions and failures delivered are signalled in order; all of them exactly when no
   single step delivers two, which only the reply that opens the root with a backlog can do.
   */
  lemma {:induction false} SignalsAreDelivered(ctx: StartupCtx, run: seq<Action>)
    ensures var signalled, all := Signalled(Run(Initial(ctx), run).outs), Signals(Delivered(ctx, run));
            |signalled| <= |all| && (signalled == all <==> NoneOverwritten(ctx, run))
  {
    if run != [] {
      hide Step, StepDelivers, Reports, Signals, LastSignal, TurnAfterAll, Prompted;
      var n := |run| - 1;
      var b := Run(Initial(ctx), run[..n]);
      var ds := StepDelivers(b.s, run[n]);
      SignalsAreDelivered(ctx, run[..n]);
      EveryStepReports(b.s, run[n]);
      LastOfSignals(ds);
      SignalsConcat(Delivered(ctx, run[..n]), ds);
      SignalledMore(b.outs, Step(b.s, run[n]).out);
      KeepsUp(Signalled(b.outs), Signals(Delivered(ctx, run[..n])), Signals(ds));
    } else {
      assert Signals([]) == [];
    }
  }

  lemma SignalledMore(outs: seq<ParsedLine>, out: ParsedLine)
    ensures Signalled(outs + [out]) == Signalled(outs) + (if out.lifecycle.Some? then [out.lifecycle.value] else [])
  {
    assert (outs + [out])[..|outs|] == outs;
  }

  // ---- The signals of a backlog ----

  /** A message that does not make this thread a sub-agent. */
  predicate Spares(root: string, m: ThreadMessage) {
    m.Notification? ==> root !in m.note.body.Spawns()
  }

  predicate SparesTask(root: string, task: Task) {
    match task
    case Deliver(n) => root !in n.body.Spawns()
    case Replay(e) => Spares(root, e.message)
    case Adopt(t, _) => t != root
    case Drain(_) => true
    case Identify(_) => true
  }

  ghost predicate Spared(s: State, root: string) {
    && root !in s.parents
    && forall x :: x in s.log ==> Spares(root, x.entry.message) && Holdable(x.thread, x.entry.message)
  }

  ghost predicate SparesAll(root: string, tasks: seq<Task>) {
    forall task :: task in tasks ==> SparesTask(root, task)
  }

  lemma TaskSpares(s: State, root: string, task: Task, now: nat)
    requires Spared(s, root) && SparesTask(root, task)
    ensures var m := StepTask(s, task, now); Spared(m.s, root) && SparesAll(root, m.more)
  {
    match task {
      case Deliver(n) => NoteSpares(s, root, n);
      case Replay(e) =>
        if e.message.Notification? {
          NoteSpares(s, root, e.message.note);
        }
      case Drain(t) => DrainSpares(s, root, t);
      case Adopt(_, _) =>
      case Identify(_) =>
    }
  }

  lemma NoteSpares(s: State, root: string, n: Note)
    requires Spared(s, root) && root !in n.body.Spawns()
    ensures var m := DeliverNote(s, n); Spared(m.s, root) && SparesAll(root, m.more)
  {
    DeliverEffect(s, n);
    SpawnTasksKinds(n.body.Spawns(), CardFor(ParentOf(s, n.thread), n.body));
  }

  lemma DrainSpares(s: State, root: string, t: string)
    requires Spared(s, root)
    ensures Spared(s.(log := Select(s.log, OffThread(t))), root) && SparesAll(root, Replays(Queue(s.log, t)))
    ensures forall e :: e in Queue(s.log, t) ==> Spares(root, e.message) && Holdable(t, e.message)
  {
    var q := Queue(s.log, t);
    SelectMembers(s.log, OffThread(t));
    QueueMembers(s.log, t);
    forall e | e in q ensures Slot(t, e) in s.log {
      var k :| 0 <= k < |q| && q[k] == e;
    }
    forall task | task in Replays(q) ensures SparesTask(root, task) {
      var k :| 0 <= k < |q| && task == Replays(q)[k];
      assert q[k] in q;
    }
  }

  lemma {:induction false} WorkSpares(s: State, root: string, tasks: seq<Task>, now: nat)
    requires Spared(s, root) && SparesAll(root, tasks)
    ensures Spared(Work(s, tasks, now).s, root)
    decreases |s.log|, Weights(tasks)
  {
    if tasks != [] {
      hide Spared, SparesTask, StepTask;
      StepTaskShrinks(s, tasks, now);
      TaskSpares(s, root, tasks[0], now);
      var m := StepTask(s, tasks[0], now);
      WorkSpares(m.s, root, m.more + tasks[1..], now);
    }
  }

  lemma {:induction false} DeliversConcat(s: State, a: seq<Task>, b: seq<Task>, now: nat)
    ensures WorkDelivers(s, a + b, now) == WorkDelivers(s, a, now) + WorkDelivers(Work(s, a, now).s, b, now)
    decreases |s.log|, Weights(a)
  {
    if a == [] {
      assert a + b == b;
    } else {
      hide StepTask, TaskDelivers;
      StepTaskShrinks(s, a, now);
      var m := StepTask(s, a[0], now);
      assert (a + b)[0] == a[0] && m.more + (a + b)[1..] == (m.more + a[1..]) + b;
      DeliversConcat(m.s, m.more + a[1..], b, now);
    }
  }

  /** The signal that a held message of the root gives if it is replayed now. */
  function HeldSignal(e: Entry, now: nat): seq<Lifecycle> {
    if Stale(e, now) || !e.message.Notification? then []
    else
      match e.message.note.body
      case TurnStarted(_) => [Started]
      case TurnCompleted => [Completed]
      case TurnFailed(error) => [Failed(error)]
      case _ => []
  }

  function HeldSignals(q: seq<Entry>, now: nat): seq<Lifecycle> {
    if q == [] then [] else HeldSignal(q[0], now) + HeldSignals(q[1..], now)
  }

  lemma ReplaySignals(s: State, root: string, e: Entry, now: nat)
    requires Spared(s, root) && Holdable(root, e.message)
    ensures Signals(WorkDelivers(s, [Replay(e)], now)) == HeldSignal(e, now)
  {
    var m, ds := StepTask(s, Replay(e), now), TaskDelivers(s, Replay(e), now);
    assert [Replay(e)][1..] == [] && m.more + [] == m.more;
    if !Stale(e, now) && e.message.Notification? {
      NoteOnCard(s, e.message.note);
    }
    assert Signals(ds) == HeldSignal(e, now) by {
      if ds != [] {
        SignalsUnfold(ds);
        SignalsUnfold([]);
        assert ds[1..] == [] && HeldSignal(e, now) + [] == HeldSignal(e, now);
      }
    }
    hide Signals;
    WorkOnCards(m.s, m.more, now);
    NoSignals(WorkDelivers(m.s, m.more, now));
    SignalsConcat(ds, WorkDelivers(m.s, m.more, now));
    assert Signals(ds) + [] == Signals(ds);
  }

  lemma {:induction false} ReplaysSignal(s: State, root: string, q: seq<Entry>, now: nat)
    requires Spared(s, root) && forall e :: e in q ==> Spares(root, e.message) && Holdable(root, e.message)
    ensures Signals(WorkDelivers(s, Replays(q), now)) == HeldSignals(q, now)
    decreases |q|
  {
    if q != [] {
      hide Spared, Spares, Holdable, Signals, HeldSignal, StepTask;
      var e, w := q[0], Work(s, [Replay(q[0])], now).s;
      assert Replays(q) == [Replay(e)] + Replays(q[1..]);
      DeliversConcat(s, [Replay(e)], Replays(q[1..]), now);
      SignalsConcat(WorkDelivers(s, [Replay(e)], now), WorkDelivers(w, Replays(q[1..]), now));
      ReplaySignals(s, root, e, now);
      assert SparesAll(root, [Replay(e)]);
      WorkSpares(s, root, [Replay(e)], now);
      ReplaysSignal(w, root, q[1..], now);
    } else {
      assert WorkDelivers(s, Replays(q), now) == [];
      SignalsUnfold([]);
    }
  }

  /** Opening the root delivers exactly the signals of what is held for it and still young. */
  lemma OpeningSignals(s: State, root: string, now: nat)
    requires Spared(s, root)
    ensures Signals(WorkDelivers(s, [Drain(root)], now)) == HeldSignals(Queue(s.log, root), now)
  {
    var w := s.(log := Select(s.log, OffThread(root)));
    DrainSpares(s, root, root);
    hide Signals, HeldSignals, Spares, Holdable, Queue, Select;
    ReplaysSignal(w, root, Queue(s.log, root), now);
    assert [Drain(root)][1..] == [] && Replays(Queue(s.log, root)) + [] == Replays(Queue(s.log, root));
    var ds := WorkDelivers(w, Replays(Queue(s.log, root)), now);
    assert WorkDelivers(s, [Drain(root)], now) == [] + ds == ds;
  }

  /** An action that does not open a root for which two signals are held. */
  predicate Fits(s: State, a: Action) {
    a.Hear? && a.line.Reply? ==>
      var root := Opened(s, a.line.id, a.line.thread, a.line.hasError);
      root.Some? ==> |HeldSignals(Queue(s.log, root.value), a.now)| <= 1
  }

  lemma StepFits(s: State, a: Action)
    requires forall x :: x in s.log ==> Holdable(x.thread, x.entry.message)
    requires a.Hear? && a.line.Reply? ==>
               var root := Opened(s, a.line.id, a.line.thread, a.line.hasError); root.Some? ==> Spared(s, root.value)
    ensures |Signals(StepDelivers(s, a))| <= 1 <==> Fits(s, a)
  {
    if a.Hear? && a.line.Reply? {
      var root := Opened(s, a.line.id, a.line.thread, a.line.hasError);
      hide Signals, HeldSignals, WorkDelivers, Spares, Holdable, Queue;
      if root.Some? {
        OpeningSignals(s.(root := root), root.value, a.now);
      } else {
        SignalsUnfold([]);
      }
    } else {
      LineSignals(s, a);
    }
  }

  // ---- Over a run ----

  lemma {:induction false} RootStays(ctx: StartupCtx, run: seq<Action>, k: nat)
    requires k <= |run| && RootNamed(ctx, run[..k]).Some?
    ensures RootNamed(ctx, run) == RootNamed(ctx, run[..k])
  {
    if k < |run| {
      var n := |run| - 1;
      assert run[..n][..k] == run[..k];
      RootStays(ctx, run[..n], k);
    } else {
      assert run[..k] == run;
    }
  }

  /** No message heard makes the root a sub-agent. */
  ghost predicate RootSpared(ctx: StartupCtx, run: seq<Action>) {
    forall m :: m in Heard(run) && RootNamed(ctx, run).Some? ==> Spares(RootNamed(ctx, run).value, m)
  }

  lemma {:induction false} HeardBefore(run: seq<Action>, k: nat)
    requires k <= |run|
    ensures Heard(run[..k]) <= Heard(run)
  {
    if k < |run| {
      var n := |run| - 1;
      assert run[..n][..k] == run[..k];
      HeardBefore(run[..n], k);
    } else {
      assert run[..k] == run;
    }
  }

  lemma OpenedIsSpared(ctx: StartupCtx, run: seq<Action>, k: nat)
    requires k < |run| && run[k].Hear? && run[k].line.Reply? && RootSpared(ctx, run)
    ensures var s := Run(Initial(ctx), run[..k]).s;
            var root := Opened(s, run[k].line.id, run[k].line.thread, run[k].line.hasError);
            root.Some? ==> Spared(s, root.value)
  {
    var s := Run(Initial(ctx), run[..k]).s;
    var root := Opened(s, run[k].line.id, run[k].line.thread, run[k].line.hasError);
    if root.Some? {
      hide Run, Step, IdsKept, Holdable;
      assert run[..k + 1][..k] == run[..k];
      RootIsNamed(ctx, run[..k]);
      IdsStayKept(ctx, run[..k]);
      ReplyNamesRoot(s, run[k]);
      RootStays(ctx, run, k + 1);
      CardsAreTopLevel(ctx, run[..k]);
      HeardBefore(run, k);
      TracedSpared(s, Heard(run[..k]), root.value);
    }
  }

  lemma TracedSpared(s: State, heard: set<ThreadMessage>, root: string)
    requires Traced(s, heard) && forall m :: m in heard ==> Spares(root, m)
    ensures Spared(s, root)
  {
  }

  /** No action of the run opens a root for which two signals are held. */
  ghost predicate AllFit(ctx: StartupCtx, run: seq<Action>) {
    forall k :: 0 <= k < |run| ==> Fits(Run(Initial(ctx), run[..k]).s, run[k])
  }

  lemma AllFitMore(ctx: StartupCtx, run: seq<Action>)
    requires run != []
    ensures var n := |run| - 1;
            AllFit(ctx, run) <==> AllFit(ctx, run[..n]) && Fits(Run(Initial(ctx), run[..n]).s, run[n])
  {
    hide Fits, Run;
    var n := |run| - 1;
    assert forall k :: 0 <= k < n ==> run[..n][..k] == run[..k] && run[..n][k] == run[k];
  }

  lemma FitsOnTime(ctx: StartupCtx, whole: seq<Action>, k: nat)
    requires k < |whole| && RootSpared(ctx, whole)
    ensures var s := Run(Initial(ctx), whole[..k]).s;
            |Signals(StepDelivers(s, whole[k]))| <= 1 <==> Fits(s, whole[k])
  {
    hide RootSpared, Fits, Run, Signals, StepDelivers, Holdable, Spared;
    CardsAreTopLevel(ctx, whole[..k]);
    if whole[k].Hear? && whole[k].line.Reply? {
      OpenedIsSpared(ctx, whole, k);
    }
    StepFits(Run(Initial(ctx), whole[..k]).s, whole[k]);
  }

  lemma {:induction false} FittingOverwritesNone(ctx: StartupCtx, whole: seq<Action>, n: nat)
    requires n <= |whole| && RootSpared(ctx, whole)
    ensures NoneOverwritten(ctx, whole[..n]) <==> AllFit(ctx, whole[..n])
  {
    if n > 0 {
      hide RootSpared, Fits, Run, Signals, StepDelivers, AllFit;
      FittingOverwritesNone(ctx, whole, n - 1);
      assert whole[..n][..n - 1] == whole[..n - 1] && whole[..n][n - 1] == whole[n - 1];
      FitsOnTime(ctx, whole, n - 1);
      AllFitMore(ctx, whole[..n]);
    }
  }

  /**
   As long as the root is nobody's sub-agent, every start, completion and failure of its turns that is
   delivered is signalled, in order and each once, exactly if no reply opens the root while two or more
   of them are held for it and young.
   */
  lemma SignalsFit(ctx: StartupCtx, run: seq<Action>)
    requires RootSpared(ctx, run)
    ensures Signalled(Run(Initial(ctx), run).outs) == Signals(Delivered(ctx, run)) <==> AllFit(ctx, run)
  {
    hide Run, Signals, Signalled, RootSpared, AllFit, NoneOverwritten, Delivered;
    SignalsAreDelivered(ctx, run);
    assert run[..|run|] == run;
    FittingOverwritesNone(ctx, run, |run|);
  }

  // ---- Two signals at once ----

  const EARLY := [
    Arrival(Notification(Note(Some("T"), TurnStarted(None), 0)), 0, []),
    Arrival(Notification(Note(Some("T"), TurnCompleted, 0)), 0, ["T"])]

  lemma EarlyFits()
    ensures Roomy([], "T", EARLY) && Brisk([], EARLY)
    ensures forall a :: a in EARLY ==> Holdable("T", a.message)
  {
    assert EARLY[1..] == [EARLY[1]] && [EARLY[1]][1..] == [];
    assert TotalSize(EARLY) == 0 && Threads([]) == {};
  }

  lemma EarlyIsHeld()
    ensures var held := Listen(Initial(NO_CTX), EARLY);
            && held.s == Initial(NO_CTX).(log := held.s.log, nextSequence := held.s.nextSequence)
            && held.s.log == Slots("T", EARLY, 0)
  {
    hide Roomy, Brisk, Holdable, Listen, Slots;
    EarlyFits();
    RoomMeansHeld(Initial(NO_CTX), "T", EARLY);
    assert [] + Slots("T", EARLY, 0) == Slots("T", EARLY, 0);
  }

  lemma EarlyQueue()
    ensures Queue(Slots("T", EARLY, 0), "T") == [Entry(EARLY[0].message, 0, 0, 0), Entry(EARLY[1].message, 0, 1, 0)]
  {
    var a, b := Slot("T", Entry(EARLY[0].message, 0, 0, 0)), Slot("T", Entry(EARLY[1].message, 0, 1, 0));
    assert EARLY[1..] == [EARLY[1]] && [EARLY[1]][1..] == [];
    assert Slots("T", EARLY, 0) == [a] + ([b] + []);
    assert ([a] + ([b] + []))[1..] == [b] && [b][1..] == [];
  }

  /** The reply that names this thread as the root. */
  function Opening(root: string, now: nat, order: seq<string>): Action {
    Hear(Reply(Some(2), Some(ThreadInfo(Some(root), None, None)), false, ""), now, order)
  }

  lemma EarlySignals()
    ensures HeldSignals([Entry(EARLY[0].message, 0, 0, 0), Entry(EARLY[1].message, 0, 1, 0)], 0) == [Started, Completed]
  {
    var a, b := Entry(EARLY[0].message, 0, 0, 0), Entry(EARLY[1].message, 0, 1, 0);
    assert [a, b][1..] == [b] && [b][1..] == [] && HeldSignals([], 0) == [];
    assert HeldSignals([b], 0) == [Completed];
  }

  lemma EarlySpares()
    ensures forall x :: x in Slots("T", EARLY, 0) ==>
              Spares("T", x.entry.message) && Holdable(x.thread, x.entry.message)
  {
    assert EARLY[1..] == [EARLY[1]] && [EARLY[1]][1..] == [];
  }

  /** A turn that started and completed before its thread was known: only its completion is signalled. */
  lemma OpeningOverwrites()
    ensures var s := Listen(Initial(NO_CTX), EARLY).s;
            Signals(StepDelivers(s, Opening("T", 0, ["T"]))) == [Started, Completed]
            && Step(s, Opening("T", 0, ["T"])).out.lifecycle == Some(Completed)
  {
    var s := Listen(Initial(NO_CTX), EARLY).s;
    EarlySpares();
    hide Slots, Listen, Queue, Step, LastSignal, Signals, HeldSignals, Reports, TurnAfterAll, Prompted, WorkDelivers;
    EarlyIsHeld();
    EarlyQueue();
    EarlySignals();
    OpeningSignals(s.(root := Some("T")), "T", 0);
    LastOfSignals(StepDelivers(s, Opening("T", 0, ["T"])));
    EveryStepReports(s, Opening("T", 0, ["T"]));
  }
}
