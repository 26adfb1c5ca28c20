/**
 Who owns what, exactly: over any run, the cards of sub-agents and the threads whose identity was asked
 for are read off the spawn items delivered, through all nested replays.
 */
module Adoption {
  import opened AppServerSpec
  import opened AppServerTypes
  import opened DeferredBuffer
  import opened Deliveries
  import opened IdCorrelation
  import opened Ownership
  import opened QueueRefinement
  import opened Readiness
  import opened SessionInvariant
  import opened SessionReports
  import opened Wrappers

  // ---- What a delivery spawns ----

  /** Whether an item spawns a thread: an activity just started, or a call that spawns its receivers. */
  predicate SpawnsThread(item: Item, t: string) {
    match item
    case SubAgentActivity(_, kind, agent) => kind == "started" && agent == Some(t)
    case CollabCall(_, tool, receivers) => tool == "spawnAgent" && t in receivers
    case _ => false
  }

  /** Whether a delivery is an item that spawns this thread. */
  predicate Names(d: Delivery, t: string) {
    && t != "" && d.Told? && (d.note.body.ItemStarted? || d.note.body.ItemCompleted?)
    && d.note.body.item.Some? && SpawnsThread(d.note.body.item.value, t)
  }

  /** The card it gives that thread: the card of the thread it arrived on, else the item's own id, if any. */
  function CardGiven(d: Delivery, t: string): Option<string> {
    if !Names(d, t) then None
    else
      var card := if d.parent.Some? then d.parent.value else d.note.body.item.value.id.GetOr("");
      if card == "" then None else Some(card)
  }

  /** The last card given to a thread. */
  function LastCard(ds: seq<Delivery>, t: string): Option<string> {
    if ds == [] then None else Later(CardGiven(ds[0], t), LastCard(ds[1..], t))
  }

  predicate Named(ds: seq<Delivery>, t: string) {
    exists d :: d in ds && Names(d, t)
  }

  lemma {:induction false} LastCardConcat(x: seq<Delivery>, y: seq<Delivery>, t: string)
    ensures LastCard(x + y, t) == Later(LastCard(x, t), LastCard(y, t))
  {
    if x == [] {
      assert x + y == y;
    } else {
      hide CardGiven;
      assert (x + y)[0] == x[0] && (x + y)[1..] == x[1..] + y;
      LastCardConcat(x[1..], y, t);
    }
  }

  lemma OneCard(d: Delivery, t: string)
    ensures LastCard([d], t) == CardGiven(d, t)
  {
    hide CardGiven;
    assert [d][1..] == [];
  }

  lemma NamedConcat(x: seq<Delivery>, y: seq<Delivery>, t: string)
    ensures Named(x + y, t) <==> Named(x, t) || Named(y, t)
  {
  }

  // ---- Tasks ----

  /** A registration waiting to be done. */
  predicate Pends(tasks: seq<Task>, t: string) {
    exists task :: task in tasks && task.Adopt? && task.child == t
  }

  /** Work that only gives out this card. */
  predicate Under(s: State, task: Task, card: string) {
    match task
    case Deliver(_) => false
    case Replay(e) => e.message.Notification? ==> ParentOf(s, e.message.note.thread) == Some(card)
    case Drain(t) => ParentOf(s, Some(t)) == Some(card)
    case Adopt(_, c) => c == card
    case Identify(_) => true
  }

  /** Everything up to the last registration waiting is under one card. */
  ghost predicate Nested(s: State, tasks: seq<Task>, card: string) {
    forall i, j :: 0 <= i <= j < |tasks| && tasks[j].Adopt? ==> Under(s, tasks[i], card)
  }

  lemma {:induction false} SpawnTasksAre(threads: seq<string>, card: string, t: string)
    ensures Pends(SpawnTasks(threads, card), t) <==> t in threads && t != "" && card != ""
    ensures Identify(t) in SpawnTasks(threads, card) <==> t in threads && t != ""
  {
    if threads != [] {
      hide Pends;
      var x, rest := threads[0], SpawnTasks(threads[1..], card);
      var head: seq<Task> := if x == "" then [] else (if card == "" then [] else [Adopt(x, card)]) + [Identify(x)];
      SpawnTasksAre(threads[1..], card, t);
      HeadPends(x, card, t);
      PendsConcat(head, rest, t);
    } else {
      assert SpawnTasks(threads, card) == [];
    }
  }

  lemma HeadPends(x: string, card: string, t: string)
    ensures var head: seq<Task> :=
              if x == "" then [] else (if card == "" then [] else [Adopt(x, card)]) + [Identify(x)];
            && (Pends(head, t) <==> x == t && x != "" && card != "")
            && (Identify(t) in head <==> x == t && x != "")
  {
    if x != "" && card != "" {
      assert ([Adopt(x, card)] + [Identify(x)])[0] == Adopt(x, card);
    }
  }

  lemma PendsConcat(a: seq<Task>, b: seq<Task>, t: string)
    ensures Pends(a + b, t) <==> Pends(a, t) || Pends(b, t)
  {
  }

  /** The registrations a notification calls for are those of the threads it names. */
  lemma NoteSpawns(s: State, n: Note, t: string)
    ensures var d, more := Told(n, ParentOf(s, n.thread)), DeliverNote(s, n).more;
            && (Pends(more, t) <==> CardGiven(d, t).Some?)
            && (Identify(t) in more <==> Names(d, t))
            && (CardGiven(d, t).Some? ==> CardGiven(d, t) == Some(CardFor(ParentOf(s, n.thread), n.body)))
  {
    SpawnTasksAre(n.body.Spawns(), CardFor(ParentOf(s, n.thread), n.body), t);
  }

  /** A task's registrations, from what it delivers. */
  lemma TaskSpawns(s: State, task: Task, now: nat, t: string)
    ensures var ds, m := TaskDelivers(s, task, now), StepTask(s, task, now);
            && (Pends(m.more, t) <==> LastCard(ds, t).Some?)
            && (Identify(t) in m.more <==> Named(ds, t))
            && |ds| <= 1
  {
    match task {
      case Deliver(n) => ToldSpawns(s, n, t);
      case Replay(e) =>
        if !Stale(e, now) {
          match e.message {
            case Notification(n) => ToldSpawns(s, n, t);
            case Interactive(r) => OfferSpawns(s, r, t);
          }
        }
      case _ =>
    }
  }

  lemma ToldSpawns(s: State, n: Note, t: string)
    ensures var ds := [Told(n, ParentOf(s, n.thread))];
            && (Pends(DeliverNote(s, n).more, t) <==> LastCard(ds, t).Some?)
            && (Identify(t) in DeliverNote(s, n).more <==> Named(ds, t))
  {
    var d := Told(n, ParentOf(s, n.thread));
    hide DeliverNote, CardGiven, Names;
    NoteSpawns(s, n, t);
    OneCard(d, t);
    assert d in [d];
  }

  lemma OfferSpawns(s: State, r: Request, t: string)
    ensures LastCard(Offer(s, r), t) == None && !Named(Offer(s, r), t)
  {
    if !LacksThread(r) {
      OneCard(Offer(s, r)[0], t);
    }
  }

  // ---- One card at a time ----

  /** The card a task gives out, if it is under one or delivers a notification. */
  function CardOf(s: State, task: Task, card: string): string {
    match task
    case Deliver(n) => CardFor(ParentOf(s, n.thread), n.body)
    case Replay(e) =>
      if e.message.Notification? then CardFor(ParentOf(s, e.message.note.thread), e.message.note.body) else card
    case _ => card
  }

  predicate Registers(tasks: seq<Task>) {
    exists task :: task in tasks && task.Adopt?
  }

  ghost predicate HeldRight(s: State) {
    forall x :: x in s.log ==> Holdable(x.thread, x.entry.message)
  }

  lemma TaskGives(s: State, task: Task, now: nat, card: string, t: string)
    requires task.Adopt? ==> task.card == card
    ensures LastCard(TaskDelivers(s, task, now), t).Some? ==>
              LastCard(TaskDelivers(s, task, now), t) == Some(CardOf(s, task, card))
    ensures Under(s, task, card) ==> CardOf(s, task, card) == card
  {
    var ds := TaskDelivers(s, task, now);
    if ds != [] {
      assert |ds| == 1;
      OneCard(ds[0], t);
      assert ds == [ds[0]];
    }
  }

  /** What a task leads to is under the card it gives out. */
  lemma TaskUnder(s: State, task: Task, now: nat, card: string)
    requires HeldRight(s) && (task.Adopt? ==> task.card == card)
    ensures var m := StepTask(s, task, now);
            && HeldRight(m.s)
            && (forall next :: next in m.more && next.Adopt? ==> next.card == CardOf(s, task, card))
            && (forall next :: next in m.more ==>
                  if task.Deliver? || task.Replay? then next.Adopt? || next.Identify? else !next.Adopt?)
            && (Under(s, task, card) ==> forall next :: next in m.more ==> Under(m.s, next, card))
  {
    match task {
      case Deliver(n) => NoteUnder(s, n);
      case Replay(e) =>
        if e.message.Notification? {
          NoteUnder(s, e.message.note);
        }
      case Drain(t) => DrainUnder(s, t, card);
      case Adopt(t, c) =>
      case Identify(t) =>
    }
  }

  lemma NoteUnder(s: State, n: Note)
    ensures var m, parent := DeliverNote(s, n), ParentOf(s, n.thread);
            && m.s.parents == s.parents && m.s.log == s.log
            && (forall next :: next in m.more ==>
                  next.Identify? || (next.Adopt? && next.card == CardFor(parent, n.body)))
  {
    DeliverEffect(s, n);
    SpawnTasksKinds(n.body.Spawns(), CardFor(ParentOf(s, n.thread), n.body));
  }

  lemma DrainUnder(s: State, t: string, card: string)
    requires HeldRight(s)
    ensures HeldRight(s.(log := Select(s.log, OffThread(t))))
    ensures ParentOf(s, Some(t)) == Some(card) ==>
              forall task :: task in Replays(Queue(s.log, t)) ==> Under(s, task, card)
  {
    var q := Queue(s.log, t);
    SelectMembers(s.log, OffThread(t));
    QueueMembers(s.log, t);
    forall task | task in Replays(q) && ParentOf(s, Some(t)) == Some(card) ensures Under(s, task, card) {
      var k :| 0 <= k < |q| && task == Replays(q)[k];
      assert Slot(t, q[k]) in s.log;
    }
  }

  lemma TaskStaysUnder(s: State, first: Task, now: nat, other: Task, card: string)
    requires Under(s, other, card) && (first.Adopt? ==> first.card == card)
    ensures Under(StepTask(s, first, now).s, other, card)
  {
    TaskHasEffect(s, first, now);
  }

  /** The rest of the work is nested again, under the card its first task gave out. */
  lemma NestedNext(s: State, tasks: seq<Task>, now: nat, card: string) returns (next: string)
    requires tasks != [] && HeldRight(s) && Nested(s, tasks, card)
    ensures var m := StepTask(s, tasks[0], now);
            HeldRight(m.s) && Nested(m.s, m.more + tasks[1..], next)
    ensures next == (if Registers(tasks[1..]) then card else CardOf(s, tasks[0], card))
    ensures tasks[0].Adopt? ==> tasks[0].card == card
    ensures Registers(tasks[1..]) ==> CardOf(s, tasks[0], card) == card
  {
    var m := StepTask(s, tasks[0], now);
    var rest := tasks[1..];
    assert tasks[0].Adopt? ==> Under(s, tasks[0], card);
    hide HeldRight, StepTask, CardOf;
    TaskUnder(s, tasks[0], now, card);
    TaskGives(s, tasks[0], now, card, "");
    if Registers(rest) {
      next := card;
      var k :| 0 <= k < |rest| && rest[k].Adopt?;
      assert tasks[k + 1].Adopt? && Under(s, tasks[0], card);
      RestNested(s, tasks, now, card);
      NestedConcat(m.s, m.more, rest, card);
    } else {
      next := CardOf(s, tasks[0], card);
      MoreNested(s, tasks[0], now, card);
      NoneNested(m.s, m.more, rest, next);
    }
  }

  lemma RestNested(s: State, tasks: seq<Task>, now: nat, card: string)
    requires tasks != [] && Nested(s, tasks, card) && (tasks[0].Adopt? ==> tasks[0].card == card)
    ensures Nested(StepTask(s, tasks[0], now).s, tasks[1..], card)
  {
    hide StepTask, Under;
    var rest := tasks[1..];
    forall i, j | 0 <= i <= j < |rest| && rest[j].Adopt? ensures Under(StepTask(s, tasks[0], now).s, rest[i], card) {
      assert rest[i] == tasks[i + 1] && rest[j] == tasks[j + 1];
      TaskStaysUnder(s, tasks[0], now, rest[i], card);
    }
  }

  lemma NestedConcat(s: State, a: seq<Task>, b: seq<Task>, card: string)
    requires (forall task :: task in a ==> Under(s, task, card)) && Nested(s, b, card)
    ensures Nested(s, a + b, card)
  {
    hide Under;
    var all := a + b;
    forall i, j | 0 <= i <= j < |all| && all[j].Adopt? ensures Under(s, all[i], card) {
      if i >= |a| {
        assert all[i] == b[i - |a|] && all[j] == b[j - |a|];
      }
    }
  }

  lemma MoreNested(s: State, task: Task, now: nat, card: string)
    requires HeldRight(s) && (task.Adopt? ==> task.card == card)
    ensures Nested(StepTask(s, task, now).s, StepTask(s, task, now).more, CardOf(s, task, card))
  {
    hide HeldRight, StepTask, CardOf;
    TaskUnder(s, task, now, card);
    var m := StepTask(s, task, now);
    forall i, j | 0 <= i <= j < |m.more| && m.more[j].Adopt? ensures Under(m.s, m.more[i], CardOf(s, task, card)) {
      assert m.more[i] in m.more && m.more[j] in m.more;
    }
  }

  lemma NoneNested(s: State, a: seq<Task>, b: seq<Task>, card: string)
    requires Nested(s, a, card) && !Registers(b)
    ensures Nested(s, a + b, card)
  {
    hide Under;
    var all := a + b;
    forall k | |a| <= k < |all| ensures !all[k].Adopt? {
      assert all[k] == b[k - |a|] && b[k - |a|] in b;
    }
    forall i, j | 0 <= i <= j < |all| && all[j].Adopt? ensures Under(s, all[i], card) {
      assert j < |a| && all[i] == a[i] && all[j] == a[j];
    }
  }

  // ---- All the work ----

  lemma TaskOwns(s: State, task: Task, now: nat, t: string)
    ensures ParentOf(StepTask(s, task, now).s, Some(t))
         == if task.Adopt? && task.child == t then Some(task.card) else ParentOf(s, Some(t))
  {
    TaskHasEffect(s, task, now);
  }

  lemma PendsFirst(tasks: seq<Task>, t: string)
    requires tasks != []
    ensures Pends(tasks, t) <==> (tasks[0].Adopt? && tasks[0].child == t) || Pends(tasks[1..], t)
    ensures Pends(tasks[1..], t) ==> Registers(tasks[1..])
  {
    assert tasks == [tasks[0]] + tasks[1..];
  }

  /** Replay leaves a thread with the last card given to it, else with the one waiting, else with its own. */
  lemma {:induction false} WorkOwns(s: State, tasks: seq<Task>, now: nat, card: string, t: string)
    requires HeldRight(s) && Nested(s, tasks, card)
    ensures ParentOf(Work(s, tasks, now).s, Some(t))
         == Later(Later(ParentOf(s, Some(t)), if Pends(tasks, t) then Some(card) else None),
                  LastCard(WorkDelivers(s, tasks, now), t))
    decreases |s.log|, Weights(tasks)
  {
    if tasks != [] {
      hide StepTask, TaskDelivers, HeldRight, Nested, Pends, Registers, ParentOf, CardOf, LastCard;
      StepTaskShrinks(s, tasks, now);
      var m := StepTask(s, tasks[0], now);
      var next := NestedNext(s, tasks, now, card);
      WorkOwns(m.s, m.more + tasks[1..], now, next, t);
      TaskOwns(s, tasks[0], now, t);
      TaskSpawns(s, tasks[0], now, t);
      TaskGives(s, tasks[0], now, card, t);
      PendsConcat(m.more, tasks[1..], t);
      PendsFirst(tasks, t);
      LastCardConcat(TaskDelivers(s, tasks[0], now), WorkDelivers(m.s, m.more + tasks[1..], now), t);
    } else {
      assert !Pends([], t) && LastCard([], t) == None;
    }
  }

  lemma TaskSees(s: State, task: Task, now: nat, t: string)
    ensures t in StepTask(s, task, now).s.seen <==> t in s.seen || task == Identify(t)
  {
    match task {
      case Deliver(n) => DeliverEffect(s, n);
      case Replay(e) =>
        if e.message.Notification? {
          DeliverEffect(s, e.message.note);
        }
      case _ =>
    }
  }

  /** Replay asks who a thread is exactly when it is named. */
  lemma {:induction false} WorkSees(s: State, tasks: seq<Task>, now: nat, t: string)
    ensures t in Work(s, tasks, now).s.seen
       <==> t in s.seen || Identify(t) in tasks || Named(WorkDelivers(s, tasks, now), t)
    decreases |s.log|, Weights(tasks)
  {
    if tasks != [] {
      hide StepTask, TaskDelivers, Named, LastCard, Pends;
      StepTaskShrinks(s, tasks, now);
      var m := StepTask(s, tasks[0], now);
      WorkSees(m.s, m.more + tasks[1..], now, t);
      TaskSees(s, tasks[0], now, t);
      TaskSpawns(s, tasks[0], now, t);
      assert tasks == [tasks[0]] + tasks[1..];
      NamedConcat(TaskDelivers(s, tasks[0], now), WorkDelivers(m.s, m.more + tasks[1..], now), t);
    } else {
      assert !Named([], t);
    }
  }

  // ---- Steps ----

  /** Whether a step keeps owners and identities in step with what it delivers. */
  predicate Keeps(s: State, w: State, ds: seq<Delivery>, t: string) {
    && ParentOf(w, Some(t)) == Later(ParentOf(s, Some(t)), LastCard(ds, t))
    && (t in w.seen <==> t in s.seen || Named(ds, t))
  }

  lemma NothingKept(s: State, w: State, t: string)
    requires w.parents == s.parents && w.seen == s.seen
    ensures Keeps(s, w, [], t)
  {
    assert !Named([], t) && LastCard([], t) == None;
  }

  lemma WorkKeeps(s: State, task: Task, now: nat, t: string)
    requires HeldRight(s) && (task.Deliver? || task.Drain?)
    ensures Keeps(s, Work(s, [task], now).s, WorkDelivers(s, [task], now), t)
  {
    hide HeldRight, Work, WorkDelivers, LastCard, Named;
    assert Nested(s, [task], "") && !Pends([task], t);
    WorkOwns(s, [task], now, "", t);
    WorkSees(s, [task], now, t);
  }

  lemma OfferKeeps(s: State, r: Request, t: string)
    ensures Keeps(s, Present(s, r).s, Offer(s, r), t)
  {
    OfferSpawns(s, r, t);
  }

  lemma LineKeeps(s: State, a: Action, t: string)
    requires a.Hear? && HeldRight(s)
    ensures Keeps(s, Step(s, a).s, StepDelivers(s, a), t)
  {
    hide Keeps, HeldRight, Work, WorkDelivers, Present, Offer, Defer, OpenRoot, SettleReply;
    match a.line {
      case NoteLine(n) =>
        if Foreign(s, n.thread) && !n.body.ThreadStarted? {
          DeferMoves(s, n.thread.value, Notification(n), a.now, a.order);
          NothingKept(s, Step(s, a).s, t);
        } else {
          WorkKeeps(s, Deliver(n), a.now, t);
        }
      case RequestLine(r) =>
        if !LacksThread(r) && Foreign(s, r.thread) {
          DeferMoves(s, r.thread.value, Interactive(r), a.now, a.order);
          NothingKept(s, Step(s, a).s, t);
        } else {
          OfferKeeps(s, r, t);
        }
      case Reply(id, thread, hasError, payload) =>
        var root := Opened(s, id, thread, hasError);
        if root.Some? {
          OpeningKeeps(s, root.value, a.now, t);
        } else {
          SettlingFrame(s, id, thread, hasError, payload);
          NothingKept(s, Step(s, a).s, t);
        }
      case Unparsable => NothingKept(s, s, t);
      case UnhandledRequest => NothingKept(s, s, t);
    }
  }

  lemma OpeningKeeps(s: State, root: string, now: nat, t: string)
    requires HeldRight(s)
    ensures Keeps(s, OpenRoot(s, root, now).s, WorkDelivers(s.(root := Some(root)), [Drain(root)], now), t)
  {
    hide Work, WorkDelivers, LastCard, Named;
    WorkKeeps(s.(root := Some(root)), Drain(root), now, t);
  }

  lemma StepKeeps(s: State, a: Action, t: string)
    requires HeldRight(s)
    ensures Keeps(s, Step(s, a).s, StepDelivers(s, a), t)
  {
    if a.Hear? {
      LineKeeps(s, a, t);
    } else {
      hide Keeps, HeldRight;
      if !a.Tick? {
        hide Step;
        FramingMoves(s, a);
      }
      NothingKept(s, Step(s, a).s, t);
    }
  }

  lemma KeepsThen(s: State, m: State, w: State, x: seq<Delivery>, y: seq<Delivery>, t: string)
    requires Keeps(s, m, x, t) && Keeps(m, w, y, t)
    ensures Keeps(s, w, x + y, t)
  {
    hide LastCard, Named;
    LastCardConcat(x, y, t);
    NamedConcat(x, y, t);
  }

  lemma {:induction false} RunKeeps(ctx: StartupCtx, run: seq<Action>, t: string)
    ensures Keeps(Initial(ctx), Run(Initial(ctx), run).s, Delivered(ctx, run), t)
  {
    if run != [] {
      hide Step, StepDelivers, Keeps, Holdable;
      var n := |run| - 1;
      var s := Run(Initial(ctx), run[..n]).s;
      RunKeeps(ctx, run[..n], t);
      CardsAreTopLevel(ctx, run[..n]);
      StepKeeps(s, run[n], t);
      KeepsThen(Initial(ctx), s, Step(s, run[n]).s, Delivered(ctx, run[..n]), StepDelivers(s, run[n]), t);
    } else {
      NothingKept(Initial(ctx), Initial(ctx), t);
    }
  }

  /**
   Over any run, a thread is owned exactly when a delivered spawn item gave it a card, and its card is
   the last one it was given: no spawn item is overlooked, however deep in a replay it comes.
   */
  lemma CardsAreThoseGiven(ctx: StartupCtx, run: seq<Action>, t: string)
    ensures ParentOf(Run(Initial(ctx), run).s, Some(t)) == LastCard(Delivered(ctx, run), t)
  {
    hide Run, Delivered, LastCard, Named;
    RunKeeps(ctx, run, t);
  }

  /** Over any run, the identity of a thread was asked for exactly when a delivered spawn item named it. */
  lemma IdentitiesAreAskedFor(ctx: StartupCtx, run: seq<Action>, t: string)
    ensures t in LookedUp(Written(Run(Initial(ctx), run).outs)) <==> Named(Delivered(ctx, run), t)
  {
    hide Run, Delivered, LastCard, Named;
    RunKeeps(ctx, run, t);
    RunAccounted(Initial(ctx), run);
  }
}
