/**
 Messages that arrive before the client knows which thread is the root.
 */
module RootOpening {
  import opened AppServerSpec
  import opened AppServerTypes
  import opened DeferredBuffer
  import opened DirectReplay
  import opened QueueRefinement
  import opened SessionInvariant
  import opened Wrappers

  // ---- The root ----

  predicate NoStart(m: ThreadMessage) {
    m.Notification? ==> !m.note.body.ThreadStarted?
  }

  ghost predicate NoStarts(log: seq<Slot>, tasks: seq<Task>) {
    && (forall x :: x in log ==> NoStart(x.entry.message))
    && (forall task :: task in tasks ==>
          (task.Deliver? ==> !task.note.body.ThreadStarted?) && (task.Replay? ==> NoStart(task.entry.message)))
  }

  lemma ObservePhase(s: State, phase: Phase, body: Body, parent: Option<string>)
    requires !body.ThreadStarted?
    ensures var o := Observe(s, body, parent);
            Observe(s.(phase := phase), body, parent) == Result(o.s.(phase := phase), o.out)
  {
    hide ItemEvents, DeltaEvents;
  }

  lemma ReplaysStart(log: seq<Slot>, t: string)
    requires NoStarts(log, [])
    ensures NoStarts([], Replays(Queue(log, t)))
  {
    var q := Queue(log, t);
    QueueMembers(log, t);
    forall task | task in Replays(q) ensures task.Replay? && NoStart(task.entry.message) {
      var k :| 0 <= k < |q| && task == Replays(q)[k];
      assert q[k] in q && Slot(t, q[k]) in log;
    }
  }

  lemma ReplayPhase(s: State, phase: Phase, e: Entry, now: nat)
    requires NoStart(e.message)
    ensures var m := StepTask(s, Replay(e), now);
            && StepTask(s.(phase := phase), Replay(e), now) == Micro(m.s.(phase := phase), m.out, m.more)
            && m.s.log == s.log && NoStarts([], m.more)
  {
    hide DeliverNote, PromptEvents;
    if e.message.Notification? {
      DeliverPhase(s, phase, e.message.note);
    }
  }

  lemma DrainPhase(s: State, t: string)
    requires NoStarts(s.log, [])
    ensures NoStarts(Select(s.log, OffThread(t)), Replays(Queue(s.log, t)))
  {
    SelectMembers(s.log, OffThread(t));
    ReplaysStart(s.log, t);
  }

  lemma TaskPhase(s: State, phase: Phase, task: Task, now: nat)
    requires NoStarts(s.log, [task])
    ensures var m := StepTask(s, task, now);
            && StepTask(s.(phase := phase), task, now) == Micro(m.s.(phase := phase), m.out, m.more)
            && NoStarts(m.s.log, m.more)
  {
    hide Select, Queue, DeliverNote, Present;
    assert task in [task];
    match task {
      case Deliver(n) => DeliverPhase(s, phase, n);
      case Replay(e) => ReplayPhase(s, phase, e, now);
      case Drain(t) => DrainPhase(s, t);
      case Adopt(_, _) =>
      case Identify(_) =>
    }
  }

  lemma DeliverPhase(s: State, phase: Phase, n: Note)
    requires !n.body.ThreadStarted?
    ensures var m := DeliverNote(s, n);
            && DeliverNote(s.(phase := phase), n) == Micro(m.s.(phase := phase), m.out, m.more)
            && m.s.log == s.log && NoStarts([], m.more)
  {
    ObservePhase(s, phase, n.body, ParentOf(s, n.thread));
    ObserveFrame(s, n.body, ParentOf(s, n.thread));
    SpawnTasksKinds(n.body.Spawns(), CardFor(ParentOf(s, n.thread), n.body));
  }

  /** Only a thread/started notification looks at the phase. */
  lemma {:induction false} WorkPhase(s: State, phase: Phase, tasks: seq<Task>, now: nat)
    requires NoStarts(s.log, tasks)
    ensures var w := Work(s, tasks, now);
            Work(s.(phase := phase), tasks, now) == Result(w.s.(phase := phase), w.out)
    decreases |s.log|, Weights(tasks)
  {
    if tasks != [] {
      StepTaskShrinks(s, tasks, now);
      TaskPhase(s, phase, tasks[0], now);
      var m := StepTask(s, tasks[0], now);
      WorkPhase(m.s, phase, m.more + tasks[1..], now);
    }
  }

  lemma OpeningHas(s: State, t: string, now: nat)
    requires Ordered(s.log, s.nextSequence, now)
    requires forall e :: e in Queue(s.log, t) ==> !Stale(e, now)
    ensures var q, left := Queue(s.log, t), Select(s.log, OffThread(t));
            && NoStarts(left, Replays(q)) && t !in Threads(left)
            && forall e :: e in q ==> Holdable(t, e.message) && !Stale(e, now)
  {
    QueueMembers(s.log, t);
    SelectMembers(s.log, OffThread(t));
    assert forall x :: x in s.log ==> SlotKept(x, s.nextSequence, now);
    assert NoStarts(s.log, []);
    ReplaysStart(s.log, t);
    forall e | e in Queue(s.log, t) ensures Holdable(t, e.message) {
      assert Slot(t, e) in s.log;
    }
  }

  /** Opening the root is opening it with nothing waiting, and then listening to what waited. */
  lemma OpenWithBacklog(s: State, t: string, now: nat)
    requires Ordered(s.log, s.nextSequence, now)
    requires forall e :: e in Queue(s.log, t) ==> !Stale(e, now)
    ensures var first := OpenRoot(s.(log := Select(s.log, OffThread(t))), t, now);
            var heard := Listen(first.s, At(Messages(Queue(s.log, t)), now));
            OpenRoot(s, t, now) == Result(heard.s, Merge(first.out, heard.out))
  {
    var q := Queue(s.log, t);
    var rooted := s.(root := Some(t), log := Select(s.log, OffThread(t)));
    OpeningHas(s, t, now);
    DrainSomething(s.(root := Some(t)), t, now);
    DrainNothing(rooted, t, now);
    WorkPhase(rooted, Phase.Ready, Replays(q), now);
    ReplayIsDirect(rooted.(phase := Phase.Ready), t, q, now);
    MergeSilent(SILENT.(thread := Some(t)));
  }

  /**
   Learning the root from the reply to the opening request: what waited for it is handled exactly as
   if it had come right after the reply, nested spawns and their own replays included.
   */
  lemma OpeningIsTransparent(s: State, root: ThreadInfo, payload: string, now: nat, order: seq<string>)
    requires s.root.None? && root.id.Some? && 2 !in s.internalWaiters && 2 !in s.clientWaiters
    requires Ordered(s.log, s.nextSequence, now)
    requires forall e :: e in Queue(s.log, root.id.value) ==> !Stale(e, now)
    ensures var reply := Hear(Reply(Some(2), Some(root), false, payload), now, order);
            var q := Queue(s.log, root.id.value);
            var first := Step(s.(log := Select(s.log, OffThread(root.id.value))), reply);
            var heard := Listen(first.s, At(Messages(q), now));
            Step(s, reply) == Result(heard.s, Merge(first.out, heard.out))
  {
    hide Work, Listen, Select, Queue, At, Messages, Ordered, Stale;
    OpenWithBacklog(s, root.id.value, now);
  }
}
