/**
 Every error the client sends for a request says why, and says it truly: no thread, too large, expired,
 or evicted for another request.
 */
module Refusals {
  import opened AppServerSpec
  import opened AppServerTypes
  import opened BufferPolicy
  import opened DeferredBuffer
  import opened ExpirySweep
  import opened SessionInvariant
  import opened Wrappers

  datatype Cause = NoThread | TooLarge | Expired | Evicted

  /** The error a request gets for this cause. */
  function ErrorFor(id: JsonId, cause: Cause): Frame {
    match cause
    case NoThread => ErrorReply(id, -32602, "Interactive request is missing threadId")
    case TooLarge => ErrorReply(id, -32600, "Interactive request exceeds buffer limit")
    case Expired => ErrorReply(id, -32600, "Interactive request expired")
    case Evicted => ErrorReply(id, -32600, "Interactive request evicted from buffer")
  }

  /** Whether a request waits in the buffer, and since when. */
  predicate Waits(log: seq<Slot>, r: Request, since: nat) {
    exists x :: x in log && x.entry.message == Interactive(r) && x.entry.receivedAt == since
  }

  predicate Arrives(a: Action, r: Request) {
    a.Hear? && a.line == RequestLine(r)
  }

  /** Whether the cause is the case when the action happens. */
  ghost predicate Holds(s: State, a: Action, r: Request, cause: Cause) {
    match cause
    case NoThread => Arrives(a, r) && !r.call.Legacy() && (r.thread.None? || r.thread == Some(""))
    case TooLarge => Arrives(a, r) && r.size > 512 * 1024
    case Expired => (a.Hear? || a.Tick?) && exists since :: Waits(s.log, r, since) && a.now - since >= 30_000
    case Evicted => a.Hear? && a.line.RequestLine? && exists since :: Waits(s.log, r, since) && a.now - since < 30_000
  }

  /** Whether a frame, if it is an error, is one for a cause that holds. */
  ghost predicate Justified(s: State, a: Action, f: Frame) {
    f.ErrorReply? ==> exists r, cause :: Holds(s, a, r, cause) && f == ErrorFor(r.id, cause)
  }

  ghost predicate AllJustified(s: State, a: Action, frames: seq<Frame>) {
    forall f :: f in frames ==> Justified(s, a, f)
  }

  // ---- What leaves the buffer ----

  lemma {:induction false} RejectedSlot(slots: seq<Slot>, reason: string, f: Frame)
    requires f in Rejections(slots, reason)
    ensures exists x :: x in slots && x.entry.message.Interactive?
                        && f == ErrorReply(x.entry.message.request.id, ERROR_INVALID_REQUEST, reason)
  {
    var rest := slots[1..];
    if f in Rejections(rest, reason) {
      RejectedSlot(rest, reason, f);
      var x :| x in rest && x.entry.message.Interactive?
               && f == ErrorReply(x.entry.message.request.id, ERROR_INVALID_REQUEST, reason);
      assert x in slots;
    } else {
      assert slots[0] in slots;
    }
  }

  lemma SweptJustified(s: State, a: Action, order: seq<string>)
    requires a.Hear? || a.Tick?
    ensures AllJustified(s, a, Rejections(ExpirySlots(s.log, a.now, order), EXPIRED))
  {
    var slots := ExpirySlots(s.log, a.now, order);
    ExpirySlotsMembers(s.log, a.now, order);
    forall f | f in Rejections(slots, EXPIRED) ensures Justified(s, a, f) {
      RejectedSlot(slots, EXPIRED, f);
      var x :| x in slots && x.entry.message.Interactive?
               && f == ErrorReply(x.entry.message.request.id, ERROR_INVALID_REQUEST, EXPIRED);
      StaleHolds(s, a, x);
    }
  }

  lemma StaleHolds(s: State, a: Action, x: Slot)
    requires (a.Hear? || a.Tick?) && x in s.log && x.entry.message.Interactive? && Stale(x.entry, a.now)
    ensures Justified(s, a, ErrorReply(x.entry.message.request.id, ERROR_INVALID_REQUEST, EXPIRED))
  {
    var r := x.entry.message.request;
    assert Waits(s.log, r, x.entry.receivedAt);
    assert Holds(s, a, r, Expired);
    assert ErrorFor(r.id, Expired) == ErrorReply(r.id, ERROR_INVALID_REQUEST, EXPIRED);
  }

  /** An eviction loop takes its victims from the log, and requests only for a request. */
  lemma {:induction false} VictimsAre(p: Pressure, log: seq<Slot>, t: string, size: nat, interactive: bool)
    ensures var r := Relieve(p, log, t, size, interactive);
            && (forall x :: x in r.log ==> x in log)
            && (forall x :: x in r.victims ==> x in log && (x.entry.message.Interactive? ==> interactive))
    decreases |log|
  {
    hide Relieve, Over, First, RemoveAt;
    RelieveUnfold(p, log, t, size, interactive);
    var i := OldestEvictable(log, Scope(p, t), interactive);
    if Over(p, log, t, size) && i < |log| {
      RestOf(log, i);
      VictimsAre(p, RemoveAt(log, i), t, size, interactive);
      OldestIs(log, Scope(p, t), interactive);
    }
  }

  lemma RestOf(log: seq<Slot>, i: nat)
    requires i < |log|
    ensures |RemoveAt(log, i)| < |log| && forall x :: x in RemoveAt(log, i) ==> x in log
  {
  }

  lemma OldestIs(log: seq<Slot>, scope: Option<string>, interactive: bool)
    ensures var i := OldestEvictable(log, scope, interactive);
            i < |log| ==> (log[i].entry.message.Interactive? ==> interactive)
  {
  }

  lemma AdmittedVictims(log: seq<Slot>, t: string, size: nat, interactive: bool)
    ensures forall x :: x in Admit(log, t, size, interactive).victims ==>
              x in log && (x.entry.message.Interactive? ==> interactive)
  {
    hide Relieve;
    var r1 := Relieve(TooManyThreads, log, t, size, interactive);
    var r2 := Relieve(QueueFull, r1.log, t, size, interactive);
    VictimsAre(TooManyThreads, log, t, size, interactive);
    VictimsAre(QueueFull, r1.log, t, size, interactive);
    VictimsAre(TooManyBytes, r2.log, t, size, interactive);
  }

  lemma EvictedJustified(s: State, a: Action, t: string, m: ThreadMessage)
    requires a.Hear? && (m.Interactive? ==> a.line.RequestLine?)
    ensures AllJustified(s, a, Rejections(Admission(s, t, m, a.now).victims, EVICTED))
  {
    var slots := Admission(s, t, m, a.now).victims;
    AdmittedVictims(Select(s.log, LiveAt(a.now)), t, m.Size(), m.Interactive?);
    SelectMembers(s.log, LiveAt(a.now));
    forall f | f in Rejections(slots, EVICTED) ensures Justified(s, a, f) {
      RejectedSlot(slots, EVICTED, f);
      var x :| x in slots && x.entry.message.Interactive?
               && f == ErrorReply(x.entry.message.request.id, ERROR_INVALID_REQUEST, EVICTED);
      EvictionHolds(s, a, x);
    }
  }

  lemma EvictionHolds(s: State, a: Action, x: Slot)
    requires a.Hear? && a.line.RequestLine? && x in s.log && x.entry.message.Interactive? && !Stale(x.entry, a.now)
    ensures Justified(s, a, ErrorReply(x.entry.message.request.id, ERROR_INVALID_REQUEST, EVICTED))
  {
    var r := x.entry.message.request;
    assert Waits(s.log, r, x.entry.receivedAt);
    assert Holds(s, a, r, Evicted);
    assert ErrorFor(r.id, Evicted) == ErrorReply(r.id, ERROR_INVALID_REQUEST, EVICTED);
  }

  /** A request is refused on arrival only for its size: one that fits is always held. */
  lemma RefusedJustified(s: State, a: Action, t: string, m: ThreadMessage)
    requires a.Hear? && (m.Interactive? ==> a.line == RequestLine(m.request)) && !Admission(s, t, m, a.now).ok
    ensures AllJustified(s, a, Rejection(m, Refusal(m)))
  {
    if m.Interactive? {
      RequestAdmission(Select(s.log, LiveAt(a.now)), t, m.Size());
      assert Holds(s, a, m.request, TooLarge);
      assert ErrorFor(m.request.id, TooLarge) == ErrorReply(m.request.id, ERROR_INVALID_REQUEST, TOO_LARGE);
    }
  }

  lemma BothJustified(s: State, a: Action, f: seq<Frame>, g: seq<Frame>)
    requires AllJustified(s, a, f) && AllJustified(s, a, g)
    ensures AllJustified(s, a, f + g)
  {
  }

  lemma DeferJustified(s: State, a: Action, t: string, m: ThreadMessage)
    requires a.Hear?
    requires if m.Interactive? then a.line == RequestLine(m.request) else a.line == NoteLine(m.note)
    ensures AllJustified(s, a, Defer(s, t, m, a.now, a.order).out.outbound)
  {
    hide AllJustified, Rejections, Select, Admit, ExpirySlots, Rejection, Refusal;
    var swept := Rejections(ExpirySlots(s.log, a.now, a.order), EXPIRED);
    var evicted := Rejections(Admission(s, t, m, a.now).victims, EVICTED);
    SweptJustified(s, a, a.order);
    EvictedJustified(s, a, t, m);
    BothJustified(s, a, swept, evicted);
    if !Admission(s, t, m, a.now).ok {
      RefusedJustified(s, a, t, m);
      BothJustified(s, a, swept + evicted, Rejection(m, Refusal(m)));
    }
  }

  // ---- Replay ----

  /** Everything buffered, and everything being replayed, waited in this log. */
  ghost predicate Waited(log: seq<Slot>, s: State, tasks: seq<Task>) {
    && (forall x :: x in s.log ==> x in log)
    && (forall task :: task in tasks && task.Replay? ==> exists x :: x in log && x.entry == task.entry)
    && (forall task :: task in tasks && task.Replay? && task.entry.message.Interactive? ==>
          task.entry.message.request.call.Legacy() || task.entry.message.request.thread.GetOr("") != "")
  }

  ghost predicate HoldsBack(log: seq<Slot>) {
    forall x :: x in log ==> Holdable(x.thread, x.entry.message)
  }

  lemma DrainWaited(log: seq<Slot>, s: State, t: string)
    requires HoldsBack(log) && Waited(log, s, [Drain(t)])
    ensures Waited(log, s.(log := Select(s.log, OffThread(t))), Replays(Queue(s.log, t)))
  {
    var q := Queue(s.log, t);
    SelectMembers(s.log, OffThread(t));
    QueueMembers(s.log, t);
    forall task | task in Replays(q) ensures task.Replay? && Slot(t, task.entry) in log {
      var k :| 0 <= k < |q| && task == Replays(q)[k];
      assert Slot(t, q[k]) in s.log;
    }
  }

  lemma NoReplays(threads: seq<string>, card: string)
    ensures forall task :: task in SpawnTasks(threads, card) ==> !task.Replay?
  {
    SpawnTasksKinds(threads, card);
  }

  lemma TaskWaited(log: seq<Slot>, s: State, task: Task, now: nat)
    requires HoldsBack(log) && Waited(log, s, [task])
    ensures var m := StepTask(s, task, now); Waited(log, m.s, m.more)
  {
    assert task in [task];
    match task {
      case Deliver(n) => NoteWaited(log, s, n);
      case Replay(e) =>
        if e.message.Notification? {
          NoteWaited(log, s, e.message.note);
        }
      case Drain(t) => DrainWaited(log, s, t);
      case Adopt(_, _) =>
      case Identify(_) =>
    }
  }

  lemma NoteWaited(log: seq<Slot>, s: State, n: Note)
    requires forall x :: x in s.log ==> x in log
    ensures var m := DeliverNote(s, n); Waited(log, m.s, m.more)
  {
    DeliverEffect(s, n);
    NoReplays(n.body.Spawns(), CardFor(ParentOf(s, n.thread), n.body));
  }

  lemma TaskJustified(s0: State, a: Action, s: State, task: Task)
    requires a.Hear? && Waited(s0.log, s, [task])
    ensures AllJustified(s0, a, StepTask(s, task, a.now).out.outbound)
  {
    assert task in [task];
    match task {
      case Deliver(n) => ObserveFrame(s, n.body, ParentOf(s, n.thread));
      case Replay(e) =>
        if Stale(e, a.now) {
          if e.message.Interactive? {
            var x :| x in s0.log && x.entry == e;
            StaleHolds(s0, a, x);
          }
        } else if e.message.Notification? {
          ObserveFrame(s, e.message.note.body, ParentOf(s, e.message.note.thread));
        }
      case Drain(_) =>
      case Adopt(_, _) =>
      case Identify(_) =>
    }
  }

  lemma WaitedFirst(log: seq<Slot>, s: State, tasks: seq<Task>)
    requires tasks != [] && Waited(log, s, tasks)
    ensures Waited(log, s, [tasks[0]])
  {
    assert tasks[0] in tasks;
  }

  lemma WaitedNext(log: seq<Slot>, s: State, m: State, more: seq<Task>, tasks: seq<Task>)
    requires tasks != [] && Waited(log, s, tasks) && Waited(log, m, more)
    ensures Waited(log, m, more + tasks[1..])
  {
    forall task | task in more + tasks[1..] ensures task in more || task in tasks {
    }
  }

  lemma {:induction false} WorkJustified(s0: State, a: Action, s: State, tasks: seq<Task>)
    requires a.Hear? && HoldsBack(s0.log) && Waited(s0.log, s, tasks)
    ensures AllJustified(s0, a, Work(s, tasks, a.now).out.outbound)
    decreases |s.log|, Weights(tasks)
  {
    if tasks != [] {
      hide Waited, AllJustified, StepTask;
      StepTaskShrinks(s, tasks, a.now);
      var m := StepTask(s, tasks[0], a.now);
      WaitedFirst(s0.log, s, tasks);
      TaskJustified(s0, a, s, tasks[0]);
      TaskWaited(s0.log, s, tasks[0], a.now);
      WaitedNext(s0.log, s, m.s, m.more, tasks);
      WorkJustified(s0, a, m.s, m.more + tasks[1..]);
      BothJustified(s0, a, m.out.outbound, Work(m.s, m.more + tasks[1..], a.now).out.outbound);
    }
  }

  // ---- Steps ----

  lemma PresentJustified(s: State, a: Action, r: Request)
    requires Arrives(a, r)
    ensures AllJustified(s, a, Present(s, r).out.outbound)
  {
    if LacksThread(r) {
      assert Holds(s, a, r, NoThread);
      assert Present(s, r).out.outbound == [ErrorFor(r.id, NoThread)];
    }
  }

  lemma OpeningJustified(s: State, a: Action, root: string)
    requires a.Hear? && HoldsBack(s.log)
    ensures AllJustified(s, a, OpenRoot(s, root, a.now).out.outbound)
  {
    hide AllJustified, HoldsBack;
    var s1 := s.(root := Some(root));
    WorkJustified(s, a, s1, [Drain(root)]);
    assert [] + Work(s1, [Drain(root)], a.now).out.outbound == Work(s1, [Drain(root)], a.now).out.outbound;
  }

  lemma LineJustified(s: State, a: Action)
    requires a.Hear? && HoldsBack(s.log)
    ensures AllJustified(s, a, Step(s, a).out.outbound)
  {
    hide HoldsBack, Work, Defer, Present, OpenRoot, Justified;
    match a.line {
      case NoteLine(n) =>
        if Foreign(s, n.thread) && !n.body.ThreadStarted? {
          DeferJustified(s, a, n.thread.value, Notification(n));
        } else {
          WorkJustified(s, a, s, [Deliver(n)]);
        }
      case RequestLine(r) =>
        if !LacksThread(r) && Foreign(s, r.thread) {
          DeferJustified(s, a, r.thread.value, Interactive(r));
        } else {
          PresentJustified(s, a, r);
        }
      case Reply(id, thread, hasError, payload) =>
        var root := Opened(s, id, thread, hasError);
        if root.Some? {
          OpeningJustified(s, a, root.value);
        } else {
          SettlingFrame(s, id, thread, hasError, payload);
        }
      case Unparsable =>
      case UnhandledRequest =>
    }
  }

  lemma FramingSendsNoErrors(s: State, a: Action)
    requires !a.Hear? && !a.Tick?
    ensures forall f :: f in Step(s, a).out.outbound ==> !f.ErrorReply?
  {
    hide AnswerFor, TurnSandbox, Pick;
  }

  /**
   In any reachable state, each error an action makes the client send is for a request, with the code
   and the words of a cause that holds: it has no thread, is larger than the buffer, has waited 30
   seconds or more, or has made way for another request. None is ever refused because the buffer is full.
   */
  lemma RefusalsAreTrue(ctx: StartupCtx, run: seq<Action>, a: Action)
    requires Feasible(Initial(ctx), run)
    ensures AllJustified(Run(Initial(ctx), run).s, a, Step(Run(Initial(ctx), run).s, a).out.outbound)
  {
    hide Step, AllJustified;
    var s := Run(Initial(ctx), run).s;
    ReachableInvariant(ctx, run);
    KeptHoldsBack(s, Clock(run));
    StepJustified(s, a);
  }

  lemma KeptHoldsBack(s: State, clock: nat)
    requires BufferKept(s, clock)
    ensures HoldsBack(s.log)
  {
    assert forall x :: x in s.log ==> SlotKept(x, s.nextSequence, clock);
  }

  lemma StepJustified(s: State, a: Action)
    requires HoldsBack(s.log)
    ensures AllJustified(s, a, Step(s, a).out.outbound)
  {
    if a.Hear? {
      LineJustified(s, a);
    } else if a.Tick? {
      SweptJustified(s, a, a.order);
    } else {
      hide Step;
      FramingSendsNoErrors(s, a);
    }
  }
}
