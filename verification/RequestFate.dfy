/**
 Every interactive request the server sends meets exactly one fate: still held for its thread,
 pending with the user, answered, or rejected with an error carrying its own id; or it is displaced,
 still pending, by another request whose id prints alike.
 */
module RequestFate {
  import opened AppServerSpec
  import opened AppServerTypes
  import opened DeferredBuffer
  import opened IdCorrelation
  import opened SessionInvariant
  import opened Wrappers

  // ---- Counting ----

  /** Requests can be followed by their JSON-RPC id or by the key it turns into. */
  datatype Who = ById(id: JsonId) | ByKey(key: string)

  predicate Is(who: Who, id: JsonId) {
    match who
    case ById(i) => i == id
    case ByKey(k) => RequestKey(id) == k
  }

  function KeyOf(who: Who): string {
    match who
    case ById(i) => RequestKey(i)
    case ByKey(k) => k
  }

  function One(m: ThreadMessage, who: Who): nat {
    if m.Interactive? && Is(who, m.request.id) then 1 else 0
  }

  function Held(log: seq<Slot>, who: Who): nat {
    if log == [] then 0 else One(log[0].entry.message, who) + Held(log[1..], who)
  }

  function InFlight(tasks: seq<Task>, who: Who): nat {
    if tasks == [] then 0
    else (if tasks[0].Replay? then One(tasks[0].entry.message, who) else 0) + InFlight(tasks[1..], who)
  }

  function Pending(pending: map<string, PendingServerReq>, who: Who): nat {
    if KeyOf(who) in pending && Is(who, pending[KeyOf(who)].rawId) then 1 else 0
  }

  function Rejected(frames: seq<Frame>, who: Who): nat {
    if frames == [] then 0
    else (if frames[0].ErrorReply? && Is(who, frames[0].replyTo) then 1 else 0) + Rejected(frames[1..], who)
  }

  function Answered(frames: seq<Frame>, who: Who): nat {
    if frames == [] then 0
    else (if frames[0].ResultReply? && Is(who, frames[0].replyTo) then 1 else 0) + Answered(frames[1..], who)
  }

  function Replies(frames: seq<Frame>, who: Who): nat {
    Rejected(frames, who) + Answered(frames, who)
  }

  function Live(s: State, tasks: seq<Task>, who: Who): nat {
    Held(s.log, who) + InFlight(tasks, who) + Pending(s.pending, who)
  }

  function Received(run: seq<Action>, who: Who): nat {
    if run == [] then 0
    else Received(run[..|run| - 1], who) + Arrives(run[|run| - 1], who)
  }

  function Arriving(line: Line, who: Who): nat {
    if line.RequestLine? then One(Interactive(line.request), who) else 0
  }

  function Arrives(a: Action, who: Who): nat {
    if a.Hear? then Arriving(a.line, who) else 0
  }

  lemma {:induction false} HeldConcat(a: seq<Slot>, b: seq<Slot>, who: Who)
    ensures Held(a + b, who) == Held(a, who) + Held(b, who)
  {
    if a == [] {
      assert a + b == b;
    } else {
      assert (a + b)[1..] == a[1..] + b;
      HeldConcat(a[1..], b, who);
    }
  }

  lemma {:induction false} InFlightConcat(a: seq<Task>, b: seq<Task>, who: Who)
    ensures InFlight(a + b, who) == InFlight(a, who) + InFlight(b, who)
  {
    if a == [] {
      assert a + b == b;
    } else {
      assert (a + b)[1..] == a[1..] + b;
      InFlightConcat(a[1..], b, who);
    }
  }

  lemma {:induction false} RepliesConcat(a: seq<Frame>, b: seq<Frame>, who: Who)
    ensures Rejected(a + b, who) == Rejected(a, who) + Rejected(b, who)
    ensures Answered(a + b, who) == Answered(a, who) + Answered(b, who)
  {
    if a == [] {
      assert a + b == b;
    } else {
      assert (a + b)[1..] == a[1..] + b;
      RepliesConcat(a[1..], b, who);
    }
  }

  lemma OneFrame(f: Frame, who: Who)
    requires !f.ErrorReply? && !f.ResultReply?
    ensures Replies([f], who) == 0 && Replies([], who) == 0
  {
    assert [f][1..] == [] && Rejected([], who) == 0 && Answered([], who) == 0;
    assert Rejected([f], who) == Rejected([f][1..], who) && Answered([f], who) == Answered([f][1..], who);
  }

  // ---- What leaves the buffer is rejected ----

  lemma OneRejection(m: ThreadMessage, reason: string, who: Who)
    ensures Rejected(Rejection(m, reason), who) == One(m, who) && Answered(Rejection(m, reason), who) == 0
  {
    if m.Interactive? {
      assert Rejection(m, reason)[1..] == [];
    }
  }

  lemma {:induction false} RejectionsCount(slots: seq<Slot>, reason: string, who: Who)
    ensures Rejected(Rejections(slots, reason), who) == Held(slots, who)
    ensures Answered(Rejections(slots, reason), who) == 0
  {
    if slots != [] {
      RejectionsCount(slots[1..], reason, who);
      OneRejection(slots[0].entry.message, reason, who);
      RepliesConcat(Rejection(slots[0].entry.message, reason), Rejections(slots[1..], reason), who);
    }
  }

  lemma HeldOne(x: Slot, rest: seq<Slot>, who: Who)
    ensures Held([x] + rest, who) == One(x.entry.message, who) + Held(rest, who)
  {
    assert ([x] + rest)[1..] == rest;
  }

  /** One more slot at the front of the log is one more listed by the sweep, if it is stale. */
  lemma {:induction false} SweepOneMore(x: Slot, rest: seq<Slot>, now: nat, order: seq<string>, who: Who)
    requires forall i, j :: 0 <= i < j < |order| ==> order[i] != order[j]
    ensures Held(ExpirySlots([x] + rest, now, order), who)
         == Held(ExpirySlots(rest, now, order), who)
            + (if x.thread in order && Stale(x.entry, now) then One(x.entry.message, who) else 0)
  {
    if order != [] {
      SweepOneMore(x, rest, now, order[1..], who);
      var all := [x] + rest;
      assert all[1..] == rest;
      var t := order[0];
      var mine, others := Select(Select(all, OfThread(t)), ExpiredAt(now)), Select(Select(rest, OfThread(t)), ExpiredAt(now));
      HeldConcat(mine, ExpirySlots(all, now, order[1..]), who);
      HeldConcat(others, ExpirySlots(rest, now, order[1..]), who);
      if x.thread == t {
        SweepHead(x, rest, t, now, who);
      }
    }
  }

  lemma SweepHead(x: Slot, rest: seq<Slot>, t: string, now: nat, who: Who)
    requires x.thread == t
    ensures Held(Select(Select([x] + rest, OfThread(t)), ExpiredAt(now)), who)
         == Held(Select(Select(rest, OfThread(t)), ExpiredAt(now)), who)
            + (if Stale(x.entry, now) then One(x.entry.message, who) else 0)
  {
    assert ([x] + rest)[1..] == rest;
    var mine := Select(rest, OfThread(t));
    assert ([x] + mine)[1..] == mine;
    HeldOne(x, Select(mine, ExpiredAt(now)), who);
  }

  /** The sweep rejects exactly the requests that leave the log with it. */
  lemma {:induction false} SweepCount(log: seq<Slot>, now: nat, order: seq<string>, who: Who)
    requires forall i, j :: 0 <= i < j < |order| ==> order[i] != order[j]
    requires forall x :: x in log ==> x.thread in order
    ensures Held(ExpirySlots(log, now, order), who) + Held(Select(log, LiveAt(now)), who) == Held(log, who)
  {
    hide ExpirySlots;
    if log == [] {
      EmptySweep(now, order);
    } else {
      var x, rest := log[0], log[1..];
      assert log == [x] + rest;
      SweepCount(rest, now, order, who);
      SweepOneMore(x, rest, now, order, who);
      HeldOne(x, Select(rest, LiveAt(now)), who);
    }
  }

  lemma {:induction false} EmptySweep(now: nat, order: seq<string>)
    ensures ExpirySlots([], now, order) == []
  {
    if order != [] {
      EmptySweep(now, order[1..]);
    }
  }

  lemma RemoveAtCount(log: seq<Slot>, i: nat, who: Who)
    requires i < |log|
    ensures Held(RemoveAt(log, i), who) + One(log[i].entry.message, who) == Held(log, who)
  {
    SplitAt(log, i);
    SplitCount(log[..i], log[i], log[i + 1..], who);
  }

  lemma SplitCount(a: seq<Slot>, x: Slot, b: seq<Slot>, who: Who)
    ensures Held(a + ([x] + b), who) == Held(a + b, who) + One(x.entry.message, who)
  {
    HeldConcat(a, [x] + b, who);
    HeldConcat(a, b, who);
    HeldOne(x, b, who);
  }

  lemma {:induction false} RelieveCount(p: Pressure, log: seq<Slot>, t: string, size: nat, interactive: bool, who: Who)
    ensures var r := Relieve(p, log, t, size, interactive);
            Held(r.log, who) + Held(r.victims, who) == Held(log, who)
    decreases |log|
  {
    RelieveUnfold(p, log, t, size, interactive);
    var i := OldestEvictable(log, Scope(p, t), interactive);
    if Over(p, log, t, size) && i < |log| {
      var left := RemoveAt(log, i);
      RemoveAtCount(log, i, who);
      RelieveCount(p, left, t, size, interactive, who);
      HeldOne(log[i], Relieve(p, left, t, size, interactive).victims, who);
    }
  }

  lemma AdmitCount(log: seq<Slot>, t: string, size: nat, interactive: bool, who: Who)
    ensures var a := Admit(log, t, size, interactive);
            Held(a.log, who) + Held(a.victims, who) == Held(log, who)
  {
    var r1 := Relieve(TooManyThreads, log, t, size, interactive);
    var r2 := Relieve(QueueFull, r1.log, t, size, interactive);
    var r3 := Relieve(TooManyBytes, r2.log, t, size, interactive);
    RelieveCount(TooManyThreads, log, t, size, interactive, who);
    RelieveCount(QueueFull, r1.log, t, size, interactive, who);
    RelieveCount(TooManyBytes, r2.log, t, size, interactive, who);
    HeldConcat(r1.victims, r2.victims, who);
    HeldConcat(r1.victims + r2.victims, r3.victims, who);
  }

  lemma ThreeRejections(a: seq<Slot>, b: seq<Slot>, frames: seq<Frame>, who: Who)
    ensures Replies((Rejections(a, EXPIRED) + Rejections(b, EVICTED)) + frames, who)
         == Held(a, who) + Held(b, who) + Replies(frames, who)
  {
    RejectionsCount(a, EXPIRED, who);
    RejectionsCount(b, EVICTED, who);
    RepliesConcat(Rejections(a, EXPIRED), Rejections(b, EVICTED), who);
    RepliesConcat(Rejections(a, EXPIRED) + Rejections(b, EVICTED), frames, who);
  }

  lemma DeferFrames(s: State, t: string, m: ThreadMessage, now: nat, order: seq<string>)
    ensures var a := Admission(s, t, m, now);
            Defer(s, t, m, now, order).out.outbound ==
            (Rejections(ExpirySlots(s.log, now, order), EXPIRED) + Rejections(a.victims, EVICTED))
            + (if a.ok then [] else Rejection(m, Refusal(m)))
  {
    var f := Rejections(ExpirySlots(s.log, now, order), EXPIRED) + Rejections(Admission(s, t, m, now).victims, EVICTED);
    assert f + [] == f;
  }

  /** Deferral: the incoming request is held or rejected, and so is everything that made way for it. */
  lemma DeferConserves(s: State, t: string, m: ThreadMessage, now: nat, order: seq<string>, who: Who)
    requires Enumerates(order, Threads(s.log))
    ensures var r := Defer(s, t, m, now, order);
            && r.s.pending == s.pending
            && Held(r.s.log, who) + Replies(r.out.outbound, who) == Held(s.log, who) + One(m, who)
  {
    var swept := ExpirySlots(s.log, now, order);
    var a := Admission(s, t, m, now);
    var slot := Slot(t, Entry(m, now, s.nextSequence, m.Size()));
    SweepHolds(s.log, now, order, who);
    AdmitCount(Select(s.log, LiveAt(now)), t, m.Size(), m.Interactive?, who);
    DeferFrames(s, t, m, now, order);
    ThreeRejections(swept, a.victims, if a.ok then [] else Rejection(m, Refusal(m)), who);
    OneRejection(m, Refusal(m), who);
    HeldConcat(a.log, [slot], who);
    HeldJust(slot, who);
  }

  lemma HeldJust(x: Slot, who: Who)
    ensures Held([x], who) == One(x.entry.message, who)
  {
    assert [x][1..] == [];
  }

  lemma SweepHolds(log: seq<Slot>, now: nat, order: seq<string>, who: Who)
    requires Enumerates(order, Threads(log))
    ensures Held(ExpirySlots(log, now, order), who) + Held(Select(log, LiveAt(now)), who) == Held(log, who)
  {
    assert forall x :: x in log ==> x.thread in Threads(log);
    SweepCount(log, now, order, who);
  }

  // ---- Presentation and replay ----

  ghost predicate PendingKeyed(s: State) {
    forall k :: k in s.pending ==> RequestKey(s.pending[k].rawId) == k
  }

  /** The pending request that presenting this one displaces. */
  function Displaced(s: State, r: Request, who: Who): nat {
    var key := RequestKey(r.id);
    if !LacksThread(r) && key in s.pending && Is(who, s.pending[key].rawId) then 1 else 0
  }

  lemma PresentConserves(s: State, r: Request, who: Who)
    requires PendingKeyed(s)
    ensures var p := Present(s, r);
            && PendingKeyed(p.s)
            && Pending(p.s.pending, who) + Replies(p.out.outbound, who) + Displaced(s, r, who)
               == Pending(s.pending, who) + One(Interactive(r), who)
  {
    var p := Present(s, r);
    if LacksThread(r) {
      assert p.out.outbound[1..] == [];
    }
  }

  /**
   Presenting a request adds it to the pending ones, and loses none, exactly when its key is not
   taken: two ids with one string form displace each other.
   */
  lemma PresentKeepsAll(s: State, r: Request)
    requires PendingKeyed(s) && !LacksThread(r)
    ensures (forall id :: Pending(Present(s, r).s.pending, ById(id))
                       == Pending(s.pending, ById(id)) + One(Interactive(r), ById(id)))
            <==> RequestKey(r.id) !in s.pending
  {
    var key := RequestKey(r.id);
    if key in s.pending {
      var lost := s.pending[key].rawId;
      assert Pending(s.pending, ById(lost)) == 1;
      assert Pending(Present(s, r).s.pending, ById(lost)) <= 1;
      assert Pending(Present(s, r).s.pending, ById(lost)) != Pending(s.pending, ById(lost)) + One(Interactive(r), ById(lost));
    } else {
      forall id ensures Pending(Present(s, r).s.pending, ById(id))
                     == Pending(s.pending, ById(id)) + One(Interactive(r), ById(id)) {
        PresentConserves(s, r, ById(id));
      }
    }
  }

  lemma {:induction false} DrainCount(log: seq<Slot>, t: string, who: Who)
    ensures Held(Select(log, OffThread(t)), who) + InFlight(Replays(Queue(log, t)), who) == Held(log, who)
  {
    if log != [] {
      DrainCount(log[1..], t, who);
      var rest := Queue(log[1..], t);
      if log[0].thread == t {
        assert Replays([log[0].entry] + rest)[1..] == Replays(rest);
      } else {
        HeldOne(log[0], Select(log[1..], OffThread(t)), who);
      }
    }
  }

  lemma {:induction false} SpawnsAreNotRequests(threads: seq<string>, card: string, who: Who)
    ensures InFlight(SpawnTasks(threads, card), who) == 0
  {
    if threads != [] {
      SpawnsAreNotRequests(threads[1..], card, who);
      var t := threads[0];
      var head: seq<Task> := if t == "" then [] else (if card == "" then [] else [Adopt(t, card)]) + [Identify(t)];
      InFlightConcat(head, SpawnTasks(threads[1..], card), who);
      InFlightConcat(if card == "" then [] else [Adopt(t, card)], [Identify(t)], who);
      assert [Adopt(t, card)][1..] == [] && [Identify(t)][1..] == [];
    }
  }

  lemma DeliverConserves(s: State, n: Note, who: Who)
    ensures var m := DeliverNote(s, n);
            && m.s.pending == s.pending && m.s.log == s.log
            && InFlight(m.more, who) == 0 && m.out.outbound == []
  {
    ObserveFrame(s, n.body, ParentOf(s, n.thread));
    SpawnsAreNotRequests(n.body.Spawns(), CardFor(ParentOf(s, n.thread), n.body), who);
  }

  function TaskLoses(s: State, task: Task, now: nat, who: Who): nat {
    if task.Replay? && task.entry.message.Interactive? && !Stale(task.entry, now)
    then Displaced(s, task.entry.message.request, who) else 0
  }

  /** The pending requests displaced while these tasks are worked off. */
  function WorkLoses(s: State, tasks: seq<Task>, now: nat, who: Who): nat
    decreases |s.log|, Weights(tasks)
  {
    if tasks == [] then 0
    else
      StepTaskShrinks(s, tasks, now);
      var m := StepTask(s, tasks[0], now);
      TaskLoses(s, tasks[0], now, who) + WorkLoses(m.s, m.more + tasks[1..], now, who)
  }

  lemma InFlightOne(task: Task, who: Who)
    ensures InFlight([task], who) == if task.Replay? then One(task.entry.message, who) else 0
  {
    assert [task][1..] == [];
  }

  /** A task moves requests between the places they live in, has them rejected, or displaces them. */
  lemma TaskConserves(s: State, task: Task, now: nat, who: Who)
    requires PendingKeyed(s)
    ensures var m := StepTask(s, task, now);
            && PendingKeyed(m.s)
            && Live(m.s, m.more, who) + Replies(m.out.outbound, who) + TaskLoses(s, task, now, who)
               == Live(s, [task], who)
  {
    hide DeliverNote, Held, Select, Queue, Displaced, Present;
    InFlightOne(task, who);
    match task {
      case Deliver(n) => DeliverConserves(s, n, who);
      case Replay(e) => ReplayConserves(s, e, now, who);
      case Drain(t) => DrainCount(s.log, t, who);
      case Adopt(t, card) => InFlightOne(Drain(t), who);
      case Identify(t) => OneFrame(ThreadRead(s.nextId, t), who);
    }
  }

  lemma ReplayConserves(s: State, e: Entry, now: nat, who: Who)
    requires PendingKeyed(s)
    ensures var m := StepTask(s, Replay(e), now);
            && PendingKeyed(m.s) && m.s.log == s.log && InFlight(m.more, who) == 0
            && Pending(m.s.pending, who) + Replies(m.out.outbound, who) + TaskLoses(s, Replay(e), now, who)
               == Pending(s.pending, who) + One(e.message, who)
  {
    if Stale(e, now) {
      OneRejection(e.message, EXPIRED, who);
    } else if e.message.Notification? {
      DeliverConserves(s, e.message.note, who);
    } else {
      PresentConserves(s, e.message.request, who);
    }
  }

  lemma LiveSplit(s: State, a: seq<Task>, b: seq<Task>, who: Who)
    ensures Live(s, a + b, who) == Live(s, a, who) + InFlight(b, who)
  {
    InFlightConcat(a, b, who);
  }

  lemma {:induction false} WorkConserves(s: State, tasks: seq<Task>, now: nat, who: Who)
    requires PendingKeyed(s)
    ensures var w := Work(s, tasks, now);
            && PendingKeyed(w.s)
            && Live(w.s, [], who) + Replies(w.out.outbound, who) + WorkLoses(s, tasks, now, who) == Live(s, tasks, who)
    decreases |s.log|, Weights(tasks)
  {
    if tasks != [] {
      StepTaskShrinks(s, tasks, now);
      var task, rest := tasks[0], tasks[1..];
      assert tasks == [task] + rest;
      var m := StepTask(s, task, now);
      TaskConserves(s, task, now, who);
      LiveSplit(s, [task], rest, who);
      LiveSplit(m.s, m.more, rest, who);
      WorkConserves(m.s, m.more + rest, now, who);
      RepliesConcat(m.out.outbound, Work(m.s, m.more + rest, now).out.outbound, who);
    }
  }

  // ---- Steps and runs ----

  function LineLoses(s: State, line: Line, now: nat, who: Who): nat {
    match line
    case NoteLine(n) =>
      if Foreign(s, n.thread) && !n.body.ThreadStarted? then 0 else WorkLoses(s, [Deliver(n)], now, who)
    case RequestLine(r) => if !LacksThread(r) && Foreign(s, r.thread) then 0 else Displaced(s, r, who)
    case Reply(id, thread, hasError, _) =>
      var root := Opened(s, id, thread, hasError);
      if root.Some? then WorkLoses(s.(root := root), [Drain(root.value)], now, who) else 0
    case Unparsable => 0
    case UnhandledRequest => 0
  }

  /** The pending requests this step displaces. */
  function StepLoses(s: State, a: Action, who: Who): nat {
    if a.Hear? then LineLoses(s, a.line, a.now, who) else 0
  }

  ghost predicate Accounts(s: State, received: nat, lost: nat, r: Result, who: Who) {
    && PendingKeyed(r.s)
    && Live(r.s, [], who) + Replies(r.out.outbound, who) + lost == Live(s, [], who) + received
  }

  lemma NoteConserves(s: State, n: Note, now: nat, order: seq<string>, who: Who)
    requires PendingKeyed(s) && Enumerates(order, Threads(s.log))
    ensures Accounts(s, 0, LineLoses(s, NoteLine(n), now, who), HandleNotification(s, n, now, order), who)
  {
    if Foreign(s, n.thread) && !n.body.ThreadStarted? {
      DeferConserves(s, n.thread.value, Notification(n), now, order, who);
    } else {
      InFlightOne(Deliver(n), who);
      WorkConserves(s, [Deliver(n)], now, who);
    }
  }

  lemma RequestConserves(s: State, r: Request, now: nat, order: seq<string>, who: Who)
    requires PendingKeyed(s) && Enumerates(order, Threads(s.log))
    ensures Accounts(s, One(Interactive(r), who), LineLoses(s, RequestLine(r), now, who),
                     HandleRequest(s, r, now, order), who)
  {
    if !LacksThread(r) && Foreign(s, r.thread) {
      DeferConserves(s, r.thread.value, Interactive(r), now, order, who);
    } else {
      PresentConserves(s, r, who);
    }
  }

  lemma OpenRootConserves(s: State, root: string, now: nat, who: Who)
    requires PendingKeyed(s)
    ensures Accounts(s, 0, WorkLoses(s.(root := Some(root)), [Drain(root)], now, who), OpenRoot(s, root, now), who)
  {
    var s1 := s.(root := Some(root));
    InFlightOne(Drain(root), who);
    WorkConserves(s1, [Drain(root)], now, who);
    var w := Work(s1, [Drain(root)], now);
    assert OpenRoot(s, root, now).out.outbound == w.out.outbound;
  }

  lemma ReplyConserves(s: State, line: Line, now: nat, who: Who)
    requires PendingKeyed(s) && line.Reply?
    ensures Accounts(s, 0, LineLoses(s, line, now, who),
                     HandleReply(s, line.id, line.thread, line.hasError, line.payload, now), who)
  {
    var root := Opened(s, line.id, line.thread, line.hasError);
    if root.Some? {
      OpenRootConserves(s, root.value, now, who);
    } else {
      SettlingFrame(s, line.id, line.thread, line.hasError, line.payload);
    }
  }

  lemma TickConserves(s: State, now: nat, order: seq<string>, who: Who)
    requires PendingKeyed(s) && Enumerates(order, Threads(s.log))
    ensures Accounts(s, 0, 0, Expire(s, now, order), who)
  {
    SweepHolds(s.log, now, order, who);
    RejectionsCount(ExpirySlots(s.log, now, order), EXPIRED, who);
  }

  lemma InterruptConserves(s: State, who: Who)
    ensures FrameInterrupt(s).s.pending == s.pending && FrameInterrupt(s).s.log == s.log
    ensures Replies(FrameInterrupt(s).frames, who) == 0
  {
    if s.root.Some? && s.activeTurn.Some? {
      OneFrame(TurnInterrupt(s.nextId, s.root.value, s.activeTurn.value), who);
    }
  }

  lemma RespondConserves(s: State, key: string, response: Response, who: Who)
    requires PendingKeyed(s) && key in s.pending
    ensures Accounts(s, 0, 0, Framing(Respond(s, key, response)), who)
  {
    var p := s.pending[key];
    var s1 := s.(pending := s.pending - {key});
    var reply := [ResultReply(p.rawId, AnswerFor(p, response))];
    assert reply[1..] == [];
    InterruptConserves(s1, who);
    RepliesConcat(reply, FrameInterrupt(s1).frames, who);
  }

  lemma FramingConserves(s: State, a: Action, who: Who)
    requires a.UserTurn? || a.Interrupt? || a.Steer? || a.Ask?
    ensures Step(s, a).s.pending == s.pending && Step(s, a).s.log == s.log
    ensures Replies(Step(s, a).out.outbound, who) == 0
  {
    var f := Step(s, a).out.outbound;
    if f != [] {
      assert f == [f[0]];
      OneFrame(f[0], who);
    }
  }

  lemma LineConserves(s: State, line: Line, now: nat, order: seq<string>, who: Who)
    requires PendingKeyed(s) && Enumerates(order, Threads(s.log))
    ensures Accounts(s, Arriving(line, who), LineLoses(s, line, now, who), ParseLine(s, line, now, order), who)
  {
    match line {
      case NoteLine(n) => NoteConserves(s, n, now, order, who);
      case RequestLine(r) => RequestConserves(s, r, now, order, who);
      case Reply(_, _, _, _) => ReplyConserves(s, line, now, who);
      case Unparsable =>
      case UnhandledRequest =>
    }
  }

  lemma ReactionConserves(s: State, kind: PendingKind, key: string, response: Response, who: Who)
    requires PendingKeyed(s)
    ensures Accounts(s, 0, 0, Step(s, Reacts(kind, key, response)), who)
  {
    if Answerable(s, kind, key) {
      RespondConserves(s, key, response, who);
    }
  }

  /** Each step accounts for every request: what was live or arrived is live, replied to or displaced. */
  lemma StepConserves(s: State, clock: nat, a: Action, who: Who)
    requires PendingKeyed(s) && Possible(s, clock, a)
    ensures Accounts(s, Arrives(a, who), StepLoses(s, a, who), Step(s, a), who)
  {
    match a {
      case Hear(line, now, order) => LineConserves(s, line, now, order, who);
      case Tick(now, order) => TickConserves(s, now, order, who);
      case Reacts(kind, key, response) => ReactionConserves(s, kind, key, response, who);
      case UserTurn(_, _) => FramingConserves(s, a, who);
      case Interrupt => FramingConserves(s, a, who);
      case Steer(_) => FramingConserves(s, a, who);
      case Ask(_, _) => FramingConserves(s, a, who);
    }
  }

  /** The requests displaced over a run by others of the same key. */
  function Lost(s: State, run: seq<Action>, who: Who): nat {
    if run == [] then 0
    else
      var before := run[..|run| - 1];
      Lost(s, before, who) + StepLoses(Run(s, before).s, run[|run| - 1], who)
  }

  /**
   Over any run, the requests received are those live, those replied to and those displaced while
   pending, each counted once.
   */
  lemma {:induction false} RequestsAreConserved(ctx: StartupCtx, run: seq<Action>, who: Who)
    requires Feasible(Initial(ctx), run)
    ensures var r := Run(Initial(ctx), run);
            && PendingKeyed(r.s)
            && Received(run, who) == Live(r.s, [], who) + Replies(Written(r.outs), who) + Lost(Initial(ctx), run, who)
  {
    if run != [] {
      var n := |run| - 1;
      var b := Run(Initial(ctx), run[..n]);
      RequestsAreConserved(ctx, run[..n], who);
      StepConserves(b.s, Clock(run[..n]), run[n], who);
      assert Run(Initial(ctx), run).outs[..n] == b.outs;
      RepliesConcat(Written(b.outs), Step(b.s, run[n]).out.outbound, who);
    }
  }

  // ---- When nothing is displaced ----

  /** No key names two live requests. */
  ghost predicate KeysSingle(s: State, tasks: seq<Task>) {
    forall k :: Live(s, tasks, ByKey(k)) <= 1
  }

  /** A live key is not pending while one of its requests is still in flight. */
  lemma InFlightIsNotPending(s: State, r: Request, rest: seq<Task>, e: Entry)
    requires PendingKeyed(s) && KeysSingle(s, [Replay(e)] + rest) && e.message == Interactive(r)
    ensures RequestKey(r.id) !in s.pending
  {
    var who := ByKey(RequestKey(r.id));
    LiveSplit(s, [Replay(e)], rest, who);
    InFlightOne(Replay(e), who);
    assert Live(s, [Replay(e)] + rest, who) <= 1;
  }

  lemma TaskKeepsSingle(s: State, task: Task, rest: seq<Task>, now: nat)
    requires PendingKeyed(s) && KeysSingle(s, [task] + rest)
    ensures var m := StepTask(s, task, now); PendingKeyed(m.s) && KeysSingle(m.s, m.more + rest)
    ensures forall who :: TaskLoses(s, task, now, who) == 0
  {
    var m := StepTask(s, task, now);
    TaskConserves(s, task, now, ByKey(""));
    forall k ensures Live(m.s, m.more + rest, ByKey(k)) <= 1 {
      TaskConserves(s, task, now, ByKey(k));
      LiveSplit(s, [task], rest, ByKey(k));
      LiveSplit(m.s, m.more, rest, ByKey(k));
      assert Live(s, [task] + rest, ByKey(k)) <= 1;
    }
    if task.Replay? && task.entry.message.Interactive? {
      InFlightIsNotPending(s, task.entry.message.request, rest, task.entry);
    }
  }

  lemma {:induction false} WorkLosesNone(s: State, tasks: seq<Task>, now: nat, who: Who)
    requires PendingKeyed(s) && KeysSingle(s, tasks)
    ensures WorkLoses(s, tasks, now, who) == 0
    decreases |s.log|, Weights(tasks)
  {
    if tasks != [] {
      StepTaskShrinks(s, tasks, now);
      assert tasks == [tasks[0]] + tasks[1..];
      TaskKeepsSingle(s, tasks[0], tasks[1..], now);
      var m := StepTask(s, tasks[0], now);
      WorkLosesNone(m.s, m.more + tasks[1..], now, who);
    }
  }

  /** A task without a request in it adds nothing to what is live. */
  lemma SingleWith(s: State, w: State, task: Task)
    requires KeysSingle(s, []) && !task.Replay? && w.log == s.log && w.pending == s.pending
    ensures KeysSingle(w, [task])
  {
    forall k ensures Live(w, [task], ByKey(k)) <= 1 {
      InFlightOne(task, ByKey(k));
      assert Live(s, [], ByKey(k)) <= 1;
    }
  }

  /** An arriving request does not bear the key of one that is still live. */
  ghost predicate Fresh(s: State, a: Action) {
    a.Hear? && a.line.RequestLine? ==> Live(s, [], ByKey(RequestKey(a.line.request.id))) == 0
  }

  lemma StepLosesNone(s: State, a: Action, who: Who)
    requires PendingKeyed(s) && KeysSingle(s, []) && Fresh(s, a)
    ensures StepLoses(s, a, who) == 0
  {
    if a.Hear? {
      match a.line {
        case NoteLine(n) =>
          SingleWith(s, s, Deliver(n));
          WorkLosesNone(s, [Deliver(n)], a.now, who);
        case RequestLine(r) =>
          assert Pending(s.pending, ByKey(RequestKey(r.id))) == 0;
        case Reply(id, thread, hasError, _) =>
          var root := Opened(s, id, thread, hasError);
          if root.Some? {
            SingleWith(s, s.(root := root), Drain(root.value));
            WorkLosesNone(s.(root := root), [Drain(root.value)], a.now, who);
          }
        case Unparsable =>
        case UnhandledRequest =>
      }
    }
  }

  /** No request arrives under the key of a live one. */
  ghost predicate FreshKeys(s: State, run: seq<Action>) {
    run == [] || (
      var before := run[..|run| - 1];
      FreshKeys(s, before) && Fresh(Run(s, before).s, run[|run| - 1]))
  }

  /** If no request arrives under the key of a live one, none is displaced. */
  lemma {:induction false} FreshKeysLoseNone(ctx: StartupCtx, run: seq<Action>)
    requires Feasible(Initial(ctx), run) && FreshKeys(Initial(ctx), run)
    ensures var r := Run(Initial(ctx), run);
            PendingKeyed(r.s) && KeysSingle(r.s, []) && forall who :: Lost(Initial(ctx), run, who) == 0
  {
    if run != [] {
      var n := |run| - 1;
      var b := Run(Initial(ctx), run[..n]);
      FreshKeysLoseNone(ctx, run[..n]);
      forall who ensures Lost(Initial(ctx), run, who) == 0 {
        StepLosesNone(b.s, run[n], who);
      }
      KeysStaySingle(b.s, Clock(run[..n]), run[n]);
    }
  }

  lemma KeysStaySingle(s: State, clock: nat, a: Action)
    requires PendingKeyed(s) && KeysSingle(s, []) && Fresh(s, a) && Possible(s, clock, a)
    ensures PendingKeyed(Step(s, a).s) && KeysSingle(Step(s, a).s, [])
  {
    StepConserves(s, clock, a, ByKey(""));
    forall k ensures Live(Step(s, a).s, [], ByKey(k)) <= 1 {
      StepConserves(s, clock, a, ByKey(k));
      assert Live(s, [], ByKey(k)) <= 1;
    }
  }

  /** How often a request is held, pending, answered and rejected. */
  datatype Fate = Fate(held: nat, pending: nat, answered: nat, rejected: nat)

  function FateOf(r: Outcome, who: Who): Fate {
    Fate(Held(r.s.log, who), Pending(r.s.pending, who), Answered(Written(r.outs), who), Rejected(Written(r.outs), who))
  }

  predicate OneOfFour(f: Fate) {
    f in {Fate(1, 0, 0, 0), Fate(0, 1, 0, 0), Fate(0, 0, 1, 0), Fate(0, 0, 0, 1)}
  }

  lemma FatesAddUp(r: Outcome, who: Who, lost: nat)
    requires Live(r.s, [], who) + Replies(Written(r.outs), who) + lost == 1
    ensures OneOfFour(FateOf(r, who)) <==> lost == 0
  {
    var f := FateOf(r, who);
    assert f.held + f.pending + f.answered + f.rejected + lost == 1;
  }

  /** A request received once meets exactly one of four fates, unless it was displaced while pending. */
  lemma ExactlyOneFate(ctx: StartupCtx, run: seq<Action>, id: JsonId)
    requires Feasible(Initial(ctx), run) && Received(run, ById(id)) == 1
    ensures OneOfFour(FateOf(Run(Initial(ctx), run), ById(id))) <==> Lost(Initial(ctx), run, ById(id)) == 0
    ensures FreshKeys(Initial(ctx), run) ==> OneOfFour(FateOf(Run(Initial(ctx), run), ById(id)))
  {
    RequestsAreConserved(ctx, run, ById(id));
    FatesAddUp(Run(Initial(ctx), run), ById(id), Lost(Initial(ctx), run, ById(id)));
    if FreshKeys(Initial(ctx), run) {
      FreshKeysLoseNone(ctx, run);
    }
  }

  const ROOTED := StartupCtx(Some("root"), Overrides(None, None, None, None), [])
  const FIRST := Request(Number(5), CommandApproval, Some("root"), None, None, 0)
  const SECOND := FIRST.(id := Text("5"))
  const COLLISION := [Hear(RequestLine(FIRST), 0, []), Hear(RequestLine(SECOND), 0, [])]

  lemma CollisionSteps()
    ensures var r1 := Present(Initial(ROOTED), FIRST);
            var r2 := Present(r1.s, SECOND);
            && r1 == Step(Initial(ROOTED), COLLISION[0]) && r2 == Step(r1.s, COLLISION[1])
            && r2.s.pending == map["5" := PendingServerReq(Text("5"), CommandApproval, None, Permission)]
            && r2.s.log == [] && r1.s.log == [] && r1.s.nextSequence == 0
            && r1.out.outbound == [] && r2.out.outbound == []
  {
    assert RequestKey(FIRST.id) == "5";
  }

  lemma TwoSteps(s: State, a: Action, b: Action)
    ensures var r := Step(s, a);
            && Run(s, [a, b][..1]) == Outcome(r.s, [r.out])
            && Run(s, [a, b]) == Outcome(Step(r.s, b).s, [r.out, Step(r.s, b).out])
  {
    hide Step;
    assert [a, b][..1] == [a] && [a][..0] == [];
    assert Run(s, []) == Outcome(s, []);
    assert Run(s, [a]) == Outcome(Step(s, a).s, [Step(s, a).out]);
  }

  lemma CollisionRun()
    ensures var r1 := Present(Initial(ROOTED), FIRST);
            var r2 := Present(r1.s, SECOND);
            && Run(Initial(ROOTED), COLLISION[..1]) == Outcome(r1.s, [r1.out])
            && Run(Initial(ROOTED), COLLISION) == Outcome(r2.s, [r1.out, r2.out])
            && r2.s.pending == map["5" := PendingServerReq(Text("5"), CommandApproval, None, Permission)]
            && r2.s.log == [] && r1.s.log == [] && r1.s.nextSequence == 0
            && r1.out.outbound == [] && r2.out.outbound == []
  {
    hide Step, Present, Run;
    TwoSteps(Initial(ROOTED), COLLISION[0], COLLISION[1]);
    CollisionSteps();
    assert COLLISION == [COLLISION[0], COLLISION[1]];
  }

  lemma CollisionIsFeasible()
    ensures Feasible(Initial(ROOTED), COLLISION)
  {
    CollisionRun();
    assert COLLISION[..1][..0] == [] && COLLISION[..1] == [COLLISION[0]];
    assert Feasible(Initial(ROOTED), []);
    assert Feasible(Initial(ROOTED), COLLISION[..1]);
  }

  lemma CollisionReceived()
    ensures Received(COLLISION, ById(FIRST.id)) == 1
  {
    assert COLLISION[..1] == [COLLISION[0]] && COLLISION[..1][..0] == [];
    assert Received(COLLISION[..1], ById(FIRST.id)) == 1;
  }

  /** Two root requests whose ids print alike: the first is never answered, held, pending or rejected. */
  lemma CollidingIdsLoseARequest()
    ensures Feasible(Initial(ROOTED), COLLISION) && Received(COLLISION, ById(FIRST.id)) == 1
    ensures FateOf(Run(Initial(ROOTED), COLLISION), ById(FIRST.id)) == Fate(0, 0, 0, 0)
  {
    CollisionRun();
    CollisionIsFeasible();
    CollisionReceived();
    NothingWritten(Run(Initial(ROOTED), COLLISION).outs);
  }

  lemma {:induction false} NothingWritten(outs: seq<ParsedLine>)
    requires forall out :: out in outs ==> out.outbound == []
    ensures Written(outs) == []
  {
    if outs != [] {
      NothingWritten(outs[..|outs| - 1]);
    }
  }
}
