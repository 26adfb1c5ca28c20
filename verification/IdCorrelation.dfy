/**
 JSON-RPC ids in both directions: the client's ids count up without gaps from 3, a reply resolves
 the request it was framed for and only once, and a spawned thread is looked up at most once.
 */
module IdCorrelation {
  import opened AppServerSpec
  import opened AppServerTypes
  import opened DeferredBuffer
  import opened SessionInvariant
  import opened Wrappers

  // ---- Ids as they leave the client ----

  function IdOf(frame: Frame): seq<int> {
    match frame
    case ThreadRead(id, _) => [id]
    case Tracked(id, _, _) => [id]
    case TurnStart(id, _, _, _, _, _, _) => [id]
    case TurnInterrupt(id, _, _) => [id]
    case TurnSteer(id, _, _, _) => [id]
    case _ => []
  }

  function ClientIds(frames: seq<Frame>): seq<int> {
    if frames == [] then [] else IdOf(frames[0]) + ClientIds(frames[1..])
  }

  function Range(a: int, b: int): (r: seq<int>)
    decreases b - a
  {
    if a >= b then [] else [a] + Range(a + 1, b)
  }

  function LookedUp(frames: seq<Frame>): seq<string> {
    if frames == [] then []
    else (if frames[0].ThreadRead? then [frames[0].thread] else []) + LookedUp(frames[1..])
  }

  /** Everything a run wrote to the child, in order. */
  function Written(outs: seq<ParsedLine>): seq<Frame> {
    if outs == [] then [] else Written(outs[..|outs| - 1]) + outs[|outs| - 1].outbound
  }

  lemma FramesConcat(a: seq<Frame>, b: seq<Frame>)
    ensures ClientIds(a + b) == ClientIds(a) + ClientIds(b)
    ensures LookedUp(a + b) == LookedUp(a) + LookedUp(b)
  {
    IdsConcat(a, b);
    LookupsConcat(a, b);
  }

  lemma {:induction false} IdsConcat(a: seq<Frame>, b: seq<Frame>)
    ensures ClientIds(a + b) == ClientIds(a) + ClientIds(b)
  {
    if a == [] {
      assert a + b == b;
    } else {
      assert (a + b)[0] == a[0] && (a + b)[1..] == a[1..] + b;
      IdsConcat(a[1..], b);
      Associate(IdOf(a[0]), ClientIds(a[1..]), ClientIds(b));
    }
  }

  lemma {:induction false} LookupsConcat(a: seq<Frame>, b: seq<Frame>)
    ensures LookedUp(a + b) == LookedUp(a) + LookedUp(b)
  {
    if a == [] {
      assert a + b == b;
    } else {
      assert (a + b)[0] == a[0] && (a + b)[1..] == a[1..] + b;
      LookupsConcat(a[1..], b);
      Associate(if a[0].ThreadRead? then [a[0].thread] else [], LookedUp(a[1..]), LookedUp(b));
    }
  }

  lemma {:induction false} RangeConcat(a: int, b: int, c: int)
    requires a <= b <= c
    ensures Range(a, b) + Range(b, c) == Range(a, c)
    decreases b - a
  {
    if a < b {
      RangeConcat(a + 1, b, c);
    }
  }

  lemma {:induction false} RejectionsHaveNoIds(slots: seq<Slot>, reason: string)
    ensures ClientIds(Rejections(slots, reason)) == [] && LookedUp(Rejections(slots, reason)) == []
  {
    if slots != [] {
      RejectionsHaveNoIds(slots[1..], reason);
      FramesConcat(Rejection(slots[0].entry.message, reason), Rejections(slots[1..], reason));
    }
  }

  /** The frames of one step carry exactly the ids it used up, and look up exactly the threads it newly saw. */
  ghost predicate Accounted(s: State, w: State, frames: seq<Frame>) {
    && s.nextId <= w.nextId
    && ClientIds(frames) == Range(s.nextId, w.nextId)
    && (forall i, j :: 0 <= i < j < |LookedUp(frames)| ==> LookedUp(frames)[i] != LookedUp(frames)[j])
    && (forall t :: t in LookedUp(frames) <==> t in w.seen && t !in s.seen)
    && s.seen <= w.seen
  }

  lemma AccountedThen(s: State, m: State, w: State, f: seq<Frame>, g: seq<Frame>)
    requires Accounted(s, m, f) && Accounted(m, w, g)
    ensures Accounted(s, w, f + g)
  {
    FramesConcat(f, g);
    RangeConcat(s.nextId, m.nextId, w.nextId);
    var a, b := LookedUp(f), LookedUp(g);
    forall i, j | 0 <= i < j < |a + b| ensures (a + b)[i] != (a + b)[j] {
      if i < |a| <= j {
        assert a[i] in a && b[j - |a|] in b;
      }
    }
  }

  lemma DeliverAccounted(s: State, n: Note)
    ensures var m := DeliverNote(s, n); Accounted(s, m.s, m.out.outbound)
  {
    ObserveFrame(s, n.body, ParentOf(s, n.thread));
    Unaccountable(s, DeliverNote(s, n).s, []);
  }

  lemma ReplayAccounted(s: State, e: Entry, now: nat)
    ensures var m := StepTask(s, Replay(e), now); Accounted(s, m.s, m.out.outbound)
  {
    if !Stale(e, now) {
      match e.message {
        case Notification(n) => DeliverAccounted(s, n);
        case Interactive(r) => PresentAccounted(s, r);
      }
    } else {
      OneRejected(e);
    }
  }

  lemma OneRejected(e: Entry)
    ensures ClientIds(Rejection(e.message, EXPIRED)) == [] && LookedUp(Rejection(e.message, EXPIRED)) == []
  {
    var f := Rejection(e.message, EXPIRED);
    assert f == [] || f[1..] == [];
  }

  lemma IdentifyAccounted(s: State, t: string)
    ensures var m := StepTask(s, Identify(t), 0); Accounted(s, m.s, m.out.outbound)
  {
    if t !in s.seen {
      var f := [ThreadRead(s.nextId, t)];
      assert f[1..] == [];
      assert Range(s.nextId + 1, s.nextId + 1) == [];
    } else {
      Unaccountable(s, s, []);
    }
  }

  lemma TaskAccounted(s: State, task: Task, now: nat)
    ensures var m := StepTask(s, task, now); Accounted(s, m.s, m.out.outbound)
  {
    match task {
      case Deliver(n) => DeliverAccounted(s, n);
      case Replay(e) => ReplayAccounted(s, e, now);
      case Identify(t) => IdentifyAccounted(s, t);
      case Adopt(_, _) => Unaccountable(s, StepTask(s, task, now).s, []);
      case Drain(_) => Unaccountable(s, StepTask(s, task, now).s, []);
    }
  }

  lemma {:induction false} WorkAccounted(s: State, tasks: seq<Task>, now: nat)
    ensures var w := Work(s, tasks, now); Accounted(s, w.s, w.out.outbound)
    decreases |s.log|, Weights(tasks)
  {
    if tasks != [] {
      StepTaskShrinks(s, tasks, now);
      TaskAccounted(s, tasks[0], now);
      var m := StepTask(s, tasks[0], now);
      WorkAccounted(m.s, m.more + tasks[1..], now);
      var w := Work(m.s, m.more + tasks[1..], now);
      AccountedThen(s, m.s, w.s, m.out.outbound, w.out.outbound);
    }
  }

  /** Frames that carry no client id account for a step that uses none. */
  lemma Unaccountable(s: State, w: State, frames: seq<Frame>)
    requires w.nextId == s.nextId && w.seen == s.seen
    requires ClientIds(frames) == [] && LookedUp(frames) == []
    ensures Accounted(s, w, frames)
  {
  }

  lemma DeferAccounted(s: State, t: string, m: ThreadMessage, now: nat, order: seq<string>)
    ensures var r := Defer(s, t, m, now, order); Accounted(s, r.s, r.out.outbound)
  {
    hide Admit, ExpirySlots;
    var r := Defer(s, t, m, now, order);
    var a := Admission(s, t, m, now);
    var swept := Rejections(ExpirySlots(s.log, now, order), EXPIRED);
    var evicted := Rejections(a.victims, EVICTED);
    RejectionsHaveNoIds(ExpirySlots(s.log, now, order), EXPIRED);
    RejectionsHaveNoIds(a.victims, EVICTED);
    FramesConcat(swept, evicted);
    FramesConcat(swept + evicted, Rejection(m, Refusal(m)));
    Unaccountable(s, r.s, r.out.outbound);
  }

  lemma OpenRootAccounted(s: State, root: string, now: nat)
    ensures var r := OpenRoot(s, root, now); Accounted(s, r.s, r.out.outbound)
  {
    var w := Work(s.(root := Some(root)), [Drain(root)], now);
    WorkAccounted(s.(root := Some(root)), [Drain(root)], now);
    assert OpenRoot(s, root, now).out.outbound == w.out.outbound;
  }

  lemma ReplyAccounted(s: State, id: Option<int>, thread: Option<ThreadInfo>, hasError: bool, payload: string, now: nat)
    ensures var r := HandleReply(s, id, thread, hasError, payload, now); Accounted(s, r.s, r.out.outbound)
  {
    var root := Opened(s, id, thread, hasError);
    if root.Some? {
      OpenRootAccounted(s, root.value, now);
    } else {
      SettlingFrame(s, id, thread, hasError, payload);
      Unaccountable(s, SettleReply(s, id, thread, hasError, payload).s, []);
    }
  }

  lemma PresentAccounted(s: State, r: Request)
    ensures var p := Present(s, r); Accounted(s, p.s, p.out.outbound)
  {
    Unaccountable(s, Present(s, r).s, Present(s, r).out.outbound);
  }

  lemma NoteAccounted(s: State, n: Note, now: nat, order: seq<string>)
    ensures var r := HandleNotification(s, n, now, order); Accounted(s, r.s, r.out.outbound)
  {
    if Foreign(s, n.thread) && !n.body.ThreadStarted? {
      DeferAccounted(s, n.thread.value, Notification(n), now, order);
    } else {
      WorkAccounted(s, [Deliver(n)], now);
    }
  }

  lemma RequestAccounted(s: State, r: Request, now: nat, order: seq<string>)
    ensures var p := HandleRequest(s, r, now, order); Accounted(s, p.s, p.out.outbound)
  {
    if !LacksThread(r) && Foreign(s, r.thread) {
      DeferAccounted(s, r.thread.value, Interactive(r), now, order);
    } else {
      PresentAccounted(s, r);
    }
  }

  lemma LineAccounted(s: State, line: Line, now: nat, order: seq<string>)
    ensures var r := ParseLine(s, line, now, order); Accounted(s, r.s, r.out.outbound)
  {
    match line {
      case NoteLine(n) => NoteAccounted(s, n, now, order);
      case RequestLine(r) => RequestAccounted(s, r, now, order);
      case Reply(id, thread, hasError, payload) => ReplyAccounted(s, id, thread, hasError, payload, now);
      case Unparsable =>
      case UnhandledRequest =>
    }
  }

  /** A frame with the next client id accounts for using it. */
  lemma OneId(s: State, w: State, frame: Frame)
    requires w.nextId == s.nextId + 1 && w.seen == s.seen && !frame.ThreadRead?
    requires ClientIds([frame]) == [s.nextId]
    ensures Accounted(s, w, [frame])
  {
    assert Range(s.nextId + 1, s.nextId + 1) == [];
    assert [frame][1..] == [];
  }

  lemma InterruptAccounted(s: State)
    ensures var f := FrameInterrupt(s); Accounted(s, f.s, f.frames)
  {
    var f := FrameInterrupt(s);
    if f.frames != [] {
      assert [f.frames[0]][1..] == [];
      OneId(s, f.s, f.frames[0]);
    }
  }

  lemma RespondAccounted(s: State, key: string, response: Response)
    requires key in s.pending
    ensures var f := Respond(s, key, response); Accounted(s, f.s, f.frames)
  {
    var s1 := s.(pending := s.pending - {key});
    var reply := [ResultReply(s.pending[key].rawId, AnswerFor(s.pending[key], response))];
    assert reply[1..] == [];
    Unaccountable(s, s1, reply);
    InterruptAccounted(s1);
    AccountedThen(s, s1, FrameInterrupt(s1).s, reply, FrameInterrupt(s1).frames);
  }

  lemma TurnAccounted(s: State, text: string, o: Overrides)
    ensures var f := FrameUserTurn(s, text, o); Accounted(s, f.s, f.frames)
  {
    var f := FrameUserTurn(s, text, o);
    if f.frames != [] {
      assert [f.frames[0]][1..] == [];
      OneId(s, f.s, f.frames[0]);
    }
  }

  lemma SteerAccounted(s: State, text: string)
    ensures var f := FrameSteer(s, text); Accounted(s, f.s, f.frames)
  {
    var f := FrameSteer(s, text);
    if f.frames != [] {
      assert [f.frames[0]][1..] == [];
      OneId(s, f.s, f.frames[0]);
    }
  }

  lemma TrackedAccounted(s: State, requestId: string, command: string)
    ensures var f := FrameTracked(s, requestId, command); Accounted(s, f.s, f.frames)
  {
    var f := FrameTracked(s, requestId, command);
    if f.frames != [] {
      assert [f.frames[0]][1..] == [];
      OneId(s, f.s, f.frames[0]);
    }
  }

  lemma StepAccounted(s: State, a: Action)
    ensures var r := Step(s, a); Accounted(s, r.s, r.out.outbound)
  {
    match a {
      case Hear(line, now, order) => LineAccounted(s, line, now, order);
      case Tick(now, order) => RejectionsHaveNoIds(ExpirySlots(s.log, now, order), EXPIRED);
      case Reacts(kind, key, response) =>
        if Answerable(s, kind, key) {
          RespondAccounted(s, key, response);
        }
      case UserTurn(text, overrides) => TurnAccounted(s, text, overrides);
      case Interrupt => InterruptAccounted(s);
      case Steer(text) => SteerAccounted(s, text);
      case Ask(requestId, command) => TrackedAccounted(s, requestId, command);
    }
  }

  /** Over any run the client's ids are 3, 4, 5, ... in the order written: none is skipped or reused. */
  lemma {:induction false} IdsCountUp(ctx: StartupCtx, run: seq<Action>)
    ensures var r := Run(Initial(ctx), run);
            ClientIds(Written(r.outs)) == Range(FIRST_CLIENT_ID, r.s.nextId)
  {
    RunAccounted(Initial(ctx), run);
  }

  /** Over any run no spawned thread is looked up twice. */
  lemma {:induction false} LookedUpOnce(ctx: StartupCtx, run: seq<Action>)
    ensures var threads := LookedUp(Written(Run(Initial(ctx), run).outs));
            forall i, j :: 0 <= i < j < |threads| ==> threads[i] != threads[j]
  {
    RunAccounted(Initial(ctx), run);
  }

  lemma {:induction false} RunAccounted(s: State, run: seq<Action>)
    ensures var r := Run(s, run); Accounted(s, r.s, Written(r.outs))
  {
    if run != [] {
      var before := run[..|run| - 1];
      RunAccounted(s, before);
      var b := Run(s, before);
      var r := Step(b.s, run[|run| - 1]);
      StepAccounted(b.s, run[|run| - 1]);
      AccountedThen(s, b.s, r.s, Written(b.outs), r.out.outbound);
      assert Run(s, run).outs[..|run| - 1] == b.outs;
    }
  }

  // ---- Replies ----

  /** Whether this action is a reply that resolved a waiting caller. */
  predicate Resolves(a: Action, out: ParsedLine) {
    a.Hear? && a.line.Reply? && a.line.id.Some? && out.control.Some?
  }

  /** The requests framed and not yet resolved, read off what was asked, sent and heard. */
  function Outstanding(run: seq<Action>, outs: seq<ParsedLine>): map<int, string>
    requires |run| == |outs|
  {
    if run == [] then map[]
    else
      var n := |run| - 1;
      var before := Outstanding(run[..n], outs[..n]);
      if run[n].Ask? && outs[n].outbound != [] && outs[n].outbound[0].Tracked? then
        before[outs[n].outbound[0].id := run[n].requestId]
      else if Resolves(run[n], outs[n]) then
        before - {run[n].line.id.value}
      else
        before
  }

  /** The waiters kept are exactly the outstanding requests. */
  lemma {:induction false} WaitersAreOutstanding(ctx: StartupCtx, run: seq<Action>)
    ensures var r := Run(Initial(ctx), run);
            r.s.clientWaiters == Outstanding(run, r.outs)
  {
    if run != [] {
      var n := |run| - 1;
      WaitersAreOutstanding(ctx, run[..n]);
      WaitersStep(Run(Initial(ctx), run[..n]).s, run[n]);
      assert Run(Initial(ctx), run).outs[..n] == Run(Initial(ctx), run[..n]).outs;
    }
  }

  lemma WorkLeavesWaiters(s: State, tasks: seq<Task>, now: nat)
    ensures Work(s, tasks, now).s.clientWaiters == s.clientWaiters
    ensures Work(s, tasks, now).out.control == None
    decreases |s.log|, Weights(tasks)
  {
    WorkFrame(s, tasks, now);
    if tasks != [] {
      StepTaskShrinks(s, tasks, now);
      TaskHasNoControl(s, tasks[0], now);
      var m := StepTask(s, tasks[0], now);
      WorkLeavesWaiters(m.s, m.more + tasks[1..], now);
    }
  }

  lemma TaskHasNoControl(s: State, task: Task, now: nat)
    ensures StepTask(s, task, now).out.control == None
  {
    if task.Deliver? {
      ObserveFrame(s, task.note.body, ParentOf(s, task.note.thread));
    } else if task.Replay? && task.entry.message.Notification? {
      ObserveFrame(s, task.entry.message.note.body, ParentOf(s, task.entry.message.note.thread));
    }
  }

  lemma WaitersStep(s: State, a: Action)
    ensures var r := Step(s, a);
            && r.s.clientWaiters ==
               (if a.Ask? && r.out.outbound != [] && r.out.outbound[0].Tracked?
                then s.clientWaiters[r.out.outbound[0].id := a.requestId]
                else if Resolves(a, r.out) then s.clientWaiters - {a.line.id.value}
                else s.clientWaiters)
            && (r.out.control.Some? ==>
                  && Resolves(a, r.out) && a.line.id.value in s.clientWaiters
                  && r.out.control.value == (s.clientWaiters[a.line.id.value], a.line.payload))
  {
    if a.Hear? {
      LineWaiters(s, a.line, a.now, a.order);
    }
  }

  lemma OpenRootWaiters(s: State, root: string, now: nat)
    ensures OpenRoot(s, root, now).s.clientWaiters == s.clientWaiters
    ensures OpenRoot(s, root, now).out.control == None
  {
    WorkLeavesWaiters(s.(root := Some(root)), [Drain(root)], now);
  }

  /** What a reply does to the waiters and to whoever waits. */
  lemma ReplyWaiters(s: State, id: Option<int>, thread: Option<ThreadInfo>, hasError: bool, payload: string, now: nat)
    ensures var r := HandleReply(s, id, thread, hasError, payload, now);
            var known := id.Some? && id.value in s.clientWaiters && id.value !in s.internalWaiters;
            && r.out.control == (if known then Some((s.clientWaiters[id.value], payload)) else None)
            && r.s.clientWaiters == (if known then s.clientWaiters - {id.value} else s.clientWaiters)
  {
    var root := Opened(s, id, thread, hasError);
    if root.Some? {
      OpenRootWaiters(s, root.value, now);
    }
  }

  lemma DeferWaiters(s: State, t: string, m: ThreadMessage, now: nat, order: seq<string>)
    ensures var r := Defer(s, t, m, now, order); r.s.clientWaiters == s.clientWaiters && r.out.control == None
  {
    hide Defer;
    DeferMoves(s, t, m, now, order);
  }

  lemma NoteWaiters(s: State, n: Note, now: nat, order: seq<string>)
    ensures var r := HandleNotification(s, n, now, order);
            r.s.clientWaiters == s.clientWaiters && r.out.control == None
  {
    if Foreign(s, n.thread) && !n.body.ThreadStarted? {
      DeferWaiters(s, n.thread.value, Notification(n), now, order);
    } else {
      WorkLeavesWaiters(s, [Deliver(n)], now);
    }
  }

  lemma RequestWaiters(s: State, r: Request, now: nat, order: seq<string>)
    ensures var p := HandleRequest(s, r, now, order);
            p.s.clientWaiters == s.clientWaiters && p.out.control == None
  {
    if !LacksThread(r) && Foreign(s, r.thread) {
      DeferWaiters(s, r.thread.value, Interactive(r), now, order);
    }
  }

  lemma LineWaiters(s: State, line: Line, now: nat, order: seq<string>)
    ensures var r := ParseLine(s, line, now, order);
            if r.out.control.Some? then
              && line.Reply? && line.id.Some? && line.id.value in s.clientWaiters
              && r.out.control.value == (s.clientWaiters[line.id.value], line.payload)
              && r.s.clientWaiters == s.clientWaiters - {line.id.value}
            else
              r.s.clientWaiters == s.clientWaiters
  {
    match line {
      case NoteLine(n) => NoteWaiters(s, n, now, order);
      case RequestLine(r) => RequestWaiters(s, r, now, order);
      case Reply(id, thread, hasError, payload) => ReplyWaiters(s, id, thread, hasError, payload, now);
      case Unparsable =>
      case UnhandledRequest =>
    }
  }

  /**
   A reply reaches a caller exactly when its id is outstanding, and then the caller who framed it.
   */
  lemma ReplyReachesItsCaller(ctx: StartupCtx, run: seq<Action>, id: int, thread: Option<ThreadInfo>, hasError: bool,
                              payload: string, now: nat, order: seq<string>)
    requires Feasible(Initial(ctx), run)
    ensures var before := Run(Initial(ctx), run);
            var waiting := Outstanding(run, before.outs);
            ParseLine(before.s, Reply(Some(id), thread, hasError, payload), now, order).out.control
            == if id in waiting then Some((waiting[id], payload)) else None
  {
    WaitersAreOutstanding(ctx, run);
    ReachableInvariant(ctx, run);
    ReplyWaiters(Run(Initial(ctx), run).s, Some(id), thread, hasError, payload, now);
  }

  /** An id that has been used and is not outstanding never becomes outstanding again. */
  lemma {:induction false} ResolvedForGood(s: State, run: seq<Action>, id: int)
    requires id < s.nextId && id !in s.clientWaiters
    ensures var w := Run(s, run).s; id < w.nextId && id !in w.clientWaiters
  {
    if run != [] {
      var n := |run| - 1;
      ResolvedForGood(s, run[..n], id);
      var b := Run(s, run[..n]).s;
      WaitersStep(b, run[n]);
      StepAccounted(b, run[n]);
      if run[n].Ask? && Step(b, run[n]).out.outbound != [] {
        assert Step(b, run[n]).out.outbound[0].id == b.nextId;
      }
    }
  }
}
