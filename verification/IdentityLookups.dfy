/**
 The client's own questions about spawned threads: which are out at any time, which thread an answer
 is taken to be about, and that no thread's identity is reported twice.
 */
module IdentityLookups {
  import opened AppServerSpec
  import opened AppServerTypes
  import opened DeferredBuffer
  import opened IdCorrelation
  import opened SessionInvariant
  import opened Wrappers

  // ---- What is out ----

  function WithReads(waiting: map<int, string>, frames: seq<Frame>): map<int, string>
    decreases frames
  {
    if frames == [] then waiting
    else
      WithReads(if frames[0].ThreadRead? then waiting[frames[0].id := frames[0].thread] else waiting, frames[1..])
  }

  function Replied(a: Action): set<int> {
    if a.Hear? && a.line.Reply? && a.line.id.Some? then {a.line.id.value} else {}
  }

  /** The lookups written and not replied to since, read off what was written and heard. */
  function Lookups(run: seq<Action>, outs: seq<ParsedLine>): map<int, string>
    requires |run| == |outs|
  {
    if run == [] then map[]
    else
      var n := |run| - 1;
      WithReads(Lookups(run[..n], outs[..n]) - Replied(run[n]), outs[n].outbound)
  }

  /** The identities among these events. */
  function Agents(events: seq<Event>): (r: seq<Event>)
    ensures forall e :: e in r ==> e.AgentInfo?
  {
    if events == [] then []
    else (if events[0].AgentInfo? then [events[0]] else []) + Agents(events[1..])
  }

  /** What hearing the answer to a lookup reports. */
  function Identified(waiting: map<int, string>, a: Action): seq<Event> {
    if a.Hear? && a.line.Reply? && a.line.id.Some? && a.line.id.value in waiting && a.line.thread.Some? then
      [AgentInfo(waiting[a.line.id.value], a.line.thread.value.nickname, a.line.thread.value.role)]
    else []
  }

  lemma {:induction false} ReadsConcat(waiting: map<int, string>, a: seq<Frame>, b: seq<Frame>)
    ensures WithReads(waiting, a + b) == WithReads(WithReads(waiting, a), b)
    decreases a
  {
    if a == [] {
      assert a + b == b;
    } else {
      assert (a + b)[0] == a[0] && (a + b)[1..] == a[1..] + b;
      ReadsConcat(if a[0].ThreadRead? then waiting[a[0].id := a[0].thread] else waiting, a[1..], b);
    }
  }

  lemma {:induction false} NoReads(waiting: map<int, string>, frames: seq<Frame>)
    requires LookedUp(frames) == []
    ensures WithReads(waiting, frames) == waiting
  {
    if frames != [] {
      assert !frames[0].ThreadRead?;
      NoReads(waiting, frames[1..]);
    }
  }

  lemma {:induction false} AgentsConcat(a: seq<Event>, b: seq<Event>)
    ensures Agents(a + b) == Agents(a) + Agents(b)
  {
    if a == [] {
      assert a + b == b;
    } else {
      assert (a + b)[1..] == a[1..] + b;
      AgentsConcat(a[1..], b);
    }
  }

  lemma {:induction false} NoAgents(events: seq<Event>)
    requires forall e :: e in events ==> !e.AgentInfo?
    ensures Agents(events) == []
  {
    if events != [] {
      NoAgents(events[1..]);
    }
  }

  // ---- Replay asks and answers nothing by itself ----

  /** Lookups are those written; no identity is reported. */
  ghost predicate OnlyAsks(s: State, w: State, out: ParsedLine) {
    w.internalWaiters == WithReads(s.internalWaiters, out.outbound) && Agents(out.events) == []
  }

  lemma SilentAsks(s: State, w: State, out: ParsedLine)
    requires w.internalWaiters == s.internalWaiters && LookedUp(out.outbound) == []
    requires forall e :: e in out.events ==> !e.AgentInfo?
    ensures OnlyAsks(s, w, out)
  {
    NoReads(s.internalWaiters, out.outbound);
    NoAgents(out.events);
  }

  lemma AsksThen(s: State, m: State, w: State, a: ParsedLine, b: ParsedLine)
    requires OnlyAsks(s, m, a) && OnlyAsks(m, w, b)
    ensures OnlyAsks(s, w, Merge(a, b))
  {
    ReadsConcat(s.internalWaiters, a.outbound, b.outbound);
    AgentsConcat(a.events, b.events);
  }

  lemma DeliverAsks(s: State, n: Note)
    ensures var m := DeliverNote(s, n); OnlyAsks(s, m.s, m.out)
  {
    var parent := ParentOf(s, n.thread);
    ObserveFrame(s, n.body, parent);
    SilentAsks(s, Observe(s, n.body, parent).s, Observe(s, n.body, parent).out);
  }

  lemma PresentAsks(s: State, r: Request)
    ensures var p := Present(s, r); OnlyAsks(s, p.s, p.out)
  {
    var p := Present(s, r);
    SilentAsks(s, p.s, p.out);
  }

  lemma IdentifyAsks(s: State, t: string)
    ensures var m := StepTask(s, Identify(t), 0); OnlyAsks(s, m.s, m.out)
  {
    if t !in s.seen {
      var f := [ThreadRead(s.nextId, t)];
      assert f[1..] == [];
      assert WithReads(s.internalWaiters, f) == WithReads(s.internalWaiters[s.nextId := t], []);
    }
  }

  lemma TaskAsks(s: State, task: Task, now: nat)
    ensures var m := StepTask(s, task, now); OnlyAsks(s, m.s, m.out)
  {
    match task {
      case Deliver(n) => DeliverAsks(s, n);
      case Replay(e) =>
        if Stale(e, now) {
          OneRejected(e);
          NoReads(s.internalWaiters, Rejection(e.message, EXPIRED));
        } else {
          match e.message {
            case Notification(n) => DeliverAsks(s, n);
            case Interactive(r) => PresentAsks(s, r);
          }
        }
      case Identify(t) => IdentifyAsks(s, t);
      case Adopt(_, _) =>
      case Drain(_) =>
    }
  }

  lemma {:induction false} WorkAsks(s: State, tasks: seq<Task>, now: nat)
    ensures var w := Work(s, tasks, now); OnlyAsks(s, w.s, w.out)
    decreases |s.log|, Weights(tasks)
  {
    if tasks != [] {
      StepTaskShrinks(s, tasks, now);
      TaskAsks(s, tasks[0], now);
      var m := StepTask(s, tasks[0], now);
      WorkAsks(m.s, m.more + tasks[1..], now);
      var w := Work(m.s, m.more + tasks[1..], now);
      AsksThen(s, m.s, w.s, m.out, w.out);
    }
  }

  // ---- Steps ----

  /** A step answers the lookup it hears the reply to, forgets it, and notes the lookups it writes. */
  ghost predicate Correlates(s: State, a: Action, r: Result) {
    && r.s.internalWaiters == WithReads(s.internalWaiters - Replied(a), r.out.outbound)
    && Agents(r.out.events) == Identified(s.internalWaiters, a)
  }

  lemma AskingCorrelates(s: State, a: Action, r: Result)
    requires OnlyAsks(s, r.s, r.out) && Replied(a) !! s.internalWaiters.Keys
    ensures Correlates(s, a, r)
  {
    assert s.internalWaiters - Replied(a) == s.internalWaiters;
  }

  lemma HasFirst(threads: seq<string>)
    ensures threads == [] || threads[0] in threads
  {
  }

  /** A step that sees no new thread writes no lookup. */
  lemma NothingSeen(s: State, w: State, frames: seq<Frame>)
    requires Accounted(s, w, frames) && w.seen == s.seen
    ensures LookedUp(frames) == []
  {
    HasFirst(LookedUp(frames));
  }

  lemma DeferAsks(s: State, t: string, m: ThreadMessage, now: nat, order: seq<string>)
    ensures var r := Defer(s, t, m, now, order); OnlyAsks(s, r.s, r.out)
  {
    hide Defer, Accounted, OnlyAsks;
    var r := Defer(s, t, m, now, order);
    DeferMoves(s, t, m, now, order);
    DeferAccounted(s, t, m, now, order);
    NothingSeen(s, r.s, r.out.outbound);
    SilentAsks(s, r.s, r.out);
  }

  lemma OpenRootAsks(s: State, root: string, now: nat)
    ensures var r := OpenRoot(s, root, now); OnlyAsks(s, r.s, r.out)
  {
    WorkAsks(s.(root := Some(root)), [Drain(root)], now);
    var w := Work(s.(root := Some(root)), [Drain(root)], now);
    assert OpenRoot(s, root, now).out.outbound == w.out.outbound && OpenRoot(s, root, now).out.events == w.out.events;
  }

  lemma SettlingCorrelates(s: State, id: Option<int>, thread: Option<ThreadInfo>, hasError: bool, payload: string,
                           now: nat, order: seq<string>)
    ensures Correlates(s, Hear(Reply(id, thread, hasError, payload), now, order),
                       SettleReply(s, id, thread, hasError, payload))
  {
    var r := SettleReply(s, id, thread, hasError, payload);
    SettlingFrame(s, id, thread, hasError, payload);
    if id.Some? && id.value in s.internalWaiters {
      assert r.out.events == [] || r.out.events[1..] == [];
    } else {
      NoReads(s.internalWaiters, r.out.outbound);
      NoAgents(r.out.events);
      AskingCorrelates(s, Hear(Reply(id, thread, hasError, payload), now, order), r);
    }
  }

  lemma ReplyCorrelates(s: State, id: Option<int>, thread: Option<ThreadInfo>, hasError: bool, payload: string,
                        now: nat, order: seq<string>)
    ensures Correlates(s, Hear(Reply(id, thread, hasError, payload), now, order),
                       HandleReply(s, id, thread, hasError, payload, now))
  {
    var root := Opened(s, id, thread, hasError);
    if root.Some? {
      OpenRootAsks(s, root.value, now);
      AskingCorrelates(s, Hear(Reply(id, thread, hasError, payload), now, order), OpenRoot(s, root.value, now));
    } else {
      SettlingCorrelates(s, id, thread, hasError, payload, now, order);
    }
  }

  lemma NoteCorrelates(s: State, n: Note, now: nat, order: seq<string>)
    ensures Correlates(s, Hear(NoteLine(n), now, order), HandleNotification(s, n, now, order))
  {
    if Foreign(s, n.thread) && !n.body.ThreadStarted? {
      DeferAsks(s, n.thread.value, Notification(n), now, order);
    } else {
      WorkAsks(s, [Deliver(n)], now);
    }
    AskingCorrelates(s, Hear(NoteLine(n), now, order), HandleNotification(s, n, now, order));
  }

  lemma RequestCorrelates(s: State, r: Request, now: nat, order: seq<string>)
    ensures Correlates(s, Hear(RequestLine(r), now, order), HandleRequest(s, r, now, order))
  {
    if !LacksThread(r) && Foreign(s, r.thread) {
      DeferAsks(s, r.thread.value, Interactive(r), now, order);
    } else {
      PresentAsks(s, r);
    }
    AskingCorrelates(s, Hear(RequestLine(r), now, order), HandleRequest(s, r, now, order));
  }

  lemma QuietCorrelates(s: State, a: Action)
    requires !a.Hear?
    ensures Correlates(s, a, Step(s, a))
  {
    var r := Step(s, a);
    StepAccounted(s, a);
    QuietFrame(s, a);
    NothingSeen(s, r.s, r.out.outbound);
    SilentAsks(s, r.s, r.out);
    AskingCorrelates(s, a, r);
  }

  lemma QuietFrame(s: State, a: Action)
    requires !a.Hear?
    ensures var r := Step(s, a);
            r.s.internalWaiters == s.internalWaiters && r.s.seen == s.seen && r.out.events == []
  {
    if !a.Tick? {
      FramingMoves(s, a);
    }
  }

  lemma StepCorrelates(s: State, a: Action)
    ensures Correlates(s, a, Step(s, a))
  {
    if a.Hear? {
      match a.line {
        case NoteLine(n) => NoteCorrelates(s, n, a.now, a.order);
        case RequestLine(r) => RequestCorrelates(s, r, a.now, a.order);
        case Reply(id, thread, hasError, payload) => ReplyCorrelates(s, id, thread, hasError, payload, a.now, a.order);
        case Unparsable => AskingCorrelates(s, a, Step(s, a));
        case UnhandledRequest => AskingCorrelates(s, a, Step(s, a));
      }
    } else {
      QuietCorrelates(s, a);
    }
  }

  // ---- Runs ----

  /** The lookups kept are exactly those written and not yet replied to. */
  lemma {:induction false} LookupsAreOutstanding(ctx: StartupCtx, run: seq<Action>)
    ensures var r := Run(Initial(ctx), run); r.s.internalWaiters == Lookups(run, r.outs)
  {
    if run != [] {
      var n := |run| - 1;
      LookupsAreOutstanding(ctx, run[..n]);
      StepCorrelates(Run(Initial(ctx), run[..n]).s, run[n]);
      assert Run(Initial(ctx), run).outs[..n] == Run(Initial(ctx), run[..n]).outs;
    }
  }

  /**
   An identity is reported exactly when a reply bears the id of a lookup that is out and describes a
   thread, and then for the thread that lookup was written about; nothing else ever reports one.
   */
  lemma LookupReachesItsThread(ctx: StartupCtx, run: seq<Action>, a: Action)
    ensures var before := Run(Initial(ctx), run);
            Agents(Step(before.s, a).out.events) == Identified(Lookups(run, before.outs), a)
  {
    LookupsAreOutstanding(ctx, run);
    StepCorrelates(Run(Initial(ctx), run).s, a);
  }

  // ---- Each identity once ----

  /** The threads whose identity was reported over a run. */
  function Introduced(outs: seq<ParsedLine>): seq<string> {
    if outs == [] then [] else Introduced(outs[..|outs| - 1]) + Names(Agents(outs[|outs| - 1].events))
  }

  function Names(agents: seq<Event>): seq<string>
    requires forall e :: e in agents ==> e.AgentInfo?
  {
    seq(|agents|, i requires 0 <= i < |agents| => agents[i].agent)
  }

  ghost predicate Different(threads: seq<string>) {
    forall i, j :: 0 <= i < j < |threads| ==> threads[i] != threads[j]
  }

  /** No two lookups are about one thread, and all are about these threads. */
  ghost predicate Single(waiting: map<int, string>, threads: set<string>) {
    && (forall i, j :: i in waiting && j in waiting && waiting[i] == waiting[j] ==> i == j)
    && (forall i :: i in waiting ==> waiting[i] in threads)
  }

  /** Lookups of different threads, none of them looked up before, stay single. */
  lemma {:induction false} ReadsStaySingle(waiting: map<int, string>, frames: seq<Frame>, threads: set<string>)
    requires Single(waiting, threads) && Different(LookedUp(frames))
    requires forall t :: t in LookedUp(frames) ==> t !in threads
    ensures Single(WithReads(waiting, frames), threads + set t | t in LookedUp(frames))
    ensures forall i :: i in WithReads(waiting, frames) ==>
              || WithReads(waiting, frames)[i] in LookedUp(frames)
              || (i in waiting && WithReads(waiting, frames)[i] == waiting[i])
    decreases frames
  {
    if frames != [] {
      var rest := LookedUp(frames[1..]);
      if frames[0].ThreadRead? {
        assert LookedUp(frames) == [frames[0].thread] + rest;
        OneMore(waiting, frames[0].id, frames[0].thread, threads, rest);
        ReadsStaySingle(waiting[frames[0].id := frames[0].thread], frames[1..], threads + {frames[0].thread});
        assert threads + {frames[0].thread} + (set t | t in rest) == threads + set t | t in LookedUp(frames);
      } else {
        assert LookedUp(frames) == rest;
        ReadsStaySingle(waiting, frames[1..], threads);
      }
    }
  }

  lemma OneMore(waiting: map<int, string>, id: int, thread: string, threads: set<string>, rest: seq<string>)
    requires Single(waiting, threads) && thread !in threads && Different([thread] + rest)
    requires forall t :: t in [thread] + rest ==> t !in threads
    ensures Single(waiting[id := thread], threads + {thread}) && Different(rest)
    ensures forall t :: t in rest ==> t !in threads + {thread}
  {
    var all := [thread] + rest;
    forall i, j | 0 <= i < j < |rest| ensures rest[i] != rest[j] {
      assert all[i + 1] == rest[i] && all[j + 1] == rest[j];
    }
    forall t | t in rest ensures t in all && t != thread {
      var i :| 0 <= i < |rest| && rest[i] == t;
      assert all[0] == thread && all[i + 1] == t;
    }
  }

  /** Who has been introduced was looked up, is not being looked up, and was introduced once. */
  ghost predicate Once(s: State, introduced: seq<string>) {
    && Single(s.internalWaiters, s.seen) && Different(introduced)
    && (forall t :: t in introduced ==> t in s.seen)
    && (forall i :: i in s.internalWaiters ==> s.internalWaiters[i] !in introduced)
  }

  lemma NewIsDifferent(introduced: seq<string>, t: string)
    requires Different(introduced) && t !in introduced
    ensures Different(introduced + [t]) && forall u :: u in introduced + [t] <==> u in introduced || u == t
  {
  }

  /** Hearing the answer introduces a thread that was not, and ends its lookup. */
  lemma AnswerOnce(s: State, introduced: seq<string>, a: Action)
    requires Once(s, introduced)
    ensures Once(s.(internalWaiters := s.internalWaiters - Replied(a)),
                 introduced + Names(Identified(s.internalWaiters, a)))
  {
    var names := Names(Identified(s.internalWaiters, a));
    if names == [] {
      assert introduced + names == introduced;
    } else {
      var id := a.line.id.value;
      assert id in s.internalWaiters && names == [s.internalWaiters[id]];
      assert s.internalWaiters[id] !in introduced;
      NewIsDifferent(introduced, s.internalWaiters[id]);
    }
  }

  lemma LookupsOnce(s: State, w: State, introduced: seq<string>, frames: seq<Frame>)
    requires Once(s, introduced) && Accounted(s, w, frames)
    requires w.internalWaiters == WithReads(s.internalWaiters, frames)
    ensures Once(w, introduced)
  {
    ReadsStaySingle(s.internalWaiters, frames, s.seen);
    assert w.seen == s.seen + set t | t in LookedUp(frames);
  }

  lemma StepOnce(s: State, introduced: seq<string>, a: Action)
    requires Once(s, introduced)
    ensures var r := Step(s, a); Once(r.s, introduced + Names(Agents(r.out.events)))
  {
    var r := Step(s, a);
    StepCorrelates(s, a);
    StepAccounted(s, a);
    AnswerOnce(s, introduced, a);
    LookupsOnce(s.(internalWaiters := s.internalWaiters - Replied(a)), r.s,
                introduced + Names(Agents(r.out.events)), r.out.outbound);
  }

  /** Over any run no thread's identity is reported twice. */
  lemma {:induction false} IntroducedOnce(ctx: StartupCtx, run: seq<Action>)
    ensures var r := Run(Initial(ctx), run); Different(Introduced(r.outs)) && Once(r.s, Introduced(r.outs))
  {
    if run != [] {
      var n := |run| - 1;
      var b := Run(Initial(ctx), run[..n]);
      IntroducedOnce(ctx, run[..n]);
      StepOnce(b.s, Introduced(b.outs), run[n]);
      assert Run(Initial(ctx), run).outs[..n] == b.outs;
    }
  }
}
