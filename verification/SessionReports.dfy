/**
 Over any run the user is told what was delivered, and only that: every event, prompt and signal, and
 every request on offer, is that of a message that was heard.
 */
module SessionReports {
  import opened AppServerSpec
  import opened AppServerTypes
  import opened Deliveries
  import opened DeferredBuffer
  import opened IdCorrelation
  import opened IdentityLookups
  import opened Ownership
  import opened Wrappers

  // ---- One step ----

  /** What a step reports is what it delivers, or the answer to an identity lookup. */
  ghost predicate StepReports(s: State, a: Action, r: Result) {
    var ds := StepDelivers(s, a);
    && (if Identified(s.internalWaiters, a) != [] then r.out.events == Identified(s.internalWaiters, a) && ds == []
        else Reports(r.out.events, ds))
    && r.out.interactive == Prompted(ds) && r.out.lifecycle == LastSignal(ds)
    && r.s.activeTurn == TurnAfterAll(s.activeTurn, ds)
  }

  lemma ReflectsReports(s: State, a: Action, r: Result)
    requires Reflects(s, r.s, r.out, StepDelivers(s, a)) && Identified(s.internalWaiters, a) == []
    ensures StepReports(s, a, r)
  {
  }

  lemma NoteReflects(s: State, n: Note, now: nat, order: seq<string>)
    ensures var r := HandleNotification(s, n, now, order); Reflects(s, r.s, r.out, LineDelivers(s, NoteLine(n), now))
  {
    hide Reflects;
    if Foreign(s, n.thread) && !n.body.ThreadStarted? {
      DeferReflects(s, n.thread.value, Notification(n), now, order);
    } else {
      WorkReflects(s, [Deliver(n)], now);
    }
  }

  lemma DeferReflects(s: State, t: string, m: ThreadMessage, now: nat, order: seq<string>)
    ensures var r := Defer(s, t, m, now, order); Reflects(s, r.s, r.out, [])
  {
    hide Reflects, Defer;
    var r := Defer(s, t, m, now, order);
    DeferMoves(s, t, m, now, order);
    ReflectsNothing(s, r.s, r.out);
  }

  lemma RequestReflects(s: State, r: Request, now: nat, order: seq<string>)
    ensures var p := HandleRequest(s, r, now, order); Reflects(s, p.s, p.out, LineDelivers(s, RequestLine(r), now))
  {
    hide Reflects, Defer, Present;
    if !LacksThread(r) && Foreign(s, r.thread) {
      DeferReflects(s, r.thread.value, Interactive(r), now, order);
    } else {
      OfferReflects(s, r);
    }
  }

  /** Opening the root reports what had waited for it. */
  lemma OpeningReports(s: State, root: string, now: nat)
    ensures var r := OpenRoot(s, root, now);
            var ds := WorkDelivers(s.(root := Some(root)), [Drain(root)], now);
            && Reports(r.out.events, ds) && r.out.interactive == Prompted(ds) && r.out.lifecycle == LastSignal(ds)
            && r.s.activeTurn == TurnAfterAll(s.activeTurn, ds) && r.s.root == Some(root) && r.s.phase == Phase.Ready
            && (forall open :: Recorded(s.pending, open) ==> Recorded(r.s.pending, OnOffer(open, ds)))
            && (!Announced(ds, Some(root)) ==> r.out.thread == Some(root))
  {
    hide Reports, Prompted, LastSignal, TurnAfterAll, Recorded, OnOffer, Announced;
    WorkReflects(s.(root := Some(root)), [Drain(root)], now);
    var w := Work(s.(root := Some(root)), [Drain(root)], now);
    assert [] + w.out.events == w.out.events && [] + w.out.interactive == w.out.interactive;
  }

  lemma SettlingReports(s: State, id: Option<int>, thread: Option<ThreadInfo>, hasError: bool, payload: string,
                        now: nat, order: seq<string>)
    ensures var a := Hear(Reply(id, thread, hasError, payload), now, order);
            var r := SettleReply(s, id, thread, hasError, payload);
            && r.out.events == Identified(s.internalWaiters, a) && r.out.interactive == []
            && r.out.lifecycle == None && r.out.thread == None
            && r.s.activeTurn == s.activeTurn && r.s.pending == s.pending && r.s.root == s.root
  {
  }

  lemma ReplyReports(s: State, id: Option<int>, thread: Option<ThreadInfo>, hasError: bool, payload: string,
                     now: nat, order: seq<string>)
    ensures var a := Hear(Reply(id, thread, hasError, payload), now, order);
            StepReports(s, a, HandleReply(s, id, thread, hasError, payload, now))
  {
    hide OpenRoot, SettleReply;
    var root := Opened(s, id, thread, hasError);
    if root.Some? {
      OpeningReports(s, root.value, now);
    } else {
      SettlingReports(s, id, thread, hasError, payload, now, order);
    }
  }

  lemma QuietReports(s: State, a: Action)
    requires !a.Hear?
    ensures StepReports(s, a, Step(s, a))
  {
    if !a.Tick? {
      hide Step;
      FramingMoves(s, a);
    }
  }

  lemma LineReports(s: State, a: Action)
    requires a.Hear?
    ensures StepReports(s, a, Step(s, a))
  {
    hide StepReports, Reflects;
    match a.line {
      case NoteLine(n) =>
        NoteReflects(s, n, a.now, a.order);
        ReflectsReports(s, a, Step(s, a));
      case RequestLine(r) =>
        RequestReflects(s, r, a.now, a.order);
        ReflectsReports(s, a, Step(s, a));
      case Reply(id, thread, hasError, payload) => ReplyReports(s, id, thread, hasError, payload, a.now, a.order);
      case Unparsable => NothingReports(s, a);
      case UnhandledRequest => NothingReports(s, a);
    }
  }

  lemma NothingReports(s: State, a: Action)
    requires a.Hear? && (a.line.Unparsable? || a.line.UnhandledRequest?)
    ensures StepReports(s, a, Step(s, a))
  {
  }

  lemma EveryStepReports(s: State, a: Action)
    ensures StepReports(s, a, Step(s, a))
  {
    hide StepReports;
    if a.Hear? {
      LineReports(s, a);
    } else {
      QuietReports(s, a);
    }
  }

  // ---- Runs ----

  /** The events shown over a run, apart from the identities of sub-agents. */
  function Shown(outs: seq<ParsedLine>): seq<Event> {
    if outs == [] then [] else Shown(outs[..|outs| - 1]) + Telling(outs[|outs| - 1].events)
  }

  function Telling(events: seq<Event>): seq<Event> {
    if events == [] then []
    else (if events[0].AgentInfo? then [] else [events[0]]) + Telling(events[1..])
  }

  lemma {:induction false} TellingAll(events: seq<Event>)
    requires forall e :: e in events ==> !e.AgentInfo?
    ensures Telling(events) == events
  {
    if events != [] {
      TellingAll(events[1..]);
      assert events == [events[0]] + events[1..];
    }
  }

  lemma {:induction false} ReportedIsWarranted(events: seq<Event>, ds: seq<Delivery>)
    requires Reports(events, ds)
    ensures forall e :: e in events <==> exists d :: d in ds && Warrants(d, e)
    decreases ds
  {
    if ds != [] {
      hide Warrants, Reports;
      var first, more := ReportsHead(events, ds);
      ReportedIsWarranted(more, ds[1..]);
      forall e ensures e in events <==> exists d :: d in ds && Warrants(d, e) {
        OneOfMany(ds, e, first, more);
      }
    }
  }

  lemma OneOfMany(ds: seq<Delivery>, e: Event, first: seq<Event>, more: seq<Event>)
    requires ds != [] && (e in first <==> Warrants(ds[0], e))
    requires e in more <==> exists d :: d in ds[1..] && Warrants(d, e)
    ensures e in first + more <==> exists d :: d in ds && Warrants(d, e)
  {
    hide Warrants;
    if e in first {
      assert ds[0] in ds && Warrants(ds[0], e);
    } else if e in more {
      var d :| d in ds[1..] && Warrants(d, e);
      assert d in ds;
    }
    forall d | d in ds && Warrants(d, e) ensures e in first + more {
      assert ds == [ds[0]] + ds[1..];
      assert d == ds[0] || d in ds[1..];
    }
  }

  lemma NoneIdentifies(events: seq<Event>, ds: seq<Delivery>)
    requires Reports(events, ds)
    ensures forall e :: e in events ==> !e.AgentInfo?
  {
    hide Reports;
    ReportedIsWarranted(events, ds);
  }

  lemma StepTells(s: State, a: Action)
    ensures Reports(Telling(Step(s, a).out.events), StepDelivers(s, a))
  {
    EveryStepReports(s, a);
    var r := Step(s, a);
    if Identified(s.internalWaiters, a) != [] {
      assert r.out.events[1..] == [];
    } else {
      hide Reports;
      NoneIdentifies(r.out.events, StepDelivers(s, a));
      TellingAll(r.out.events);
    }
  }

  /**
   Over any run the events shown are, delivery by delivery and in order, exactly those that what was
   delivered warrants.
   */
  lemma {:induction false} EventsAreWarranted(ctx: StartupCtx, run: seq<Action>)
    ensures Reports(Shown(Run(Initial(ctx), run).outs), Delivered(ctx, run))
  {
    if run != [] {
      hide Reports, Step, StepDelivers;
      var n := |run| - 1;
      var b := Run(Initial(ctx), run[..n]);
      EventsAreWarranted(ctx, run[..n]);
      StepTells(b.s, run[n]);
      ReportsConcat(Shown(b.outs), Telling(Step(b.s, run[n]).out.events), Delivered(ctx, run[..n]), StepDelivers(b.s, run[n]));
      assert Run(Initial(ctx), run).outs[..n] == b.outs;
    }
  }

  /** Whatever is shown, some delivered message says; whatever such a message says is shown. */
  lemma ShownIffDelivered(ctx: StartupCtx, run: seq<Action>, e: Event)
    ensures e in Shown(Run(Initial(ctx), run).outs) <==> exists d :: d in Delivered(ctx, run) && Warrants(d, e)
  {
    hide Warrants, Reports;
    EventsAreWarranted(ctx, run);
    ReportedIsWarranted(Shown(Run(Initial(ctx), run).outs), Delivered(ctx, run));
  }

  // ---- Only what was heard is delivered ----

  function MessageOf(d: Delivery): ThreadMessage {
    match d
    case Told(n, _) => Notification(n)
    case Offered(r, _) => Interactive(r)
  }

  ghost predicate AllHeard(heard: set<ThreadMessage>, ds: seq<Delivery>) {
    forall d :: d in ds ==> MessageOf(d) in heard
  }

  lemma TaskHeard(s: State, heard: set<ThreadMessage>, task: Task, now: nat)
    requires TracedTask(s, heard, task)
    ensures AllHeard(heard, TaskDelivers(s, task, now))
  {
  }

  lemma {:induction false} WorkHeard(s: State, heard: set<ThreadMessage>, tasks: seq<Task>, now: nat)
    requires Traced(s, heard) && TracedTasks(s, heard, tasks)
    ensures AllHeard(heard, WorkDelivers(s, tasks, now))
    decreases |s.log|, Weights(tasks)
  {
    if tasks != [] {
      hide StepTask, TaskDelivers, TracedTask, Traced;
      StepTaskShrinks(s, tasks, now);
      var m := StepTask(s, tasks[0], now);
      assert TracedTask(s, heard, tasks[0]);
      TaskHeard(s, heard, tasks[0], now);
      TaskTraced(s, heard, tasks[0], now);
      StepTaskMoves(s, tasks[0], now);
      StillTraced(s, m.s, heard, tasks[1..]);
      WorkHeard(m.s, heard, m.more + tasks[1..], now);
    }
  }

  lemma StepHeard(s: State, heard: set<ThreadMessage>, a: Action)
    requires Traced(s, heard) && Carried(a) <= heard
    ensures AllHeard(heard, StepDelivers(s, a))
  {
    if a.Hear? {
      match a.line {
        case NoteLine(n) =>
          if !Foreign(s, n.thread) || n.body.ThreadStarted? {
            WorkHeard(s, heard, [Deliver(n)], a.now);
          }
        case RequestLine(r) =>
        case Reply(id, thread, hasError, _) =>
          var root := Opened(s, id, thread, hasError);
          if root.Some? {
            RootedTraced(s, heard, root.value);
            WorkHeard(s.(root := root), heard, [Drain(root.value)], a.now);
          }
        case Unparsable =>
        case UnhandledRequest =>
      }
    }
  }

  lemma RootedTraced(s: State, heard: set<ThreadMessage>, root: string)
    requires Traced(s, heard) && s.root.None?
    ensures Traced(s.(root := Some(root)), heard)
  {
    forall t | t in s.parents ensures TopCard(heard, Some(root), s.parents[t]) {
      var n :| Notification(n) in heard && TopSpawn(n, s.root) && n.body.ItemId() == Some(s.parents[t]);
      assert TopSpawn(n, Some(root));
    }
  }

  /** Every delivery of a run is of a message heard in it. */
  lemma {:induction false} DeliveriesWereHeard(ctx: StartupCtx, run: seq<Action>)
    ensures AllHeard(Heard(run), Delivered(ctx, run))
  {
    if run != [] {
      hide StepDelivers;
      var n := |run| - 1;
      var s := Run(Initial(ctx), run[..n]).s;
      DeliveriesWereHeard(ctx, run[..n]);
      CardsAreTopLevel(ctx, run[..n]);
      TracedLater(s, Heard(run[..n]), Heard(run));
      StepHeard(s, Heard(run), run[n]);
    }
  }

  // ---- The requests on offer ----

  /** Whether a reaction answers a request on offer. */
  predicate Settles(open: map<string, Request>, a: Action) {
    a.Reacts? && a.key in open && Asks(open[a.key].call) == a.kind
  }

  /** The requests offered and not answered since, by key. */
  function Open(ctx: StartupCtx, run: seq<Action>): map<string, Request> {
    if run == [] then map[]
    else
      var before, last := run[..|run| - 1], run[|run| - 1];
      var open := Open(ctx, before);
      if Settles(open, last) then open - {last.key}
      else OnOffer(open, StepDelivers(Run(Initial(ctx), before).s, last))
  }

  lemma ReactionRecords(s: State, open: map<string, Request>, a: Action)
    requires Recorded(s.pending, open) && a.Reacts?
    ensures Recorded(Step(s, a).s.pending, if Settles(open, a) then open - {a.key} else open)
    ensures Answerable(s, a.kind, a.key) <==> Settles(open, a)
  {
    if Answerable(s, a.kind, a.key) {
      assert Respond(s, a.key, a.response).s.pending == s.pending - {a.key};
    }
  }

  lemma StepRecords(s: State, open: map<string, Request>, a: Action)
    requires Recorded(s.pending, open)
    ensures Recorded(Step(s, a).s.pending,
                     if Settles(open, a) then open - {a.key} else OnOffer(open, StepDelivers(s, a)))
  {
    hide Recorded, OnOffer;
    if a.Hear? {
      LineRecords(s, open, a);
    } else if a.Reacts? {
      ReactionRecords(s, open, a);
      NothingOffered(open);
    } else {
      NothingOffered(open);
    }
  }

  lemma NothingOffered(open: map<string, Request>)
    ensures OnOffer(open, []) == open
  {
  }

  lemma LineRecords(s: State, open: map<string, Request>, a: Action)
    requires Recorded(s.pending, open) && a.Hear?
    ensures Recorded(Step(s, a).s.pending, OnOffer(open, StepDelivers(s, a)))
  {
    hide Recorded, OnOffer, Reports, OpenRoot, SettleReply, HandleNotification, HandleRequest;
    match a.line {
      case NoteLine(n) => NoteReflects(s, n, a.now, a.order);
      case RequestLine(r) => RequestReflects(s, r, a.now, a.order);
      case Reply(id, thread, hasError, payload) =>
        var root := Opened(s, id, thread, hasError);
        if root.Some? {
          OpeningReports(s, root.value, a.now);
        } else {
          SettlingReports(s, id, thread, hasError, payload, a.now, a.order);
          NothingOffered(open);
        }
      case Unparsable => NothingOffered(open);
      case UnhandledRequest => NothingOffered(open);
    }
  }

  /**
   In every reachable state the pending requests are those offered and not answered since, each
   recorded with its own id, method, permissions and kind.
   */
  lemma {:induction false} PendingIsOnOffer(ctx: StartupCtx, run: seq<Action>)
    ensures Recorded(Run(Initial(ctx), run).s.pending, Open(ctx, run))
  {
    if run != [] {
      hide Step, StepDelivers, Recorded, OnOffer;
      var n := |run| - 1;
      PendingIsOnOffer(ctx, run[..n]);
      StepRecords(Run(Initial(ctx), run[..n]).s, Open(ctx, run[..n]), run[n]);
    } else {
      assert Recorded(map[], map[]);
    }
  }

  ghost predicate Keyed(heard: set<ThreadMessage>, open: map<string, Request>) {
    forall key :: key in open ==> RequestKey(open[key].id) == key && Interactive(open[key]) in heard
  }

  lemma {:induction false} OfferKeyed(heard: set<ThreadMessage>, open: map<string, Request>, ds: seq<Delivery>)
    requires Keyed(heard, open) && AllHeard(heard, ds)
    ensures Keyed(heard, OnOffer(open, ds))
    decreases ds
  {
    if ds != [] {
      assert ds[0] in ds && MessageOf(ds[0]) in heard;
      OfferKeyed(heard, if ds[0].Offered? then open[RequestKey(ds[0].request.id) := ds[0].request] else open, ds[1..]);
    }
  }

  /** Each request on offer was received, and stands under its own key. */
  lemma {:induction false} OpenWasReceived(ctx: StartupCtx, run: seq<Action>)
    ensures Keyed(Heard(run), Open(ctx, run))
  {
    if run != [] {
      hide StepDelivers, OnOffer;
      var n := |run| - 1;
      OpenWasReceived(ctx, run[..n]);
      DeliveriesWereHeard(ctx, run);
      OfferKeyed(Heard(run), Open(ctx, run[..n]), StepDelivers(Run(Initial(ctx), run[..n]).s, run[n]));
    }
  }
}
