/** The turn states a Claude session reports: running at its start, and idle at the end of each turn. */
module TurnReports {
  import opened ClaudeSpec
  import opened Wrappers

  function States(events: seq<Event>): seq<Event> {
    if events == [] then []
    else (if events[0].RunState? then [events[0]] else []) + States(events[1..])
  }

  predicate Begins(a: Action) {
    a.Receive? && Unwrap(a.raw).0.Init?
  }

  predicate Ends(a: Action) {
    a.Receive? && Unwrap(a.raw).0.Result?
  }

  /** Whether the session has been initialised. */
  predicate Begun(run: seq<Action>) {
    exists a :: a in run && Begins(a)
  }

  /** The turn states a session reports: running at its start, unless resumed, and idle at each result. */
  function TurnStates(resume: bool, run: seq<Action>): seq<Event> {
    if run == [] then []
    else
      var n := |run| - 1;
      TurnStates(resume, run[..n])
      + (if Begins(run[n]) && !resume && !Begun(run[..n]) then [RunState("running", None)]
         else if Ends(run[n]) then
           var r := Unwrap(run[n].raw).0;
           [RunState("idle", if IsError(r.subtype) then Some(r.error) else None)]
         else [])
  }

  lemma {:induction false} StatesConcat(a: seq<Event>, b: seq<Event>)
    ensures States(a + b) == States(a) + States(b)
  {
    if a == [] {
      assert a + b == b;
    } else {
      assert (a + b)[1..] == a[1..] + b && (a + b)[0] == a[0];
      StatesConcat(a[1..], b);
    }
  }

  lemma {:induction false} NoStates(events: seq<Event>)
    requires forall e :: e in events ==> !e.RunState?
    ensures States(events) == []
  {
    if events != [] {
      NoStates(events[1..]);
    }
  }

  lemma StateOne(e: Event)
    ensures States([e]) == if e.RunState? then [e] else []
  {
    assert [e][1..] == [] && States([]) == [];
  }

  lemma {:induction false} ToolsReportNoState(s: State, content: seq<Block>, parent: Option<string>)
    ensures forall e :: e in WholeTools(s, content, parent).events ==> !e.RunState?
    ensures WholeTools(s, content, parent).s.seenInit == s.seenInit
    ensures WholeTools(s, content, parent).s.resume == s.resume
  {
    if content != [] {
      ToolsReportNoState(s, content[..|content| - 1], parent);
    }
  }

  lemma {:induction false} EndsReportNoState(s: State, blocks: seq<ResultBlock>, parent: Option<string>)
    ensures forall e :: e in ToolEnds(s, blocks, parent) ==> !e.RunState?
  {
    if blocks != [] {
      EndsReportNoState(s, blocks[..|blocks| - 1], parent);
    }
  }

  lemma {:induction false} DenialsReportNoState(denials: seq<Denial>)
    ensures forall e :: e in Denied(denials) ==> !e.RunState?
  {
    if denials != [] {
      DenialsReportNoState(denials[..|denials| - 1]);
    }
  }

  lemma ResultStates(s: State, subtype: string, usage: bool, denials: seq<Denial>, error: string)
    ensures States(MapResult(s, subtype, usage, denials, error).events)
         == [RunState("idle", if IsError(subtype) then Some(error) else None)]
  {
    var head := (if usage then [UsageUpdate] + Hint(s.pendingCommand) else []) + Denied(denials);
    var last := RunState("idle", if IsError(subtype) then Some(error) else None);
    DenialsReportNoState(denials);
    NoStates(head);
    StatesConcat(head, [last]);
    StateOne(last);
  }

  lemma OtherEvents(s: State, body: Body, parent: Option<string>)
    requires !body.Init? && !body.Result?
    ensures forall e :: e in MapBody(s, body, parent).events ==> !e.RunState?
  {
    match body {
      case Assistant(_, Some(content)) => ToolsReportNoState(s, content, parent);
      case User(Results(blocks)) => EndsReportNoState(s, blocks, parent);
      case _ =>
    }
  }

  lemma OtherFlags(s: State, body: Body, parent: Option<string>)
    requires !body.Init? && !body.Result?
    ensures var w := MapBody(s, body, parent).s; w.seenInit == s.seenInit && w.resume == s.resume
  {
    if body.Assistant? && body.content.Some? {
      ToolsReportNoState(s, body.content.value, parent);
    }
  }

  lemma OtherStates(s: State, body: Body, parent: Option<string>)
    requires !body.Init? && !body.Result?
    ensures var m := MapBody(s, body, parent);
            States(m.events) == [] && m.s.seenInit == s.seenInit && m.s.resume == s.resume
  {
    hide MapBody;
    OtherEvents(s, body, parent);
    OtherFlags(s, body, parent);
    NoStates(MapBody(s, body, parent).events);
  }

  lemma InitStates(s: State, parent: Option<string>)
    ensures var m := MapBody(s, Init, parent);
            && States(m.events) == (if !s.seenInit && !s.resume then [RunState("running", None)] else [])
            && m.s.seenInit && m.s.resume == s.resume
  {
    var running := if !s.seenInit && !s.resume then [RunState("running", None)] else [];
    StatesConcat([SessionInit], running);
    StateOne(SessionInit);
    StateOne(RunState("running", None));
  }

  lemma BegunMore(run: seq<Action>)
    requires run != []
    ensures Begun(run) <==> Begun(run[..|run| - 1]) || Begins(run[|run| - 1])
  {
    var n := |run| - 1;
    assert run == run[..n] + [run[n]];
    if Begun(run[..n]) {
      var a :| a in run[..n] && Begins(a);
      assert a in run;
    }
    if Begins(run[n]) {
      assert run[n] in run;
    }
  }

  /** The turn states one action reports. */
  lemma StepStates(s: State, a: Action)
    ensures var r := Step(s, a);
            && r.s.resume == s.resume && (r.s.seenInit <==> s.seenInit || Begins(a))
            && States(r.events) == (if Begins(a) && !s.resume && !s.seenInit then [RunState("running", None)]
                                    else if Ends(a) then
                                      var r := Unwrap(a.raw).0;
                                      [RunState("idle", if IsError(r.subtype) then Some(r.error) else None)]
                                    else [])
  {
    if a.Receive? {
      hide States, MapBody;
      var (body, parent) := Unwrap(a.raw);
      match body {
        case Init => InitStates(s, parent);
        case Result(subtype, usage, denials, error) => BodyResultStates(s, subtype, usage, denials, error, parent);
        case _ => OtherStates(s, body, parent);
      }
    }
  }

  lemma BodyResultStates(s: State, subtype: string, usage: bool, denials: seq<Denial>, error: string, parent: Option<string>)
    ensures var m := MapBody(s, Result(subtype, usage, denials, error), parent);
            && States(m.events) == [RunState("idle", if IsError(subtype) then Some(error) else None)]
            && m.s.seenInit == s.seenInit && m.s.resume == s.resume
  {
    ResultStates(s, subtype, usage, denials, error);
  }

  /** A session reports exactly these turn states, in this order: running at most once. */
  lemma {:induction false} TurnsAreReported(resume: bool, run: seq<Action>)
    ensures var r := Session(resume, run);
            && States(r.events) == TurnStates(resume, run)
            && r.s.seenInit == Begun(run) && r.s.resume == resume
  {
    if run != [] {
      hide States, Begun, Step;
      var n := |run| - 1;
      var b := Session(resume, run[..n]);
      TurnsAreReported(resume, run[..n]);
      BegunMore(run);
      StatesConcat(b.events, Step(b.s, run[n]).events);
      StepStates(b.s, run[n]);
    }
  }
}
