/**
 Turn overrides as a fold: over any run, what the client has sent for model, effort, approval and
 sandbox is what the user last asked for, or the startup default.
 */
module TurnOverrides {
  import opened AppServerSpec
  import opened AppServerTypes
  import opened DeferredBuffer
  import opened IdCorrelation
  import opened Ownership
  import opened RootIsolation
  import opened SessionInvariant
  import opened Wrappers

  /** The settings carried by one turn. */
  datatype Settings = Settings(
    approval: Option<string>, sandbox: Option<SandboxPolicy>, model: Option<string>, effort: Option<string>)

  /** The settings of every turn among these frames. */
  function Sent(frames: seq<Frame>): seq<Settings> {
    if frames == [] then []
    else
      (match frames[0]
       case TurnStart(_, _, _, approval, sandbox, model, effort) => [Settings(approval, sandbox, model, effort)]
       case _ => [])
      + Sent(frames[1..])
  }

  /** The overrides of every turn taken while the root was known; the others are dropped. */
  function Accepted(s: State, run: seq<Action>): seq<Overrides> {
    if run == [] then []
    else
      var before, last := run[..|run| - 1], run[|run| - 1];
      Accepted(s, before)
      + (if last.UserTurn? && Run(s, before).s.root.Some? then [last.overrides] else [])
  }

  /** One turn's settings: the overrides, backed on the first turn by the startup defaults. */
  function Asked(ctx: StartupCtx, o: Overrides, first: bool): Settings {
    if !first then
      Settings(o.approval, Policy(o.sandbox, ctx.addDirs), o.model, o.effort)
    else
      var d := ctx.settings;
      Settings(
        Later(d.approval, o.approval),
        (var mode := Later(d.sandbox, o.sandbox);
         Policy(if mode.None? && ctx.addDirs != [] then Some("workspace-write") else mode, ctx.addDirs)),
        Later(d.model, o.model),
        Later(d.effort, o.effort))
  }

  function Policy(mode: Option<string>, roots: seq<string>): Option<SandboxPolicy> {
    if mode.Some? then Some(SandboxPolicyFor(mode.value, roots)) else None
  }

  function AllAsked(ctx: StartupCtx, accepted: seq<Overrides>): seq<Settings> {
    if accepted == [] then []
    else
      var n := |accepted| - 1;
      AllAsked(ctx, accepted[..n]) + [Asked(ctx, accepted[n], n == 0)]
  }

  // ---- What each step sends ----

  lemma {:induction false} SentConcat(a: seq<Frame>, b: seq<Frame>)
    ensures Sent(a + b) == Sent(a) + Sent(b)
  {
    if a == [] {
      assert a + b == b;
    } else {
      assert (a + b)[1..] == a[1..] + b && (a + b)[0] == a[0];
      SentConcat(a[1..], b);
    }
  }

  lemma {:induction false} NoTurns(frames: seq<Frame>)
    requires forall f :: f in frames ==> !f.TurnStart?
    ensures Sent(frames) == []
  {
    if frames != [] {
      NoTurns(frames[1..]);
    }
  }

  /** What a run never changes, and what only a turn does. */
  ghost predicate SettingsKept(s: State, w: State) {
    w.addDirs == s.addDirs && w.startup == s.startup && w.replayStartup == s.replayStartup
  }

  lemma NoteKeepsSettings(s: State, n: Note, now: nat, order: seq<string>)
    ensures SettingsKept(s, HandleNotification(s, n, now, order).s)
  {
    if Foreign(s, n.thread) && !n.body.ThreadStarted? {
      DeferMembers(s, n.thread.value, Notification(n), now, order);
    } else {
      WorkFrame(s, [Deliver(n)], now);
    }
  }

  lemma ReplyKeepsSettings(s: State, id: Option<int>, thread: Option<ThreadInfo>, hasError: bool, payload: string, now: nat)
    ensures SettingsKept(s, HandleReply(s, id, thread, hasError, payload, now).s)
  {
    var root := Opened(s, id, thread, hasError);
    if root.Some? {
      WorkFrame(s.(root := root), [Drain(root.value)], now);
    } else {
      SettlingFrame(s, id, thread, hasError, payload);
    }
  }

  lemma RequestKeepsSettings(s: State, r: Request, now: nat, order: seq<string>)
    ensures SettingsKept(s, HandleRequest(s, r, now, order).s)
  {
    if !LacksThread(r) && Foreign(s, r.thread) {
      DeferMembers(s, r.thread.value, Interactive(r), now, order);
    }
  }

  lemma HearingKeepsSettings(s: State, a: Action)
    requires a.Hear?
    ensures SettingsKept(s, Step(s, a).s)
  {
    hide Work, Defer, Present, OpenRoot;
    match a.line {
      case NoteLine(n) => NoteKeepsSettings(s, n, a.now, a.order);
      case RequestLine(r) => RequestKeepsSettings(s, r, a.now, a.order);
      case Reply(id, thread, hasError, payload) => ReplyKeepsSettings(s, id, thread, hasError, payload, a.now);
      case Unparsable =>
      case UnhandledRequest =>
    }
  }

  lemma FramingSendsNoTurns(s: State, a: Action)
    requires !a.UserTurn? && !a.Hear? && !a.Tick?
    ensures SettingsKept(s, Step(s, a).s) && forall f :: f in Step(s, a).out.outbound ==> !f.TurnStart?
  {
    hide AnswerFor, TurnSandbox, Pick;
  }

  /** Only a user turn sends turn settings or uses up the startup defaults. */
  lemma OthersSendNoTurns(s: State, a: Action)
    requires !a.UserTurn?
    ensures SettingsKept(s, Step(s, a).s) && Sent(Step(s, a).out.outbound) == []
  {
    if a.Hear? {
      hide Step, SettingsKept;
      HearingKeepsSettings(s, a);
      HearingWrites(s, a);
      assert forall f :: f in Step(s, a).out.outbound ==> Housekeeping(f);
    } else if a.Tick? {
      RejectionsAreHousekeeping(ExpirySlots(s.log, a.now, a.order), EXPIRED);
      assert forall f :: f in Step(s, a).out.outbound ==> Housekeeping(f);
    } else {
      FramingSendsNoTurns(s, a);
    }
    NoTurns(Step(s, a).out.outbound);
  }

  lemma TurnSends(s: State, ctx: StartupCtx, text: string, o: Overrides)
    requires s.addDirs == ctx.addDirs && s.startup == ctx.settings
    ensures var r := Step(s, UserTurn(text, o));
            if s.root.None? then r.s == s && Sent(r.out.outbound) == []
            else
              && r.s == s.(nextId := s.nextId + 1, replayStartup := false)
              && Sent(r.out.outbound) == [Asked(ctx, o, s.replayStartup)]
  {
    var frames := FrameUserTurn(s, text, o).frames;
    if s.root.Some? {
      assert frames[1..] == [];
    }
  }

  // ---- Runs ----

  /** The state of a session whose accepted turns are these, and what it has written by then. */
  ghost predicate TurnsMatch(ctx: StartupCtx, s: State, frames: seq<Frame>, accepted: seq<Overrides>) {
    && s.addDirs == ctx.addDirs && s.startup == ctx.settings
    && (s.replayStartup <==> accepted == [])
    && Sent(frames) == AllAsked(ctx, accepted)
  }

  lemma StepMatches(ctx: StartupCtx, s: State, frames: seq<Frame>, accepted: seq<Overrides>, a: Action)
    requires TurnsMatch(ctx, s, frames, accepted)
    ensures TurnsMatch(ctx, Step(s, a).s, frames + Step(s, a).out.outbound,
                       accepted + (if a.UserTurn? && s.root.Some? then [a.overrides] else []))
  {
    SentConcat(frames, Step(s, a).out.outbound);
    if a.UserTurn? {
      TurnSends(s, ctx, a.text, a.overrides);
      AskMore(ctx, accepted, a.overrides);
    } else {
      OthersSendNoTurns(s, a);
      assert accepted + [] == accepted;
    }
  }

  /**
   The turns sent over a run are exactly the accepted ones with their settings, the first and only
   the first backed by the startup defaults: a dropped turn does not use them up.
   */
  lemma {:induction false} TurnsAreAsAsked(ctx: StartupCtx, run: seq<Action>)
    ensures var r := Run(Initial(ctx), run);
            TurnsMatch(ctx, r.s, Written(r.outs), Accepted(Initial(ctx), run))
  {
    if run != [] {
      var n := |run| - 1;
      var b := Run(Initial(ctx), run[..n]);
      TurnsAreAsAsked(ctx, run[..n]);
      StepMatches(ctx, b.s, Written(b.outs), Accepted(Initial(ctx), run[..n]), run[n]);
      assert Run(Initial(ctx), run).outs[..n] == b.outs;
    }
  }

  lemma AskMore(ctx: StartupCtx, accepted: seq<Overrides>, o: Overrides)
    ensures AllAsked(ctx, accepted + [o]) == AllAsked(ctx, accepted) + [Asked(ctx, o, accepted == [])]
  {
    assert (accepted + [o])[..|accepted|] == accepted;
  }

  // ---- The setting in force ----

  /** The last value given to each setting. */
  function InForce(sent: seq<Settings>): Settings {
    if sent == [] then Settings(None, None, None, None)
    else
      var before, last := InForce(sent[..|sent| - 1]), sent[|sent| - 1];
      Settings(Later(before.approval, last.approval), Later(before.sandbox, last.sandbox),
               Later(before.model, last.model), Later(before.effort, last.effort))
  }

  /** The last override of each kind. */
  function LastOverrides(accepted: seq<Overrides>): Overrides {
    if accepted == [] then Overrides(None, None, None, None)
    else
      var before, last := LastOverrides(accepted[..|accepted| - 1]), accepted[|accepted| - 1];
      Overrides(Later(before.approval, last.approval), Later(before.sandbox, last.sandbox),
                Later(before.model, last.model), Later(before.effort, last.effort))
  }

  lemma {:induction false} ForceOfAsked(ctx: StartupCtx, accepted: seq<Overrides>)
    requires accepted != []
    ensures InForce(AllAsked(ctx, accepted)) == Asked(ctx, LastOverrides(accepted), true)
  {
    var n := |accepted| - 1;
    var sent := AllAsked(ctx, accepted);
    assert sent[..|sent| - 1] == AllAsked(ctx, accepted[..n]) && sent[|sent| - 1] == Asked(ctx, accepted[n], n == 0);
    if n == 0 {
      assert accepted[..n] == [] && InForce(sent[..|sent| - 1]) == Settings(None, None, None, None);
    } else {
      ForceOfAsked(ctx, accepted[..n]);
    }
  }

  /**
   Once a turn has been accepted, each setting in force is the last override the user gave, else the
   startup default; for the sandbox, extra directories alone already call for the writable policy.
   */
  lemma SettingsInForce(ctx: StartupCtx, run: seq<Action>)
    requires Accepted(Initial(ctx), run) != []
    ensures var last := LastOverrides(Accepted(Initial(ctx), run));
            var d := ctx.settings;
            var f := InForce(Sent(Written(Run(Initial(ctx), run).outs)));
            && f.approval == Later(d.approval, last.approval)
            && f.model == Later(d.model, last.model)
            && f.effort == Later(d.effort, last.effort)
            && f.sandbox ==
               (var mode := Later(d.sandbox, last.sandbox);
                Policy(if mode.None? && ctx.addDirs != [] then Some("workspace-write") else mode, ctx.addDirs))
  {
    TurnsAreAsAsked(ctx, run);
    ForceOfAsked(ctx, Accepted(Initial(ctx), run));
  }

  /** What a sandbox mode stands for, with these extra directories. */
  predicate Means(mode: Option<string>, dirs: seq<string>, policy: Option<SandboxPolicy>) {
    && (policy == Some(ReadOnly) <==> mode == Some("read-only"))
    && (policy == Some(DangerFullAccess) <==> mode == Some("danger-full-access"))
    && (policy == None <==> mode == None && dirs == [])
    && (policy.Some? && policy.value.WorkspaceWrite? ==> policy.value.writableRoots == dirs)
  }

  /**
   The sandbox in force is the one its mode stands for: read-only or unrestricted exactly for the modes
   of those names, none exactly without a mode and without directories, and otherwise writable there.
   */
  lemma SandboxInForce(ctx: StartupCtx, run: seq<Action>)
    requires Accepted(Initial(ctx), run) != []
    ensures Means(Later(ctx.settings.sandbox, LastOverrides(Accepted(Initial(ctx), run)).sandbox), ctx.addDirs,
                  InForce(Sent(Written(Run(Initial(ctx), run).outs))).sandbox)
  {
    hide Run, Accepted, InForce, LastOverrides, Sent, Written;
    SettingsInForce(ctx, run);
  }

  /** Every writable policy ever sent carries the session's extra directories. */
  lemma WritablePoliciesCarryDirs(ctx: StartupCtx, run: seq<Action>)
    ensures forall x :: x in Sent(Written(Run(Initial(ctx), run).outs)) ==>
              x.sandbox.Some? && x.sandbox.value.WorkspaceWrite? ==> x.sandbox.value.writableRoots == ctx.addDirs
  {
    TurnsAreAsAsked(ctx, run);
    AskedCarryDirs(ctx, Accepted(Initial(ctx), run));
  }

  lemma {:induction false} AskedCarryDirs(ctx: StartupCtx, accepted: seq<Overrides>)
    ensures forall x :: x in AllAsked(ctx, accepted) ==>
              x.sandbox.Some? && x.sandbox.value.WorkspaceWrite? ==> x.sandbox.value.writableRoots == ctx.addDirs
  {
    if accepted != [] {
      AskedCarryDirs(ctx, accepted[..|accepted| - 1]);
    }
  }
}
