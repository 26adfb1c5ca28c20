/**
 Erasing every other thread's traffic from a run leaves what the root's user sees, and what the
 client writes for the root, unchanged.
 */
module RootErasure {
  import opened AppServerSpec
  import opened AppServerTypes
  import opened DeferredBuffer
  import opened Ownership
  import opened RootIsolation
  import opened SessionInvariant
  import opened Wrappers

  // ---- The user's own actions ----

  lemma OneRootFrame(keys: set<string>, f: Frame)
    ensures RootFrames(keys, [f]) == RootFrame(keys, f) && RootFrames(keys, []) == []
  {
    assert [f][1..] == [];
    assert RootFrames(keys, [f]) == RootFrame(keys, f) + RootFrames(keys, [f][1..]);
  }

  lemma {:induction false} RootFramesConcat(keys: set<string>, a: seq<Frame>, b: seq<Frame>)
    ensures RootFrames(keys, a + b) == RootFrames(keys, a) + RootFrames(keys, b)
  {
    if a == [] {
      assert a + b == b;
    } else {
      assert (a + b)[1..] == a[1..] + b && (a + b)[0] == a[0];
      RootFramesConcat(keys, a[1..], b);
    }
  }

  lemma FrameAlike(keys: set<string>, f: Framed, g: Framed)
    requires (f.frames == [] && g.frames == [])
             || (|f.frames| == 1 && |g.frames| == 1 && RootFrame(keys, f.frames[0]) == RootFrame(keys, g.frames[0]))
    ensures RootFrames(keys, f.frames) == RootFrames(keys, g.frames)
  {
    if f.frames != [] {
      assert f.frames == [f.frames[0]] && g.frames == [g.frames[0]];
      OneRootFrame(keys, f.frames[0]);
      OneRootFrame(keys, g.frames[0]);
    }
  }

  ghost predicate AlikeFramings(f: Framed, g: Framed, root: string, keys: set<string>) {
    Alike(f.s, g.s, root, keys) && RootFrames(keys, f.frames) == RootFrames(keys, g.frames)
  }

  lemma InterruptAlike(s: State, w: State, root: string, keys: set<string>)
    requires Alike(s, w, root, keys)
    ensures AlikeFramings(FrameInterrupt(s), FrameInterrupt(w), root, keys)
  {
    FrameAlike(keys, FrameInterrupt(s), FrameInterrupt(w));
  }

  lemma SteerAlike(s: State, w: State, root: string, keys: set<string>, text: string)
    requires Alike(s, w, root, keys)
    ensures AlikeFramings(FrameSteer(s, text), FrameSteer(w, text), root, keys)
  {
    FrameAlike(keys, FrameSteer(s, text), FrameSteer(w, text));
  }

  lemma TurnAlike(s: State, w: State, root: string, keys: set<string>, text: string, o: Overrides)
    requires Alike(s, w, root, keys)
    ensures AlikeFramings(FrameUserTurn(s, text, o), FrameUserTurn(w, text, o), root, keys)
  {
    FrameAlike(keys, FrameUserTurn(s, text, o), FrameUserTurn(w, text, o));
  }

  lemma AskAlike(s: State, w: State, root: string, keys: set<string>, id: string, command: string)
    requires Alike(s, w, root, keys)
    ensures AlikeFramings(FrameTracked(s, id, command), FrameTracked(w, id, command), root, keys)
  {
    FrameAlike(keys, FrameTracked(s, id, command), FrameTracked(w, id, command));
  }

  lemma PendingShared(s: State, w: State, root: string, keys: set<string>, key: string)
    requires Alike(s, w, root, keys) && key in keys
    ensures key in s.pending <==> key in w.pending
    ensures key in s.pending ==> s.pending[key] == w.pending[key]
    ensures ViewOf(s.(pending := s.pending - {key}), keys) == ViewOf(w.(pending := w.pending - {key}), keys)
  {
    var p, q := ViewOf(s, keys).pending, ViewOf(w, keys).pending;
    assert key in p <==> key in q;
    assert ViewOf(s.(pending := s.pending - {key}), keys).pending == p - {key};
    assert ViewOf(w.(pending := w.pending - {key}), keys).pending == q - {key};
  }

  lemma RespondAlike(s: State, w: State, root: string, keys: set<string>, key: string, response: Response)
    requires Alike(s, w, root, keys) && key in keys && key in s.pending && key in w.pending
    ensures AlikeFramings(Respond(s, key, response), Respond(w, key, response), root, keys)
  {
    var s1, w1 := s.(pending := s.pending - {key}), w.(pending := w.pending - {key});
    PendingShared(s, w, root, keys, key);
    AnswerAlike(s1, w1, root, keys, s.pending[key], response);
  }

  /** Answering the same request in sessions alike once it is gone from both. */
  lemma AnswerAlike(s: State, w: State, root: string, keys: set<string>, p: PendingServerReq, response: Response)
    requires Alike(s, w, root, keys)
    ensures var reply := [ResultReply(p.rawId, AnswerFor(p, response))];
            var f, g := FrameInterrupt(s), FrameInterrupt(w);
            && AlikeFramings(Framed(f.s, reply + f.frames), Framed(g.s, reply + g.frames), root, keys)
            && AlikeFramings(Framed(s, reply), Framed(w, reply), root, keys)
  {
    var reply := [ResultReply(p.rawId, AnswerFor(p, response))];
    InterruptAlike(s, w, root, keys);
    RootFramesConcat(keys, reply, FrameInterrupt(s).frames);
    RootFramesConcat(keys, reply, FrameInterrupt(w).frames);
  }

  lemma ReactionAlike(s: State, w: State, root: string, keys: set<string>, kind: PendingKind, key: string, response: Response)
    requires Alike(s, w, root, keys) && key in keys
    ensures var a := Reacts(kind, key, response);
            AlikeResults(Step(s, a), Step(w, a), root, keys)
  {
    PendingShared(s, w, root, keys, key);
    if Answerable(s, kind, key) {
      RespondAlike(s, w, root, keys, key, response);
    }
  }

  lemma HearingAlike(s: State, w: State, root: string, keys: set<string>, a: Action)
    requires Alike(s, w, root, keys) && a.Hear? && !Outside(root, keys, a)
    requires forall m :: m in Carried(a) ==> SoundMessage(root, keys, m)
    ensures AlikeResults(Step(s, a), Step(w, a), root, keys)
  {
    HearingWrites(s, a);
    HearingWrites(w, a);
    HousekeepingIsNotShown(keys, Step(s, a).out.outbound);
    HousekeepingIsNotShown(keys, Step(w, a).out.outbound);
    match a.line {
      case NoteLine(n) =>
        assert Notification(n) in Carried(a);
        NoteAlike(s, w, root, keys, n, a.now, a.order);
      case RequestLine(r) =>
        assert Interactive(r) in Carried(a);
        RequestAlike(s, w, root, keys, r, a.now, a.order);
      case Reply(id, thread, hasError, payload) =>
        ReplyAlike(s, w, root, keys, id, thread, hasError, payload, a.now);
      case Unparsable =>
      case UnhandledRequest =>
    }
  }

  /** A step that concerns the root depends on nothing but the root's view. */
  lemma RootStep(s: State, w: State, root: string, keys: set<string>, a: Action)
    requires Alike(s, w, root, keys) && !Outside(root, keys, a)
    requires forall m :: m in Carried(a) ==> SoundMessage(root, keys, m)
    ensures AlikeResults(Step(s, a), Step(w, a), root, keys)
  {
    match a {
      case Hear(_, _, _) => HearingAlike(s, w, root, keys, a);
      case Reacts(kind, key, response) => ReactionAlike(s, w, root, keys, kind, key, response);
      case UserTurn(text, o) => TurnAlike(s, w, root, keys, text, o);
      case Interrupt => InterruptAlike(s, w, root, keys);
      case Steer(text) => SteerAlike(s, w, root, keys, text);
      case Ask(id, command) => AskAlike(s, w, root, keys, id, command);
    }
  }

  // ---- Runs ----

  /** The actions of a run that concern the root. */
  function Erase(root: string, keys: set<string>, run: seq<Action>): seq<Action> {
    if run == [] then []
    else
      var last := run[|run| - 1];
      Erase(root, keys, run[..|run| - 1]) + (if Outside(root, keys, last) then [] else [last])
  }

  /** What the root's user sees, one report for each action that concerns the root. */
  function Seen(root: string, keys: set<string>, run: seq<Action>, outs: seq<ParsedLine>): seq<Report>
    requires |outs| == |run|
  {
    if run == [] then []
    else
      var n := |run| - 1;
      Seen(root, keys, run[..n], outs[..n])
      + (if Outside(root, keys, run[n]) then [] else [Shown(keys, outs[n])])
  }

  /** What the client writes for the root. */
  function WrittenFor(root: string, keys: set<string>, run: seq<Action>, outs: seq<ParsedLine>): seq<Frame>
    requires |outs| == |run|
  {
    if run == [] then []
    else
      var n := |run| - 1;
      WrittenFor(root, keys, run[..n], outs[..n])
      + (if Outside(root, keys, run[n]) then [] else RootFrames(keys, outs[n].outbound))
  }

  lemma RunMore(s: State, run: seq<Action>, a: Action)
    ensures var b := Run(s, run);
            var r := Step(b.s, a);
            Run(s, run + [a]) == Outcome(r.s, b.outs + [r.out])
  {
    assert (run + [a])[..|run|] == run;
  }

  lemma SeenMore(root: string, keys: set<string>, run: seq<Action>, a: Action, outs: seq<ParsedLine>, out: ParsedLine)
    requires |outs| == |run| && !Outside(root, keys, a)
    ensures Seen(root, keys, run + [a], outs + [out]) == Seen(root, keys, run, outs) + [Shown(keys, out)]
    ensures WrittenFor(root, keys, run + [a], outs + [out])
         == WrittenFor(root, keys, run, outs) + RootFrames(keys, out.outbound)
  {
    assert (run + [a])[..|run|] == run && (outs + [out])[..|run|] == outs;
  }

  lemma SoundLast(root: string, keys: set<string>, run: seq<Action>)
    requires run != [] && Sound(root, keys, run)
    ensures Sound(root, keys, run[..|run| - 1])
    ensures forall m :: m in Carried(run[|run| - 1]) ==> SoundMessage(root, keys, m)
  {
    assert Heard(run) == Heard(run[..|run| - 1]) + Carried(run[|run| - 1]);
  }

  /** A run and its erasure agree so far. */
  ghost predicate Agree(root: string, keys: set<string>, s: State, run: seq<Action>, kept: seq<Action>) {
    var r, q := Run(s, run), Run(s, kept);
    && Alike(r.s, q.s, root, keys)
    && Seen(root, keys, run, r.outs) == Seen(root, keys, kept, q.outs)
    && WrittenFor(root, keys, run, r.outs) == WrittenFor(root, keys, kept, q.outs)
  }

  lemma AgreeAtFirst(root: string, keys: set<string>, s: State)
    requires Quarantined(s, root, keys)
    ensures Agree(root, keys, s, [], [])
  {
  }

  lemma AgreeOutside(root: string, keys: set<string>, s: State, run: seq<Action>, a: Action, kept: seq<Action>)
    requires Agree(root, keys, s, run, kept) && Outside(root, keys, a)
    requires forall m :: m in Carried(a) ==> SoundMessage(root, keys, m)
    ensures Agree(root, keys, s, run + [a], kept)
  {
    var b := Run(s, run);
    var r := Step(b.s, a);
    OutsideStep(b.s, root, keys, a);
    RunMore(s, run, a);
    assert (run + [a])[..|run|] == run && (b.outs + [r.out])[..|run|] == b.outs;
  }

  lemma AgreeInside(root: string, keys: set<string>, s: State, run: seq<Action>, a: Action, kept: seq<Action>)
    requires Agree(root, keys, s, run, kept) && !Outside(root, keys, a)
    requires forall m :: m in Carried(a) ==> SoundMessage(root, keys, m)
    ensures Agree(root, keys, s, run + [a], kept + [a])
  {
    var b, c := Run(s, run), Run(s, kept);
    RootStep(b.s, c.s, root, keys, a);
    RunMore(s, run, a);
    RunMore(s, kept, a);
    SeenMore(root, keys, run, a, b.outs, Step(b.s, a).out);
    SeenMore(root, keys, kept, a, c.outs, Step(c.s, a).out);
  }

  lemma EraseMore(root: string, keys: set<string>, run: seq<Action>, a: Action)
    ensures Erase(root, keys, run + [a]) == Erase(root, keys, run) + (if Outside(root, keys, a) then [] else [a])
  {
    assert (run + [a])[..|run|] == run;
  }

  lemma ErasureStep(s: State, root: string, keys: set<string>, run: seq<Action>, a: Action)
    requires Agree(root, keys, s, run, Erase(root, keys, run))
    requires forall m :: m in Carried(a) ==> SoundMessage(root, keys, m)
    ensures Agree(root, keys, s, run + [a], Erase(root, keys, run + [a]))
  {
    hide Agree, SoundMessage, Carried, Erase;
    var kept := Erase(root, keys, run);
    EraseMore(root, keys, run, a);
    if Outside(root, keys, a) {
      AgreeOutside(root, keys, s, run, a, kept);
      assert kept + [] == kept;
    } else {
      AgreeInside(root, keys, s, run, a, kept);
    }
  }

  lemma LastOf(run: seq<Action>)
    requires run != []
    ensures run[..|run| - 1] + [run[|run| - 1]] == run
  {
  }

  /**
   Isolation: from any state in which the root is known, a run and the same run without other
   threads' traffic leave the root in the same state, show its user the same reports in the same
   order, and write the same for it.
   */
  lemma {:induction false} ErasureIsInvisible(s: State, root: string, keys: set<string>, run: seq<Action>)
    requires Quarantined(s, root, keys) && Sound(root, keys, run)
    ensures Agree(root, keys, s, run, Erase(root, keys, run))
  {
    if run == [] {
      AgreeAtFirst(root, keys, s);
    } else {
      hide Agree, Quarantined, SoundMessage, Erase;
      var n := |run| - 1;
      SoundLast(root, keys, run);
      ErasureIsInvisible(s, root, keys, run[..n]);
      ErasureStep(s, root, keys, run[..n], run[n]);
      LastOf(run);
    }
  }

  /** Every reachable state in which the root is known is one to which this applies. */
  lemma KnownRootIsQuarantined(ctx: StartupCtx, run: seq<Action>, root: string, keys: set<string>)
    requires Feasible(Initial(ctx), run) && Sound(root, keys, run)
    requires Run(Initial(ctx), run).s.root == Some(root)
    ensures Quarantined(Run(Initial(ctx), run).s, root, keys)
  {
    var s := Run(Initial(ctx), run).s;
    ReachableInvariant(ctx, run);
    CardsAreTopLevel(ctx, run);
    forall n | Notification(n) in Heard(run) ensures root !in n.body.Spawns() {
      assert SoundMessage(root, keys, Notification(n));
    }
  }

  /** Isolation over a whole session, from the moment its root is known. */
  lemma RootIsUndisturbed(ctx: StartupCtx, opening: seq<Action>, run: seq<Action>, root: string, keys: set<string>)
    requires Feasible(Initial(ctx), opening) && Run(Initial(ctx), opening).s.root == Some(root)
    requires Sound(root, keys, opening) && Sound(root, keys, run)
    ensures Agree(root, keys, Run(Initial(ctx), opening).s, run, Erase(root, keys, run))
  {
    KnownRootIsQuarantined(ctx, opening, root, keys);
    ErasureIsInvisible(Run(Initial(ctx), opening).s, root, keys, run);
  }
}
