/**
 What the client writes at the user's wish: every answer is the one the user gave to the request it
 answers, and turns, steers, interrupts and commands are written in order, each once, for the root.
 */
module UserFrames {
  import opened AppServerSpec
  import opened AppServerTypes
  import opened Deliveries
  import opened DeferredBuffer
  import opened IdCorrelation
  import opened LiveTurn
  import opened Readiness
  import opened RootIsolation
  import opened SessionReports
  import opened Wrappers

  // ---- Answers ----

  datatype AnswerSent = AnswerSent(id: JsonId, answer: Answer)

  /** The answers among these frames. */
  function Replies(frames: seq<Frame>): seq<AnswerSent> {
    if frames == [] then []
    else
      (if frames[0].ResultReply? then [AnswerSent(frames[0].replyTo, frames[0].answer)] else []) + Replies(frames[1..])
  }

  predicate Allowed(response: Response) {
    response.behavior == Some("allow")
  }

  /** Whether an answer is the one this response gives to this request. */
  predicate Right(r: Request, response: Response, answer: Answer) {
    match r.call
    case PermissionsApproval =>
      answer == Grant(if Allowed(response) then r.permissions else None)
    case UserInputRequest => answer == Answers(response.answers)
    case ElicitationRequest =>
      && answer.ElicitationAnswer? && answer.content == response.content
      && (if response.action.Some? then answer.action == response.action.value else answer.action == "decline")
    case _ =>
      && answer.Decision?
      && (answer.decision == "accept" <==> Allowed(response))
      && (answer.decision == "cancel" <==> !Allowed(response) && response.interrupt)
      && (answer.decision == "decline" <==> !Allowed(response) && !response.interrupt)
  }

  /** A request on offer, and the response the user gave to it. */
  datatype Given = Given(request: Request, response: Response)

  /** The responses given to requests on offer, in order. */
  function AllGiven(ctx: StartupCtx, run: seq<Action>): seq<Given> {
    if run == [] then []
    else AllGiven(ctx, run[..|run| - 1]) + GivenBy(Open(ctx, run[..|run| - 1]), run[|run| - 1])
  }

  function GivenBy(open: map<string, Request>, a: Action): seq<Given> {
    if Settles(open, a) then [Given(open[a.key], a.response)] else []
  }

  /** Each response is answered once, under the id of its request, rightly. */
  predicate AllRight(replies: seq<AnswerSent>, given: seq<Given>) {
    && |replies| == |given|
    && forall i :: 0 <= i < |given| ==>
         replies[i].id == given[i].request.id && Right(given[i].request, given[i].response, replies[i].answer)
  }

  lemma {:induction false} RepliesConcat(a: seq<Frame>, b: seq<Frame>)
    ensures Replies(a + b) == Replies(a) + Replies(b)
  {
    if a == [] {
      assert a + b == b;
    } else {
      assert (a + b)[0] == a[0] && (a + b)[1..] == a[1..] + b;
      RepliesConcat(a[1..], b);
    }
  }

  lemma {:induction false} NoReplies(frames: seq<Frame>)
    requires forall f :: f in frames ==> !f.ResultReply?
    ensures Replies(frames) == []
  {
    if frames != [] {
      assert frames[0] in frames;
      NoReplies(frames[1..]);
    }
  }

  lemma AnswerIsRight(r: Request, response: Response)
    ensures Right(r, response, AnswerFor(Record(r), response))
  {
  }

  lemma ResponseReplies(s: State, key: string, response: Response)
    requires key in s.pending
    ensures Replies(Respond(s, key, response).frames)
         == [AnswerSent(s.pending[key].rawId, AnswerFor(s.pending[key], response))]
  {
    var p := s.pending[key];
    var reply := [ResultReply(p.rawId, AnswerFor(p, response))];
    var rest := FrameInterrupt(s.(pending := s.pending - {key})).frames;
    hide AnswerFor;
    NoReplies(rest);
    RepliesConcat(reply, rest);
    assert reply[1..] == [];
    assert Replies(reply) == [AnswerSent(p.rawId, AnswerFor(p, response))] + Replies([]);
  }

  lemma StepReplies(s: State, open: map<string, Request>, a: Action)
    requires Recorded(s.pending, open)
    ensures AllRight(Replies(Step(s, a).out.outbound), GivenBy(open, a))
  {
    if a.Reacts? {
      ReactionReplies(s, open, a);
    } else {
      hide Step;
      OthersReplyNothing(s, a);
      NoReplies(Step(s, a).out.outbound);
    }
  }

  lemma ReactionReplies(s: State, open: map<string, Request>, a: Action)
    requires Recorded(s.pending, open) && a.Reacts?
    ensures AllRight(Replies(Step(s, a).out.outbound), GivenBy(open, a))
  {
    hide Replies, Right, AnswerFor, Respond;
    ReactionRecords(s, open, a);
    if Settles(open, a) {
      ResponseReplies(s, a.key, a.response);
      AnswerIsRight(open[a.key], a.response);
    } else {
      NoReplies([]);
    }
  }

  lemma OthersReplyNothing(s: State, a: Action)
    requires !a.Reacts?
    ensures forall f :: f in Step(s, a).out.outbound ==> !f.ResultReply?
  {
    if a.Hear? {
      hide Step;
      HearingWrites(s, a);
      assert forall f :: f in Step(s, a).out.outbound ==> Housekeeping(f);
    } else if a.Tick? {
      RejectionsAreHousekeeping(ExpirySlots(s.log, a.now, a.order), EXPIRED);
      assert forall f :: f in Step(s, a).out.outbound ==> Housekeeping(f);
    }
  }

  lemma RightThen(a: seq<AnswerSent>, b: seq<AnswerSent>, x: seq<Given>, y: seq<Given>)
    requires AllRight(a, x) && AllRight(b, y)
    ensures AllRight(a + b, x + y)
  {
  }

  /**
   Over any run the answers written are, in order and one for one, those the user gave to requests on
   offer: under the id of the request, accepting only what was allowed, cancelling only what was denied
   with an interrupt, granting what was asked for, and passing on what was entered.
   */
  lemma {:induction false} AnswersAreGiven(ctx: StartupCtx, run: seq<Action>)
    ensures AllRight(Replies(Written(Run(Initial(ctx), run).outs)), AllGiven(ctx, run))
  {
    if run != [] {
      hide Step, Replies, AllRight, Recorded, GivenBy, Open;
      var n := |run| - 1;
      var b := Run(Initial(ctx), run[..n]);
      AnswersAreGiven(ctx, run[..n]);
      PendingIsOnOffer(ctx, run[..n]);
      StepReplies(b.s, Open(ctx, run[..n]), run[n]);
      RepliesConcat(Written(b.outs), Step(b.s, run[n]).out.outbound);
      RightThen(Replies(Written(b.outs)), Replies(Step(b.s, run[n]).out.outbound),
                AllGiven(ctx, run[..n]), GivenBy(Open(ctx, run[..n]), run[n]));
      assert Run(Initial(ctx), run).outs[..n] == b.outs;
    } else {
      assert Replies([]) == [];
    }
  }

  /** Whatever the run, nothing is accepted or granted that the user did not allow. */
  lemma OnlyAllowedIsAccepted(ctx: StartupCtx, run: seq<Action>, i: nat)
    requires i < |Replies(Written(Run(Initial(ctx), run).outs))|
    requires var answer := Replies(Written(Run(Initial(ctx), run).outs))[i].answer;
             answer == Decision("accept") || (answer.Grant? && answer.permissions.Some?)
    ensures i < |AllGiven(ctx, run)| && Allowed(AllGiven(ctx, run)[i].response)
  {
    hide Run, AllGiven, Replies;
    AnswersAreGiven(ctx, run);
  }

  // ---- Wishes ----

  /** What the user wants of the root. */
  datatype Wish =
    | Say(thread: string, text: string)
    | Guide(thread: string, turn: string, text: string)
    | Stop(thread: string, turn: string)
    | Command(thread: string, command: string)

  function WishIn(f: Frame): seq<Wish> {
    match f
    case TurnStart(_, thread, text, _, _, _, _) => [Say(thread, text)]
    case TurnSteer(_, thread, turn, text) => [Guide(thread, turn, text)]
    case TurnInterrupt(_, thread, turn) => [Stop(thread, turn)]
    case Tracked(_, command, thread) => [Command(thread, command)]
    case _ => []
  }

  /** The wishes these frames carry. */
  function WishesIn(frames: seq<Frame>): seq<Wish> {
    if frames == [] then [] else WishIn(frames[0]) + WishesIn(frames[1..])
  }

  /** The turn that is live after a run. */
  function LiveNow(ctx: StartupCtx, run: seq<Action>): Option<string> {
    TurnAfterAll(None, Delivered(ctx, run))
  }

  /** Whether this reaction denies a permission profile and asks to stop. */
  predicate DeniesAndStops(open: map<string, Request>, a: Action) {
    && Settles(open, a) && open[a.key].call == PermissionsApproval
    && !Allowed(a.response) && a.response.interrupt
  }

  /** What an action wishes, given the root, the live turn and the requests on offer. */
  function Wishes(root: Option<string>, turn: Option<string>, open: map<string, Request>, a: Action): seq<Wish> {
    if root.None? then []
    else if a.UserTurn? then [Say(root.value, a.text)]
    else if a.Ask? then [Command(root.value, a.command)]
    else if turn.None? then []
    else if a.Steer? then [Guide(root.value, turn.value, a.text)]
    else if a.Interrupt? || DeniesAndStops(open, a) then [Stop(root.value, turn.value)]
    else []
  }

  function AllWishes(ctx: StartupCtx, run: seq<Action>): seq<Wish> {
    if run == [] then []
    else
      var before := run[..|run| - 1];
      AllWishes(ctx, before)
      + Wishes(RootNamed(ctx, before), LiveNow(ctx, before), Open(ctx, before), run[|run| - 1])
  }

  lemma {:induction false} WishesConcat(a: seq<Frame>, b: seq<Frame>)
    ensures WishesIn(a + b) == WishesIn(a) + WishesIn(b)
  {
    if a == [] {
      assert a + b == b;
    } else {
      assert (a + b)[0] == a[0] && (a + b)[1..] == a[1..] + b;
      WishesConcat(a[1..], b);
      Associate(WishIn(a[0]), WishesIn(a[1..]), WishesIn(b));
    }
  }

  lemma {:induction false} NoWishes(frames: seq<Frame>)
    requires forall f :: f in frames ==> WishIn(f) == []
    ensures WishesIn(frames) == []
  {
    if frames != [] {
      assert frames[0] in frames;
      NoWishes(frames[1..]);
    }
  }

  lemma OneWish(f: Frame)
    ensures WishesIn([f]) == WishIn(f)
  {
    assert [f][1..] == [] && WishesIn([]) == [] && WishIn(f) + [] == WishIn(f);
  }

  lemma InterruptWishes(s: State)
    ensures WishesIn(FrameInterrupt(s).frames)
         == if s.root.Some? && s.activeTurn.Some? then [Stop(s.root.value, s.activeTurn.value)] else []
  {
    if s.root.Some? && s.activeTurn.Some? {
      OneWish(FrameInterrupt(s).frames[0]);
    }
  }

  lemma ReactionWishes(s: State, open: map<string, Request>, a: Action)
    requires Recorded(s.pending, open) && a.Reacts?
    ensures WishesIn(Step(s, a).out.outbound) == Wishes(s.root, s.activeTurn, open, a)
  {
    hide AnswerFor;
    ReactionRecords(s, open, a);
    if Settles(open, a) {
      var p := s.pending[a.key];
      var reply := ResultReply(p.rawId, AnswerFor(p, a.response));
      var s1 := s.(pending := s.pending - {a.key});
      OneWish(reply);
      InterruptWishes(s1);
      WishesConcat([reply], FrameInterrupt(s1).frames);
    } else {
      NoWishes([]);
    }
  }

  lemma FramingWishes(s: State, open: map<string, Request>, a: Action)
    requires a.UserTurn? || a.Interrupt? || a.Steer? || a.Ask?
    ensures WishesIn(Step(s, a).out.outbound) == Wishes(s.root, s.activeTurn, open, a)
  {
    var frames := Step(s, a).out.outbound;
    if frames != [] {
      assert frames == [frames[0]];
      OneWish(frames[0]);
    }
  }

  lemma StepWishes(s: State, open: map<string, Request>, a: Action)
    requires Recorded(s.pending, open)
    ensures WishesIn(Step(s, a).out.outbound) == Wishes(s.root, s.activeTurn, open, a)
  {
    if a.Reacts? {
      ReactionWishes(s, open, a);
    } else if a.Hear? || a.Tick? {
      hide Step;
      HousekeepingOnly(s, a);
      NoWishes(Step(s, a).out.outbound);
    } else {
      FramingWishes(s, open, a);
    }
  }

  lemma HousekeepingOnly(s: State, a: Action)
    requires a.Hear? || a.Tick?
    ensures forall f :: f in Step(s, a).out.outbound ==> Housekeeping(f)
  {
    if a.Hear? {
      hide Step;
      HearingWrites(s, a);
    } else {
      RejectionsAreHousekeeping(ExpirySlots(s.log, a.now, a.order), EXPIRED);
    }
  }

  /**
   Over any run the client writes for the root, in order and each once: every turn and every command as
   soon as the root is known, and every steer and interrupt while a turn is live, for that turn.
   */
  lemma {:induction false} WishesAreWritten(ctx: StartupCtx, run: seq<Action>)
    ensures WishesIn(Written(Run(Initial(ctx), run).outs)) == AllWishes(ctx, run)
  {
    if run != [] {
      hide Step, WishesIn, Wishes, Recorded, Open, RootNamed, LiveNow;
      var n := |run| - 1;
      var b := Run(Initial(ctx), run[..n]);
      WishesAreWritten(ctx, run[..n]);
      NowIs(ctx, run[..n]);
      PendingIsOnOffer(ctx, run[..n]);
      StepWishes(b.s, Open(ctx, run[..n]), run[n]);
      WishesConcat(Written(b.outs), Step(b.s, run[n]).out.outbound);
      assert Run(Initial(ctx), run).outs[..n] == b.outs;
    } else {
      assert WishesIn([]) == [];
    }
  }

  lemma NowIs(ctx: StartupCtx, run: seq<Action>)
    ensures Run(Initial(ctx), run).s.root == RootNamed(ctx, run)
    ensures Run(Initial(ctx), run).s.activeTurn == LiveNow(ctx, run)
    ensures forall turn :: LiveNow(ctx, run) == Some(turn) <==> Live(Delivered(ctx, run), turn)
  {
    RootIsNamed(ctx, run);
    TurnIsFolded(ctx, run);
    forall turn ensures LiveNow(ctx, run) == Some(turn) <==> Live(Delivered(ctx, run), turn) {
      FoldIsLive(Delivered(ctx, run), turn);
    }
  }
}
