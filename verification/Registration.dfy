/**
 What registering spawned threads comes to, in closed form: who owns what, which identities are asked
 for, and what the messages that waited add.
 */
module Registration {
  import opened AppServerSpec
  import opened AppServerTypes
  import opened DeferredBuffer
  import opened DirectReplay
  import opened QueueRefinement
  import opened Wrappers

  // ---- What a child's message does ----

  /** A message that spawns nothing. */
  predicate Plain(m: ThreadMessage) {
    m.Notification? ==> m.note.body.Spawns() == []
  }

  function Offer(pending: map<string, PendingServerReq>, m: ThreadMessage): map<string, PendingServerReq> {
    match m
    case Notification(_) => pending
    case Interactive(r) =>
      pending[RequestKey(r.id) :=
        PendingServerReq(r.id, r.call, if r.call.PermissionsApproval? then r.permissions else None, KindOf(r.call))]
  }

  function Offered(pending: map<string, PendingServerReq>, ms: seq<ThreadMessage>): map<string, PendingServerReq>
    decreases ms
  {
    if ms == [] then pending else Offered(Offer(pending, ms[0]), ms[1..])
  }

  const BLANK := Initial(StartupCtx(None, Overrides(None, None, None, None), []))

  /** What a message of a child with this card reports. */
  function Report(m: ThreadMessage, card: string): ParsedLine {
    match m
    case Notification(n) => Observe(BLANK, n.body, Some(card)).out
    case Interactive(r) =>
      Emitted(PromptEvents(r, Some(card))).(interactive := [PendingInteractive(RequestKey(r.id), KindOf(r.call))])
  }

  function Reports(ms: seq<ThreadMessage>, card: string): ParsedLine {
    if ms == [] then SILENT else Merge(Report(ms[0], card), Reports(ms[1..], card))
  }

  /** A child's reports are events and requests: no lifecycle, no frames, nothing about the root. */
  lemma {:induction false} ReportsAreContent(ms: seq<ThreadMessage>, card: string)
    ensures var r := Reports(ms, card); r == Emitted(r.events).(interactive := r.interactive)
  {
    if ms != [] {
      ReportsAreContent(ms[1..], card);
      if ms[0].Notification? {
        ObserveFrame(BLANK, ms[0].note.body, Some(card));
      }
    }
  }

  /** The reports of a child do not depend on the session, only on its card. */
  lemma ObserveChild(s: State, body: Body, card: string)
    ensures Observe(s, body, Some(card)) == Result(s, Observe(BLANK, body, Some(card)).out)
  {
  }

  /** A plain message of a registered child adds to the pending requests and changes nothing else. */
  lemma ChildMessage(s: State, t: string, m: ThreadMessage, now: nat, order: seq<string>)
    requires t in s.parents && Holdable(t, m) && Plain(m)
    ensures Step(s, Hear(LineOf(m), now, order))
         == Result(s.(pending := Offer(s.pending, m)), Report(m, s.parents[t]))
  {
    if m.Notification? {
      ObserveChild(s, m.note.body, s.parents[t]);
      NotificationUnfold(s, m.note, now, order);
      MergeSilent(Observe(s, m.note.body, Some(s.parents[t])).out);
    }
  }

  function MessagesOf(arrivals: seq<Arrival>): seq<ThreadMessage> {
    if arrivals == [] then [] else [arrivals[0].message] + MessagesOf(arrivals[1..])
  }

  /** So does a whole series of them, at whatever times they arrive. */
  lemma {:induction false} ChildMessages(s: State, card: string, arrivals: seq<Arrival>)
    requires forall a :: a in arrivals ==> Plain(a.message) && OwnedBy(s, a.message, card)
    ensures var ms := MessagesOf(arrivals);
            Listen(s, arrivals) == Result(s.(pending := Offered(s.pending, ms)), Reports(ms, card))
    decreases arrivals
  {
    if arrivals != [] {
      var a := arrivals[0];
      var t := ThreadOf(a.message);
      ChildMessage(s, t, a.message, a.now, a.order);
      ChildMessages(s.(pending := Offer(s.pending, a.message)), card, arrivals[1..]);
    }
  }

  function ThreadOf(m: ThreadMessage): string {
    match m
    case Notification(n) => n.thread.GetOr("")
    case Interactive(r) => r.thread.GetOr("")
  }

  predicate OwnedBy(s: State, m: ThreadMessage, card: string) {
    var t := ThreadOf(m);
    t in s.parents && s.parents[t] == card && Holdable(t, m)
  }

  // ---- Registration, in closed form ----

  /** Registering spawned threads for which nothing waits. */
  function Registered(s: State, threads: seq<string>, card: string): Result
    decreases threads
  {
    if threads == [] then Result(s, SILENT)
    else if threads[0] == "" then Registered(s, threads[1..], card)
    else
      var t := threads[0];
      var asked := StepTask(s.(parents := s.parents[t := card]), Identify(t), 0);
      var rest := Registered(asked.s, threads[1..], card);
      Result(rest.s, Merge(asked.out, rest.out))
  }

  /** The buffer once the queues of some threads are taken out. */
  function Without(log: seq<Slot>, threads: seq<string>): seq<Slot>
    decreases threads
  {
    if threads == [] then log
    else Without(if threads[0] == "" then log else Select(log, OffThread(threads[0])), threads[1..])
  }

  /** What waited for these threads, thread by thread. */
  function Backlog(log: seq<Slot>, threads: seq<string>): seq<ThreadMessage>
    decreases threads
  {
    if threads == [] then []
    else if threads[0] == "" then Backlog(log, threads[1..])
    else Messages(Queue(log, threads[0])) + Backlog(Select(log, OffThread(threads[0])), threads[1..])
  }

  /** Everything waiting for these threads is plain and still young. */
  ghost predicate Ripe(log: seq<Slot>, threads: seq<string>, now: nat) {
    forall x :: x in log && x.thread in threads && x.thread != "" ==>
      Holdable(x.thread, x.entry.message) && Plain(x.entry.message) && !Stale(x.entry, now)
  }

  lemma {:induction false} RegisteredFrame(
    s: State, log: seq<Slot>, pending: map<string, PendingServerReq>, threads: seq<string>, card: string)
    ensures var r := Registered(s, threads, card);
            Registered(s.(log := log, pending := pending), threads, card)
            == Result(r.s.(log := log, pending := pending), r.out)
    decreases threads
  {
    if threads != [] {
      hide StepTask;
      var t := threads[0];
      if t == "" {
        RegisteredFrame(s, log, pending, threads[1..], card);
      } else {
        var s1 := s.(parents := s.parents[t := card]);
        IdentifyApart(s1, s1.(log := log, pending := pending), t);
        RegisteredFrame(StepTask(s1, Identify(t), 0).s, log, pending, threads[1..], card);
      }
    }
  }

  /** Registration moves ownership and ids, and writes only identity requests. */
  lemma {:induction false} RegisteredMoves(s: State, threads: seq<string>, card: string)
    ensures var r := Registered(s, threads, card);
            && r.s == s.(nextId := r.s.nextId, internalWaiters := r.s.internalWaiters, seen := r.s.seen,
                         parents := r.s.parents)
            && r.out == Sent(r.out.outbound)
    decreases threads
  {
    if threads != [] {
      var t := threads[0];
      if t == "" {
        RegisteredMoves(s, threads[1..], card);
      } else {
        RegisteredMoves(StepTask(s.(parents := s.parents[t := card]), Identify(t), 0).s, threads[1..], card);
      }
    }
  }

  /** Registration gives every named thread the card. */
  lemma {:induction false} RegisteredOwns(s: State, threads: seq<string>, card: string, t: string)
    requires t != "" && (t in threads || (t in s.parents && s.parents[t] == card))
    ensures var r := Registered(s, threads, card).s; t in r.parents && r.parents[t] == card
    decreases threads
  {
    if threads != [] {
      if threads[0] == "" {
        RegisteredOwns(s, threads[1..], card, t);
      } else {
        var asked := StepTask(s.(parents := s.parents[threads[0] := card]), Identify(threads[0]), 0);
        RegisteredOwns(asked.s, threads[1..], card, t);
      }
    }
  }

  lemma {:induction false} OfferedConcat(pending: map<string, PendingServerReq>, a: seq<ThreadMessage>, b: seq<ThreadMessage>)
    ensures Offered(pending, a + b) == Offered(Offered(pending, a), b)
    decreases a
  {
    if a == [] {
      assert a + b == b;
    } else {
      assert (a + b)[1..] == a[1..] + b;
      OfferedConcat(Offer(pending, a[0]), a[1..], b);
    }
  }

  lemma {:induction false} ReportsConcat(a: seq<ThreadMessage>, b: seq<ThreadMessage>, card: string)
    ensures Reports(a + b, card) == Merge(Reports(a, card), Reports(b, card))
  {
    if a == [] {
      assert a + b == b;
      MergeSilent(Reports(b, card));
    } else {
      assert (a + b)[1..] == a[1..] + b;
      ReportsConcat(a[1..], b, card);
      MergeAssociative(Report(a[0], card), Reports(a[1..], card), Reports(b, card));
    }
  }

  /** Frames and content do not interfere: either order reads the same. */
  lemma FramesCommute(frames: ParsedLine, content: ParsedLine, frames2: ParsedLine, content2: ParsedLine)
    requires frames == Sent(frames.outbound) && frames2 == Sent(frames2.outbound)
    requires content == Emitted(content.events).(interactive := content.interactive)
    requires content2 == Emitted(content2.events).(interactive := content2.interactive)
    ensures Merge(Merge(content, frames), Merge(frames2, content2))
         == Merge(Merge(frames, frames2), Merge(content, content2))
  {
    var m := Merge(Merge(content, frames), Merge(frames2, content2));
    assert m.outbound == frames.outbound + frames2.outbound;
    assert m.events == content.events + content2.events;
    assert m.interactive == content.interactive + content2.interactive;
  }

  lemma {:induction false} MessagesAt(q: seq<Entry>, now: nat)
    ensures MessagesOf(At(Messages(q), now)) == Messages(q)
    ensures forall a :: a in At(Messages(q), now) ==> exists e :: e in q && e.message == a.message
  {
    if q != [] {
      MessagesAt(q[1..], now);
      var rest := At(Messages(q[1..]), now);
      assert At(Messages(q), now) == [Arrival(q[0].message, now, [])] + rest;
      forall a | a in At(Messages(q), now) ensures exists e :: e in q && e.message == a.message {
        if a in rest {
          var e :| e in q[1..] && e.message == a.message;
          assert e in q;
        } else {
          assert q[0] in q;
        }
      }
    }
  }

  /** Draining a child's plain queue. */
  lemma DrainChild(s: State, t: string, now: nat)
    requires t in s.parents && t != "" && Ripe(s.log, [t], now)
    ensures var ms := Messages(Queue(s.log, t));
            Work(s, [Drain(t)], now)
            == Result(s.(log := Select(s.log, OffThread(t)), pending := Offered(s.pending, ms)), Reports(ms, s.parents[t]))
  {
    hide Work, Select, Offered, Reports, Stale, Queue;
    var q, s1 := Queue(s.log, t), s.(log := Select(s.log, OffThread(t)));
    DrainSomething(s, t, now);
    QueueMembers(s.log, t);
    assert forall e :: e in q ==> Slot(t, e) in s.log;
    ReplayIsDirect(s1, t, q, now);
    MessagesAt(q, now);
    ChildMessages(s1, s.parents[t], At(Messages(q), now));
  }

  lemma RipeRest(log: seq<Slot>, threads: seq<string>, now: nat)
    requires threads != [] && Ripe(log, threads, now)
    ensures Ripe(log, [threads[0]], now) && Ripe(Select(log, OffThread(threads[0])), threads[1..], now)
    ensures Ripe(log, threads[1..], now)
  {
    SelectMembers(log, OffThread(threads[0]));
  }

  /** Asking who a thread is reads neither the buffer nor the pending requests. */
  lemma IdentifyApart(s1: State, s2: State, t: string)
    requires s2 == s1.(log := s2.log, pending := s2.pending)
    ensures var m := StepTask(s1, Identify(t), 0);
            StepTask(s2, Identify(t), 0) == Micro(m.s.(log := s2.log, pending := s2.pending), m.out, m.more)
  {
  }

  /** Registering one thread and replaying its plain queue. */
  lemma SpawnChild(s: State, t: string, card: string, now: nat)
    requires t != "" && card != "" && Ripe(s.log, [t], now)
    ensures var ms := Messages(Queue(s.log, t));
            var asked := StepTask(s.(parents := s.parents[t := card]), Identify(t), 0);
            Work(s, SpawnTasks([t], card), now)
            == Result(asked.s.(log := Select(s.log, OffThread(t)), pending := Offered(s.pending, ms)),
                      Merge(Reports(ms, card), asked.out))
  {
    hide Work, Queue, Select, Offered, Reports;
    var s1 := s.(parents := s.parents[t := card]);
    var s2 := s1.(log := Select(s.log, OffThread(t)), pending := Offered(s.pending, Messages(Queue(s.log, t))));
    SpawnOne(s, t, card, now);
    DrainChild(s1, t, now);
    IdentifyEffect(s2, t, now);
    IdentifyApart(s1, s2, t);
  }

  /**
   Registration in closed form: ownership, ids and identity requests as if nothing had waited, and
   then everything that waited, thread by thread.
   */
  lemma {:induction false} SpawnWork(s: State, threads: seq<string>, card: string, now: nat)
    requires card != "" && Ripe(s.log, threads, now)
    ensures var r := Registered(s, threads, card);
            var ms := Backlog(s.log, threads);
            Work(s, SpawnTasks(threads, card), now)
            == Result(r.s.(log := Without(s.log, threads), pending := Offered(s.pending, ms)),
                      Merge(r.out, Reports(ms, card)))
    decreases |threads|, 0
  {
    if threads != [] {
      RipeRest(s.log, threads, now);
      if threads[0] == "" {
        assert SpawnTasks(threads, card) == SpawnTasks(threads[1..], card);
        SpawnWork(s, threads[1..], card, now);
      } else {
        SpawnMoreWork(s, threads[0], threads[1..], card, now);
        assert threads == [threads[0]] + threads[1..];
      }
    } else {
      MergeSilent(SILENT);
    }
  }

  lemma SpawnSplit(s: State, t: string, rest: seq<string>, card: string, now: nat)
    requires t != "" && card != "" && Ripe(s.log, [t], now)
    ensures var mine := Messages(Queue(s.log, t));
            var asked := StepTask(s.(parents := s.parents[t := card]), Identify(t), 0);
            var w := Work(asked.s.(log := Select(s.log, OffThread(t)), pending := Offered(s.pending, mine)),
                          SpawnTasks(rest, card), now);
            Work(s, SpawnTasks([t] + rest, card), now) == Result(w.s, Merge(Merge(Reports(mine, card), asked.out), w.out))
  {
    SpawnTasksConcat([t], rest, card);
    WorkConcat(s, SpawnTasks([t], card), SpawnTasks(rest, card), now);
    SpawnChild(s, t, card, now);
  }

  lemma SpawnReports(frames: ParsedLine, frames2: ParsedLine, a: seq<ThreadMessage>, b: seq<ThreadMessage>, card: string)
    requires frames == Sent(frames.outbound) && frames2 == Sent(frames2.outbound)
    ensures Merge(Merge(Reports(a, card), frames), Merge(frames2, Reports(b, card)))
         == Merge(Merge(frames, frames2), Reports(a + b, card))
  {
    ReportsConcat(a, b, card);
    ReportsAreContent(a, card);
    ReportsAreContent(b, card);
    FramesCommute(frames, Reports(a, card), frames2, Reports(b, card));
  }

  lemma RegisteredMore(s: State, t: string, rest: seq<string>, card: string)
    requires t != ""
    ensures var asked := StepTask(s.(parents := s.parents[t := card]), Identify(t), 0);
            var r := Registered(asked.s, rest, card);
            && Registered(s, [t] + rest, card) == Result(r.s, Merge(asked.out, r.out))
            && asked.out == Sent(asked.out.outbound) && r.out == Sent(r.out.outbound)
  {
    var asked := StepTask(s.(parents := s.parents[t := card]), Identify(t), 0);
    assert ([t] + rest)[1..] == rest;
    RegisteredMoves(asked.s, rest, card);
  }

  lemma BacklogMore(log: seq<Slot>, t: string, rest: seq<string>)
    requires t != ""
    ensures Backlog(log, [t] + rest) == Messages(Queue(log, t)) + Backlog(Select(log, OffThread(t)), rest)
    ensures Without(log, [t] + rest) == Without(Select(log, OffThread(t)), rest)
  {
    assert ([t] + rest)[1..] == rest;
  }

  lemma {:induction false} SpawnMoreWork(s: State, t: string, rest: seq<string>, card: string, now: nat)
    requires t != "" && card != "" && Ripe(s.log, [t], now) && Ripe(Select(s.log, OffThread(t)), rest, now)
    ensures var r := Registered(s, [t] + rest, card);
            var ms := Backlog(s.log, [t] + rest);
            Work(s, SpawnTasks([t] + rest, card), now)
            == Result(r.s.(log := Without(s.log, [t] + rest), pending := Offered(s.pending, ms)),
                      Merge(r.out, Reports(ms, card)))
    decreases |rest|, 1
  {
    var mine, left := Messages(Queue(s.log, t)), Select(s.log, OffThread(t));
    var asked := StepTask(s.(parents := s.parents[t := card]), Identify(t), 0);
    var r, others := Registered(asked.s, rest, card), Backlog(left, rest);
    SpawnSplit(s, t, rest, card, now);
    SpawnWork(asked.s.(log := left, pending := Offered(s.pending, mine)), rest, card, now);
    RegisteredFrame(asked.s, left, Offered(s.pending, mine), rest, card);
    RegisteredMore(s, t, rest, card);
    BacklogMore(s.log, t, rest);
    OfferedConcat(s.pending, mine, others);
    SpawnReports(asked.out, r.out, mine, others, card);
  }
}
