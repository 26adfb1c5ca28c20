/**
 Holding messages back until their thread is claimed, and replaying them then, comes to the same
 as having known the owner all along.
 */
module ReplayTransparency {
  import opened AppServerSpec
  import opened AppServerTypes
  import opened DeferredBuffer
  import opened DirectReplay
  import opened QueueRefinement
  import opened Registration
  import opened Wrappers

  // ---- Registration with and without a backlog ----

  /** Nothing is buffered for any of these threads. */
  ghost predicate NothingWaits(log: seq<Slot>, threads: seq<string>) {
    forall x :: x in log ==> x.thread == "" || x.thread !in threads
  }

  lemma {:induction false} WithoutMembers(log: seq<Slot>, threads: seq<string>)
    ensures forall x :: x in Without(log, threads) <==> x in log && (x.thread == "" || x.thread !in threads)
    decreases threads
  {
    if threads != [] {
      var left := if threads[0] == "" then log else Select(log, OffThread(threads[0]));
      SelectMembers(log, OffThread(threads[0]));
      WithoutMembers(left, threads[1..]);
    }
  }

  lemma {:induction false} WithoutNone(log: seq<Slot>, threads: seq<string>)
    requires NothingWaits(log, threads)
    ensures Without(log, threads) == log && Backlog(log, threads) == []
    decreases threads
  {
    if threads != [] {
      if threads[0] != "" {
        SelectAll(log, OffThread(threads[0]));
        QueueMembers(log, threads[0]);
      }
      WithoutNone(log, threads[1..]);
    }
  }

  lemma {:induction false} MessageMembers(q: seq<Entry>, m: ThreadMessage)
    requires m in Messages(q)
    ensures exists e :: e in q && e.message == m
  {
    if m != q[0].message {
      MessageMembers(q[1..], m);
      var e :| e in q[1..] && e.message == m;
      assert e in q;
    } else {
      assert q[0] in q;
    }
  }

  /** Each message of the backlog waits in some slot of a spawned thread. */
  lemma {:induction false} BacklogMembers(log: seq<Slot>, threads: seq<string>, m: ThreadMessage)
    requires m in Backlog(log, threads)
    ensures exists x :: x in log && x.thread in threads && x.thread != "" && x.entry.message == m
    decreases threads
  {
    var t, rest := threads[0], threads[1..];
    if t != "" && m in Messages(Queue(log, t)) {
      MessageMembers(Queue(log, t), m);
      var e :| e in Queue(log, t) && e.message == m;
      QueueMembers(log, t);
      assert Slot(t, e) in log;
    } else {
      var left := if t == "" then log else Select(log, OffThread(t));
      SelectMembers(log, OffThread(t));
      BacklogMembers(left, rest, m);
      var x :| x in left && x.thread in rest && x.thread != "" && x.entry.message == m;
      assert x in log;
    }
  }

  /** A spawn item on an owned thread. */
  predicate SpawnNote(s: State, n: Note) {
    !Foreign(s, n.thread) && !n.body.ThreadStarted? && CardFor(ParentOf(s, n.thread), n.body) != ""
  }

  /** The session right after a spawn item, in closed form. */
  function AfterSpawn(s: State, n: Note): Result {
    var parent := ParentOf(s, n.thread);
    var o := Observe(s, n.body, parent);
    var r := Registered(o.s, n.body.Spawns(), CardFor(parent, n.body));
    var ms := Backlog(s.log, n.body.Spawns());
    Result(r.s.(log := Without(s.log, n.body.Spawns()), pending := Offered(s.pending, ms)),
           Merge(Merge(o.out, r.out), Reports(ms, CardFor(parent, n.body))))
  }

  lemma SpawnStep(s: State, n: Note, now: nat, order: seq<string>)
    requires SpawnNote(s, n) && Ripe(s.log, n.body.Spawns(), now)
    ensures Step(s, Hear(NoteLine(n), now, order)) == AfterSpawn(s, n)
  {
    var parent := ParentOf(s, n.thread);
    var o := Observe(s, n.body, parent);
    NotificationUnfold(s, n, now, order);
    ObserveFrame(s, n.body, parent);
    SpawnWork(o.s, n.body.Spawns(), CardFor(parent, n.body), now);
    MergeAssociative(o.out, Registered(o.s, n.body.Spawns(), CardFor(parent, n.body)).out,
                     Reports(Backlog(s.log, n.body.Spawns()), CardFor(parent, n.body)));
  }

  /** The same spawn item in a session for which none of the backlog ever arrived. */
  lemma QuietSpawn(s: State, n: Note, log: seq<Slot>)
    requires SpawnNote(s, n) && NothingWaits(log, n.body.Spawns())
    ensures var parent := ParentOf(s, n.thread);
            var o := Observe(s, n.body, parent);
            var r := Registered(o.s, n.body.Spawns(), CardFor(parent, n.body));
            AfterSpawn(s.(log := log), n) == Result(r.s.(log := log, pending := s.pending), Merge(o.out, r.out))
  {
    var parent := ParentOf(s, n.thread);
    var o := Observe(s, n.body, parent);
    var r := Registered(o.s, n.body.Spawns(), CardFor(parent, n.body));
    ObserveElsewhere(s, s.(log := log), n.body, parent);
    ObserveFrame(s, n.body, parent);
    RegisteredFrame(o.s, log, s.pending, n.body.Spawns(), CardFor(parent, n.body));
    WithoutNone(log, n.body.Spawns());
    MergeSilent(Merge(o.out, r.out));
  }

  lemma {:induction false} MessageOfArrival(arrivals: seq<Arrival>)
    ensures forall a :: a in arrivals ==> a.message in MessagesOf(arrivals)
  {
    if arrivals != [] {
      MessageOfArrival(arrivals[1..]);
      assert arrivals == [arrivals[0]] + arrivals[1..];
    }
  }

  /** What waited for the spawned threads belongs to them once they are registered. */
  lemma BacklogIsOwned(s: State, threads: seq<string>, card: string, log: seq<Slot>, now: nat, arrivals: seq<Arrival>)
    requires Ripe(log, threads, now) && MessagesOf(arrivals) == Backlog(log, threads)
    requires forall t :: t in threads && t != "" ==> t in s.parents && s.parents[t] == card
    ensures forall a :: a in arrivals ==> Plain(a.message) && OwnedBy(s, a.message, card)
  {
    MessageOfArrival(arrivals);
    forall a | a in arrivals ensures Plain(a.message) && OwnedBy(s, a.message, card) {
      BacklogMembers(log, threads, a.message);
      var x :| x in log && x.thread in threads && x.thread != "" && x.entry.message == a.message;
      assert ThreadOf(a.message) == x.thread;
    }
  }

  /**
   Holding back is transparent: a spawn item that finds messages waiting for the threads it names
   leaves the session, and reports, exactly what it would have with none of them there followed by
   their arrival one by one at any time.
   */
  lemma RegistrationIsTransparent(s: State, n: Note, now: nat, order: seq<string>, arrivals: seq<Arrival>)
    requires SpawnNote(s, n) && Ripe(s.log, n.body.Spawns(), now)
    requires MessagesOf(arrivals) == Backlog(s.log, n.body.Spawns())
    ensures var spawn := Hear(NoteLine(n), now, order);
            var first := Step(s.(log := Without(s.log, n.body.Spawns())), spawn);
            var heard := Listen(first.s, arrivals);
            Step(s, spawn) == Result(heard.s, Merge(first.out, heard.out))
  {
    var threads, log := n.body.Spawns(), Without(s.log, n.body.Spawns());
    var parent := ParentOf(s, n.thread);
    var card := CardFor(parent, n.body);
    WithoutMembers(s.log, threads);
    SpawnStep(s, n, now, order);
    SpawnStep(s.(log := log), n, now, order);
    QuietSpawn(s, n, log);
    var first := AfterSpawn(s.(log := log), n);
    forall t | t in threads && t != "" ensures t in first.s.parents && first.s.parents[t] == card {
      RegisteredOwns(Observe(s, n.body, parent).s, threads, card, t);
    }
    BacklogIsOwned(first.s, threads, card, s.log, now, arrivals);
    ChildMessages(first.s, card, arrivals);
  }

  // ---- From arrival to registration ----

  /** Equal sessions apart from the buffer. */
  predicate SameElsewhere(s: State, w: State) {
    w == s.(log := w.log, nextSequence := w.nextSequence)
  }

  lemma DeferredLine(s: State, t: string, m: ThreadMessage, now: nat, order: seq<string>)
    requires !Claimed(s, t) && Holdable(t, m)
    ensures Step(s, Hear(LineOf(m), now, order)) == Defer(s, t, m, now, order)
  {
  }

  lemma DeferElsewhere(s: State, t: string, m: ThreadMessage, now: nat, order: seq<string>)
    ensures var r := Defer(s, t, m, now, order);
            SameElsewhere(s, r.s) && r.out == Sent(r.out.outbound)
  {
  }

  /** While their thread is unclaimed, messages touch only the buffer and show nothing. */
  lemma {:induction false} Waiting(s: State, t: string, arrivals: seq<Arrival>)
    requires !Claimed(s, t) && forall a :: a in arrivals ==> Holdable(t, a.message)
    ensures var w := Listen(s, arrivals); SameElsewhere(s, w.s) && w.out == Sent(w.out.outbound)
    decreases arrivals
  {
    if arrivals != [] {
      var a := arrivals[0];
      DeferredLine(s, t, a.message, a.now, a.order);
      DeferElsewhere(s, t, a.message, a.now, a.order);
      Waiting(Defer(s, t, a.message, a.now, a.order).s, t, arrivals[1..]);
    }
  }

  lemma ObserveElsewhere(s: State, w: State, body: Body, parent: Option<string>)
    requires SameElsewhere(s, w)
    ensures var o, p := Observe(s, body, parent), Observe(w, body, parent);
            p.out == o.out && p.s == o.s.(log := w.log, nextSequence := w.nextSequence)
  {
  }

  lemma {:induction false} RegisteredElsewhere(s: State, w: State, threads: seq<string>, card: string)
    requires SameElsewhere(s, w)
    ensures var r, q := Registered(s, threads, card), Registered(w, threads, card);
            q.out == r.out && SameElsewhere(r.s, q.s)
    decreases threads
  {
    if threads != [] {
      var t := threads[0];
      if t == "" {
        RegisteredElsewhere(s, w, threads[1..], card);
      } else {
        var a := StepTask(s.(parents := s.parents[t := card]), Identify(t), 0);
        var b := StepTask(w.(parents := w.parents[t := card]), Identify(t), 0);
        RegisteredElsewhere(a.s, b.s, threads[1..], card);
      }
    }
  }

  /** A spawn item for whose threads nothing waits. */
  lemma QuietStep(s: State, n: Note, now: nat, order: seq<string>)
    requires SpawnNote(s, n) && NothingWaits(s.log, n.body.Spawns())
    ensures var parent := ParentOf(s, n.thread);
            var card := CardFor(parent, n.body);
            var o := Observe(s, n.body, parent);
            var r := Registered(o.s, n.body.Spawns(), card);
            && Step(s, Hear(NoteLine(n), now, order)) == Result(r.s, Merge(o.out, r.out))
            && r.s.log == s.log
            && forall t :: t in n.body.Spawns() && t != "" ==> t in r.s.parents && r.s.parents[t] == card
  {
    var parent := ParentOf(s, n.thread);
    var card := CardFor(parent, n.body);
    var o := Observe(s, n.body, parent);
    SpawnStep(s, n, now, order);
    QuietSpawn(s, n, s.log);
    ObserveFrame(s, n.body, parent);
    RegisteredMoves(o.s, n.body.Spawns(), card);
    forall t | t in n.body.Spawns() && t != ""
      ensures var p := Registered(o.s, n.body.Spawns(), card).s.parents; t in p && p[t] == card
    {
      RegisteredOwns(o.s, n.body.Spawns(), card, t);
    }
  }

  lemma QuietElsewhere(s: State, w: State, n: Note, now: nat, order: seq<string>)
    requires SpawnNote(s, n) && SameElsewhere(s, w)
    requires NothingWaits(s.log, n.body.Spawns()) && NothingWaits(w.log, n.body.Spawns())
    ensures var spawn := Hear(NoteLine(n), now, order);
            Step(w, spawn).out == Step(s, spawn).out && SameElsewhere(Step(s, spawn).s, Step(w, spawn).s)
  {
    var parent := ParentOf(s, n.thread);
    QuietStep(s, n, now, order);
    QuietStep(w, n, now, order);
    ObserveElsewhere(s, w, n.body, parent);
    RegisteredElsewhere(Observe(s, n.body, parent).s, Observe(w, n.body, parent).s, n.body.Spawns(), CardFor(parent, n.body));
  }

  lemma OwnedElsewhere(s: State, w: State, card: string, arrivals: seq<Arrival>)
    requires SameElsewhere(s, w)
    requires forall a :: a in arrivals ==> Plain(a.message) && OwnedBy(s, a.message, card)
    ensures Listen(w, arrivals).out == Listen(s, arrivals).out
    ensures Listen(w, arrivals).s == Listen(s, arrivals).s.(log := w.log, nextSequence := w.nextSequence)
  {
    ChildMessages(s, card, arrivals);
    ChildMessages(w, card, arrivals);
  }

  /**
   Messages that arrive before the spawn item of their thread: if none is evicted or expires before
   it comes, everything but the buffer ends up, and everything is shown, as if the spawn item had
   come first. While they wait nothing is shown at all.
   */
  lemma EarlyMessagesAreTransparent(s: State, t: string, arrivals: seq<Arrival>, n: Note, now: nat, order: seq<string>)
    requires !Claimed(s, t) && forall a :: a in arrivals ==> Holdable(t, a.message)
    requires SpawnNote(s, n) && NothingWaits(s.log, n.body.Spawns())
    requires var held := Listen(s, arrivals).s.log;
             && Backlog(held, n.body.Spawns()) == MessagesOf(arrivals)
             && Ripe(held, n.body.Spawns(), now)
    ensures var spawn := Hear(NoteLine(n), now, order);
            var held := Listen(s, arrivals);
            var late := Step(held.s, spawn);
            var first := Step(s, spawn);
            var early := Listen(first.s, arrivals);
            && held.out == Sent(held.out.outbound)
            && late.s == early.s.(log := Without(held.s.log, n.body.Spawns()), nextSequence := held.s.nextSequence)
            && late.out == Merge(first.out, early.out)
  {
    var threads, spawn := n.body.Spawns(), Hear(NoteLine(n), now, order);
    var held := Listen(s, arrivals).s;
    var emptied := held.(log := Without(held.log, threads));
    Waiting(s, t, arrivals);
    WithoutMembers(held.log, threads);
    RegistrationIsTransparent(held, n, now, order, arrivals);
    QuietElsewhere(s, emptied, n, now, order);
    QuietStep(s, n, now, order);
    var first := Step(s, spawn);
    BacklogIsOwned(first.s, threads, CardFor(ParentOf(s, n.thread), n.body), held.log, now, arrivals);
    OwnedElsewhere(first.s, Step(emptied, spawn).s, CardFor(ParentOf(s, n.thread), n.body), arrivals);
    QuietStep(emptied, n, now, order);
    KeepsSequence(emptied, n, now, order);
  }

  lemma KeepsSequence(s: State, n: Note, now: nat, order: seq<string>)
    requires SpawnNote(s, n)
    ensures Step(s, Hear(NoteLine(n), now, order)).s.nextSequence == s.nextSequence
  {
    WorkFrame(s, [Deliver(n)], now);
  }
}
