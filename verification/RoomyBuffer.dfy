/**
 When the buffer has room and time for what arrives, nothing is lost and the order of a spawn item and
 its thread's messages does not matter.
 */
module RoomyBuffer {
  import opened AppServerSpec
  import opened AppServerTypes
  import opened BufferPolicy
  import opened DeferredBuffer
  import opened DirectReplay
  import opened QueueRefinement
  import opened Registration
  import opened ReplayTransparency
  import opened Wrappers

  // ---- Room ----

  function Slots(t: string, arrivals: seq<Arrival>, next: nat): seq<Slot>
    decreases arrivals
  {
    if arrivals == [] then []
    else
      var a := arrivals[0];
      [Slot(t, Entry(a.message, a.now, next, a.message.Size()))] + Slots(t, arrivals[1..], WrappingSucc(next))
  }

  function TotalSize(arrivals: seq<Arrival>): nat {
    if arrivals == [] then 0 else arrivals[0].message.Size() + TotalSize(arrivals[1..])
  }

  /** The buffer can take all of these without evicting anything. */
  predicate Roomy(log: seq<Slot>, t: string, arrivals: seq<Arrival>) {
    && (|Threads(log)| < MAX_UNCLAIMED_THREADS || t in Threads(log))
    && |Queue(log, t)| + |arrivals| <= MAX_DEFERRED_MESSAGES_PER_THREAD
    && Bytes(log) + TotalSize(arrivals) <= MAX_DEFERRED_PAYLOAD_BYTES
  }

  /** Nothing reaches its age while these arrive. */
  ghost predicate Brisk(log: seq<Slot>, arrivals: seq<Arrival>) {
    && (forall x, a :: x in log && a in arrivals ==> !Stale(x.entry, a.now))
    && (forall i, j :: 0 <= i < j < |arrivals| ==> arrivals[j].now - arrivals[i].now < DEFERRED_MESSAGE_TTL)
  }

  lemma {:induction false} NothingStale(log: seq<Slot>, now: nat, order: seq<string>)
    requires forall x :: x in log ==> !Stale(x.entry, now)
    ensures Select(log, LiveAt(now)) == log && ExpirySlots(log, now, order) == []
  {
    SelectAll(log, LiveAt(now));
    if order != [] {
      NothingStale(log, now, order[1..]);
      var mine := Select(log, OfThread(order[0]));
      SelectMembers(log, OfThread(order[0]));
      SelectNone(mine, ExpiredAt(now));
    }
  }

  lemma HeldAtOnce(s: State, t: string, a: Arrival)
    requires !Claimed(s, t) && Holdable(t, a.message)
    requires forall x :: x in s.log ==> !Stale(x.entry, a.now)
    requires forall p: Pressure :: !Over(p, s.log, t, a.message.Size())
    ensures Step(s, Hear(LineOf(a.message), a.now, a.order))
         == Result(s.(log := s.log + Slots(t, [a], s.nextSequence), nextSequence := WrappingSucc(s.nextSequence)), SILENT)
  {
    var size := a.message.Size();
    assert !Over(TooManyThreads, s.log, t, size) && !Over(QueueFull, s.log, t, size) && !Over(TooManyBytes, s.log, t, size);
    DeferredLine(s, t, a.message, a.now, a.order);
    NothingStale(s.log, a.now, a.order);
    assert Admit(s.log, t, size, a.message.Interactive?) == Relief(s.log, [], true);
    assert [a][1..] == [];
    assert Slots(t, [a], s.nextSequence) == [Slot(t, Entry(a.message, a.now, s.nextSequence, size))];
  }

  lemma OneSlot(t: string, a: Arrival, next: nat)
    ensures Slots(t, [a], next) == [Slot(t, Entry(a.message, a.now, next, a.message.Size()))]
  {
    assert [a][1..] == [];
    assert Slots(t, [], WrappingSucc(next)) == [];
  }

  lemma RoomShrinks(log: seq<Slot>, t: string, arrivals: seq<Arrival>, next: nat)
    requires arrivals != [] && Roomy(log, t, arrivals)
    ensures Roomy(log + Slots(t, [arrivals[0]], next), t, arrivals[1..])
    ensures forall p: Pressure :: !Over(p, log, t, arrivals[0].message.Size())
  {
    var a := arrivals[0];
    var e := Entry(a.message, a.now, next, a.message.Size());
    OneSlot(t, a, next);
    AppendReadings(log, t, e);
    assert TotalSize(arrivals) == a.message.Size() + TotalSize(arrivals[1..]);
  }

  lemma BriskRest(log: seq<Slot>, t: string, arrivals: seq<Arrival>, next: nat)
    requires arrivals != [] && Brisk(log, arrivals)
    ensures Brisk(log + Slots(t, [arrivals[0]], next), arrivals[1..])
  {
    var a, rest := arrivals[0], arrivals[1..];
    var x := Slot(t, Entry(a.message, a.now, next, a.message.Size()));
    assert [a][1..] == [];
    assert Slots(t, [a], next) == [x];
    forall y, b | y in log + [x] && b in rest ensures !Stale(y.entry, b.now) {
      var j :| 0 <= j < |rest| && rest[j] == b;
      assert arrivals[j + 1] == b && b in arrivals;
    }
  }

  /** Where there is room and time, everything is held, in order, and nothing is said. */
  lemma {:induction false} RoomMeansHeld(s: State, t: string, arrivals: seq<Arrival>)
    requires !Claimed(s, t) && forall a :: a in arrivals ==> Holdable(t, a.message)
    requires Roomy(s.log, t, arrivals) && Brisk(s.log, arrivals)
    ensures var w := Listen(s, arrivals);
            && w.s == s.(log := s.log + Slots(t, arrivals, s.nextSequence), nextSequence := w.s.nextSequence)
            && w.out == SILENT
    decreases arrivals
  {
    if arrivals == [] {
      assert s.log + [] == s.log;
    } else {
      var a, rest := arrivals[0], arrivals[1..];
      var s1 := s.(log := s.log + Slots(t, [a], s.nextSequence), nextSequence := WrappingSucc(s.nextSequence));
      RoomShrinks(s.log, t, arrivals, s.nextSequence);
      BriskRest(s.log, t, arrivals, s.nextSequence);
      HeldAtOnce(s, t, a);
      RoomMeansHeld(s1, t, rest);
      SlotsMore(s.log, t, a, rest, s.nextSequence);
      MergeSilent(SILENT);
    }
  }

  lemma SlotsMore(log: seq<Slot>, t: string, a: Arrival, rest: seq<Arrival>, next: nat)
    ensures log + Slots(t, [a] + rest, next) == (log + Slots(t, [a], next)) + Slots(t, rest, WrappingSucc(next))
  {
    assert ([a] + rest)[1..] == rest && [a][1..] == [];
    assert Slots(t, [a], next) == [Slot(t, Entry(a.message, a.now, next, a.message.Size()))];
  }

  lemma {:induction false} SlotsOfThread(t: string, arrivals: seq<Arrival>, next: nat)
    ensures Messages(Queue(Slots(t, arrivals, next), t)) == MessagesOf(arrivals)
    ensures Select(Slots(t, arrivals, next), OffThread(t)) == []
    ensures forall x :: x in Slots(t, arrivals, next) ==>
              x.thread == t && exists a :: a in arrivals && x.entry.message == a.message && x.entry.receivedAt == a.now
    decreases arrivals
  {
    if arrivals != [] {
      var a, rest := arrivals[0], Slots(t, arrivals[1..], WrappingSucc(next));
      SlotsOfThread(t, arrivals[1..], WrappingSucc(next));
      var all := Slots(t, arrivals, next);
      assert all[1..] == rest;
      assert Queue(all, t)[1..] == Queue(rest, t);
      assert a in arrivals && forall b :: b in arrivals[1..] ==> b in arrivals;
    }
  }

  lemma {:induction false} BacklogOfSlots(log: seq<Slot>, threads: seq<string>, t: string, slots: seq<Slot>)
    requires NothingWaits(log, threads) && t in threads && t != "" && forall x :: x in slots ==> x.thread == t
    ensures Backlog(log + slots, threads) == Messages(Queue(slots, t))
    ensures Without(log + slots, threads) == log
    decreases threads
  {
    var u, rest := threads[0], threads[1..];
    if u == "" {
      BacklogOfSlots(log, rest, t, slots);
    } else {
      QueueConcat(log, slots, u);
      QueueMembers(log, u);
      SelectConcat(log, slots, OffThread(u));
      SelectAll(log, OffThread(u));
      if u == t {
        SelectNone(slots, OffThread(t));
        assert log + [] == log;
        WithoutNone(log, rest);
        assert [] + Queue(slots, t) == Queue(slots, t);
      } else {
        SelectAll(slots, OffThread(u));
        QueueMembers(slots, u);
        BacklogOfSlots(log, rest, t, slots);
      }
    }
  }

  /**
   Given room for them and time to spare, messages that precede their thread's spawn item leave the
   session, down to the buffer, and the user's screen exactly as if they had followed it.
   */
  lemma OrderDoesNotMatter(s: State, t: string, arrivals: seq<Arrival>, n: Note, now: nat, order: seq<string>)
    requires !Claimed(s, t) && t != "" && t in n.body.Spawns()
    requires SpawnNote(s, n) && NothingWaits(s.log, n.body.Spawns())
    requires Roomy(s.log, t, arrivals) && Brisk(s.log, arrivals)
    requires forall a :: a in arrivals ==>
               Holdable(t, a.message) && Plain(a.message) && now - a.now < DEFERRED_MESSAGE_TTL
    ensures var spawn := Hear(NoteLine(n), now, order);
            var held := Listen(s, arrivals);
            var late := Step(held.s, spawn);
            var first := Step(s, spawn);
            var early := Listen(first.s, arrivals);
            && late.s == early.s.(nextSequence := held.s.nextSequence)
            && Merge(held.out, late.out) == Merge(first.out, early.out)
  {
    var slots := Slots(t, arrivals, s.nextSequence);
    RoomMeansHeld(s, t, arrivals);
    SlotsOfThread(t, arrivals, s.nextSequence);
    BacklogOfSlots(s.log, n.body.Spawns(), t, slots);
    EarlyMessagesAreTransparent(s, t, arrivals, n, now, order);
    EarlyLog(s, arrivals, n, now, order);
    MergeSilent(Step(Listen(s, arrivals).s, Hear(NoteLine(n), now, order)).out);
  }

  /** Messages of children do not enter the buffer. */
  lemma EarlyLog(s: State, arrivals: seq<Arrival>, n: Note, now: nat, order: seq<string>)
    requires SpawnNote(s, n) && NothingWaits(s.log, n.body.Spawns())
    requires forall a :: a in arrivals ==>
               Plain(a.message) && ThreadOf(a.message) in n.body.Spawns() && ThreadOf(a.message) != ""
               && Holdable(ThreadOf(a.message), a.message)
    ensures Listen(Step(s, Hear(NoteLine(n), now, order)).s, arrivals).s.log == s.log
  {
    QuietStep(s, n, now, order);
    ChildMessages(Step(s, Hear(NoteLine(n), now, order)).s, CardFor(ParentOf(s, n.thread), n.body), arrivals);
  }
}
