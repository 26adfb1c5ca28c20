/**
 The multiplexer as the session holds it: one queue per unclaimed thread, a byte counter kept
 beside them, and methods that update them in place. Every method is tied to the session function
 of the same name; the ghost `Log` is the arrival order the queues have forgotten.
 */
module CodexAppServers {
  import opened AppServerSpec
  import opened AppServerTypes
  import opened DeferredBuffer
  import opened ExpirySweep
  import opened OldestEntry
  import opened QueueRefinement
  import opened Wrappers

  class CodexAppServer {
    var phase: Phase
    var threadId: Option<string>
    var activeTurnId: Option<string>
    var nextClientId: int
    var pending: map<string, PendingServerReq>
    var clientWaiters: map<int, string>
    var internalWaiters: map<int, string>
    var seenSubagentThreads: set<string>
    var childParentTools: map<string, string>
    var deferredThreadMessages: map<string, seq<Entry>>
    var deferredPayloadBytes: nat
    var nextDeferredSequence: nat
    var addDirs: seq<string>
    var startupOverrides: Overrides
    var pendingStartupReplay: bool

    ghost var Log: seq<Slot>

    ghost function View(): State
      reads this
    {
      State(phase, threadId, activeTurnId, nextClientId, pending, clientWaiters, internalWaiters,
            seenSubagentThreads, childParentTools, Log, nextDeferredSequence, addDirs, startupOverrides,
            pendingStartupReplay)
    }

    /** The queues are the log split by thread, and the counter weighs it plus `held` bytes in flight. */
    ghost predicate Represents(held: nat)
      reads this
    {
      Represented(deferredThreadMessages, deferredPayloadBytes, Log, held)
    }

    ghost predicate Ready(held: nat, now: nat)
      reads this
    {
      Represents(held) && Ordered(Log, nextDeferredSequence, now)
    }

    constructor ()
      ensures View() == Initial(NO_CTX)
      ensures Ready(0, 0)
    {
      phase, threadId, activeTurnId, nextClientId := Opening, None, None, FIRST_CLIENT_ID;
      pending, clientWaiters, internalWaiters := map[], map[], map[];
      seenSubagentThreads, childParentTools := {}, map[];
      deferredThreadMessages, deferredPayloadBytes, nextDeferredSequence := map[], 0, 0;
      addDirs, startupOverrides, pendingStartupReplay := [], Overrides(None, None, None, None), true;
      Log := [];
    }

    // ---- Removing entries ----

    /** Remove the entry at log position `i`, or nothing when `i` is past the end. */
    method RemoveDeferredEntry(thread: string, sequence: nat, out0: ParsedLine, reason: string,
                               ghost i: nat, ghost now: nat)
      returns (out: ParsedLine)
      requires Ready(0, now)
      requires i < |Log| && Log[i].thread == thread && Log[i].entry.sequence == sequence
      modifies this`Log, this`deferredThreadMessages, this`deferredPayloadBytes
      ensures Ready(0, now) && Log == RemoveAt(old(Log), i)
      ensures out == Merge(out0, Sent(Rejection(old(Log)[i].entry.message, reason)))
    {
      out := out0;
      ghost var log := Log;
      EntryThere(deferredThreadMessages, deferredPayloadBytes, log, i, nextDeferredSequence, now);
      var queue := deferredThreadMessages[thread];
      var index := Position(queue, sequence);
      EntryGone(deferredThreadMessages, deferredPayloadBytes, log, i, index, nextDeferredSequence, now);
      var removed := queue[index];
      queue := queue[..index] + queue[index + 1..];
      if queue == [] {
        deferredThreadMessages := deferredThreadMessages - {thread};
      } else {
        deferredThreadMessages := deferredThreadMessages[thread := queue];
      }
      deferredPayloadBytes := SaturatingSub(deferredPayloadBytes, removed.bytes);
      if removed.message.Interactive? {
        out := out.(outbound := out.outbound + [ErrorReply(removed.message.request.id, ERROR_INVALID_REQUEST, reason)]);
      }
      Log := RemoveAt(log, i);
      MergeSent(out0, Rejection(removed.message, reason));
    }

    /** The (thread, sequence) of every stale entry, read off the stale prefix of each queue. */
    method StaleEntries(now: nat) returns (expired: seq<(string, nat)>, ghost order: seq<string>)
      requires Ready(0, now)
      ensures Enumerates(order, Threads(Log)) && expired == Names(ExpirySlots(Log, now, order))
      ensures forall n :: n in expired <==> exists x :: x in Log && Stale(x.entry, now) && n == NameOf(x)
    {
      expired, order := [], [];
      var todo := deferredThreadMessages.Keys;
      while todo != {}
        invariant todo <= deferredThreadMessages.Keys
        invariant Enumerates(order, deferredThreadMessages.Keys - todo)
        invariant expired == Names(ExpirySlots(Log, now, order))
      {
        var thread :| thread in todo;
        todo := todo - {thread};
        var names := StaleNames(thread, deferredThreadMessages[thread], now);
        SweepThread(Log, expired, order, thread, |names|, now, nextDeferredSequence);
        expired := expired + names;
        order := order + [thread];
      }
      NamesAreStale(Log, now, order);
    }

    /** Answer and drop everything past its age. */
    method ExpireDeferredMessages(now: nat, out0: ParsedLine) returns (out: ParsedLine, ghost order: seq<string>)
      requires Ready(0, now)
      modifies this`Log, this`deferredThreadMessages, this`deferredPayloadBytes
      ensures Ready(0, now) && Enumerates(order, Threads(old(Log)))
      ensures View() == Expire(old(View()), now, order).s
      ensures out == Merge(out0, Expire(old(View()), now, order).out)
    {
      ghost var log := Log;
      var expired: seq<(string, nat)>;
      expired, order := StaleEntries(now);
      ExpirySlotsMembers(log, now, order);
      ExpirySlotsDistinct(log, now, order, nextDeferredSequence, now);
      out := RemoveListed(expired, out0, ExpirySlots(log, now, order), now);
      SweepIsComplete(log, now, order, nextDeferredSequence, now);
    }

    /** Remove and answer the listed entries one after another. */
    method RemoveListed(expired: seq<(string, nat)>, out0: ParsedLine, ghost slots: seq<Slot>, ghost now: nat)
      returns (out: ParsedLine)
      requires Ready(0, now) && expired == Names(slots)
      requires Distinct(slots) && forall x :: x in slots ==> x in Log
      modifies this`Log, this`deferredThreadMessages, this`deferredPayloadBytes
      ensures Ready(0, now) && Log == Select(old(Log), Besides(Sequences(slots)))
      ensures out == Merge(out0, Sent(Rejections(slots, EXPIRED)))
    {
      ghost var log := Log;
      out := out0;
      StartListed(log, slots, out0);
      var k := 0;
      while k < |expired|
        invariant 0 <= k <= |expired|
        invariant Ready(0, now) && Listed(log, slots, k, out0, Log, out)
      {
        ghost var here, soFar := Log, out;
        ghost var i := StillThere(log, slots, k);
        out := RemoveDeferredEntry(expired[k].0, expired[k].1, out, EXPIRED, i, now);
        KeepListed(log, slots, k, i, out0, here, soFar, nextDeferredSequence, now);
        k := k + 1;
      }
      assert slots[..k] == slots;
    }

    // ---- Eviction ----

    /** The lowest sequence among the buffered entries of one kind, over all queues. */
    method OldestMatching(interactive: bool, ghost now: nat) returns (oldest: Option<(string, nat)>)
      requires Ready(0, now)
      ensures oldest == NameAt(Log, First(Log, KindIn(None, interactive)))
    {
      oldest := None;
      var visited: set<string> := {};
      FirstOfNoThread(Log, interactive);
      while deferredThreadMessages.Keys - visited != {}
        invariant visited <= deferredThreadMessages.Keys
        invariant oldest == NameAt(Log, First(Log, KindAmong(visited, interactive)))
        decreases deferredThreadMessages.Keys - visited
      {
        var thread :| thread in deferredThreadMessages.Keys - visited;
        QueueOrdered(Log, thread, nextDeferredSequence, now);
        var lowest := LowestInQueue(deferredThreadMessages[thread], interactive);
        OldestGrows(Log, interactive, visited, thread, nextDeferredSequence, now);
        visited := visited + {thread};
        if lowest.Some? && (oldest.None? || lowest.value < oldest.value.1) {
          oldest := Some((thread, lowest.value));
        }
      }
      assert visited == deferredThreadMessages.Keys;
      FirstOfAllThreads(Log, interactive);
    }

    /** Evict under thread or byte pressure. */
    method EvictOldestDeferred(incomingInteractive: bool, out0: ParsedLine, ghost now: nat)
      returns (ok: bool, out: ParsedLine)
      requires Ready(0, now)
      modifies this`Log, this`deferredThreadMessages, this`deferredPayloadBytes
      ensures Ready(0, now)
      ensures Evicted(old(Log), None, incomingInteractive, out0, ok, Log, out)
    {
      var oldest := OldestMatching(false, now);
      if oldest.None? && incomingInteractive {
        oldest := OldestMatching(true, now);
      }
      ok, out := oldest.Some?, out0;
      if oldest.Some? {
        ghost var i := OldestEvictable(Log, None, incomingInteractive);
        out := RemoveDeferredEntry(oldest.value.0, oldest.value.1, out, EVICTED, i, now);
      }
    }

    /** Evict from one full queue. */
    method EvictOldestDeferredInThread(thread: string, incomingInteractive: bool, out0: ParsedLine, ghost now: nat)
      returns (ok: bool, out: ParsedLine)
      requires Ready(0, now)
      modifies this`Log, this`deferredThreadMessages, this`deferredPayloadBytes
      ensures Ready(0, now)
      ensures Evicted(old(Log), Some(thread), incomingInteractive, out0, ok, Log, out)
    {
      ok, out := false, out0;
      ghost var i := OldestEvictable(Log, Some(thread), incomingInteractive);
      ThreadsHaveQueues(Log);
      FirstInQueue(Log, thread, false);
      FirstInQueue(Log, thread, true);
      if thread in deferredThreadMessages {
        var queue := deferredThreadMessages[thread];
        var n := FirstNotification(queue);
        if n < |queue| {
          out := RemoveDeferredEntry(thread, queue[n].sequence, out, EVICTED, i, now);
          ok := true;
        } else if incomingInteractive && queue != [] {
          out := RemoveDeferredEntry(thread, queue[0].sequence, out, EVICTED, i, now);
          ok := true;
        }
      }
    }

    method MakeRoomForThread(thread: string, size: nat, interactive: bool, out0: ParsedLine, ghost now: nat)
      returns (ok: bool, out: ParsedLine)
      requires Ready(0, now)
      modifies this`Log, this`deferredThreadMessages, this`deferredPayloadBytes
      ensures Ready(0, now)
      ensures Relieved(TooManyThreads, old(Log), thread, size, interactive, out0, ok, Log, out)
    {
      ok, out := true, out0;
      ghost var done: seq<Slot> := [];
      StartRelieving(TooManyThreads, Log, thread, size, interactive, out0);
      while |deferredThreadMessages| >= MAX_UNCLAIMED_THREADS && thread !in deferredThreadMessages
        invariant Ready(0, now)
        invariant Relieving(TooManyThreads, old(Log), thread, size, interactive, out0, Log, out, done)
        decreases |Log|
      {
        assert |deferredThreadMessages.Keys| == |deferredThreadMessages|;
        ghost var log, soFar := Log, out;
        ok, out := EvictOldestDeferred(interactive, out, now);
        done := KeepRelieving(TooManyThreads, old(Log), thread, size, interactive, out0, log, soFar, done, ok, Log, out);
        if !ok {
          return;
        }
      }
      FinishRelieving(TooManyThreads, old(Log), thread, size, interactive, out0, Log, out, done);
    }

    method MakeRoomInQueue(thread: string, size: nat, interactive: bool, out0: ParsedLine, ghost now: nat)
      returns (ok: bool, out: ParsedLine)
      requires Ready(0, now)
      modifies this`Log, this`deferredThreadMessages, this`deferredPayloadBytes
      ensures Ready(0, now)
      ensures Relieved(QueueFull, old(Log), thread, size, interactive, out0, ok, Log, out)
    {
      ok, out := true, out0;
      ghost var done: seq<Slot> := [];
      StartRelieving(QueueFull, Log, thread, size, interactive, out0);
      ThreadsHaveQueues(Log);
      while thread in deferredThreadMessages
            && |deferredThreadMessages[thread]| >= MAX_DEFERRED_MESSAGES_PER_THREAD
        invariant Ready(0, now) && (thread in deferredThreadMessages <==> Queue(Log, thread) != [])
        invariant Relieving(QueueFull, old(Log), thread, size, interactive, out0, Log, out, done)
        decreases |Log|
      {
        ghost var log, soFar := Log, out;
        ok, out := EvictOldestDeferredInThread(thread, interactive, out, now);
        done := KeepRelieving(QueueFull, old(Log), thread, size, interactive, out0, log, soFar, done, ok, Log, out);
        ThreadsHaveQueues(Log);
        if !ok {
          return;
        }
      }
      FinishRelieving(QueueFull, old(Log), thread, size, interactive, out0, Log, out, done);
    }

    method MakeRoomForBytes(thread: string, size: nat, interactive: bool, out0: ParsedLine, ghost now: nat)
      returns (ok: bool, out: ParsedLine)
      requires Ready(0, now)
      modifies this`Log, this`deferredThreadMessages, this`deferredPayloadBytes
      ensures Ready(0, now)
      ensures Relieved(TooManyBytes, old(Log), thread, size, interactive, out0, ok, Log, out)
    {
      ok, out := true, out0;
      ghost var done: seq<Slot> := [];
      StartRelieving(TooManyBytes, Log, thread, size, interactive, out0);
      while deferredPayloadBytes + size > MAX_DEFERRED_PAYLOAD_BYTES
        invariant Ready(0, now)
        invariant Relieving(TooManyBytes, old(Log), thread, size, interactive, out0, Log, out, done)
        decreases |Log|
      {
        ghost var log, soFar := Log, out;
        ok, out := EvictOldestDeferred(interactive, out, now);
        done := KeepRelieving(TooManyBytes, old(Log), thread, size, interactive, out0, log, soFar, done, ok, Log, out);
        if !ok {
          return;
        }
      }
      FinishRelieving(TooManyBytes, old(Log), thread, size, interactive, out0, Log, out, done);
    }

    /** The three eviction loops, for a message that fits the buffer at all. */
    method MakeRoom(thread: string, size: nat, interactive: bool, out0: ParsedLine, ghost now: nat)
      returns (ok: bool, out: ParsedLine)
      requires Ready(0, now) && size <= MAX_DEFERRED_PAYLOAD_BYTES
      modifies this`Log, this`deferredThreadMessages, this`deferredPayloadBytes
      ensures Ready(0, now)
      ensures var a := Admit(old(Log), thread, size, interactive);
              ok == a.ok && Log == a.log && out == Merge(out0, Sent(Rejections(a.victims, EVICTED)))
    {
      ghost var log0 := Log;
      ok, out := MakeRoomForThread(thread, size, interactive, out0, now);
      if !ok {
        return;
      }
      ghost var log1, out1 := Log, out;
      ok, out := MakeRoomInQueue(thread, size, interactive, out, now);
      RelievedTwice(out0, Relieve(TooManyThreads, log0, thread, size, interactive),
                    Relieve(QueueFull, log1, thread, size, interactive));
      if !ok {
        return;
      }
      ghost var log2 := Log;
      ok, out := MakeRoomForBytes(thread, size, interactive, out, now);
      RelievedTwice(out0, Then(Relieve(TooManyThreads, log0, thread, size, interactive),
                               Relieve(QueueFull, log1, thread, size, interactive)),
                    Relieve(TooManyBytes, log2, thread, size, interactive));
    }

    /** Put a message at the back of its thread's queue. */
    method Hold(thread: string, message: ThreadMessage, now: nat)
      requires Ready(0, now) && Holdable(thread, message)
      modifies this`Log, this`deferredThreadMessages, this`deferredPayloadBytes, this`nextDeferredSequence
      ensures Represents(0) && (Ready(0, now) <==> !Wraps(old(nextDeferredSequence)))
      ensures Log == old(Log) + [Slot(thread, Entry(message, now, old(nextDeferredSequence), message.Size()))]
      ensures nextDeferredSequence == WrappingSucc(old(nextDeferredSequence))
    {
      var entry := Entry(message, now, nextDeferredSequence, message.Size());
      AppendRepresented(deferredThreadMessages, deferredPayloadBytes, Log, thread, entry);
      AppendKeepsOrder(Log, Slot(thread, entry), nextDeferredSequence, now);
      ThreadsHaveQueues(Log);
      nextDeferredSequence := WrappingSucc(nextDeferredSequence);
      deferredPayloadBytes := deferredPayloadBytes + entry.bytes;
      var queue := if thread in deferredThreadMessages then deferredThreadMessages[thread] else [];
      deferredThreadMessages := deferredThreadMessages[thread := queue + [entry]];
      Log := Log + [Slot(thread, entry)];
    }

    /** Hold a message of an unclaimed thread, or refuse it with an answer. */
    method DeferThreadMessage(thread: string, message: ThreadMessage, now: nat, out0: ParsedLine)
      returns (ok: bool, out: ParsedLine, ghost order: seq<string>)
      requires Ready(0, now) && Holdable(thread, message)
      modifies this`Log, this`deferredThreadMessages, this`deferredPayloadBytes, this`nextDeferredSequence
      ensures Represents(0) && (Ready(0, now) <==> !(ok && Wraps(old(nextDeferredSequence))))
      ensures Enumerates(order, Threads(old(Log)))
      ensures var r := Defer(old(View()), thread, message, now, order);
              View() == r.s && out == Merge(out0, r.out)
      ensures ok == Admission(old(View()), thread, message, now).ok
    {
      hide Rejections, Select, Admit, ExpirySlots, Ordered, Represented, Rejection, Merge, Sent;
      out, order := ExpireDeferredMessages(now, out0);
      ghost var swept := Sent(Rejections(ExpirySlots(old(Log), now, order), EXPIRED));
      var payloadBytes := message.Size();
      var interactive := message.Interactive?;
      ghost var a := Admit(Log, thread, payloadBytes, interactive);
      if payloadBytes > MAX_DEFERRED_PAYLOAD_BYTES {
        out := RejectDeferred(message, TOO_LARGE, out);
        ok := false;
        MergeRefused(out0, swept, [], Rejection(message, TOO_LARGE));
        TooLargeIsRefused(old(View()), thread, message, now, order);
        return;
      }
      ok, out := MakeRoom(thread, payloadBytes, interactive, out, now);
      if !ok {
        out := RejectDeferred(message, FULL, out);
        MergeRefused(out0, swept, Rejections(a.victims, EVICTED), Rejection(message, FULL));
        return;
      }
      MergeAssociative(out0, swept, Sent(Rejections(a.victims, EVICTED)));
      Hold(thread, message, now);
    }

    // ---- Ownership, replay and delivery ----

    /** Whether a thread named by a message is neither the root nor a registered child. */
    predicate IsForeign(thread: Option<string>)
      reads this`threadId, this`childParentTools
    {
      thread.Some? && threadId != thread && thread.value !in childParentTools
    }

    /** A notification of an owned thread, apart from what its item spawns. */
    method ObserveBody(body: Body, parent: Option<string>, out0: ParsedLine) returns (out: ParsedLine)
      modifies this`phase, this`activeTurnId
      ensures var r := Observe(old(View()), body, parent); View() == r.s && out == Merge(out0, r.out)
    {
      hide ItemEvents, DeltaEvents;
      out := out0;
      var child := parent.Some?;
      if !child || body.AllowedFromChild() {
        match body {
          case ThreadStarted(subject) =>
            if subject.Some? && threadId == subject {
              out := out.(thread := subject);
              phase := Phase.Ready;
            }
          case TurnStarted(turn) =>
            if !child {
              if turn.Some? {
                activeTurnId := turn;
              }
              out := out.(lifecycle := Some(Started));
            }
          case TurnCompleted =>
            if !child {
              activeTurnId := None;
              out := out.(lifecycle := Some(Completed));
            }
          case TurnFailed(error) =>
            if !child {
              activeTurnId := None;
              out := out.(lifecycle := Some(Failed(error)));
            }
          case ErrorNote(text, willRetry) =>
            if !willRetry && !child {
              activeTurnId := None;
              out := out.(events := out.events + [CommandOutput("[error] " + text)]);
            }
          case MessageDeltaNote(delta) =>
            if delta.Some? {
              out := out.(events := out.events + [MessageDelta(delta.value, parent)]);
            }
          case ReasoningDeltaNote(delta) =>
            if delta.Some? {
              out := out.(events := out.events + [ThinkingDelta(delta.value, parent)]);
            }
          case ItemStarted(_) => out := out.(events := out.events + ItemEvents(body, parent));
          case ItemCompleted(_) => out := out.(events := out.events + ItemEvents(body, parent));
          case CommandOutputNote(itemId, chunk) =>
            out := out.(events := out.events + DeltaEvents(itemId, chunk, parent));
          case McpProgressNote(itemId, chunk) =>
            out := out.(events := out.events + DeltaEvents(itemId, if chunk == "" then "" else chunk + "\n", parent));
          case UpdateNote(content) =>
            if content.Some? {
              out := out.(events := out.events + [RunUpdate(content.value)]);
            }
        }
      }
    }

    method HandleNotification(n: Note, now: nat, out0: ParsedLine, ghost held: nat)
      returns (out: ParsedLine, ghost order: seq<string>)
      requires Ready(held, now)
      requires IsForeign(n.thread) ==> held == 0
      modifies this
      ensures Represents(held)
      ensures (old(IsForeign(n.thread)) && Wraps(old(nextDeferredSequence))) || Ready(held, now)
      ensures var r := AppServerSpec.HandleNotification(old(View()), n, now, order);
              View() == r.s && out == Merge(out0, r.out)
      ensures Enumerates(order, Threads(old(Log)))
      decreases |Log|, 3
    {
      order := Enumerate(Threads(Log));
      if IsForeign(n.thread) && !n.body.ThreadStarted? {
        var _, o, ord := DeferThreadMessage(n.thread.value, Notification(n), now, out0);
        return o, ord;
      }
      var parent := if n.thread.Some? && n.thread.value in childParentTools
                    then Some(childParentTools[n.thread.value]) else None;
      ghost var s := View();
      NotificationUnfold(s, n, now, order);
      ObserveFrame(s, n.body, parent);
      out := ObserveBody(n.body, parent, out0);
      ghost var spawned := Work(View(), SpawnTasks(n.body.Spawns(), CardFor(parent, n.body)), now);
      out := RegisterSubagents(n.body, parent, now, out, held);
      MergeAssociative(out0, Observe(s, n.body, parent).out, spawned.out);
    }

    /** Register the threads an item spawns, one by one. */
    method RegisterSubagents(body: Body, parent: Option<string>, now: nat, out0: ParsedLine, ghost held: nat)
      returns (out: ParsedLine)
      requires Ready(held, now)
      modifies this
      ensures Ready(held, now)
      ensures var r := Work(old(View()), SpawnTasks(body.Spawns(), CardFor(parent, body)), now);
              View() == r.s && out == Merge(out0, r.out)
      decreases |Log|, 2
    {
      hide Ordered, Represents;
      out := out0;
      var threads, card := body.Spawns(), CardFor(parent, body);
      ghost var s := View();
      MergeSilent(out0);
      var k := 0;
      assert SpawnTasks(threads[..0], card) == [];
      while k < |threads|
        invariant 0 <= k <= |threads| && Ready(held, now) && |Log| <= |s.log|
        invariant View() == Work(s, SpawnTasks(threads[..k], card), now).s
        invariant out == Merge(out0, Work(s, SpawnTasks(threads[..k], card), now).out)
      {
        ghost var before, here := Work(s, SpawnTasks(threads[..k], card), now), View();
        out := RegisterSubagent(threads[k], card, now, out, held);
        SpawnMore(s, threads, k, card, now);
        MergeAssociative(out0, before.out, Work(here, SpawnTasks([threads[k]], card), now).out);
        WorkFrame(here, SpawnTasks([threads[k]], card), now);
        k := k + 1;
      }
      assert threads[..k] == threads;
    }

    /** Record a spawned thread's card, replay what waited for it, and ask once who it is. */
    method RegisterSubagent(thread: string, card: string, now: nat, out0: ParsedLine, ghost held: nat)
      returns (out: ParsedLine)
      requires Ready(held, now)
      modifies this
      ensures Ready(held, now)
      ensures var r := Work(old(View()), SpawnTasks([thread], card), now);
              View() == r.s && out == Merge(out0, r.out)
      decreases |Log|, 1
    {
      out := out0;
      ghost var s := View();
      if thread != "" {
        if card != "" {
          childParentTools := childParentTools[thread := card];
          assert View() == s.(parents := s.parents[thread := card]);
          out := ReplayDeferredThread(thread, now, out, held);
        }
        ghost var replayed, soFar := View(), out;
        out := RequestIdentity(thread, out);
        SpawnedOne(s, thread, card, now, out0, replayed, soFar, out);
      } else {
        SpawnOne(s, thread, card, now);
        MergeSilent(out0);
      }
    }

    method RequestIdentity(thread: string, out0: ParsedLine) returns (out: ParsedLine)
      modifies this`seenSubagentThreads, this`nextClientId, this`internalWaiters
      ensures var m := StepTask(old(View()), Identify(thread), 0);
              View() == m.s && out == Merge(out0, m.out)
    {
      out := out0;
      MergeSilent(out0);
      if thread !in seenSubagentThreads {
        seenSubagentThreads := seenSubagentThreads + {thread};
        var id := nextClientId;
        nextClientId := nextClientId + 1;
        internalWaiters := internalWaiters[id := thread];
        out := out.(outbound := out.outbound + [ThreadRead(id, thread)]);
        MergeSent(out0, [ThreadRead(id, thread)]);
      }
    }

    /** Take a thread's queue out of the buffer and handle what is in it, oldest first. */
    method ReplayDeferredThread(thread: string, now: nat, out0: ParsedLine, ghost held: nat)
      returns (out: ParsedLine)
      requires Ready(held, now) && !IsForeign(Some(thread))
      modifies this
      ensures Ready(held, now)
      ensures var r := Work(old(View()), [Drain(thread)], now);
              View() == r.s && out == Merge(out0, r.out)
      decreases |Log|, 0
    {
      hide Work, Select, Queue, Ordered;
      out := out0;
      ghost var s := View();
      if thread !in deferredThreadMessages {
        DrainNothing(s, thread, now);
        MergeSilent(out0);
        return;
      }
      DrainSomething(s, thread, now);
      var messages := TakeQueue(thread, now, held);
      assert View() == s.(log := Select(s.log, OffThread(thread)));
      out := ReplayMessages(thread, messages, now, out, held);
    }

    /** Take a buffered thread's queue out of the map; its bytes stay in the counter. */
    method TakeQueue(thread: string, ghost now: nat, ghost held: nat) returns (messages: seq<Entry>)
      requires Ready(held, now) && thread in deferredThreadMessages
      modifies this`Log, this`deferredThreadMessages
      ensures messages == Queue(old(Log), thread) && Ready(held + QueueBytes(messages), now)
      ensures Log == Select(old(Log), OffThread(thread)) && |Log| < |old(Log)|
      ensures forall k :: 0 <= k < |messages| ==> Holdable(thread, messages[k].message)
    {
      messages := deferredThreadMessages[thread];
      Drained(deferredThreadMessages, deferredPayloadBytes, Log, held, thread, nextDeferredSequence, now);
      deferredThreadMessages := deferredThreadMessages - {thread};
      Log := Select(Log, OffThread(thread));
    }

    /** The popped queue, whose bytes still stand in the counter, is worked off. */
    method ReplayMessages(thread: string, messages: seq<Entry>, now: nat, out0: ParsedLine, ghost held: nat)
      returns (out: ParsedLine)
      requires Ready(held + QueueBytes(messages), now) && !IsForeign(Some(thread))
      requires forall k :: 0 <= k < |messages| ==> Holdable(thread, messages[k].message)
      modifies this
      ensures Ready(held, now)
      ensures var r := Work(old(View()), Replays(messages), now);
              View() == r.s && out == Merge(out0, r.out)
      decreases |Log|, 5
    {
      hide Ordered, Represents, Work;
      out := out0;
      ghost var s := View();
      StartReplaying(s, messages, now, out0);
      var k := 0;
      while k < |messages|
        invariant 0 <= k <= |messages| && |Log| <= |s.log| && !IsForeign(Some(thread))
        invariant Ready(held + QueueBytes(messages[k..]), now)
        invariant Replayed(s, messages, k, now, out0, View(), out)
        decreases |messages| - k
      {
        ghost var here, soFar := View(), out;
        QueueBytesRest(messages, k);
        out := ReplayEntry(thread, messages[k], now, out, held + QueueBytes(messages[k + 1..]));
        KeepReplaying(s, messages, k, now, out0, here, soFar, View(), out);
        k := k + 1;
      }
      assert messages[..k] == messages;
    }

    /** One held message: its bytes leave the counter, and it is rejected, delivered or presented. */
    method ReplayEntry(thread: string, entry: Entry, now: nat, out0: ParsedLine, ghost held: nat)
      returns (out: ParsedLine)
      requires Ready(held + entry.bytes, now)
      requires !IsForeign(Some(thread)) && Holdable(thread, entry.message)
      modifies this
      ensures Ready(held, now)
      ensures var r := Work(old(View()), [Replay(entry)], now);
              View() == r.s && out == Merge(out0, r.out)
      decreases |Log|, 4
    {
      hide Work, Ordered, DeliverNote;
      assert entry.bytes <= deferredPayloadBytes;
      deferredPayloadBytes := SaturatingSub(deferredPayloadBytes, entry.bytes);
      ghost var s := View();
      if Stale(entry, now) {
        ReplayStale(s, entry, now);
        out := RejectDeferred(entry.message, EXPIRED, out0);
        return;
      }
      ReplayYoung(s, entry, now);
      match entry.message {
        case Notification(note) =>
          ghost var order;
          out, order := HandleNotification(note, now, out0, held);
        case Interactive(request) =>
          var replayed := PresentRequest(request);
          out := out0.(events := out0.events + replayed.events,
                       interactive := out0.interactive + replayed.interactive,
                       outbound := out0.outbound + replayed.outbound);
      }
    }

    /** Offer a request of an owned thread to the user, or refuse one without a thread. */
    method PresentRequest(r: Request) returns (out: ParsedLine)
      modifies this`pending
      ensures var p := Present(old(View()), r); View() == p.s && out == p.out
    {
      if LacksThread(r) {
        return Sent([ErrorReply(r.id, ERROR_INVALID_PARAMS, "Interactive request is missing threadId")]);
      }
      var parent := if r.thread.Some? && r.thread.value in childParentTools
                    then Some(childParentTools[r.thread.value]) else None;
      var requestId := RequestKey(r.id);
      var kind := KindOf(r.call);
      pending := pending[requestId :=
        PendingServerReq(r.id, r.call, if r.call.PermissionsApproval? then r.permissions else None, kind)];
      out := Emitted(PromptEvents(r, parent));
      out := out.(interactive := out.interactive + [PendingInteractive(requestId, kind)]);
    }

    method HandleServerRequest(r: Request, now: nat) returns (out: ParsedLine, ghost order: seq<string>)
      requires Ready(0, now)
      modifies this
      ensures Represents(0) && (Wraps(old(nextDeferredSequence)) || Ready(0, now))
      ensures var p := HandleRequest(old(View()), r, now, order); View() == p.s && out == p.out
      ensures Enumerates(order, Threads(old(Log)))
    {
      order := Enumerate(Threads(Log));
      if !LacksThread(r) && IsForeign(r.thread) {
        var ok;
        ok, out, order := DeferThreadMessage(r.thread.value, Interactive(r), now, SILENT);
        MergeSilent(Defer(old(View()), r.thread.value, Interactive(r), now, order).out);
      } else {
        out := PresentRequest(r);
      }
    }

    // ---- The session protocol ----

    /** Remember the settings and, when resuming, the root; the session is opened by the two frames. */
    method StartupMessages(ctx: StartupCtx) returns (frames: seq<Frame>)
      modifies this`addDirs, this`startupOverrides, this`pendingStartupReplay, this`threadId
      ensures var f := Startup(old(View()), ctx); View() == f.s && frames == f.frames
    {
      addDirs := ctx.addDirs;
      startupOverrides := ctx.settings;
      pendingStartupReplay := true;
      if ctx.resume.Some? {
        threadId := ctx.resume;
      }
      frames := [Initialize, OpenThread(ctx.resume)];
    }

    method ExpireDeferred(now: nat) returns (frames: seq<Frame>, ghost order: seq<string>)
      requires Ready(0, now)
      modifies this
      ensures Ready(0, now) && Enumerates(order, Threads(old(Log)))
      ensures var r := Step(old(View()), Tick(now, order)); View() == r.s && frames == r.out.outbound
    {
      hide Enumerates, Ordered, Rejections, ExpirySlots, Select;
      var out;
      out, order := ExpireDeferredMessages(now, SILENT);
      frames := out.outbound;
    }

    method ParseLine(line: Line, now: nat) returns (out: ParsedLine, ghost order: seq<string>)
      requires Ready(0, now)
      modifies this
      ensures Represents(0) && (Wraps(old(nextDeferredSequence)) || Ready(0, now))
      ensures Enumerates(order, Threads(old(Log)))
      ensures var r := Step(old(View()), Hear(line, now, order)); View() == r.s && out == r.out
    {
      order := Enumerate(Threads(Log));
      out := SILENT;
      match line {
        case Unparsable =>
        case UnhandledRequest =>
        case RequestLine(request) =>
          out, order := HandleServerRequest(request, now);
        case NoteLine(note) =>
          out, order := HandleNotification(note, now, SILENT, 0);
          MergeSilent(AppServerSpec.HandleNotification(old(View()), note, now, order).out);
        case Reply(id, thread, hasError, payload) =>
          out := HandleReply(id, thread, hasError, payload, now);
      }
    }

    method HandleReply(id: Option<int>, thread: Option<ThreadInfo>, hasError: bool, payload: string, now: nat)
      returns (out: ParsedLine)
      requires Ready(0, now)
      modifies this
      ensures Ready(0, now)
      ensures var r := AppServerSpec.HandleReply(old(View()), id, thread, hasError, payload, now);
              View() == r.s && out == r.out
    {
      hide Work, Ordered;
      out := SILENT;
      if id.Some? && id.value in internalWaiters {
        var agent := internalWaiters[id.value];
        internalWaiters := internalWaiters - {id.value};
        if thread.Some? {
          out := out.(events := out.events + [AgentInfo(agent, thread.value.nickname, thread.value.role)]);
        }
      } else if id.Some? && id.value in clientWaiters {
        out := out.(control := Some((clientWaiters[id.value], payload)));
        clientWaiters := clientWaiters - {id.value};
      } else if id == Some(2) && !hasError {
        if threadId.None? && thread.Some? && thread.value.id.Some? {
          out := AdoptRoot(thread.value.id.value, now);
        }
        phase := Phase.Ready;
      }
    }

    /** The thread the reply names is the root; what waited for it is replayed. */
    method AdoptRoot(root: string, now: nat) returns (out: ParsedLine)
      requires Ready(0, now)
      modifies this
      ensures Ready(0, now)
      ensures var r := Work(old(View()).(root := Some(root)), [Drain(root)], now);
              View() == r.s && out == Merge(SILENT.(thread := Some(root)), r.out)
    {
      threadId := Some(root);
      assert View() == old(View()).(root := Some(root));
      out := SILENT.(thread := threadId);
      out := ReplayDeferredThread(root, now, out, 0);
    }

    method FrameTracked(requestId: string, command: string) returns (frames: seq<Frame>)
      modifies this`nextClientId, this`clientWaiters
      ensures var f := AppServerSpec.FrameTracked(old(View()), requestId, command); View() == f.s && frames == f.frames
    {
      if threadId.None? {
        return [];
      }
      var id := nextClientId;
      nextClientId := nextClientId + 1;
      clientWaiters := clientWaiters[id := requestId];
      frames := [Tracked(id, command, threadId.value)];
    }

    method FrameUserTurn(text: string, overrides: Overrides) returns (frames: seq<Frame>)
      modifies this`nextClientId, this`pendingStartupReplay
      ensures var f := AppServerSpec.FrameUserTurn(old(View()), text, overrides); View() == f.s && frames == f.frames
    {
      if threadId.None? {
        return [];
      }
      var id := nextClientId;
      nextClientId := nextClientId + 1;
      var firstTurn := pendingStartupReplay;
      pendingStartupReplay := false;
      var mode := Pick(overrides.sandbox, startupOverrides.sandbox, firstTurn);
      var sandbox := None;
      if mode.Some? {
        sandbox := Some(SandboxPolicyFor(mode.value, addDirs));
      } else if firstTurn && addDirs != [] {
        sandbox := Some(SandboxPolicyFor("workspace-write", addDirs));
      }
      frames := [TurnStart(id, threadId.value, text,
                           Pick(overrides.approval, startupOverrides.approval, firstTurn), sandbox,
                           Pick(overrides.model, startupOverrides.model, firstTurn),
                           Pick(overrides.effort, startupOverrides.effort, firstTurn))];
    }

    method FrameInterrupt() returns (frames: seq<Frame>)
      modifies this`nextClientId
      ensures var f := AppServerSpec.FrameInterrupt(old(View())); View() == f.s && frames == f.frames
    {
      if threadId.None? || activeTurnId.None? {
        return [];
      }
      var id := nextClientId;
      nextClientId := nextClientId + 1;
      frames := [TurnInterrupt(id, threadId.value, activeTurnId.value)];
    }

    method FrameSteer(text: string) returns (frames: seq<Frame>)
      modifies this`nextClientId
      ensures var f := AppServerSpec.FrameSteer(old(View()), text); View() == f.s && frames == f.frames
    {
      if threadId.None? || activeTurnId.None? {
        return [];
      }
      var id := nextClientId;
      nextClientId := nextClientId + 1;
      frames := [TurnSteer(id, threadId.value, activeTurnId.value, text)];
    }

    predicate ValidateResponse(kind: PendingKind, requestId: string)
      reads this`pending
    {
      requestId in pending && pending[requestId].kind == kind
    }

    /** Answer a pending request, or report that there is none of that kind under that id. */
    method FrameResponse(kind: PendingKind, requestId: string, response: Response) returns (frames: Option<seq<Frame>>)
      modifies this`pending, this`nextClientId
      ensures frames.Some? <==> Answerable(old(View()), kind, requestId)
      ensures frames.None? ==> View() == old(View())
      ensures frames.Some? ==>
                var f := Respond(old(View()), requestId, response); View() == f.s && frames.value == f.frames
    {
      if !ValidateResponse(kind, requestId) {
        return None;
      }
      var request := pending[requestId];
      pending := pending - {requestId};
      var reply := [ResultReply(request.rawId, AnswerFor(request, response))];
      if request.call.PermissionsApproval? && response.behavior != Some("allow") && response.interrupt {
        var interrupt := FrameInterrupt();
        reply := reply + interrupt;
      }
      frames := Some(reply);
    }
  }
}
