/**
 The agreement between the queues with their byte counter and the log, and the effect on it of
 each thing the multiplexer does to its buffer.
 */
module QueueRefinement {
  import opened AppServerSpec
  import opened AppServerTypes
  import opened DeferredBuffer
  import opened ExpirySweep
  import opened OldestEntry
  import opened Wrappers

  function SaturatingSub(a: nat, b: nat): nat {
    if b <= a then a - b else 0
  }

  lemma MergeSentTwice(a: ParsedLine, f: seq<Frame>, g: seq<Frame>)
    ensures Merge(Merge(a, Sent(f)), Sent(g)) == Merge(a, Sent(f + g))
  {
    MergeAssociative(a, Sent(f), Sent(g));
    MergeSent(Sent(f), g);
  }

  /** Name the entries of a queue for as long as they are stale. */
  method StaleNames(thread: string, queue: seq<Entry>, now: nat) returns (names: seq<(string, nat)>)
    ensures |names| <= |queue| && names == Names(SlotsOf(thread, queue[..|names|]))
    ensures forall j :: 0 <= j < |names| ==> Stale(queue[j], now)
    ensures |names| < |queue| ==> !Stale(queue[|names|], now)
  {
    names := [];
    while |names| < |queue| && Stale(queue[|names|], now)
      invariant |names| <= |queue| && names == Names(SlotsOf(thread, queue[..|names|]))
      invariant forall j :: 0 <= j < |names| ==> Stale(queue[j], now)
      decreases |queue| - |names|
    {
      names := names + [(thread, queue[|names|].sequence)];
    }
  }

  lemma SweepStep(log: seq<Slot>, slots: seq<Slot>, k: nat, i: nat, out: ParsedLine, next: nat, clock: nat)
    requires Ordered(log, next, clock) && k < |slots|
    requires var left := Select(log, Besides(Sequences(slots[..k]))); i < |left| && left[i] == slots[k]
    ensures RemoveAt(Select(log, Besides(Sequences(slots[..k]))), i)
         == Select(log, Besides(Sequences(slots[..k + 1])))
    ensures Merge(Merge(out, Sent(Rejections(slots[..k], EXPIRED))), Sent(Rejection(slots[k].entry.message, EXPIRED)))
         == Merge(out, Sent(Rejections(slots[..k + 1], EXPIRED)))
  {
    RemovedOneMore(log, slots, k, i, next, clock);
    assert slots[..k + 1] == slots[..k] + [slots[k]];
    RejectionsSnoc(slots[..k], slots[k], EXPIRED);
    MergeSentTwice(out, Rejections(slots[..k], EXPIRED), Rejection(slots[k].entry.message, EXPIRED));
  }

  /** A sweep of `log0` has removed and answered the first `k` listed slots and stands at `log`. */
  ghost predicate Listed(log0: seq<Slot>, slots: seq<Slot>, k: nat, out0: ParsedLine, log: seq<Slot>, out: ParsedLine) {
    && k <= |slots| && log == Select(log0, Besides(Sequences(slots[..k])))
    && out == Merge(out0, Sent(Rejections(slots[..k], EXPIRED)))
  }

  lemma StartListed(log: seq<Slot>, slots: seq<Slot>, out0: ParsedLine)
    ensures Listed(log, slots, 0, out0, log, out0)
  {
    MergeSent(out0, []);
    SelectAll(log, Besides({}));
    assert Sequences(slots[..0]) == {};
  }

  lemma KeepListed(log0: seq<Slot>, slots: seq<Slot>, k: nat, i: nat, out0: ParsedLine, log: seq<Slot>, out: ParsedLine,
                   next: nat, clock: nat)
    requires Listed(log0, slots, k, out0, log, out) && Ordered(log0, next, clock) && k < |slots|
    requires i < |log| && log[i] == slots[k]
    ensures Listed(log0, slots, k + 1, out0, RemoveAt(log, i),
                   Merge(out, Sent(Rejection(slots[k].entry.message, EXPIRED))))
  {
    SweepStep(log0, slots, k, i, out0, next, clock);
  }

  method RejectDeferred(message: ThreadMessage, reason: string, out0: ParsedLine) returns (out: ParsedLine)
    ensures out == Merge(out0, Sent(Rejection(message, reason)))
  {
    out := out0;
    if message.Interactive? {
      out := out.(outbound := out.outbound + [ErrorReply(message.request.id, ERROR_INVALID_REQUEST, reason)]);
    }
    MergeSent(out0, Rejection(message, reason));
  }

  // ---- Relief, loop by loop ----

  /** A loop relieving `log0` has evicted `done` and stands at `log`. */
  ghost predicate Relieving(p: Pressure, log0: seq<Slot>, t: string, size: nat, interactive: bool, out0: ParsedLine,
                            log: seq<Slot>, out: ParsedLine, done: seq<Slot>)
  {
    && Relieve(p, log0, t, size, interactive) == Then(Relief(log, done, true), Relieve(p, log, t, size, interactive))
    && out == Merge(out0, Sent(Rejections(done, EVICTED)))
  }

  ghost predicate Relieved(p: Pressure, log0: seq<Slot>, t: string, size: nat, interactive: bool, out0: ParsedLine,
                           ok: bool, log: seq<Slot>, out: ParsedLine)
  {
    var r := Relieve(p, log0, t, size, interactive);
    ok == r.ok && log == r.log && out == Merge(out0, Sent(Rejections(r.victims, EVICTED)))
  }

  lemma StartRelieving(p: Pressure, log: seq<Slot>, t: string, size: nat, interactive: bool, out: ParsedLine)
    ensures Relieving(p, log, t, size, interactive, out, log, out, [])
  {
    MergeSent(out, []);
  }

  lemma ThenAssociative(a: Relief, b: Relief, c: Relief)
    ensures Then(Then(a, b), c) == Then(a, Then(b, c))
  {
    assert (a.victims + b.victims) + c.victims == a.victims + (b.victims + c.victims);
  }

  lemma RelieveStep(p: Pressure, log0: seq<Slot>, t: string, size: nat, interactive: bool, log: seq<Slot>, done: seq<Slot>)
    requires Relieve(p, log0, t, size, interactive) == Then(Relief(log, done, true), Relieve(p, log, t, size, interactive))
    ensures var i := OldestEvictable(log, Scope(p, t), interactive);
            Relieve(p, log0, t, size, interactive) ==
            if !Over(p, log, t, size) then Relief(log, done, true)
            else if i == |log| then Relief(log, done, false)
            else Then(Relief(RemoveAt(log, i), done + [log[i]], true), Relieve(p, RemoveAt(log, i), t, size, interactive))
  {
    RelieveUnfold(p, log, t, size, interactive);
    var i := OldestEvictable(log, Scope(p, t), interactive);
    if Over(p, log, t, size) && i < |log| {
      ThenAssociative(Relief(log, done, true), Relief(log, [log[i]], true),
                      Relieve(p, RemoveAt(log, i), t, size, interactive));
    } else {
      assert done + [] == done;
    }
  }

  lemma KeepRelieving(p: Pressure, log0: seq<Slot>, t: string, size: nat, interactive: bool, out0: ParsedLine,
                      log: seq<Slot>, out: ParsedLine, done: seq<Slot>,
                      ok: bool, log': seq<Slot>, out': ParsedLine) returns (done': seq<Slot>)
    requires Relieving(p, log0, t, size, interactive, out0, log, out, done)
    requires Over(p, log, t, size)
    requires Evicted(log, Scope(p, t), interactive, out, ok, log', out')
    ensures ok ==> Relieving(p, log0, t, size, interactive, out0, log', out', done') && |log'| < |log|
    ensures !ok ==> Relieved(p, log0, t, size, interactive, out0, ok, log', out')
  {
    RelieveStep(p, log0, t, size, interactive, log, done);
    var i := OldestEvictable(log, Scope(p, t), interactive);
    done' := done;
    if ok {
      done' := done + [log[i]];
      RejectionsSnoc(done, log[i], EVICTED);
      MergeSentTwice(out0, Rejections(done, EVICTED), Rejection(log[i].entry.message, EVICTED));
    }
  }

  lemma FinishRelieving(p: Pressure, log0: seq<Slot>, t: string, size: nat, interactive: bool, out0: ParsedLine,
                        log: seq<Slot>, out: ParsedLine, done: seq<Slot>)
    requires Relieving(p, log0, t, size, interactive, out0, log, out, done)
    requires !Over(p, log, t, size)
    ensures Relieved(p, log0, t, size, interactive, out0, true, log, out)
  {
    RelieveStep(p, log0, t, size, interactive, log, done);
  }

  lemma RelievedTwice(out: ParsedLine, r1: Relief, r2: Relief)
    ensures Merge(Merge(out, Sent(Rejections(r1.victims, EVICTED))), Sent(Rejections(r2.victims, EVICTED)))
         == Merge(out, Sent(Rejections(Then(r1, r2).victims, EVICTED)))
  {
    RejectionsConcat(r1.victims, r2.victims, EVICTED);
    MergeSentTwice(out, Rejections(r1.victims, EVICTED), Rejections(r2.victims, EVICTED));
  }

  lemma MergeRefused(out: ParsedLine, swept: ParsedLine, evicted: seq<Frame>, refusal: seq<Frame>)
    ensures Merge(Merge(Merge(out, swept), Sent(evicted)), Sent(refusal))
         == Merge(out, Merge(Merge(swept, Sent(evicted)), Sent(refusal)))
    ensures evicted == [] ==> Merge(Merge(out, swept), Sent(evicted)) == Merge(out, swept)
  {
    MergeAssociative(Merge(out, swept), Sent(evicted), Sent(refusal));
    MergeAssociative(out, swept, Merge(Sent(evicted), Sent(refusal)));
    MergeAssociative(swept, Sent(evicted), Sent(refusal));
    MergeSent(Merge(out, swept), evicted);
  }

  lemma QueueAppended(log: seq<Slot>, t: string, e: Entry, u: string)
    ensures Queue(log + [Slot(t, e)], u) == Queue(log, u) + (if u == t then [e] else [])
  {
    QueueConcat(log, [Slot(t, e)], u);
  }

  lemma ThreadsAppended(log: seq<Slot>, t: string, e: Entry)
    ensures Threads(log + [Slot(t, e)]) == Threads(log) + {t} && Bytes(log + [Slot(t, e)]) == Bytes(log) + e.bytes
  {
    BytesConcat(log, [Slot(t, e)]);
    assert forall x :: x in log + [Slot(t, e)] <==> x in log || x == Slot(t, e);
  }

  lemma AppendRepresented(queues: map<string, seq<Entry>>, total: nat, log: seq<Slot>, t: string, e: Entry)
    requires Represented(queues, total, log, 0)
    ensures var queue := if t in queues then queues[t] else [];
            Represented(queues[t := queue + [e]], total + e.bytes, log + [Slot(t, e)], 0)
  {
    hide Queue, Bytes, Threads;
    ThreadsHaveQueues(log);
    ThreadsAppended(log, t, e);
    forall u ensures Queue(log + [Slot(t, e)], u) == Queue(log, u) + (if u == t then [e] else []) {
      QueueAppended(log, t, e, u);
    }
  }

  /** One eviction attempt: the oldest evictable slot goes and is answered, or nothing happens. */
  ghost predicate Evicted(log: seq<Slot>, scope: Option<string>, interactive: bool, out0: ParsedLine,
                          ok: bool, log': seq<Slot>, out: ParsedLine)
  {
    var i := OldestEvictable(log, scope, interactive);
    && ok == (i < |log|)
    && log' == (if i < |log| then RemoveAt(log, i) else log)
    && out == (if i < |log| then Merge(out0, Sent(Rejection(log[i].entry.message, EVICTED))) else out0)
  }

  /** The lowest sequence of one kind in a queue. */
  method LowestInQueue(queue: seq<Entry>, interactive: bool) returns (lowest: Option<nat>)
    requires QueueSorted(queue)
    ensures lowest == SequenceAt(queue, FirstKind(queue, interactive))
  {
    lowest := None;
    for k := 0 to |queue|
      invariant lowest.None? ==> forall j :: 0 <= j < k ==> queue[j].message.Interactive? != interactive
      invariant lowest.Some? ==> FirstKind(queue, interactive) < k && lowest == SequenceAt(queue, FirstKind(queue, interactive))
    {
      var e := queue[k];
      if e.message.Interactive? == interactive && (lowest.None? || e.sequence < lowest.value) {
        lowest := Some(e.sequence);
      }
    }
  }

  method FirstNotification(queue: seq<Entry>) returns (n: nat)
    ensures n == FirstKind(queue, false)
  {
    n := 0;
    while n < |queue| && queue[n].message.Interactive?
      invariant n <= |queue| && forall j :: 0 <= j < n ==> queue[j].message.Interactive?
    {
      n := n + 1;
    }
  }

  ghost predicate Represented(queues: map<string, seq<Entry>>, total: nat, log: seq<Slot>, held: nat) {
    && queues.Keys == Threads(log)
    && (forall t :: t in queues ==> queues[t] == Queue(log, t))
    && total == Bytes(log) + held
  }

  /** Where a sequence number stands in its queue. */
  method Position(queue: seq<Entry>, sequence: nat) returns (index: nat)
    requires exists e :: e in queue && e.sequence == sequence
    ensures index < |queue| && queue[index].sequence == sequence
    ensures forall j :: 0 <= j < index ==> queue[j].sequence != sequence
  {
    index := 0;
    while queue[index].sequence != sequence
      invariant index < |queue|
      invariant forall j :: 0 <= j < index ==> queue[j].sequence != sequence
      decreases |queue| - index
    {
      index := index + 1;
    }
  }

  lemma EntryPosition(log: seq<Slot>, i: nat, next: nat, clock: nat)
    requires Ordered(log, next, clock) && i < |log|
    ensures var q := Queue(log, log[i].thread);
            var k := |Queue(log[..i], log[i].thread)|;
            && k < |q| && q[k] == log[i].entry && q[k] in q
            && (forall j :: 0 <= j < |q| && q[j].sequence == log[i].entry.sequence ==> j == k)
            && q[..k] + q[k + 1..] == Queue(RemoveAt(log, i), log[i].thread)
  {
    RemoveAtEffect(log, i, log[i].thread);
    QueueOrdered(log, log[i].thread, next, clock);
  }

  lemma RemovalRepresented(queues: map<string, seq<Entry>>, total: nat, log: seq<Slot>, i: nat, queue: seq<Entry>)
    requires Represented(queues, total, log, 0)
    requires i < |log| && queue == Queue(RemoveAt(log, i), log[i].thread)
    ensures var t := log[i].thread;
            var rest := if queue == [] then queues - {t} else queues[t := queue];
            && log[i].entry.bytes <= total
            && Represented(rest, total - log[i].entry.bytes, RemoveAt(log, i), 0)
  {
    RemoveAtThreads(log, i);
    RemoveAtOthers(log, i);
    RemoveAtEffect(log, i, log[i].thread);
    assert log[i] in log;
  }

  lemma EntryThere(queues: map<string, seq<Entry>>, total: nat, log: seq<Slot>, i: nat, next: nat, clock: nat)
    requires Represented(queues, total, log, 0) && Ordered(log, next, clock) && i < |log|
    ensures log[i].thread in queues
    ensures exists e :: e in queues[log[i].thread] && e.sequence == log[i].entry.sequence
  {
    assert log[i] in log;
    EntryPosition(log, i, next, clock);
  }

  /** The entry found by its sequence is the one meant; without it queues, counter and log still agree. */
  lemma EntryGone(queues: map<string, seq<Entry>>, total: nat, log: seq<Slot>, i: nat, index: nat, next: nat, clock: nat)
    requires Represented(queues, total, log, 0) && Ordered(log, next, clock) && i < |log|
    requires log[i].thread in queues && index < |queues[log[i].thread]|
    requires queues[log[i].thread][index].sequence == log[i].entry.sequence
    ensures var t := log[i].thread;
            var queue := queues[t][..index] + queues[t][index + 1..];
            && queues[t][index] == log[i].entry && log[i].entry.bytes <= total
            && Represented(if queue == [] then queues - {t} else queues[t := queue], total - log[i].entry.bytes,
                           RemoveAt(log, i), 0)
            && Ordered(RemoveAt(log, i), next, clock)
  {
    EntryPosition(log, i, next, clock);
    RemovalRepresented(queues, total, log, i, Queue(RemoveAt(log, i), log[i].thread));
    RemoveAtOrdered(log, i, next, clock);
  }

  lemma MergeSent(a: ParsedLine, frames: seq<Frame>)
    ensures Merge(a, Sent(frames)) == a.(outbound := a.outbound + frames)
  {
  }

  // ---- Replay ----

  lemma DrainRepresented(queues: map<string, seq<Entry>>, total: nat, log: seq<Slot>, held: nat, t: string)
    requires Represented(queues, total, log, held) && t in queues
    ensures Represented(queues - {t}, total, Select(log, OffThread(t)), held + QueueBytes(queues[t]))
    ensures |Select(log, OffThread(t))| < |log|
  {
    hide Queue, Bytes, Select, QueueBytes;
    var rest := Select(log, OffThread(t));
    SelectOffThread(log, t, t);
    ThreadsHaveQueues(log);
    ThreadsHaveQueues(rest);
    forall u ensures Queue(rest, u) == if u == t then [] else Queue(log, u) {
      SelectOffThread(log, t, u);
    }
  }

  /** A thread with nothing buffered is drained without effect. */
  lemma DrainNothing(s: State, t: string, now: nat)
    requires t !in Threads(s.log)
    ensures Work(s, [Drain(t)], now) == Result(s, SILENT)
  {
    QueueMembers(s.log, t);
    SelectAll(s.log, OffThread(t));
    WorkOne(s, Drain(t), now);
  }

  lemma DrainSomething(s: State, t: string, now: nat)
    ensures Work(s, [Drain(t)], now)
         == Work(s.(log := Select(s.log, OffThread(t))), Replays(Queue(s.log, t)), now)
  {
    WorkOne(s, Drain(t), now);
    MergeSilent(Work(s.(log := Select(s.log, OffThread(t))), Replays(Queue(s.log, t)), now).out);
  }

  /** Taking a thread's queue out: what stays is represented and in order, what goes may be handled. */
  lemma Drained(queues: map<string, seq<Entry>>, total: nat, log: seq<Slot>, held: nat, t: string, next: nat, clock: nat)
    requires Represented(queues, total, log, held) && Ordered(log, next, clock) && t in queues
    ensures Represented(queues - {t}, total, Select(log, OffThread(t)), held + QueueBytes(queues[t]))
    ensures Ordered(Select(log, OffThread(t)), next, clock) && |Select(log, OffThread(t))| < |log|
    ensures queues[t] == Queue(log, t)
    ensures forall k :: 0 <= k < |queues[t]| ==> Holdable(t, queues[t][k].message)
  {
    hide Queue, Select, QueueBytes, Bytes, Ordered;
    DrainRepresented(queues, total, log, held, t);
    SelectKeepsOrder(log, OffThread(t), next, clock);
    QueueKept(log, t, next, clock);
  }

  lemma ReplayMore(s: State, q: seq<Entry>, k: nat, now: nat)
    requires k < |q|
    ensures var r1 := Work(s, Replays(q[..k]), now);
            var r2 := Work(r1.s, [Replay(q[k])], now);
            Work(s, Replays(q[..k + 1]), now) == Result(r2.s, Merge(r1.out, r2.out))
  {
    assert Replays(q[..k + 1]) == Replays(q[..k]) + [Replay(q[k])];
    WorkConcat(s, Replays(q[..k]), [Replay(q[k])], now);
  }

  /** A replay that started from `s` has worked through `k` messages and stands at `w`. */
  ghost predicate Replayed(s: State, q: seq<Entry>, k: nat, now: nat, out0: ParsedLine, w: State, out: ParsedLine) {
    k <= |q| && (var r := Work(s, Replays(q[..k]), now); w == r.s && out == Merge(out0, r.out))
  }

  lemma StartReplaying(s: State, q: seq<Entry>, now: nat, out0: ParsedLine)
    ensures Replayed(s, q, 0, now, out0, s, out0)
  {
    assert Replays(q[..0]) == [];
    MergeSilent(out0);
  }

  lemma KeepReplaying(s: State, q: seq<Entry>, k: nat, now: nat, out0: ParsedLine, w: State, out: ParsedLine,
                      w': State, out': ParsedLine)
    requires Replayed(s, q, k, now, out0, w, out) && k < |q|
    requires var r := Work(w, [Replay(q[k])], now); w' == r.s && out' == Merge(out, r.out)
    ensures Replayed(s, q, k + 1, now, out0, w', out')
    ensures |w'.log| <= |w.log| && w'.root == w.root && w.parents.Keys <= w'.parents.Keys
  {
    ReplayMore(s, q, k, now);
    MergeAssociative(out0, Work(s, Replays(q[..k]), now).out, Work(w, [Replay(q[k])], now).out);
    WorkFrame(w, [Replay(q[k])], now);
  }

  lemma QueueBytesRest(q: seq<Entry>, k: nat)
    requires k < |q|
    ensures QueueBytes(q[k..]) == q[k].bytes + QueueBytes(q[k + 1..])
  {
    assert q[k..] == [q[k]] + q[k + 1..];
  }

  lemma {:induction false} SpawnTasksConcat(a: seq<string>, b: seq<string>, card: string)
    ensures SpawnTasks(a + b, card) == SpawnTasks(a, card) + SpawnTasks(b, card)
  {
    if a == [] {
      assert a + b == b;
    } else {
      assert (a + b)[1..] == a[1..] + b;
      SpawnTasksConcat(a[1..], b, card);
    }
  }

  lemma SpawnMore(s: State, threads: seq<string>, k: nat, card: string, now: nat)
    requires k < |threads|
    ensures var r1 := Work(s, SpawnTasks(threads[..k], card), now);
            var r2 := Work(r1.s, SpawnTasks([threads[k]], card), now);
            Work(s, SpawnTasks(threads[..k + 1], card), now) == Result(r2.s, Merge(r1.out, r2.out))
  {
    assert threads[..k + 1] == threads[..k] + [threads[k]];
    SpawnTasksConcat(threads[..k], [threads[k]], card);
    WorkConcat(s, SpawnTasks(threads[..k], card), SpawnTasks([threads[k]], card), now);
  }

  /** Registering one spawned thread: its card and replay, then its identity. */
  lemma SpawnOne(s: State, t: string, card: string, now: nat)
    ensures t == "" ==> SpawnTasks([t], card) == []
    ensures t != "" && card == "" ==> SpawnTasks([t], card) == [Identify(t)]
    ensures t != "" && card != "" ==>
              var s1 := s.(parents := s.parents[t := card]);
              var r1 := Work(s1, [Drain(t)], now);
              var r2 := Work(r1.s, [Identify(t)], now);
              Work(s, SpawnTasks([t], card), now) == Result(r2.s, Merge(r1.out, r2.out))
  {
    assert SpawnTasks([], card) == [];
    if t != "" && card != "" {
      var s1 := s.(parents := s.parents[t := card]);
      assert SpawnTasks([t], card) == [Adopt(t, card)] + [Identify(t)];
      WorkConcat(s, [Adopt(t, card)], [Identify(t)], now);
      WorkOne(s, Adopt(t, card), now);
      MergeSilent(Work(s1, [Drain(t)], now).out);
    } else if t != "" {
      assert SpawnTasks([t], card) == [Identify(t)] + [];
    }
  }

  lemma IdentifyEffect(s: State, t: string, now: nat)
    ensures Work(s, [Identify(t)], now) ==
            var m := StepTask(s, Identify(t), now); Result(m.s, m.out)
  {
    WorkOne(s, Identify(t), now);
    MergeSilent(StepTask(s, Identify(t), now).out);
  }

  /** The two halves of a registration, the replay at `replayed` and the identity request, make it up. */
  lemma SpawnedOne(s: State, t: string, card: string, now: nat, out0: ParsedLine,
                   replayed: State, soFar: ParsedLine, out: ParsedLine)
    requires t != ""
    requires card == "" ==> replayed == s && soFar == out0
    requires card != "" ==>
               var r := Work(s.(parents := s.parents[t := card]), [Drain(t)], now);
               replayed == r.s && soFar == Merge(out0, r.out)
    requires out == Merge(soFar, StepTask(replayed, Identify(t), 0).out)
    ensures var r := Work(s, SpawnTasks([t], card), now);
            r.s == StepTask(replayed, Identify(t), 0).s && out == Merge(out0, r.out)
  {
    SpawnOne(s, t, card, now);
    IdentifyEffect(replayed, t, now);
    MergeAssociative(out0, Work(s.(parents := s.parents[t := card]), [Drain(t)], now).out,
                     StepTask(replayed, Identify(t), 0).out);
  }

  /** A held message that is still young is handled as if it had just arrived. */
  lemma ReplayYoung(s: State, e: Entry, now: nat)
    requires !Stale(e, now)
    ensures e.message.Notification? ==>
              Work(s, [Replay(e)], now) == Work(s, [Deliver(e.message.note)], now)
    ensures e.message.Interactive? ==> Work(s, [Replay(e)], now) == Present(s, e.message.request)
  {
    WorkOne(s, Replay(e), now);
    if e.message.Notification? {
      WorkOne(s, Deliver(e.message.note), now);
    } else {
      MergeSilent(Present(s, e.message.request).out);
    }
  }

  lemma ReplayStale(s: State, e: Entry, now: nat)
    requires Stale(e, now)
    ensures Work(s, [Replay(e)], now) == Result(s, Sent(Rejection(e.message, EXPIRED)))
  {
    WorkOne(s, Replay(e), now);
    MergeSilent(Sent(Rejection(e.message, EXPIRED)));
  }

  /** An owned notification is observed, and then the threads it spawns are registered. */
  lemma NotificationUnfold(s: State, n: Note, now: nat, order: seq<string>)
    requires !Foreign(s, n.thread) || n.body.ThreadStarted?
    ensures var parent := ParentOf(s, n.thread);
            var o := Observe(s, n.body, parent);
            var w := Work(o.s, SpawnTasks(n.body.Spawns(), CardFor(parent, n.body)), now);
            HandleNotification(s, n, now, order) == Result(w.s, Merge(o.out, w.out))
  {
    WorkOne(s, Deliver(n), now);
  }

  lemma QueueKept(log: seq<Slot>, t: string, next: nat, clock: nat)
    requires Ordered(log, next, clock)
    ensures forall k :: 0 <= k < |Queue(log, t)| ==> Holdable(t, Queue(log, t)[k].message)
  {
    QueueMembers(log, t);
    forall k | 0 <= k < |Queue(log, t)| ensures Holdable(t, Queue(log, t)[k].message) {
      assert Queue(log, t)[k] in Queue(log, t);
    }
  }

  /** Any finite set of threads can be visited in some order. */
  lemma Enumerate(threads: set<string>) returns (order: seq<string>)
    ensures Enumerates(order, threads)
  {
    if threads == {} {
      order := [];
    } else {
      var t :| t in threads;
      var rest := Enumerate(threads - {t});
      order := [t] + rest;
    }
  }
}
