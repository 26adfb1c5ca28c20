/**
 The buffer of messages for unclaimed threads, in its simple form: one log of slots in arrival
 order. Which slots leave it, and when, is decided here; the multiplexer itself keeps one queue per
 thread and a byte counter, and is proved to agree with this log.
 */
module DeferredBuffer {
  import opened AppServerTypes
  import opened Wrappers

  const MAX_UNCLAIMED_THREADS: nat := 32
  const MAX_DEFERRED_MESSAGES_PER_THREAD: nat := 64
  const MAX_DEFERRED_PAYLOAD_BYTES: nat := 512 * 1024
  const DEFERRED_MESSAGE_TTL: nat := 30_000 // milliseconds
  const SEQUENCE_LIMIT: nat := 0x1_0000_0000_0000_0000

  predicate Wraps(n: nat) {
    n + 1 == SEQUENCE_LIMIT
  }

  /** The next 64-bit sequence number, wrapping at the top. */
  function WrappingSucc(n: nat): nat {
    if Wraps(n) then 0 else n + 1
  }

  datatype Entry = Entry(message: ThreadMessage, receivedAt: nat, sequence: nat, bytes: nat)

  datatype Slot = Slot(thread: string, entry: Entry)

  /** The selections the multiplexer makes, as first-order data. */
  datatype Query =
    | OfThread(t: string)
    | OffThread(t: string)
    | ExpiredAt(now: nat)
    | LiveAt(now: nat)
    | KindIn(scope: Option<string>, interactive: bool)
    | KindAmong(threads: set<string>, interactive: bool)
    | Besides(sequences: set<nat>)
    | NotKindIn(scope: Option<string>, interactive: bool)

  predicate Stale(e: Entry, now: nat) {
    now - e.receivedAt >= DEFERRED_MESSAGE_TTL
  }

  predicate OfKind(x: Slot, scope: Option<string>, interactive: bool) {
    (scope.None? || scope.value == x.thread) && x.entry.message.Interactive? == interactive
  }

  predicate Matches(q: Query, x: Slot) {
    match q
    case OfThread(t) => x.thread == t
    case OffThread(t) => x.thread != t
    case ExpiredAt(now) => Stale(x.entry, now)
    case LiveAt(now) => !Stale(x.entry, now)
    case KindIn(scope, interactive) => OfKind(x, scope, interactive)
    case KindAmong(threads, interactive) =>
      x.thread in threads && x.entry.message.Interactive? == interactive
    case Besides(sequences) => x.entry.sequence !in sequences
    case NotKindIn(scope, interactive) => !OfKind(x, scope, interactive)
  }

  function Select(log: seq<Slot>, q: Query): (r: seq<Slot>)
    ensures |r| <= |log|
  {
    if log == [] then []
    else if Matches(q, log[0]) then [log[0]] + Select(log[1..], q)
    else Select(log[1..], q)
  }

  /** The queue of one thread. */
  function Queue(log: seq<Slot>, t: string): (r: seq<Entry>)
    ensures |r| <= |log|
  {
    if log == [] then []
    else if log[0].thread == t then [log[0].entry] + Queue(log[1..], t)
    else Queue(log[1..], t)
  }

  function Threads(log: seq<Slot>): set<string> {
    set x | x in log :: x.thread
  }

  function Bytes(log: seq<Slot>): nat {
    if log == [] then 0 else log[0].entry.bytes + Bytes(log[1..])
  }

  function QueueBytes(q: seq<Entry>): nat {
    if q == [] then 0 else q[0].bytes + QueueBytes(q[1..])
  }

  function RemoveAt(log: seq<Slot>, i: nat): seq<Slot>
    requires i < |log|
  {
    log[..i] + log[i + 1..]
  }

  /** Position of the first match, or the length when there is none. */
  function First(log: seq<Slot>, q: Query): (i: nat)
    ensures i <= |log|
    ensures i < |log| ==> Matches(q, log[i])
    ensures forall j :: 0 <= j < i ==> !Matches(q, log[j])
  {
    if log == [] || Matches(q, log[0]) then 0 else 1 + First(log[1..], q)
  }

  function Sequences(slots: seq<Slot>): set<nat> {
    set x | x in slots :: x.entry.sequence
  }

  // ---- Pressure and eviction ----

  datatype Pressure = TooManyThreads | QueueFull | TooManyBytes

  predicate Over(p: Pressure, log: seq<Slot>, t: string, size: nat) {
    match p
    case TooManyThreads => |Threads(log)| >= MAX_UNCLAIMED_THREADS && t !in Threads(log)
    case QueueFull => |Queue(log, t)| >= MAX_DEFERRED_MESSAGES_PER_THREAD
    case TooManyBytes => Bytes(log) + size > MAX_DEFERRED_PAYLOAD_BYTES
  }

  function Scope(p: Pressure, t: string): Option<string> {
    if p.QueueFull? then Some(t) else None
  }

  /** The oldest notification in scope; failing that, and only for a request, the oldest request. */
  function OldestEvictable(log: seq<Slot>, scope: Option<string>, interactive: bool): (i: nat)
    ensures i <= |log|
  {
    var n := First(log, KindIn(scope, false));
    if n < |log| || !interactive then n else First(log, KindIn(scope, true))
  }

  datatype Relief = Relief(log: seq<Slot>, victims: seq<Slot>, ok: bool)

  /** One eviction loop: evict until the pressure is gone or nothing may be evicted. */
  function Relieve(p: Pressure, log: seq<Slot>, t: string, size: nat, interactive: bool): (r: Relief)
    ensures r.ok ==> !Over(p, r.log, t, size)
    ensures |r.log| <= |log|
    decreases |log|
  {
    if !Over(p, log, t, size) then Relief(log, [], true)
    else
      var v := OldestEvictable(log, Scope(p, t), interactive);
      if v == |log| then Relief(log, [], false)
      else
        var r := Relieve(p, RemoveAt(log, v), t, size, interactive);
        Relief(r.log, [log[v]] + r.victims, r.ok)
  }

  function Then(r: Relief, next: Relief): Relief {
    Relief(next.log, r.victims + next.victims, next.ok)
  }

  /** Make room for a message of `size` bytes: threads first, then its queue, then bytes. */
  function Admit(log: seq<Slot>, t: string, size: nat, interactive: bool): Relief {
    if size > MAX_DEFERRED_PAYLOAD_BYTES then Relief(log, [], false)
    else
      var r1 := Relieve(TooManyThreads, log, t, size, interactive);
      if !r1.ok then r1
      else
        var r2 := Then(r1, Relieve(QueueFull, r1.log, t, size, interactive));
        if !r2.ok then r2
        else Then(r2, Relieve(TooManyBytes, r2.log, t, size, interactive))
  }

  lemma RelieveUnfold(p: Pressure, log: seq<Slot>, t: string, size: nat, interactive: bool)
    ensures Relieve(p, log, t, size, interactive) ==
            var i := OldestEvictable(log, Scope(p, t), interactive);
            if !Over(p, log, t, size) then Relief(log, [], true)
            else if i == |log| then Relief(log, [], false)
            else Then(Relief(log, [log[i]], true), Relieve(p, RemoveAt(log, i), t, size, interactive))
  {
  }

  // ---- The state of a well-kept log ----

  /** The messages that can wait for thread `t`: addressed to it, and not answered on arrival. */
  predicate Holdable(t: string, m: ThreadMessage) {
    match m
    case Notification(n) => n.thread == Some(t) && !n.body.ThreadStarted?
    case Interactive(r) => r.thread == Some(t) && (r.call.Legacy() || t != "")
  }

  predicate SlotKept(x: Slot, next: nat, clock: nat) {
    && x.entry.sequence < next && x.entry.receivedAt <= clock
    && x.entry.bytes == x.entry.message.Size() && Holdable(x.thread, x.entry.message)
  }

  /** Strictly increasing sequences, ages in arrival order, true sizes, messages that may wait. */
  ghost predicate Ordered(log: seq<Slot>, next: nat, clock: nat) {
    && (forall i, j :: 0 <= i < j < |log| ==> log[i].entry.sequence < log[j].entry.sequence)
    && (forall i, j :: 0 <= i < j < |log| ==> log[i].entry.receivedAt <= log[j].entry.receivedAt)
    && (forall x :: x in log ==> SlotKept(x, next, clock))
  }

  ghost predicate WithinCaps(log: seq<Slot>) {
    && |Threads(log)| <= MAX_UNCLAIMED_THREADS
    && (forall t :: |Queue(log, t)| <= MAX_DEFERRED_MESSAGES_PER_THREAD)
    && Bytes(log) <= MAX_DEFERRED_PAYLOAD_BYTES
  }

  // ---- Algebra of selections ----

  lemma {:induction false} SelectConcat(a: seq<Slot>, b: seq<Slot>, q: Query)
    ensures Select(a + b, q) == Select(a, q) + Select(b, q)
  {
    if a == [] {
      assert a + b == b;
    } else {
      assert (a + b)[1..] == a[1..] + b;
      SelectConcat(a[1..], b, q);
    }
  }

  lemma {:induction false} SelectMembers(log: seq<Slot>, q: Query)
    ensures forall x :: x in Select(log, q) <==> x in log && Matches(q, x)
  {
    if log != [] {
      SelectMembers(log[1..], q);
      assert log == [log[0]] + log[1..];
    }
  }

  lemma {:induction false} QueueConcat(a: seq<Slot>, b: seq<Slot>, t: string)
    ensures Queue(a + b, t) == Queue(a, t) + Queue(b, t)
  {
    if a == [] {
      assert a + b == b;
    } else {
      assert (a + b)[1..] == a[1..] + b;
      QueueConcat(a[1..], b, t);
    }
  }

  lemma {:induction false} BytesConcat(a: seq<Slot>, b: seq<Slot>)
    ensures Bytes(a + b) == Bytes(a) + Bytes(b)
  {
    if a == [] {
      assert a + b == b;
    } else {
      assert (a + b)[1..] == a[1..] + b;
      BytesConcat(a[1..], b);
    }
  }

  /** A thread has a queue entry exactly when the log has its slot. */
  lemma {:induction false} QueueMembers(log: seq<Slot>, t: string)
    ensures forall e :: e in Queue(log, t) <==> Slot(t, e) in log
    ensures (Queue(log, t) == []) == (t !in Threads(log))
  {
    if log != [] {
      QueueMembers(log[1..], t);
      assert log == [log[0]] + log[1..];
      assert forall x :: x in log <==> x == log[0] || x in log[1..];
      assert forall x :: x in log && x.thread == t ==> x == Slot(t, x.entry);
    }
  }

  /** What one removal does to every reading of the log. */
  lemma RemoveAtEffect(log: seq<Slot>, i: nat, t: string)
    requires i < |log|
    ensures Bytes(RemoveAt(log, i)) + log[i].entry.bytes == Bytes(log)
    ensures |Queue(log[..i], t)| <= |Queue(log, t)|
    ensures t != log[i].thread ==> Queue(RemoveAt(log, i), t) == Queue(log, t)
    ensures t == log[i].thread ==>
              var k := |Queue(log[..i], t)|;
              && k < |Queue(log, t)| && Queue(log, t)[k] == log[i].entry
              && Queue(RemoveAt(log, i), t) == Queue(log, t)[..k] + Queue(log, t)[k + 1..]
  {
    var a, x, b := log[..i], [log[i]], log[i + 1..];
    assert log == a + (x + b);
    BytesConcat(a, x + b);
    BytesConcat(x, b);
    BytesConcat(a, b);
    QueueConcat(a, x + b, t);
    QueueConcat(x, b, t);
    QueueConcat(a, b, t);
    assert Queue(x, t) == if log[i].thread == t then [log[i].entry] else [];
  }

  /** Dropping a whole thread removes its queue and nothing else. */
  lemma SelectOffThread(log: seq<Slot>, t: string, u: string)
    ensures Queue(Select(log, OffThread(t)), u) == if u == t then [] else Queue(log, u)
    ensures Bytes(Select(log, OffThread(t))) + QueueBytes(Queue(log, t)) == Bytes(log)
    ensures |Select(log, OffThread(t))| + |Queue(log, t)| == |log|
  {
    hide Select, Queue, Bytes, QueueBytes;
    OffThreadQueue(log, t, u);
    OffThreadBytes(log, t);
  }

  lemma {:induction false} OffThreadQueue(log: seq<Slot>, t: string, u: string)
    ensures Queue(Select(log, OffThread(t)), u) == if u == t then [] else Queue(log, u)
  {
    if log != [] {
      OffThreadQueue(log[1..], t, u);
      QueueConcat(if log[0].thread != t then [log[0]] else [], Select(log[1..], OffThread(t)), u);
    }
  }

  lemma {:induction false} OffThreadBytes(log: seq<Slot>, t: string)
    ensures Bytes(Select(log, OffThread(t))) + QueueBytes(Queue(log, t)) == Bytes(log)
    ensures |Select(log, OffThread(t))| + |Queue(log, t)| == |log|
  {
    if log != [] {
      OffThreadBytes(log[1..], t);
      if log[0].thread == t {
        assert Queue(log, t)[0] == log[0].entry && Queue(log, t)[1..] == Queue(log[1..], t);
      } else {
        BytesConcat([log[0]], Select(log[1..], OffThread(t)));
        assert Bytes([log[0]]) == log[0].entry.bytes + Bytes([]);
      }
    }
  }

  lemma OrderedCons(x: Slot, tail: seq<Slot>, next: nat, clock: nat)
    requires Ordered(tail, next, clock) && Ordered([x], next, clock)
    requires forall y :: y in tail ==>
               x.entry.sequence < y.entry.sequence && x.entry.receivedAt <= y.entry.receivedAt
    ensures Ordered([x] + tail, next, clock)
  {
    var all := [x] + tail;
    forall i, j | 0 <= i < j < |all|
      ensures all[i].entry.sequence < all[j].entry.sequence && all[i].entry.receivedAt <= all[j].entry.receivedAt
    {
      assert all[j] == tail[j - 1];
      if i > 0 {
        assert all[i] == tail[i - 1];
      }
    }
    assert x in [x];
  }

  lemma AppendOrdered(log: seq<Slot>, x: Slot, next: nat, clock: nat)
    requires Ordered(log, next, clock)
    requires x.entry.sequence == next && x.entry.receivedAt == clock && x.entry.bytes == x.entry.message.Size()
    requires Holdable(x.thread, x.entry.message)
    ensures Ordered(log + [x], next + 1, clock)
  {
    var all := log + [x];
    forall i, j | 0 <= i < j < |all|
      ensures all[i].entry.sequence < all[j].entry.sequence && all[i].entry.receivedAt <= all[j].entry.receivedAt
    {
      assert all[i] in log;
    }
  }

  /** A held message keeps the log in order exactly when its number is not the last one. */
  lemma AppendKeepsOrder(log: seq<Slot>, x: Slot, next: nat, clock: nat)
    requires Ordered(log, next, clock)
    requires x.entry.sequence == next && x.entry.receivedAt == clock && x.entry.bytes == x.entry.message.Size()
    requires Holdable(x.thread, x.entry.message)
    ensures Ordered(log + [x], WrappingSucc(next), clock) <==> !Wraps(next)
  {
    if Wraps(next) {
      assert x in log + [x] && !SlotKept(x, 0, clock);
    } else {
      AppendOrdered(log, x, next, clock);
    }
  }

  lemma OrderedTail(log: seq<Slot>, next: nat, clock: nat)
    requires log != [] && Ordered(log, next, clock)
    ensures Ordered([log[0]], next, clock) && Ordered(log[1..], next, clock)
    ensures forall y :: y in log[1..] ==>
              log[0].entry.sequence < y.entry.sequence && log[0].entry.receivedAt <= y.entry.receivedAt
  {
    assert log[0] in log;
    forall y | y in log[1..]
      ensures log[0].entry.sequence < y.entry.sequence && log[0].entry.receivedAt <= y.entry.receivedAt
    {
      var i :| 0 <= i < |log[1..]| && log[1..][i] == y;
      assert y == log[i + 1];
    }
  }

  /** Any selection of an ordered log is ordered, and no heavier. */
  lemma {:induction false} SelectKeepsOrder(log: seq<Slot>, q: Query, next: nat, clock: nat)
    requires Ordered(log, next, clock)
    ensures Ordered(Select(log, q), next, clock)
    ensures Bytes(Select(log, q)) <= Bytes(log)
  {
    if log != [] {
      OrderedTail(log, next, clock);
      SelectKeepsOrder(log[1..], q, next, clock);
      SelectMembers(log[1..], q);
      var tail := Select(log[1..], q);
      if Matches(q, log[0]) {
        OrderedCons(log[0], tail, next, clock);
        BytesConcat([log[0]], tail);
      } else {
        assert Select(log, q) == tail;
      }
    }
  }

  lemma {:induction false} SelectShortensQueues(log: seq<Slot>, q: Query, t: string)
    ensures |Queue(Select(log, q), t)| <= |Queue(log, t)|
    ensures Threads(Select(log, q)) <= Threads(log)
  {
    if log != [] {
      SelectShortensQueues(log[1..], q, t);
      SelectMembers(log, q);
      QueueConcat(if Matches(q, log[0]) then [log[0]] else [], Select(log[1..], q), t);
    }
  }

  lemma SubsetSize<T>(a: set<T>, b: set<T>)
    requires a <= b
    ensures |a| <= |b|
  {
    assert b == a + (b - a);
  }

  lemma SelectKeepsCaps(log: seq<Slot>, q: Query, next: nat, clock: nat)
    requires Ordered(log, next, clock) && WithinCaps(log)
    ensures WithinCaps(Select(log, q))
  {
    SelectKeepsOrder(log, q, next, clock);
    forall t ensures |Queue(Select(log, q), t)| <= |Queue(log, t)| {
      SelectShortensQueues(log, q, t);
    }
    SelectShortensQueues(log, q, "");
    SubsetSize(Threads(Select(log, q)), Threads(log));
  }

  /** Selecting everything changes nothing. */
  lemma {:induction false} SelectAll(log: seq<Slot>, q: Query)
    requires forall x :: x in log ==> Matches(q, x)
    ensures Select(log, q) == log
  {
    if log != [] {
      SelectAll(log[1..], q);
    }
  }

  lemma {:induction false} SelectNone(log: seq<Slot>, q: Query)
    requires forall x :: x in log ==> !Matches(q, x)
    ensures Select(log, q) == []
  {
    if log != [] {
      SelectNone(log[1..], q);
    }
  }

  /** A selection depends only on which slots of the log it matches. */
  lemma {:induction false} SelectAgree(log: seq<Slot>, q: Query, r: Query)
    requires forall x :: x in log ==> Matches(q, x) == Matches(r, x)
    ensures Select(log, q) == Select(log, r)
  {
    if log != [] {
      SelectAgree(log[1..], q, r);
    }
  }

  lemma {:induction false} SelectBesides(log: seq<Slot>, a: set<nat>, b: set<nat>)
    ensures Select(Select(log, Besides(a)), Besides(b)) == Select(log, Besides(a + b))
  {
    if log != [] {
      SelectBesides(log[1..], a, b);
      SelectConcat(if Matches(Besides(a), log[0]) then [log[0]] else [], Select(log[1..], Besides(a)), Besides(b));
    }
  }

  /** In an ordered log everything before a slot is older and everything after it is newer. */
  lemma OrderedSplit(a: seq<Slot>, x: Slot, b: seq<Slot>, next: nat, clock: nat)
    requires Ordered(a + ([x] + b), next, clock)
    ensures forall y :: y in a ==> y.entry.sequence < x.entry.sequence
    ensures forall y :: y in b ==> y.entry.sequence > x.entry.sequence
  {
    var log := a + ([x] + b);
    assert log[|a|] == x;
    forall y | y in a ensures y.entry.sequence < x.entry.sequence {
      var k :| 0 <= k < |a| && a[k] == y;
      assert log[k] == y;
    }
    forall y | y in b ensures y.entry.sequence > x.entry.sequence {
      var k :| 0 <= k < |b| && b[k] == y;
      assert log[|a| + 1 + k] == y;
    }
  }

  lemma SelectDropsOne(a: seq<Slot>, x: Slot, b: seq<Slot>, q: Query)
    requires !Matches(q, x) && forall y :: y in a || y in b ==> Matches(q, y)
    ensures Select(a + ([x] + b), q) == a + b
  {
    SelectConcat(a, [x] + b, q);
    assert ([x] + b)[1..] == b;
    SelectAll(a, q);
    SelectAll(b, q);
  }

  lemma SplitAt(log: seq<Slot>, i: nat)
    requires i < |log|
    ensures log == log[..i] + ([log[i]] + log[i + 1..])
  {
  }

  lemma SplitIsSelect(a: seq<Slot>, x: Slot, b: seq<Slot>, next: nat, clock: nat)
    requires Ordered(a + ([x] + b), next, clock)
    ensures Select(a + ([x] + b), Besides({x.entry.sequence})) == a + b
  {
    OrderedSplit(a, x, b, next, clock);
    SelectDropsOne(a, x, b, Besides({x.entry.sequence}));
  }

  /** In an ordered log a slot is named by its sequence. */
  lemma RemoveAtIsSelect(log: seq<Slot>, i: nat, next: nat, clock: nat)
    requires Ordered(log, next, clock) && i < |log|
    ensures RemoveAt(log, i) == Select(log, Besides({log[i].entry.sequence}))
  {
    SplitAt(log, i);
    SplitIsSelect(log[..i], log[i], log[i + 1..], next, clock);
  }

  // ---- Removal of one slot, seen through the queues ----

  lemma RemoveAtOrdered(log: seq<Slot>, i: nat, next: nat, clock: nat)
    requires Ordered(log, next, clock) && i < |log|
    ensures Ordered(RemoveAt(log, i), next, clock)
  {
    RemoveAtIsSelect(log, i, next, clock);
    SelectKeepsOrder(log, Besides({log[i].entry.sequence}), next, clock);
  }

  /** The threads of a log are those with a queue. */
  lemma ThreadsHaveQueues(log: seq<Slot>)
    ensures forall t :: t in Threads(log) <==> Queue(log, t) != []
  {
    forall t ensures t in Threads(log) <==> Queue(log, t) != [] {
      QueueMembers(log, t);
    }
  }

  lemma RemoveAtOthers(log: seq<Slot>, i: nat)
    requires i < |log|
    ensures forall u :: u != log[i].thread ==> Queue(RemoveAt(log, i), u) == Queue(log, u)
  {
    forall u | u != log[i].thread ensures Queue(RemoveAt(log, i), u) == Queue(log, u) {
      RemoveAtEffect(log, i, u);
    }
  }

  lemma RemoveAtThreads(log: seq<Slot>, i: nat)
    requires i < |log|
    ensures var t := log[i].thread;
            Threads(RemoveAt(log, i)) ==
            if Queue(RemoveAt(log, i), t) == [] then Threads(log) - {t} else Threads(log)
  {
    ThreadsHaveQueues(log);
    ThreadsHaveQueues(RemoveAt(log, i));
    RemoveAtOthers(log, i);
    assert log[i] in log;
  }

  /** The queues of an ordered log are ordered. */
  ghost predicate QueueSorted(q: seq<Entry>) {
    forall i, j :: 0 <= i < j < |q| ==>
      q[i].sequence < q[j].sequence && q[i].receivedAt <= q[j].receivedAt
  }

  lemma QueueSortedCons(e: Entry, q: seq<Entry>)
    requires QueueSorted(q)
    requires forall x :: x in q ==> e.sequence < x.sequence && e.receivedAt <= x.receivedAt
    ensures QueueSorted([e] + q)
  {
  }

  lemma {:induction false} QueueOrdered(log: seq<Slot>, t: string, next: nat, clock: nat)
    requires Ordered(log, next, clock)
    ensures QueueSorted(Queue(log, t))
  {
    if log != [] {
      OrderedTail(log, next, clock);
      QueueOrdered(log[1..], t, next, clock);
      QueueMembers(log[1..], t);
      if log[0].thread == t {
        QueueSortedCons(log[0].entry, Queue(log[1..], t));
      }
    }
  }
}
