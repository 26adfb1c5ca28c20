/**
 What the eviction loops decide: who leaves, in which order, and exactly which messages are held.
 */
module BufferPolicy {
  import opened AppServerTypes
  import opened DeferredBuffer
  import opened Wrappers

  predicate InScope(scope: Option<string>, x: Slot) {
    scope.None? || scope.value == x.thread
  }

  predicate SameKind(x: Slot, y: Slot) {
    x.entry.message.Interactive? == y.entry.message.Interactive?
  }

  /** The log without the victims, in its old order. */
  function Survivors(log: seq<Slot>, victims: seq<Slot>): seq<Slot> {
    Select(log, Besides(Sequences(victims)))
  }

  // ---- One loop ----

  ghost predicate Respects(v: Slot, w: Slot, interactive: bool) {
    && (v.entry.message.Interactive? ==> interactive && w.entry.message.Interactive?)
    && (SameKind(v, w) ==> v.entry.sequence < w.entry.sequence)
  }

  /** The oldest evictable slot respects everything else in its scope. */
  lemma OldestGoesFirst(log: seq<Slot>, scope: Option<string>, interactive: bool, w: Slot, next: nat, clock: nat)
    requires Ordered(log, next, clock) && w in log && InScope(scope, w)
    requires var i := OldestEvictable(log, scope, interactive);
             i < |log| && w.entry.sequence != log[i].entry.sequence
    ensures Respects(log[OldestEvictable(log, scope, interactive)], w, interactive)
  {
    var j :| 0 <= j < |log| && log[j] == w;
    assert Matches(KindIn(scope, w.entry.message.Interactive?), log[j]);
  }

  lemma SurvivorsMembers(log: seq<Slot>, victims: seq<Slot>)
    ensures forall x :: x in Survivors(log, victims) <==> x in log && x.entry.sequence !in Sequences(victims)
  {
    SelectMembers(log, Besides(Sequences(victims)));
  }

  lemma SurvivorsOfMore(log: seq<Slot>, v: Slot, victims: seq<Slot>)
    ensures Survivors(Survivors(log, [v]), victims) == Survivors(log, [v] + victims)
  {
    SelectBesides(log, Sequences([v]), Sequences(victims));
    assert Sequences([v] + victims) == Sequences([v]) + Sequences(victims);
  }

  lemma SurvivorsOfNone(log: seq<Slot>)
    ensures Survivors(log, []) == log
  {
    SelectAll(log, Besides(Sequences([])));
  }

  predicate Evicts(p: Pressure, log: seq<Slot>, t: string, size: nat, interactive: bool) {
    Over(p, log, t, size) && OldestEvictable(log, Scope(p, t), interactive) < |log|
  }

  lemma OldestRespectsAll(log: seq<Slot>, scope: Option<string>, interactive: bool, next: nat, clock: nat)
    requires Ordered(log, next, clock) && OldestEvictable(log, scope, interactive) < |log|
    ensures var v := log[OldestEvictable(log, scope, interactive)];
            forall w :: w in log && InScope(scope, w) && w.entry.sequence != v.entry.sequence ==>
              Respects(v, w, interactive)
  {
    var v := log[OldestEvictable(log, scope, interactive)];
    forall w | w in log && InScope(scope, w) && w.entry.sequence != v.entry.sequence
      ensures Respects(v, w, interactive)
    {
      OldestGoesFirst(log, scope, interactive, w, next, clock);
    }
  }

  lemma RemoveAtIsSurvivors(log: seq<Slot>, i: nat, next: nat, clock: nat)
    requires Ordered(log, next, clock) && i < |log|
    ensures RemoveAt(log, i) == Survivors(log, [log[i]]) && Ordered(RemoveAt(log, i), next, clock)
    ensures |RemoveAt(log, i)| < |log|
  {
    RemoveAtIsSelect(log, i, next, clock);
    RemoveAtOrdered(log, i, next, clock);
    assert Sequences([log[i]]) == {log[i].entry.sequence};
  }

  /** One turn of an eviction loop. */
  lemma RelieveOnce(p: Pressure, log: seq<Slot>, t: string, size: nat, interactive: bool, next: nat, clock: nat)
    returns (v: Slot, left: seq<Slot>)
    requires Ordered(log, next, clock) && Evicts(p, log, t, size, interactive)
    ensures v in log && InScope(Scope(p, t), v)
    ensures left == Survivors(log, [v]) && |left| < |log| && Ordered(left, next, clock)
    ensures Relieve(p, log, t, size, interactive)
         == Then(Relief(left, [v], true), Relieve(p, left, t, size, interactive))
    ensures forall w :: w in log && InScope(Scope(p, t), w) && w.entry.sequence != v.entry.sequence ==>
              Respects(v, w, interactive)
  {
    var i := OldestEvictable(log, Scope(p, t), interactive);
    v, left := log[i], RemoveAt(log, i);
    RelieveUnfold(p, log, t, size, interactive);
    RemoveAtIsSurvivors(log, i, next, clock);
    OldestRespectsAll(log, Scope(p, t), interactive, next, clock);
  }

  /** Eviction takes the victims out of the log and leaves the rest in order. */
  lemma {:induction false} RelieveRemovesVictims(
    p: Pressure, log: seq<Slot>, t: string, size: nat, interactive: bool, next: nat, clock: nat)
    requires Ordered(log, next, clock)
    ensures var r := Relieve(p, log, t, size, interactive);
            r.log == Survivors(log, r.victims) && Ordered(r.log, next, clock)
    decreases |log|
  {
    if Evicts(p, log, t, size, interactive) {
      var v, left := RelieveOnce(p, log, t, size, interactive, next, clock);
      RelieveRemovesVictims(p, left, t, size, interactive, next, clock);
      SurvivorsOfMore(log, v, Relieve(p, left, t, size, interactive).victims);
    } else {
      SurvivorsOfNone(log);
    }
  }

  /**
   A victim's turn: it is taken from what the earlier victims left, and respects everything in scope
   that is still there. So a request goes only for a request and only when no notification is left in
   scope, and nothing of its own kind in scope is older.
   */
  ghost predicate InTurn(scope: Option<string>, log: seq<Slot>, victims: seq<Slot>, k: nat, interactive: bool)
    requires k < |victims|
  {
    var left, v := Survivors(log, victims[..k]), victims[k];
    && v in left && InScope(scope, v)
    && (forall w :: w in left && InScope(scope, w) && w.entry.sequence != v.entry.sequence ==>
          Respects(v, w, interactive))
  }

  /** At every turn of an eviction loop the oldest of the right kind goes, among those still there. */
  lemma {:induction false} RelievePriority(
    p: Pressure, log: seq<Slot>, t: string, size: nat, interactive: bool, k: nat, next: nat, clock: nat)
    requires Ordered(log, next, clock) && k < |Relieve(p, log, t, size, interactive).victims|
    ensures InTurn(Scope(p, t), log, Relieve(p, log, t, size, interactive).victims, k, interactive)
    decreases |log|
  {
    hide Relieve, Respects, Ordered, Survivors, InScope, Scope;
    RelieveUnfold(p, log, t, size, interactive);
    var v, left := RelieveOnce(p, log, t, size, interactive, next, clock);
    if k == 0 {
      SurvivorsOfNone(log);
    } else {
      var victims := Relieve(p, left, t, size, interactive).victims;
      RelievePriority(p, left, t, size, interactive, k - 1, next, clock);
      SurvivorsOfMore(log, v, victims[..k - 1]);
      TakeCons(v, victims, k);
    }
  }

  /** Eviction stops at once: before each victim left, the pressure was still there. */
  lemma {:induction false} RelieveStopsAtOnce(
    p: Pressure, log: seq<Slot>, t: string, size: nat, interactive: bool, k: nat, next: nat, clock: nat)
    requires Ordered(log, next, clock) && k < |Relieve(p, log, t, size, interactive).victims|
    ensures Over(p, Survivors(log, Relieve(p, log, t, size, interactive).victims[..k]), t, size)
    decreases |log|
  {
    if k == 0 {
      SurvivorsOfNone(log);
    } else {
      var v, left := RelieveOnce(p, log, t, size, interactive, next, clock);
      var victims := Relieve(p, left, t, size, interactive).victims;
      RelieveStopsAtOnce(p, left, t, size, interactive, k - 1, next, clock);
      SurvivorsOfMore(log, v, victims[..k - 1]);
      TakeCons(v, victims, k);
    }
  }

  lemma TakeCons(v: Slot, victims: seq<Slot>, k: nat)
    requires 0 < k <= |victims| + 1
    ensures ([v] + victims)[..k] == [v] + victims[..k - 1]
  {
  }

  // ---- Requests always fit ----

  /** Under any pressure a request finds something to evict. */
  lemma PressureHasVictim(p: Pressure, log: seq<Slot>, t: string, size: nat)
    requires Over(p, log, t, size) && size <= MAX_DEFERRED_PAYLOAD_BYTES
    ensures OldestEvictable(log, Scope(p, t), true) < |log|
  {
    var x: Slot;
    if p.QueueFull? {
      var e := Queue(log, t)[0];
      QueueMembers(log, t);
      assert e in Queue(log, t);
      x := Slot(t, e);
    } else {
      assert log != [];
      x := log[0];
    }
    var j :| 0 <= j < |log| && log[j] == x;
    assert Matches(KindIn(Scope(p, t), x.entry.message.Interactive?), log[j]);
  }

  lemma {:induction false} RequestRelief(p: Pressure, log: seq<Slot>, t: string, size: nat)
    requires size <= MAX_DEFERRED_PAYLOAD_BYTES
    ensures Relieve(p, log, t, size, true).ok
    decreases |log|
  {
    if Over(p, log, t, size) {
      PressureHasVictim(p, log, t, size);
      RequestRelief(p, RemoveAt(log, OldestEvictable(log, Scope(p, t), true)), t, size);
    }
  }

  /** An interactive request is held exactly when it fits the buffer by itself. */
  lemma RequestAdmission(log: seq<Slot>, t: string, size: nat)
    ensures Admit(log, t, size, true).ok <==> size <= MAX_DEFERRED_PAYLOAD_BYTES
  {
    if size <= MAX_DEFERRED_PAYLOAD_BYTES {
      RequestRelief(TooManyThreads, log, t, size);
      var r1 := Relieve(TooManyThreads, log, t, size, true);
      RequestRelief(QueueFull, r1.log, t, size);
      var r2 := Relieve(QueueFull, r1.log, t, size, true);
      RequestRelief(TooManyBytes, r2.log, t, size);
    }
  }

  // ---- Exactly which notifications fit ----

  /** What is left of the log when every notification in scope is gone. */
  function Residue(p: Pressure, log: seq<Slot>, t: string): seq<Slot> {
    Select(log, NotKindIn(Scope(p, t), false))
  }

  /** The buffered requests alone. */
  function Requests(log: seq<Slot>): seq<Slot> {
    Select(log, KindIn(None, true))
  }

  /** Pressure on part of a log is pressure on all of it, for a thread the log does not hold. */
  lemma OverIsMonotone(p: Pressure, log: seq<Slot>, q: Query, t: string, size: nat)
    requires Over(p, Select(log, q), t, size) && (p.TooManyThreads? ==> t !in Threads(log))
    ensures Over(p, log, t, size)
  {
    SelectShortensQueues(log, q, t);
    SubsetSize(Threads(Select(log, q)), Threads(log));
    SelectWeighsLess(log, q);
  }

  lemma {:induction false} SelectWeighsLess(log: seq<Slot>, q: Query)
    ensures Bytes(Select(log, q)) <= Bytes(log)
  {
    if log != [] {
      SelectWeighsLess(log[1..], q);
      BytesConcat([log[0]], Select(log[1..], q));
    }
  }

  lemma SelectMissesOne(a: seq<Slot>, x: Slot, b: seq<Slot>, q: Query)
    requires !Matches(q, x)
    ensures Select(a + ([x] + b), q) == Select(a + b, q)
  {
    SelectConcat(a, [x] + b, q);
    SelectConcat(a, b, q);
    assert ([x] + b)[1..] == b;
  }

  lemma SelectMisses(log: seq<Slot>, i: nat, q: Query)
    requires i < |log| && !Matches(q, log[i])
    ensures Select(RemoveAt(log, i), q) == Select(log, q)
  {
    SplitAt(log, i);
    SelectMissesOne(log[..i], log[i], log[i + 1..], q);
  }

  /** Dropping a notification in scope leaves the residue as it was. */
  lemma ResidueOfRest(p: Pressure, log: seq<Slot>, t: string, i: nat)
    requires i < |log| && OfKind(log[i], Scope(p, t), false)
    ensures Residue(p, RemoveAt(log, i), t) == Residue(p, log, t)
    ensures t !in Threads(log) ==> t !in Threads(RemoveAt(log, i))
  {
    SelectMisses(log, i, NotKindIn(Scope(p, t), false));
    RemoveAtShrinks(log, i);
  }

  lemma RemoveAtShrinks(log: seq<Slot>, i: nat)
    requires i < |log|
    ensures Threads(RemoveAt(log, i)) <= Threads(log)
  {
  }

  /** A loop run for a notification succeeds exactly when the notifications it may evict suffice. */
  lemma {:induction false} NotificationRelief(p: Pressure, log: seq<Slot>, t: string, size: nat)
    ensures var r := Relieve(p, log, t, size, false);
            && (r.ok <==> !Over(p, log, t, size) || !Over(p, Residue(p, log, t), t, size))
            && (!r.ok ==> r.log == Residue(p, log, t))
    decreases |log|
  {
    RelieveUnfold(p, log, t, size, false);
    var i := First(log, KindIn(Scope(p, t), false));
    if Over(p, log, t, size) {
      if i == |log| {
        forall x | x in log ensures Matches(NotKindIn(Scope(p, t), false), x) {
          var j :| 0 <= j < |log| && log[j] == x;
        }
        SelectAll(log, NotKindIn(Scope(p, t), false));
      } else {
        NotificationRelief(p, RemoveAt(log, i), t, size);
        ResidueOfRest(p, log, t, i);
        if Over(p, Residue(p, log, t), t, size) {
          OverIsMonotone(p, RemoveAt(log, i), NotKindIn(Scope(p, t), false), t, size);
        }
      }
    }
  }

  lemma OldestIsNotification(log: seq<Slot>, scope: Option<string>)
    ensures var i := OldestEvictable(log, scope, false); i < |log| ==> log[i].entry.message.Notification?
  {
  }

  lemma RequestsOfRest(log: seq<Slot>, i: nat)
    requires i < |log| && log[i].entry.message.Notification?
    ensures Requests(RemoveAt(log, i)) == Requests(log) && |RemoveAt(log, i)| < |log|
  {
    SelectMisses(log, i, KindIn(None, true));
  }

  /** A notification never displaces a request. */
  lemma {:induction false} RequestsSurvive(p: Pressure, log: seq<Slot>, t: string, size: nat)
    ensures Requests(Relieve(p, log, t, size, false).log) == Requests(log)
    decreases |log|
  {
    hide Relieve, Select, Over, First, OldestEvictable, RemoveAt;
    RelieveUnfold(p, log, t, size, false);
    var i := OldestEvictable(log, Scope(p, t), false);
    if Over(p, log, t, size) && i < |log| {
      OldestIsNotification(log, Scope(p, t));
      RequestsOfRest(log, i);
      RequestsSurvive(p, RemoveAt(log, i), t, size);
    }
  }

  lemma ResidueIsRequests(p: Pressure, log: seq<Slot>, t: string)
    requires !p.QueueFull?
    ensures Residue(p, log, t) == Requests(log)
  {
    SelectAgree(log, NotKindIn(None, false), KindIn(None, true));
  }

  lemma {:induction false} QueueOfResidue(log: seq<Slot>, t: string)
    ensures Queue(Residue(QueueFull, log, t), t) == Queue(Requests(log), t)
  {
    if log != [] {
      QueueOfResidue(log[1..], t);
    }
  }

  /** The requests alone leave room for a notification of `size` bytes on thread `t`. */
  predicate RequestsLeaveRoom(log: seq<Slot>, t: string, size: nat) {
    && (t in Threads(log) || |Threads(Requests(log))| < MAX_UNCLAIMED_THREADS)
    && |Queue(Requests(log), t)| < MAX_DEFERRED_MESSAGES_PER_THREAD
    && Bytes(Requests(log)) + size <= MAX_DEFERRED_PAYLOAD_BYTES
  }

  lemma RequestsShorten(log: seq<Slot>, t: string)
    ensures |Queue(Requests(log), t)| <= |Queue(log, t)|
    ensures Threads(Requests(log)) <= Threads(log) && |Threads(Requests(log))| <= |Threads(log)|
    ensures Bytes(Requests(log)) <= Bytes(log)
  {
    SelectShortensQueues(log, KindIn(None, true), t);
    SubsetSize(Threads(Requests(log)), Threads(log));
    SelectWeighsLess(log, KindIn(None, true));
  }

  lemma ThreadRelief(log: seq<Slot>, t: string, size: nat)
    ensures var r := Relieve(TooManyThreads, log, t, size, false);
            && (r.ok <==> t in Threads(log) || |Threads(Requests(log))| < MAX_UNCLAIMED_THREADS)
            && (!r.ok ==> r.log == Requests(log))
            && (t in Threads(log) ==> r.log == log)
            && (t !in Threads(log) ==> t !in Threads(Requests(log)))
  {
    NotificationRelief(TooManyThreads, log, t, size);
    ResidueIsRequests(TooManyThreads, log, t);
    RequestsShorten(log, t);
  }

  lemma QueueRelief(log: seq<Slot>, t: string, size: nat)
    ensures var r := Relieve(QueueFull, log, t, size, false);
            && (r.ok <==> |Queue(Requests(log), t)| < MAX_DEFERRED_MESSAGES_PER_THREAD)
            && (!r.ok ==> r.log == Residue(QueueFull, log, t))
  {
    NotificationRelief(QueueFull, log, t, size);
    QueueOfResidue(log, t);
    RequestsShorten(log, t);
  }

  lemma ByteRelief(log: seq<Slot>, t: string, size: nat)
    ensures var r := Relieve(TooManyBytes, log, t, size, false);
            && (r.ok <==> Bytes(Requests(log)) + size <= MAX_DEFERRED_PAYLOAD_BYTES)
            && (!r.ok ==> r.log == Requests(log))
  {
    NotificationRelief(TooManyBytes, log, t, size);
    ResidueIsRequests(TooManyBytes, log, t);
    RequestsShorten(log, t);
  }

  /** A notification is held exactly when it fits the buffer and the buffered requests leave room. */
  lemma NotificationAdmission(log: seq<Slot>, t: string, size: nat)
    ensures Admit(log, t, size, false).ok <==>
              size <= MAX_DEFERRED_PAYLOAD_BYTES && RequestsLeaveRoom(log, t, size)
  {
    if size <= MAX_DEFERRED_PAYLOAD_BYTES {
      var r1 := Relieve(TooManyThreads, log, t, size, false);
      var r2 := Relieve(QueueFull, r1.log, t, size, false);
      ThreadRelief(log, t, size);
      RequestsSurvive(TooManyThreads, log, t, size);
      QueueRelief(r1.log, t, size);
      RequestsSurvive(QueueFull, r1.log, t, size);
      ByteRelief(r2.log, t, size);
    }
  }

  /**
   A notification refused for lack of room has still cost the buffer every notification that
   stood in its way: all of them, or those of its own thread when that queue is full of requests.
   */
  lemma RefusedNotificationCost(log: seq<Slot>, t: string, size: nat)
    requires size <= MAX_DEFERRED_PAYLOAD_BYTES && !RequestsLeaveRoom(log, t, size)
    ensures Admit(log, t, size, false).log ==
            if |Queue(Requests(log), t)| >= MAX_DEFERRED_MESSAGES_PER_THREAD
            then Residue(QueueFull, log, t) else Requests(log)
  {
    var r1 := Relieve(TooManyThreads, log, t, size, false);
    var r2 := Relieve(QueueFull, r1.log, t, size, false);
    ThreadRelief(log, t, size);
    RequestsSurvive(TooManyThreads, log, t, size);
    QueueRelief(r1.log, t, size);
    RequestsSurvive(QueueFull, r1.log, t, size);
    ByteRelief(r2.log, t, size);
    ThreadsHaveQueues(Requests(log));
  }

  // ---- The whole admission ----

  /**
   A victim of the admission, at its turn: it respects everything still buffered, except that, while
   the queue of the incoming message's thread is full, a victim from that queue need not respect the
   other threads.
   */
  ghost predicate Justified(log: seq<Slot>, t: string, victims: seq<Slot>, k: nat, interactive: bool)
    requires k < |victims|
  {
    var left, v := Survivors(log, victims[..k]), victims[k];
    && v in left
    && (forall w :: w in left && w.entry.sequence != v.entry.sequence ==>
          Respects(v, w, interactive) || (v.thread == t && w.thread != t && Over(QueueFull, left, t, 0)))
  }

  lemma LoopJustifies(
    p: Pressure, log: seq<Slot>, t: string, size: nat, interactive: bool, k: nat, next: nat, clock: nat)
    requires Ordered(log, next, clock) && k < |Relieve(p, log, t, size, interactive).victims|
    ensures Justified(log, t, Relieve(p, log, t, size, interactive).victims, k, interactive)
  {
    RelievePriority(p, log, t, size, interactive, k, next, clock);
    RelieveStopsAtOnce(p, log, t, size, interactive, k, next, clock);
  }

  lemma JustifiedFirst(log: seq<Slot>, t: string, a: seq<Slot>, b: seq<Slot>, k: nat, interactive: bool)
    requires k < |a| && Justified(log, t, a, k, interactive)
    ensures Justified(log, t, a + b, k, interactive)
  {
    assert (a + b)[..k] == a[..k];
  }

  lemma JustifiedNext(log: seq<Slot>, t: string, a: seq<Slot>, b: seq<Slot>, k: nat, interactive: bool)
    requires k < |b| && Justified(Survivors(log, a), t, b, k, interactive)
    ensures Justified(log, t, a + b, |a| + k, interactive)
  {
    assert (a + b)[..|a| + k] == a + b[..k];
    SurvivorsOfBoth(log, a, b[..k]);
  }

  lemma SurvivorsOfBoth(log: seq<Slot>, a: seq<Slot>, b: seq<Slot>)
    ensures Survivors(Survivors(log, a), b) == Survivors(log, a + b)
  {
    SelectBesides(log, Sequences(a), Sequences(b));
    assert Sequences(a + b) == Sequences(a) + Sequences(b);
  }

  /** Every victim went at its turn, and the log is what the victims left. */
  ghost predicate Made(log: seq<Slot>, t: string, a: Relief, interactive: bool) {
    && a.log == Survivors(log, a.victims)
    && (!interactive ==> Requests(a.log) == Requests(log))
    && (forall k :: 0 <= k < |a.victims| ==> Justified(log, t, a.victims, k, interactive))
  }

  lemma LoopPolicy(p: Pressure, log: seq<Slot>, t: string, size: nat, interactive: bool, next: nat, clock: nat)
    requires Ordered(log, next, clock)
    ensures var r := Relieve(p, log, t, size, interactive); Made(log, t, r, interactive) && Ordered(r.log, next, clock)
  {
    var r := Relieve(p, log, t, size, interactive);
    RelieveRemovesVictims(p, log, t, size, interactive, next, clock);
    if !interactive {
      RequestsSurvive(p, log, t, size);
    }
    forall k | 0 <= k < |r.victims| ensures Justified(log, t, r.victims, k, interactive) {
      LoopJustifies(p, log, t, size, interactive, k, next, clock);
    }
  }

  lemma MadeThen(log: seq<Slot>, t: string, a: Relief, b: Relief, interactive: bool)
    requires Made(log, t, a, interactive) && Made(a.log, t, b, interactive)
    ensures Made(log, t, Then(a, b), interactive)
  {
    SurvivorsOfBoth(log, a.victims, b.victims);
    forall k | 0 <= k < |a.victims + b.victims| ensures Justified(log, t, a.victims + b.victims, k, interactive) {
      if k < |a.victims| {
        JustifiedFirst(log, t, a.victims, b.victims, k, interactive);
      } else {
        JustifiedNext(log, t, a.victims, b.victims, k - |a.victims|, interactive);
      }
    }
  }

  /**
   Who leaves to make room: the log loses exactly the victims, no notification displaces a request,
   and each victim went at its turn, given everything that was still buffered then.
   */
  lemma AdmissionPolicy(log: seq<Slot>, t: string, size: nat, interactive: bool, next: nat, clock: nat)
    requires Ordered(log, next, clock)
    ensures var a := Admit(log, t, size, interactive); Made(log, t, a, interactive) && Ordered(a.log, next, clock)
  {
    if size > MAX_DEFERRED_PAYLOAD_BYTES {
      SurvivorsOfNone(log);
    } else {
      var r1 := Relieve(TooManyThreads, log, t, size, interactive);
      var r2 := Relieve(QueueFull, r1.log, t, size, interactive);
      LoopPolicy(TooManyThreads, log, t, size, interactive, next, clock);
      LoopPolicy(QueueFull, r1.log, t, size, interactive, next, clock);
      LoopPolicy(TooManyBytes, r2.log, t, size, interactive, next, clock);
      MadeThen(log, t, r1, r2, interactive);
      MadeThen(log, t, Then(r1, r2), Relieve(TooManyBytes, r2.log, t, size, interactive), interactive);
    }
  }

  // ---- Caps ----

  lemma LoopShrinks(p: Pressure, log: seq<Slot>, t: string, size: nat, interactive: bool, next: nat, clock: nat)
    requires Ordered(log, next, clock)
    ensures var r := Relieve(p, log, t, size, interactive);
            && Ordered(r.log, next, clock) && Threads(r.log) <= Threads(log)
            && |Queue(r.log, t)| <= |Queue(log, t)|
            && (WithinCaps(log) ==> WithinCaps(r.log))
  {
    var r := Relieve(p, log, t, size, interactive);
    RelieveRemovesVictims(p, log, t, size, interactive, next, clock);
    SelectShortensQueues(log, Besides(Sequences(r.victims)), t);
    if WithinCaps(log) {
      SelectKeepsCaps(log, Besides(Sequences(r.victims)), next, clock);
    }
  }

  /** Each loop keeps what the earlier ones gained, so an admitted message ends within all caps. */
  lemma AdmissionKeepsCaps(log: seq<Slot>, t: string, e: Entry, interactive: bool, next: nat, clock: nat)
    requires Ordered(log, next, clock) && WithinCaps(log)
    ensures var a := Admit(log, t, e.bytes, interactive);
            WithinCaps(a.log) && (a.ok ==> WithinCaps(a.log + [Slot(t, e)]))
  {
    if e.bytes <= MAX_DEFERRED_PAYLOAD_BYTES {
      var a := Admit(log, t, e.bytes, interactive);
      var log1 := Relieve(TooManyThreads, log, t, e.bytes, interactive).log;
      var log2 := Relieve(QueueFull, log1, t, e.bytes, interactive).log;
      LoopShrinks(TooManyThreads, log, t, e.bytes, interactive, next, clock);
      LoopShrinks(QueueFull, log1, t, e.bytes, interactive, next, clock);
      LoopShrinks(TooManyBytes, log2, t, e.bytes, interactive, next, clock);
      if a.ok {
        RoomForOne(log, log1, a.log, t, e);
      }
    }
  }

  lemma RoomForOne(log: seq<Slot>, first: seq<Slot>, last: seq<Slot>, t: string, e: Entry)
    requires WithinCaps(log) && WithinCaps(last)
    requires Threads(last) <= Threads(first) <= Threads(log)
    requires t in Threads(first) || |Threads(first)| < MAX_UNCLAIMED_THREADS
    requires |Queue(last, t)| < MAX_DEFERRED_MESSAGES_PER_THREAD
    requires Bytes(last) + e.bytes <= MAX_DEFERRED_PAYLOAD_BYTES
    ensures WithinCaps(last + [Slot(t, e)])
  {
    AppendReadings(last, t, e);
    if t in Threads(first) {
      SubsetSize(Threads(last) + {t}, Threads(log));
    } else {
      SubsetSize(Threads(last), Threads(first));
    }
  }

  lemma AppendReadings(log: seq<Slot>, t: string, e: Entry)
    ensures var all := log + [Slot(t, e)];
            && Threads(all) == Threads(log) + {t} && Bytes(all) == Bytes(log) + e.bytes
            && forall u :: |Queue(all, u)| == |Queue(log, u)| + (if u == t then 1 else 0)
  {
    BytesConcat(log, [Slot(t, e)]);
    forall u ensures |Queue(log + [Slot(t, e)], u)| == |Queue(log, u)| + (if u == t then 1 else 0) {
      QueueConcat(log, [Slot(t, e)], u);
    }
  }
}
