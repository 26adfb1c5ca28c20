/** Finding the oldest buffered entry of a kind through the queues. */
module OldestEntry {
  import opened AppServerTypes
  import opened DeferredBuffer
  import opened Wrappers

  /** Position of the first entry of a kind in a queue, or its length. */
  function FirstKind(q: seq<Entry>, interactive: bool): (k: nat)
    ensures k <= |q|
    ensures k < |q| ==> q[k].message.Interactive? == interactive
    ensures forall j :: 0 <= j < k ==> q[j].message.Interactive? != interactive
  {
    if q == [] || q[0].message.Interactive? == interactive then 0 else 1 + FirstKind(q[1..], interactive)
  }

  function SequenceAt(q: seq<Entry>, k: nat): Option<nat> {
    if k < |q| then Some(q[k].sequence) else None
  }

  /** How the code names the slot at a log position. */
  function NameAt(log: seq<Slot>, i: nat): Option<(string, nat)> {
    if i < |log| then Some((log[i].thread, log[i].entry.sequence)) else None
  }

  /** The first match of a thread's slots is the first match of its queue. */
  lemma FirstUnfold(log: seq<Slot>, q: Query)
    ensures First(log, q) == if log == [] || Matches(q, log[0]) then 0 else 1 + First(log[1..], q)
  {
  }

  lemma MatchesKind(x: Slot, t: string, interactive: bool)
    ensures Matches(KindIn(Some(t), interactive), x)
       <==> x.thread == t && x.entry.message.Interactive? == interactive
  {
  }

  lemma QueueUnfold(log: seq<Slot>, t: string)
    ensures Queue(log, t)
         == if log == [] then []
            else if log[0].thread == t then [log[0].entry] + Queue(log[1..], t)
            else Queue(log[1..], t)
  {
  }

  lemma FirstKindUnfold(e: Entry, q: seq<Entry>, interactive: bool)
    ensures FirstKind([e] + q, interactive)
         == if e.message.Interactive? == interactive then 0 else 1 + FirstKind(q, interactive)
  {
    assert ([e] + q)[1..] == q;
  }

  lemma FirstKindOfNone(interactive: bool)
    ensures FirstKind([], interactive) == 0
  {
  }

  lemma {:induction false} FirstInQueue(log: seq<Slot>, t: string, interactive: bool)
    ensures var i := First(log, KindIn(Some(t), interactive));
            var q := Queue(log, t);
            var k := FirstKind(q, interactive);
            && (i < |log| <==> k < |q|)
            && (i < |log| ==> log[i] == Slot(t, q[k]))
  {
    hide First, Queue, FirstKind, OfKind, Matches;
    FirstUnfold(log, KindIn(Some(t), interactive));
    QueueUnfold(log, t);
    if log != [] {
      FirstInQueue(log[1..], t, interactive);
      MatchesKind(log[0], t, interactive);
      FirstKindUnfold(log[0].entry, Queue(log[1..], t), interactive);
    } else {
      FirstKindOfNone(interactive);
    }
  }

  lemma {:induction false} FirstAgree(log: seq<Slot>, q: Query, r: Query)
    requires forall x :: x in log ==> Matches(q, x) == Matches(r, x)
    ensures First(log, q) == First(log, r)
  {
    if log != [] {
      FirstAgree(log[1..], q, r);
    }
  }

  lemma FirstOfNoThread(log: seq<Slot>, interactive: bool)
    ensures First(log, KindAmong({}, interactive)) == |log|
  {
  }

  lemma FirstOfAllThreads(log: seq<Slot>, interactive: bool)
    ensures First(log, KindAmong(Threads(log), interactive)) == First(log, KindIn(None, interactive))
  {
    assert forall x :: x in log ==> x.thread in Threads(log);
    FirstAgree(log, KindAmong(Threads(log), interactive), KindIn(None, interactive));
  }

  lemma FirstUnion(log: seq<Slot>, interactive: bool, threads: set<string>, t: string)
    ensures var i := First(log, KindAmong(threads, interactive));
            var j := First(log, KindIn(Some(t), interactive));
            First(log, KindAmong(threads + {t}, interactive)) == if j < i then j else i
  {
    var i := First(log, KindAmong(threads, interactive));
    var j := First(log, KindIn(Some(t), interactive));
    var k := First(log, KindAmong(threads + {t}, interactive));
    if k < |log| {
      assert i <= k || j <= k;
    }
  }

  /** Visiting one more queue: the lower of the two candidates is the first slot of both. */
  lemma OldestGrows(log: seq<Slot>, interactive: bool, threads: set<string>, t: string, next: nat, clock: nat)
    requires Ordered(log, next, clock)
    ensures var q := Queue(log, t);
            var lowest := SequenceAt(q, FirstKind(q, interactive));
            var oldest := NameAt(log, First(log, KindAmong(threads, interactive)));
            NameAt(log, First(log, KindAmong(threads + {t}, interactive)))
            == if lowest.Some? && (oldest.None? || lowest.value < oldest.value.1)
               then Some((t, lowest.value)) else oldest
  {
    FirstInQueue(log, t, interactive);
    FirstUnion(log, interactive, threads, t);
  }
}
