/**
 Expiry in the code lists the stale prefix of every queue and then removes entries one by one by
 (thread, sequence). Here that is shown to take exactly the stale slots out of the log.
 */
module ExpirySweep {
  import opened AppServerSpec
  import opened AppServerTypes
  import opened DeferredBuffer

  /** The (thread, sequence) pairs by which the code names entries. */
  function Names(slots: seq<Slot>): (r: seq<(string, nat)>)
    ensures |r| == |slots|
  {
    seq(|slots|, i requires 0 <= i < |slots| => (slots[i].thread, slots[i].entry.sequence))
  }

  lemma NamesConcat(a: seq<Slot>, b: seq<Slot>)
    ensures Names(a + b) == Names(a) + Names(b)
  {
  }

  function SlotsOf(t: string, q: seq<Entry>): (r: seq<Slot>)
    ensures |r| == |q|
  {
    seq(|q|, i requires 0 <= i < |q| => Slot(t, q[i]))
  }

  lemma {:induction false} QueueIsSelection(log: seq<Slot>, t: string)
    ensures Select(log, OfThread(t)) == SlotsOf(t, Queue(log, t))
  {
    if log != [] {
      QueueIsSelection(log[1..], t);
    }
  }

  lemma SlotsConcat(t: string, a: seq<Entry>, b: seq<Entry>)
    ensures SlotsOf(t, a + b) == SlotsOf(t, a) + SlotsOf(t, b)
  {
  }

  lemma StaleAll(t: string, q: seq<Entry>, now: nat)
    requires forall j :: 0 <= j < |q| ==> Stale(q[j], now)
    ensures Select(SlotsOf(t, q), ExpiredAt(now)) == SlotsOf(t, q)
  {
    SelectAll(SlotsOf(t, q), ExpiredAt(now));
  }

  lemma StaleNone(t: string, q: seq<Entry>, now: nat)
    requires QueueSorted(q) && (q != [] ==> !Stale(q[0], now))
    ensures Select(SlotsOf(t, q), ExpiredAt(now)) == []
  {
    SelectNone(SlotsOf(t, q), ExpiredAt(now));
  }

  lemma StaleSplit(t: string, a: seq<Entry>, b: seq<Entry>, now: nat)
    requires QueueSorted(b) && (b != [] ==> !Stale(b[0], now))
    requires forall j :: 0 <= j < |a| ==> Stale(a[j], now)
    ensures Select(SlotsOf(t, a + b), ExpiredAt(now)) == SlotsOf(t, a)
  {
    SlotsConcat(t, a, b);
    SelectConcat(SlotsOf(t, a), SlotsOf(t, b), ExpiredAt(now));
    StaleAll(t, a, now);
    StaleNone(t, b, now);
    assert SlotsOf(t, a) + [] == SlotsOf(t, a);
  }

  /** Because ages follow arrival, the stale prefix of a queue holds all its stale entries. */
  lemma StalePrefixIsAll(log: seq<Slot>, t: string, n: nat, now: nat, next: nat)
    requires Ordered(log, next, now)
    requires var q := Queue(log, t);
             && n <= |q| && (forall j :: 0 <= j < n ==> Stale(q[j], now))
             && (n < |q| ==> !Stale(q[n], now))
    ensures Select(Select(log, OfThread(t)), ExpiredAt(now)) == SlotsOf(t, Queue(log, t)[..n])
  {
    hide Select, Queue;
    var q := Queue(log, t);
    QueueIsSelection(log, t);
    QueueOrdered(log, t, next, now);
    StaleSplit(t, q[..n], q[n..], now);
    assert q[..n] + q[n..] == q;
  }

  lemma {:induction false} ExpirySlotsSnoc(log: seq<Slot>, now: nat, order: seq<string>, t: string)
    ensures ExpirySlots(log, now, order + [t])
         == ExpirySlots(log, now, order) + Select(Select(log, OfThread(t)), ExpiredAt(now))
  {
    if order == [] {
      assert (order + [t])[1..] == [];
      assert Select(Select(log, OfThread(t)), ExpiredAt(now)) + [] == Select(Select(log, OfThread(t)), ExpiredAt(now));
    } else {
      assert (order + [t])[1..] == order[1..] + [t];
      ExpirySlotsSnoc(log, now, order[1..], t);
    }
  }

  /** The sweep lists exactly the stale slots of the threads it visits. */
  lemma {:induction false} ExpirySlotsMembers(log: seq<Slot>, now: nat, order: seq<string>)
    ensures forall x :: x in ExpirySlots(log, now, order) <==>
              x in log && x.thread in order && Stale(x.entry, now)
  {
    if order != [] {
      ExpirySlotsMembers(log, now, order[1..]);
      SelectMembers(log, OfThread(order[0]));
      SelectMembers(Select(log, OfThread(order[0])), ExpiredAt(now));
    }
  }

  /** One more thread listed by the sweep: the stale prefix of its queue. */
  lemma SweepThread(log: seq<Slot>, names: seq<(string, nat)>, order: seq<string>, t: string, n: nat, now: nat, next: nat)
    requires Ordered(log, next, now) && names == Names(ExpirySlots(log, now, order))
    requires var q := Queue(log, t);
             && n <= |q| && (forall j :: 0 <= j < n ==> Stale(q[j], now))
             && (n < |q| ==> !Stale(q[n], now))
    ensures names + Names(SlotsOf(t, Queue(log, t)[..n])) == Names(ExpirySlots(log, now, order + [t]))
  {
    hide Select, Queue, SlotsOf, Names, ExpirySlots, Stale;
    StalePrefixIsAll(log, t, n, now, next);
    ExpirySlotsSnoc(log, now, order, t);
    NamesConcat(ExpirySlots(log, now, order), SlotsOf(t, Queue(log, t)[..n]));
  }

  function NameOf(x: Slot): (string, nat) {
    (x.thread, x.entry.sequence)
  }

  /** The sweep names the stale slots of the log and no others. */
  lemma NamesAreStale(log: seq<Slot>, now: nat, order: seq<string>)
    requires Enumerates(order, Threads(log))
    ensures forall n :: n in Names(ExpirySlots(log, now, order))
                        <==> exists x :: x in log && Stale(x.entry, now) && n == NameOf(x)
  {
    var slots := ExpirySlots(log, now, order);
    ExpirySlotsMembers(log, now, order);
    assert forall x :: x in log ==> x.thread in Threads(log);
    forall n ensures n in Names(slots) <==> exists x :: x in log && Stale(x.entry, now) && n == NameOf(x) {
      if n in Names(slots) {
        var k :| 0 <= k < |slots| && Names(slots)[k] == n;
        assert slots[k] in slots && n == NameOf(slots[k]);
      }
      forall x | x in log && Stale(x.entry, now) && n == NameOf(x) ensures n in Names(slots) {
        assert x in slots;
        var k :| 0 <= k < |slots| && slots[k] == x;
        assert Names(slots)[k] == n;
      }
    }
  }

  ghost predicate Distinct(slots: seq<Slot>) {
    forall i, j :: 0 <= i < j < |slots| ==> slots[i].entry.sequence != slots[j].entry.sequence
  }

  lemma SameSequenceSameSlot(log: seq<Slot>, x: Slot, y: Slot, next: nat, clock: nat)
    requires Ordered(log, next, clock) && x in log && y in log && x.entry.sequence == y.entry.sequence
    ensures x == y
  {
    var i :| 0 <= i < |log| && log[i] == x;
    var j :| 0 <= j < |log| && log[j] == y;
  }

  lemma DistinctConcat(a: seq<Slot>, b: seq<Slot>)
    requires Distinct(a) && Distinct(b)
    requires forall x, y :: x in a && y in b ==> x.entry.sequence != y.entry.sequence
    ensures Distinct(a + b)
  {
    var c := a + b;
    forall i, j | 0 <= i < j < |c| ensures c[i].entry.sequence != c[j].entry.sequence {
      if i < |a| <= j {
        assert c[i] in a && c[j] in b;
      }
    }
  }

  /** No slot is listed twice. */
  lemma {:induction false} ExpirySlotsDistinct(log: seq<Slot>, now: nat, order: seq<string>, next: nat, clock: nat)
    requires Ordered(log, next, clock)
    requires forall i, j :: 0 <= i < j < |order| ==> order[i] != order[j]
    ensures Distinct(ExpirySlots(log, now, order))
  {
    if order != [] {
      var head := Select(Select(log, OfThread(order[0])), ExpiredAt(now));
      var tail := ExpirySlots(log, now, order[1..]);
      ExpirySlotsDistinct(log, now, order[1..], next, clock);
      SelectKeepsOrder(log, OfThread(order[0]), next, clock);
      SelectKeepsOrder(Select(log, OfThread(order[0])), ExpiredAt(now), next, clock);
      SelectMembers(log, OfThread(order[0]));
      SelectMembers(Select(log, OfThread(order[0])), ExpiredAt(now));
      ExpirySlotsMembers(log, now, order[1..]);
      forall x, y | x in head && y in tail ensures x.entry.sequence != y.entry.sequence {
        if x.entry.sequence == y.entry.sequence {
          SameSequenceSameSlot(log, x, y, next, clock);
        }
      }
      DistinctConcat(head, tail);
    }
  }

  /** The next listed slot has not been removed by the earlier removals. */
  lemma StillThere(log: seq<Slot>, slots: seq<Slot>, k: nat) returns (i: nat)
    requires k < |slots| && slots[k] in log && Distinct(slots)
    ensures var left := Select(log, Besides(Sequences(slots[..k])));
            i < |left| && left[i] == slots[k]
  {
    var left := Select(log, Besides(Sequences(slots[..k])));
    SelectMembers(log, Besides(Sequences(slots[..k])));
    i :| 0 <= i < |left| && left[i] == slots[k];
  }

  lemma SequencesSnoc(slots: seq<Slot>, k: nat)
    requires k < |slots|
    ensures Sequences(slots[..k + 1]) == Sequences(slots[..k]) + {slots[k].entry.sequence}
  {
    assert slots[..k + 1] == slots[..k] + [slots[k]];
  }

  lemma RemovedBesides(log: seq<Slot>, done: set<nat>, i: nat, next: nat, clock: nat)
    requires Ordered(log, next, clock) && i < |Select(log, Besides(done))|
    ensures var left := Select(log, Besides(done));
            RemoveAt(left, i) == Select(log, Besides(done + {left[i].entry.sequence}))
  {
    var left := Select(log, Besides(done));
    SelectKeepsOrder(log, Besides(done), next, clock);
    RemoveAtIsSelect(left, i, next, clock);
    SelectBesides(log, done, {left[i].entry.sequence});
  }

  /** Removing the next listed slot is selecting besides one sequence more. */
  lemma RemovedOneMore(log: seq<Slot>, slots: seq<Slot>, k: nat, i: nat, next: nat, clock: nat)
    requires Ordered(log, next, clock) && k < |slots|
    requires var left := Select(log, Besides(Sequences(slots[..k]))); i < |left| && left[i] == slots[k]
    ensures RemoveAt(Select(log, Besides(Sequences(slots[..k]))), i)
         == Select(log, Besides(Sequences(slots[..k + 1])))
  {
    SequencesSnoc(slots, k);
    RemovedBesides(log, Sequences(slots[..k]), i, next, clock);
  }

  /** After the whole list, the log holds exactly the younger slots, in order. */
  lemma SweepIsComplete(log: seq<Slot>, now: nat, order: seq<string>, next: nat, clock: nat)
    requires Ordered(log, next, clock) && Enumerates(order, Threads(log))
    ensures Select(log, Besides(Sequences(ExpirySlots(log, now, order)))) == Select(log, LiveAt(now))
  {
    var slots := ExpirySlots(log, now, order);
    ExpirySlotsMembers(log, now, order);
    assert forall x :: x in log ==> x.thread in Threads(log);
    forall x | x in log ensures (x.entry.sequence in Sequences(slots)) == Stale(x.entry, now) {
      if x.entry.sequence in Sequences(slots) {
        var y :| y in slots && y.entry.sequence == x.entry.sequence;
        SameSequenceSameSlot(log, x, y, next, clock);
      }
      assert Stale(x.entry, now) ==> x in slots;
    }
    SelectAgree(log, Besides(Sequences(slots)), LiveAt(now));
  }

  lemma {:induction false} RejectionsConcat(a: seq<Slot>, b: seq<Slot>, reason: string)
    ensures Rejections(a + b, reason) == Rejections(a, reason) + Rejections(b, reason)
  {
    if a == [] {
      assert a + b == b;
    } else {
      assert (a + b)[1..] == a[1..] + b;
      RejectionsConcat(a[1..], b, reason);
    }
  }

  lemma RejectionsSnoc(a: seq<Slot>, x: Slot, reason: string)
    ensures Rejections(a + [x], reason) == Rejections(a, reason) + Rejection(x.entry.message, reason)
  {
    RejectionsConcat(a, [x], reason);
    assert [x][1..] == [];
    assert Rejection(x.entry.message, reason) + [] == Rejection(x.entry.message, reason);
  }
}
