/**
 Replaying the queue of an owned thread is handling its messages as if they had just arrived.
 */
module DirectReplay {
  import opened AppServerSpec
  import opened AppServerTypes
  import opened DeferredBuffer
  import opened QueueRefinement
  import opened Wrappers

  function LineOf(m: ThreadMessage): Line {
    match m
    case Notification(n) => NoteLine(n)
    case Interactive(r) => RequestLine(r)
  }

  datatype Arrival = Arrival(message: ThreadMessage, now: nat, order: seq<string>)

  /** Messages arriving one after another. */
  function Listen(s: State, arrivals: seq<Arrival>): Result
    decreases arrivals
  {
    if arrivals == [] then Result(s, SILENT)
    else
      var a := arrivals[0];
      var r := Step(s, Hear(LineOf(a.message), a.now, a.order));
      var rest := Listen(r.s, arrivals[1..]);
      Result(rest.s, Merge(r.out, rest.out))
  }

  function Messages(q: seq<Entry>): (r: seq<ThreadMessage>)
    ensures |r| == |q|
  {
    if q == [] then [] else [q[0].message] + Messages(q[1..])
  }

  function At(ms: seq<ThreadMessage>, now: nat): (r: seq<Arrival>)
    ensures |r| == |ms|
  {
    if ms == [] then [] else [Arrival(ms[0], now, [])] + At(ms[1..], now)
  }

  // ---- Replay of an owned thread is direct handling ----

  lemma ReplayOne(s: State, t: string, e: Entry, now: nat)
    requires Claimed(s, t) && Holdable(t, e.message) && !Stale(e, now)
    ensures Work(s, [Replay(e)], now) == Step(s, Hear(LineOf(e.message), now, []))
  {
    ReplayYoung(s, e, now);
  }

  lemma ReplayNext(s: State, e: Entry, q: seq<Entry>, now: nat)
    ensures var r1 := Work(s, [Replay(e)], now);
            var r2 := Work(r1.s, Replays(q), now);
            Work(s, Replays([e] + q), now) == Result(r2.s, Merge(r1.out, r2.out))
  {
    assert Replays([e] + q) == [Replay(e)] + Replays(q);
    WorkConcat(s, [Replay(e)], Replays(q), now);
  }

  /**
   Replaying the queue of an owned thread does to the session what its messages would have done by
   arriving now, one after another, whatever they spawn and replay in turn.
   */
  lemma {:induction false} ReplayIsDirect(s: State, t: string, q: seq<Entry>, now: nat)
    requires Claimed(s, t)
    requires forall e :: e in q ==> Holdable(t, e.message) && !Stale(e, now)
    ensures Work(s, Replays(q), now) == Listen(s, At(Messages(q), now))
    decreases q
  {
    if q == [] {
      assert Replays(q) == [];
    } else {
      var e, rest := q[0], q[1..];
      assert q == [e] + rest;
      ReplayOne(s, t, e, now);
      ReplayNext(s, e, rest, now);
      WorkFrame(s, [Replay(e)], now);
      ReplayIsDirect(Work(s, [Replay(e)], now).s, t, rest, now);
      assert At(Messages(q), now)[1..] == At(Messages(rest), now);
    }
  }
}
