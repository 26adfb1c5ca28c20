/** What the garbage collection inside an acquire finds, drops and leaves in the lock table. */
module LockCollection {
  import opened SpawnLocks
  import opened Wrappers

  /** The runs with a live reference. */
  function LiveRuns(s: State): set<string> {
    set t | t in s.tasks && s.tasks[t].Refers() :: s.tasks[t].run
  }

  function Unchecked(task: Task): set<string> {
    match task
    case Scanning(_, todo) => todo
    case Removing(_, todo, doomed) => todo + {doomed}
    case _ => {}
  }

  /** Task `t` is scanning: what it has been through was live when the scan began. */
  ghost predicate ScanInvariant(s: State, t: TaskId, run: string, live: set<string>) {
    && Inv(s) && TaskOf(s, t).InTable() && TaskOf(s, t).run == run
    && LiveRuns(s) <= live && s.table.Keys <= live + Unchecked(TaskOf(s, t))
  }

  predicate KeepsAlive(s: State, t: TaskId, r: string) {
    TaskOf(s, t).Refers() && TaskOf(s, t).run == r
  }

  lemma LiveRunsHave(s: State, r: string)
    ensures r in LiveRuns(s) <==> exists t :: KeepsAlive(s, t, r)
  {
    if r in LiveRuns(s) {
      var t :| t in s.tasks && s.tasks[t].Refers() && s.tasks[t].run == r;
      assert KeepsAlive(s, t, r);
    }
    forall t | KeepsAlive(s, t, r) ensures r in LiveRuns(s) {
      assert t in s.tasks;
    }
  }

  /** While a scan lasts no run comes alive. */
  lemma NoRunComesAlive(s: State, step: Step, t: TaskId)
    requires Inv(s) && Enabled(s, step) && TaskOf(s, t).InTable() && step != Take(t)
    ensures LiveRuns(Apply(s, step)) <= LiveRuns(s)
  {
    var w := Apply(s, step);
    forall r | r in LiveRuns(w) ensures r in LiveRuns(s) {
      LiveRunsHave(w, r);
      var u :| KeepsAlive(w, u, r);
      ReferredBefore(s, step, t, u);
      LiveRunsHave(s, r);
    }
  }

  lemma ReferredBefore(s: State, step: Step, t: TaskId, u: TaskId)
    requires Inv(s) && Enabled(s, step) && TaskOf(s, t).InTable() && step != Take(t)
    requires TaskOf(Apply(s, step), u).Refers()
    ensures TaskOf(s, u).Refers() && TaskOf(s, u).run == TaskOf(Apply(s, step), u).run
  {
    hide Inv;
    if step.t != t {
      NothingHandedOut(s, step, t, u, TaskOf(Apply(s, step), u).lock);
    }
  }

  lemma CheckedIsLive(s: State, t: TaskId, r: string)
    requires Inv(s) && Enabled(s, Check(t, r)) && TaskOf(Apply(s, Check(t, r)), t).Scanning?
    ensures r in LiveRuns(s)
  {
    UnreferencedIsDoomed(s, t, r);
  }

  lemma ScanStep(s: State, step: Step, t: TaskId, run: string, live: set<string>)
    requires ScanInvariant(s, t, run, live) && Enabled(s, step) && step != Take(t)
    ensures ScanInvariant(Apply(s, step), t, run, live)
  {
    hide Inv, LiveRuns;
    StepKeeps(s, step);
    NoRunComesAlive(s, step, t);
    if step.t != t {
      NothingHandedOut(s, step, t, t, 0);
    } else if step.Check? && TaskOf(Apply(s, step), t).Scanning? {
      CheckedIsLive(s, t, step.entry);
    }
  }

  lemma {:induction false} ScanLasts(s: State, steps: seq<Step>, t: TaskId, run: string, live: set<string>)
    requires ScanInvariant(s, t, run, live) && Possible(s, steps) && Take(t) !in steps
    ensures ScanInvariant(Run(s, steps), t, run, live)
    decreases steps
  {
    if steps != [] {
      assert steps[0] in steps && forall x :: x in steps[1..] ==> x in steps;
      ScanStep(s, steps[0], t, run, live);
      ScanLasts(Apply(s, steps[0]), steps[1..], t, run, live);
    }
  }

  lemma TakeAlive(s: State, t: TaskId, u: TaskId, r: string)
    requires Enabled(s, Take(t))
    ensures KeepsAlive(Apply(s, Take(t)), u, r) <==> KeepsAlive(s, u, r) || (u == t && r == TaskOf(s, t).run)
  {
  }

  lemma TakeAdds(s: State, t: TaskId)
    requires Inv(s) && Enabled(s, Take(t))
    ensures var w := Apply(s, Take(t));
            w.table.Keys == s.table.Keys + {TaskOf(s, t).run} && LiveRuns(w) == LiveRuns(s) + {TaskOf(s, t).run}
  {
    var w := Apply(s, Take(t));
    forall r ensures r in LiveRuns(w) <==> r in LiveRuns(s) || r == TaskOf(s, t).run {
      LiveRunsHave(s, r);
      LiveRunsHave(w, r);
      TakeAlive(s, t, t, r);
      forall u ensures KeepsAlive(w, u, r) <==> KeepsAlive(s, u, r) || (u == t && r == TaskOf(s, t).run) {
        TakeAlive(s, t, u, r);
      }
    }
  }

  lemma LockMapStarts(s: State, t: TaskId)
    requires Inv(s) && Enabled(s, LockMap(t))
    ensures ScanInvariant(Apply(s, LockMap(t)), t, TaskOf(s, t).run, LiveRuns(s))
    ensures LiveRuns(Apply(s, LockMap(t))) == LiveRuns(s)
  {
    hide Inv;
    var w := Apply(s, LockMap(t));
    StepKeeps(s, LockMap(t));
    assert forall u, r :: KeepsAlive(w, u, r) <==> KeepsAlive(s, u, r);
    forall r ensures r in LiveRuns(w) <==> r in LiveRuns(s) {
      LiveRunsHave(s, r);
      LiveRunsHave(w, r);
    }
  }

  lemma LiveInTable(s: State)
    requires Inv(s)
    ensures LiveRuns(s) <= s.table.Keys
  {
  }

  /**
   What an acquire finds and leaves: afterwards the table holds every live run, and besides its own
   run only runs that were live when its scan began; so all garbage from before the scan is gone, and
   an entry without a reference is one whose last reference went while the scan was on.
   */
  lemma AcquireCollects(before: seq<Step>, t: TaskId, during: seq<Step>)
    requires Possible(EMPTY, before) && Enabled(Run(EMPTY, before), LockMap(t))
    requires var began := Apply(Run(EMPTY, before), LockMap(t));
             Possible(began, during) && Take(t) !in during && Enabled(Run(began, during), Take(t))
    ensures var s := Run(EMPTY, before);
            var ended := Apply(Run(Apply(s, LockMap(t)), during), Take(t));
            LiveRuns(ended) <= ended.table.Keys <= LiveRuns(s) + {TaskOf(s, t).run}
  {
    hide LiveRuns, Inv;
    var s := Run(EMPTY, before);
    var began := Apply(s, LockMap(t));
    EmptyKeeps();
    RunKeeps(EMPTY, before);
    LockMapStarts(s, t);
    ScanLasts(began, during, t, TaskOf(s, t).run, LiveRuns(s));
    TakeAdds(Run(began, during), t);
    StepKeeps(Run(began, during), Take(t));
    LiveInTable(Apply(Run(began, during), Take(t)));
  }

  /** Some step of the scan looks at run `r` while a reference to its lock is live. */
  predicate SeenLive(s: State, steps: seq<Step>, t: TaskId, r: string)
    requires Possible(s, steps)
    decreases steps
  {
    steps != [] && (
      || (steps[0] == Check(t, r) && r in LiveRuns(s))
      || SeenLive(Apply(s, steps[0]), steps[1..], t, r))
  }

  ghost predicate InScan(s: State, steps: seq<Step>, t: TaskId) {
    Inv(s) && TaskOf(s, t).InTable() && Possible(s, steps) && Take(t) !in steps
  }

  lemma InScanNext(s: State, steps: seq<Step>, t: TaskId)
    requires InScan(s, steps, t) && steps != []
    ensures InScan(Apply(s, steps[0]), steps[1..], t)
  {
    assert steps[0] in steps && forall x :: x in steps[1..] ==> x in steps;
    StepKeeps(s, steps[0]);
    if steps[0].t != t {
      NothingHandedOut(s, steps[0], t, t, 0);
    }
  }

  /** What the scan is through with it does not touch again, and neither does anyone else. */
  lemma {:induction false} CheckedStays(s: State, steps: seq<Step>, t: TaskId, r: string)
    requires InScan(s, steps, t) && r !in Unchecked(TaskOf(s, t))
    ensures !SeenLive(s, steps, t, r) && (r in Run(s, steps).table <==> r in s.table)
    decreases steps
  {
    hide Inv, LiveRuns;
    if steps != [] {
      InScanNext(s, steps, t);
      if steps[0].t != t {
        NothingHandedOut(s, steps[0], t, t, 0);
      }
      CheckedStays(Apply(s, steps[0]), steps[1..], t, r);
    }
  }

  /** A doomed run is dropped before the scan ends. */
  lemma {:induction false} DoomedGoes(s: State, steps: seq<Step>, t: TaskId, r: string)
    requires InScan(s, steps, t) && TaskOf(s, t).Removing? && TaskOf(s, t).doomed == r
    requires Enabled(Run(s, steps), Take(t))
    ensures !SeenLive(s, steps, t, r) && r !in Run(s, steps).table
    decreases steps
  {
    InScanNext(s, steps, t);
    if steps[0].t != t {
      NothingHandedOut(s, steps[0], t, t, 0);
      DoomedGoes(Apply(s, steps[0]), steps[1..], t, r);
    } else {
      CheckedStays(Apply(s, steps[0]), steps[1..], t, r);
    }
  }

  lemma LiveMeansReferred(s: State, r: string)
    requires Inv(s) && r in s.table
    ensures r in LiveRuns(s) <==> Referrers(s, s.table[r]) != {}
  {
    LiveRunsHave(s, r);
    NoReferrers(s, s.table[r]);
    assert forall u :: KeepsAlive(s, u, r) <==> RefersTo(s, u, s.table[r]);
  }

  /** The scan keeps an entry exactly when its run is live. */
  lemma UnreferencedIsDoomed(s: State, t: TaskId, r: string)
    requires Inv(s) && Enabled(s, Check(t, r))
    ensures TaskOf(Apply(s, Check(t, r)), t).Scanning? <==> r in LiveRuns(s)
  {
    LiveMeansReferred(s, r);
    assert StrongCount(s, s.table[r]) == 1 + |Referrers(s, s.table[r])|;
  }

  lemma {:induction false} KeptIsSeenLive(s: State, steps: seq<Step>, t: TaskId, r: string)
    requires InScan(s, steps, t) && r in TaskOf(s, t).todo && Enabled(Run(s, steps), Take(t))
    ensures r in Run(s, steps).table <==> SeenLive(s, steps, t, r)
    decreases steps
  {
    hide Inv, LiveRuns;
    InScanNext(s, steps, t);
    var next := Apply(s, steps[0]);
    if steps[0].t != t {
      NothingHandedOut(s, steps[0], t, t, 0);
      KeptIsSeenLive(next, steps[1..], t, r);
    } else if steps[0] != Check(t, r) {
      KeptIsSeenLive(next, steps[1..], t, r);
    } else {
      UnreferencedIsDoomed(s, t, r);
      if r in LiveRuns(s) {
        CheckedStays(next, steps[1..], t, r);
      } else {
        DoomedGoes(next, steps[1..], t, r);
      }
    }
  }

  lemma ScanLeaves(s: State, t: TaskId, during: seq<Step>, r: string)
    requires Inv(s) && Enabled(s, LockMap(t))
    requires var began := Apply(s, LockMap(t));
             Possible(began, during) && Take(t) !in during && Enabled(Run(began, during), Take(t))
    ensures r in Run(Apply(s, LockMap(t)), during).table <==> SeenLive(Apply(s, LockMap(t)), during, t, r)
  {
    var began := Apply(s, LockMap(t));
    StepKeeps(s, LockMap(t));
    if r in s.table {
      KeptIsSeenLive(began, during, t, r);
    } else {
      CheckedStays(began, during, t, r);
    }
  }

  /**
   The table an acquire leaves, exactly: its own run, and the runs whose lock was referenced at the
   moment the scan looked at them.
   */
  lemma AcquireLeavesWhatItSawLive(before: seq<Step>, t: TaskId, during: seq<Step>, r: string)
    requires Possible(EMPTY, before) && Enabled(Run(EMPTY, before), LockMap(t))
    requires var began := Apply(Run(EMPTY, before), LockMap(t));
             Possible(began, during) && Take(t) !in during && Enabled(Run(began, during), Take(t))
    ensures var s := Run(EMPTY, before);
            var began := Apply(s, LockMap(t));
            var ended := Apply(Run(began, during), Take(t));
            r in ended.table <==> r == TaskOf(s, t).run || SeenLive(began, during, t, r)
  {
    var s := Run(EMPTY, before);
    RunKeeps(EMPTY, before);
    ScanLeaves(s, t, during, r);
    LockMapStarts(s, t);
    ScanLasts(Apply(s, LockMap(t)), during, t, TaskOf(s, t).run, LiveRuns(s));
    TakeAdds(Run(Apply(s, LockMap(t)), during), t);
  }

  // ---- When the table is exact ----

  /** The entries the scan of `t` is through with, not its caller's own, that have lost their last reference. */
  function Garbage(s: State, t: TaskId, own: string): set<string> {
    s.table.Keys - Unchecked(TaskOf(s, t)) - LiveRuns(s) - {own}
  }

  /** A step that drops the last reference to a run the scan of `t` has kept, not its caller's own. */
  predicate Abandons(s: State, step: Step, t: TaskId, own: string)
    requires Enabled(s, step)
  {
    && step.Drop?
    && var run := TaskOf(s, step.t).run;
       run != own && run !in Unchecked(TaskOf(s, t)) && run !in LiveRuns(Apply(s, step))
  }

  predicate SomeAbandons(s: State, steps: seq<Step>, t: TaskId, own: string)
    requires Possible(s, steps)
    decreases steps
  {
    steps != [] && (Abandons(s, steps[0], t, own) || SomeAbandons(Apply(s, steps[0]), steps[1..], t, own))
  }

  lemma AliveStep(s: State, step: Step, u: TaskId, r: string)
    requires Inv(s) && Enabled(s, step) && !step.Take?
    ensures KeepsAlive(Apply(s, step), u, r) <==> KeepsAlive(s, u, r) && !(step.Drop? && step.t == u)
  {
    hide Inv;
  }

  /** Only a drop ends the life of a run, and then of the run it drops. */
  lemma LiveStep(s: State, step: Step, r: string)
    requires Inv(s) && Enabled(s, step) && !step.Take?
    ensures r in LiveRuns(Apply(s, step)) ==> r in LiveRuns(s)
    ensures r in LiveRuns(s) && r !in LiveRuns(Apply(s, step)) ==> step.Drop? && TaskOf(s, step.t).run == r
  {
    var w := Apply(s, step);
    LiveRunsHave(s, r);
    LiveRunsHave(w, r);
    forall u ensures KeepsAlive(w, u, r) <==> KeepsAlive(s, u, r) && !(step.Drop? && step.t == u) {
      AliveStep(s, step, u, r);
    }
  }

  /** A look at an entry keeps it only if it is live; dropping a doomed one drops nothing else. */
  lemma CheckStep(s: State, t: TaskId, entry: string, r: string)
    requires Inv(s) && Enabled(s, Check(t, entry))
    ensures var w := Apply(s, Check(t, entry));
            && w.table == s.table
            && (r in Unchecked(TaskOf(w, t)) <==> r in Unchecked(TaskOf(s, t)) && (r != entry || r !in LiveRuns(s)))
  {
    UnreferencedIsDoomed(s, t, entry);
  }

  lemma RemoveStep(s: State, t: TaskId, r: string)
    requires Inv(s) && Enabled(s, Remove(t))
    ensures var w := Apply(s, Remove(t));
            && (r in w.table <==> r in s.table && r != TaskOf(s, t).doomed)
            && (r in Unchecked(TaskOf(w, t)) <==> r in Unchecked(TaskOf(s, t)) && r != TaskOf(s, t).doomed)
  {
    hide Counted, LockedOnce, OneInTable, OneLockPerRun;
  }

  /** A step makes garbage of at most one entry, and exactly when it abandons it. */
  lemma GarbageStep(s: State, step: Step, t: TaskId, own: string, r: string)
    requires Inv(s) && Enabled(s, step) && TaskOf(s, t).InTable() && step != Take(t)
    ensures r in Garbage(Apply(s, step), t, own) <==>
            r in Garbage(s, t, own) || (Abandons(s, step, t, own) && r == TaskOf(s, step.t).run)
  {
    LiveStep(s, step, r);
    if step.t != t {
      NothingHandedOut(s, step, t, t, 0);
    } else if step.Check? {
      CheckStep(s, t, step.entry, r);
    } else {
      RemoveStep(s, t, r);
    }
  }

  lemma {:induction false} GarbageLeft(s: State, steps: seq<Step>, t: TaskId, own: string)
    requires InScan(s, steps, t)
    ensures Garbage(Run(s, steps), t, own) != {} <==> Garbage(s, t, own) != {} || SomeAbandons(s, steps, t, own)
    decreases steps
  {
    if steps != [] {
      InScanNext(s, steps, t);
      var w := Apply(s, steps[0]);
      GarbageLeft(w, steps[1..], t, own);
      forall r ensures r in Garbage(w, t, own) <==>
                       r in Garbage(s, t, own) || (Abandons(s, steps[0], t, own) && r == TaskOf(s, steps[0].t).run) {
        GarbageStep(s, steps[0], t, own, r);
      }
      var dropped := if steps[0].Drop? then TaskOf(s, steps[0].t).run else "";
      GarbageGrows(Garbage(s, t, own), Garbage(w, t, own), Abandons(s, steps[0], t, own), dropped);
    }
  }

  lemma GarbageGrows(a: set<string>, b: set<string>, more: bool, x: string)
    requires forall r :: r in b <==> r in a || (more && r == x)
    ensures b != {} <==> a != {} || more
  {
    assert more ==> x in b;
    if a != {} {
      var r :| r in a;
      assert r in b;
    }
  }

  /** The scan through, the table is exact unless some entry has become garbage. */
  lemma ExactWithoutGarbage(s: State, t: TaskId)
    requires Inv(s) && Enabled(s, Take(t))
    ensures var w := Apply(s, Take(t));
            w.table.Keys <= LiveRuns(w) <==> Garbage(s, t, TaskOf(s, t).run) == {}
  {
    TakeAdds(s, t);
    var garbage := Garbage(s, t, TaskOf(s, t).run);
    assert garbage == s.table.Keys - LiveRuns(s) - {TaskOf(s, t).run};
    forall r | r in s.table.Keys && r !in LiveRuns(s) && r != TaskOf(s, t).run ensures r in garbage {
    }
  }

  /**
   When right after an acquire the table holds only runs with a live handle: exactly when, while the
   scan was on, nobody dropped the last reference to a run that the scan had already kept, other than
   the caller's own.
   */
  lemma AcquireIsExact(before: seq<Step>, t: TaskId, during: seq<Step>)
    requires Possible(EMPTY, before) && Enabled(Run(EMPTY, before), LockMap(t))
    requires var began := Apply(Run(EMPTY, before), LockMap(t));
             Possible(began, during) && Take(t) !in during && Enabled(Run(began, during), Take(t))
    ensures var began := Apply(Run(EMPTY, before), LockMap(t));
            var ended := Apply(Run(began, during), Take(t));
            ended.table.Keys == LiveRuns(ended) <==> !SomeAbandons(began, during, t, TaskOf(Run(EMPTY, before), t).run)
  {
    var s := Run(EMPTY, before);
    var began := Apply(s, LockMap(t));
    RunKeeps(EMPTY, before);
    LockMapStarts(s, t);
    ScanLasts(began, during, t, TaskOf(s, t).run, LiveRuns(s));
    GarbageLeft(began, during, t, TaskOf(s, t).run);
    ExactWithoutGarbage(Run(began, during), t);
    AcquireCollects(before, t, during);
  }

  /** In particular when no reference at all is dropped meanwhile. */
  lemma {:induction false} QuietAbandonsNone(s: State, steps: seq<Step>, t: TaskId, own: string)
    requires Possible(s, steps) && forall x :: x in steps ==> !x.Drop?
    ensures !SomeAbandons(s, steps, t, own)
    decreases steps
  {
    if steps != [] {
      assert steps[0] in steps && forall x :: x in steps[1..] ==> x in steps;
      QuietAbandonsNone(Apply(s, steps[0]), steps[1..], t, own);
    }
  }

  /** If no reference is dropped while the scan is on, the table holds exactly the live runs. */
  lemma QuietAcquireIsExact(before: seq<Step>, t: TaskId, during: seq<Step>)
    requires Possible(EMPTY, before) && Enabled(Run(EMPTY, before), LockMap(t))
    requires var began := Apply(Run(EMPTY, before), LockMap(t));
             Possible(began, during) && Take(t) !in during && Enabled(Run(began, during), Take(t))
    requires forall x :: x in during ==> !x.Drop?
    ensures var ended := Apply(Run(Apply(Run(EMPTY, before), LockMap(t)), during), Take(t));
            ended.table.Keys == LiveRuns(ended)
  {
    AcquireIsExact(before, t, during);
    QuietAbandonsNone(Apply(Run(EMPTY, before), LockMap(t)), during, t, TaskOf(Run(EMPTY, before), t).run);
  }

  const BEFORE := [Call(0, "a"), LockMap(0), Take(0), Grab(0), Call(1, "b")]
  const DURING := [Check(1, "a"), Unlock(0), Drop(0)]

  lemma RunOne(s: State, x: Step, rest: seq<Step>)
    requires Enabled(s, x) && Possible(Apply(s, x), rest)
    ensures Possible(s, [x] + rest) && Run(s, [x] + rest) == Run(Apply(s, x), rest)
  {
    assert ([x] + rest)[1..] == rest;
  }

  /** A guard dropped after the scan looked at it leaves its entry behind. */
  lemma LeftBehind()
    ensures Possible(EMPTY, BEFORE) && Enabled(Run(EMPTY, BEFORE), LockMap(1))
    ensures var began := Apply(Run(EMPTY, BEFORE), LockMap(1));
            Possible(began, DURING) && Enabled(Run(began, DURING), Take(1))
    ensures var ended := Apply(Run(Apply(Run(EMPTY, BEFORE), LockMap(1)), DURING), Take(1));
            "a" in ended.table && "a" !in LiveRuns(ended)
  {
    var s5 := State(map["a" := 0], map[0 := 2], 1, None, {0}, map[0 := Holding("a", 0), 1 := WantMap("b")]);
    var s6 := s5.(mapBusy := Some(1), tasks := s5.tasks[1 := Scanning("b", {"a"})]);
    ReachHolding(s5);
    assert s5.table.Keys == {"a"};
    assert Apply(s5, LockMap(1)) == s6;
    var s9 := State(map["a" := 0], map[0 := 1], 1, Some(1), {}, map[0 := Idle, 1 := Scanning("b", {})]);
    DropDuringScan(s6, s9);
  }

  lemma ReachHolding(s5: State)
    requires s5 == State(map["a" := 0], map[0 := 2], 1, None, {0}, map[0 := Holding("a", 0), 1 := WantMap("b")])
    ensures Possible(EMPTY, BEFORE) && Run(EMPTY, BEFORE) == s5
  {
    var s1 := State(map[], map[], 0, None, {}, map[0 := WantMap("a")]);
    var s2 := State(map[], map[], 0, Some(0), {}, map[0 := Scanning("a", {})]);
    var s3 := State(map["a" := 0], map[0 := 2], 1, None, {}, map[0 := Waiting("a", 0)]);
    var s4 := State(map["a" := 0], map[0 := 2], 1, None, {0}, map[0 := Holding("a", 0)]);
    assert EMPTY.table.Keys == {};
    assert Apply(EMPTY, Call(0, "a")) == s1 && Apply(s1, LockMap(0)) == s2 && Apply(s2, Take(0)) == s3;
    assert Apply(s3, Grab(0)) == s4 && Apply(s4, Call(1, "b")) == s5;
    RunOne(s4, Call(1, "b"), []);
    RunOne(s3, Grab(0), [Call(1, "b")]);
    RunOne(s2, Take(0), [Grab(0), Call(1, "b")]);
    RunOne(s1, LockMap(0), [Take(0), Grab(0), Call(1, "b")]);
    RunOne(EMPTY, Call(0, "a"), [LockMap(0), Take(0), Grab(0), Call(1, "b")]);
  }

  lemma DropDuringScan(s6: State, s9: State)
    requires s6 == State(map["a" := 0], map[0 := 2], 1, Some(1), {0},
                         map[0 := Holding("a", 0), 1 := Scanning("b", {"a"})])
    requires s9 == State(map["a" := 0], map[0 := 1], 1, Some(1), {}, map[0 := Idle, 1 := Scanning("b", {})])
    ensures Possible(s6, DURING) && Run(s6, DURING) == s9
  {
    var s7 := s6.(tasks := s6.tasks[1 := Scanning("b", {})]);
    var s8 := s7.(locked := {}, tasks := s7.tasks[0 := Leaving("a", 0)]);
    assert {"a"} - {"a"} == {} && {0} - {0} == {};
    assert Apply(s6, Check(1, "a")) == s7 && Apply(s7, Unlock(0)) == s8 && Apply(s8, Drop(0)) == s9;
    RunOne(s8, Drop(0), []);
    RunOne(s7, Unlock(0), [Drop(0)]);
    RunOne(s6, Check(1, "a"), [Unlock(0), Drop(0)]);
  }
}
