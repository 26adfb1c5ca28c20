/**
 The per-run lock table and its garbage collection, as steps of any number of tasks. A lock is
 shared by reference counting: the table holds one reference, each waiter and each guard another,
 and a collection under the table's own mutex drops entries whose count it reads as one.
 */
module SpawnLocks {
  import opened Wrappers

  type TaskId = nat
  type LockId = nat

  datatype Task =
    | Idle
    | WantMap(run: string)
    | Scanning(run: string, todo: set<string>)                  // holds the table's mutex
    | Removing(run: string, todo: set<string>, doomed: string)  // has just read a count of one
    | Waiting(run: string, lock: LockId)
    | Holding(run: string, lock: LockId)
    | Leaving(run: string, lock: LockId)                        // unlocked or gave up, reference not yet dropped
  {
    predicate InTable() {
      Scanning? || Removing?
    }

    predicate Refers() {
      Waiting? || Holding? || Leaving?
    }
  }

  datatype State = State(
    table: map<string, LockId>,
    strong: map<LockId, nat>,
    unused: LockId,
    mapBusy: Option<TaskId>,
    locked: set<LockId>,
    tasks: map<TaskId, Task>)

  const EMPTY := State(map[], map[], 0, None, {}, map[])

  datatype Step =
    | Call(t: TaskId, run: string)
    | LockMap(t: TaskId)
    | Check(t: TaskId, entry: string)
    | Remove(t: TaskId)
    | Take(t: TaskId)
    | Grab(t: TaskId)
    | Unlock(t: TaskId)
    | Drop(t: TaskId)
    | Cancel(t: TaskId)

  function TaskOf(s: State, t: TaskId): Task {
    if t in s.tasks then s.tasks[t] else Idle
  }

  function StrongCount(s: State, l: LockId): nat {
    if l in s.strong then s.strong[l] else 0
  }

  /** What a step needs; a task can only be dropped where it awaits. */
  predicate Enabled(s: State, step: Step) {
    var task := TaskOf(s, step.t);
    match step
    case Call(_, _) => task.Idle?
    case LockMap(_) => task.WantMap? && s.mapBusy.None?
    case Check(_, entry) => task.Scanning? && entry in task.todo && entry in s.table
    case Remove(_) => task.Removing?
    case Take(_) => task.Scanning? && task.todo == {}
    case Grab(_) => task.Waiting? && task.lock !in s.locked
    case Unlock(_) => task.Holding?
    case Drop(_) => task.Leaving?
    case Cancel(_) => task.WantMap? || task.Waiting?
  }

  function Move(s: State, t: TaskId, task: Task): State {
    s.(tasks := s.tasks[t := task])
  }

  function Apply(s: State, step: Step): State
    requires Enabled(s, step)
  {
    var t, task := step.t, TaskOf(s, step.t);
    match step
    case Call(_, run) => Move(s, t, WantMap(run))
    case LockMap(_) => Move(s, t, Scanning(task.run, s.table.Keys)).(mapBusy := Some(t))
    case Check(_, r) =>
      var todo := task.todo - {r};
      Move(s, t, if StrongCount(s, s.table[r]) > 1 then Scanning(task.run, todo) else Removing(task.run, todo, r))
    case Remove(_) =>
      Move(s, t, Scanning(task.run, task.todo)).(table := s.table - {task.doomed})
    case Take(_) =>
      if task.run in s.table then
        var l := s.table[task.run];
        Move(s, t, Waiting(task.run, l)).(mapBusy := None, strong := s.strong[l := StrongCount(s, l) + 1])
      else
        Move(s, t, Waiting(task.run, s.unused)).(
          mapBusy := None, unused := s.unused + 1, table := s.table[task.run := s.unused], strong := s.strong[s.unused := 2])
    case Grab(_) => Move(s, t, Holding(task.run, task.lock)).(locked := s.locked + {task.lock})
    case Unlock(_) => Move(s, t, Leaving(task.run, task.lock)).(locked := s.locked - {task.lock})
    case Drop(_) =>
      var count := StrongCount(s, task.lock);
      Move(s, t, Idle).(strong := s.strong[task.lock := if count > 0 then count - 1 else 0])
    case Cancel(_) => Move(s, t, if task.Waiting? then Leaving(task.run, task.lock) else Idle)
  }

  predicate Possible(s: State, steps: seq<Step>)
    decreases steps
  {
    steps == [] || (Enabled(s, steps[0]) && Possible(Apply(s, steps[0]), steps[1..]))
  }

  function Run(s: State, steps: seq<Step>): State
    requires Possible(s, steps)
    decreases steps
  {
    if steps == [] then s else Run(Apply(s, steps[0]), steps[1..])
  }

  // ---- The invariant ----

  /** Those with a reference to a lock. */
  function Referrers(s: State, l: LockId): set<TaskId> {
    set t | t in s.tasks && s.tasks[t].Refers() && s.tasks[t].lock == l
  }

  /** At most one task is inside the table's mutex, and it is the one recorded. */
  ghost predicate OneInTable(s: State) {
    && (forall t :: t in s.tasks && s.tasks[t].InTable() ==> s.mapBusy == Some(t))
    && (s.mapBusy.Some? ==> TaskOf(s, s.mapBusy.value).InTable())
  }

  /** Every reference to a run's lock is to the one lock in the table. */
  ghost predicate OneLockPerRun(s: State) {
    && (forall r :: r in s.table ==> s.table[r] < s.unused)
    && (forall r, q :: r in s.table && q in s.table && s.table[r] == s.table[q] ==> r == q)
    && (forall t :: t in s.tasks && s.tasks[t].Refers() ==>
          s.tasks[t].run in s.table && s.table[s.tasks[t].run] == s.tasks[t].lock)
  }

  /** The count of a lock in the table is one for the table and one for each task that refers to it. */
  ghost predicate Counted(s: State) {
    forall r :: r in s.table ==> StrongCount(s, s.table[r]) == 1 + |Referrers(s, s.table[r])|
  }

  /** A lock is taken exactly while one task holds it. */
  ghost predicate LockedOnce(s: State) {
    && (forall t :: t in s.tasks && s.tasks[t].Holding? ==> s.tasks[t].lock in s.locked)
    && (forall t, u, l :: HoldsLock(s, t, l) && HoldsLock(s, u, l) ==> t == u)
    && (forall l :: l in s.locked ==> l < s.unused && exists t :: HoldsLock(s, t, l))
  }

  predicate HoldsLock(s: State, t: TaskId, l: LockId) {
    t in s.tasks && s.tasks[t].Holding? && s.tasks[t].lock == l
  }

  /** What the collector has left to look at is in the table, and what it is about to drop is unreferenced. */
  ghost predicate SafeScan(s: State) {
    && (forall t :: t in s.tasks && s.tasks[t].InTable() ==> s.tasks[t].todo <= s.table.Keys)
    && (forall t :: t in s.tasks && s.tasks[t].Removing? ==>
          s.tasks[t].doomed in s.table && s.tasks[t].doomed !in s.tasks[t].todo
          && Referrers(s, s.table[s.tasks[t].doomed]) == {})
  }

  ghost predicate Inv(s: State) {
    OneInTable(s) && OneLockPerRun(s) && Counted(s) && LockedOnce(s) && SafeScan(s)
  }

  // ---- Every step keeps it ----

  /** A task's move changes the references to at most the locks it refers to before or after. */
  lemma ReferrersMove(s: State, t: TaskId, task: Task, l: LockId)
    ensures var before, after := Referrers(s, l), Referrers(Move(s, t, task), l);
            && (task.Refers() && task.lock == l ==> after == before + {t})
            && (!(task.Refers() && task.lock == l) ==> after == before - {t})
  {
  }

  lemma InTableKeeps(s: State, step: Step)
    requires Inv(s) && Enabled(s, step)
    ensures OneInTable(Apply(s, step))
  {
    hide Counted, LockedOnce, SafeScan, OneLockPerRun;
  }

  /** A run about to be dropped from the table has no task that refers to its lock. */
  lemma DoomedIsFree(s: State, t: TaskId, u: TaskId)
    requires Inv(s) && TaskOf(s, t).Removing? && TaskOf(s, u).Refers()
    ensures TaskOf(s, u).run != TaskOf(s, t).doomed
  {
    var l := s.table[s.tasks[t].doomed];
    assert s.tasks[u].lock == l ==> u in Referrers(s, l);
  }

  lemma TableKeeps(s: State, step: Step)
    requires Inv(s) && Enabled(s, step)
    ensures var w := Apply(s, step);
            && (forall r :: r in w.table ==> w.table[r] < w.unused)
            && (forall r, q :: r in w.table && q in w.table && w.table[r] == w.table[q] ==> r == q)
  {
  }

  /** A task that refers to a lock after a step did so before, or has just been handed it. */
  lemma ReferenceKeeps(s: State, step: Step, t: TaskId)
    requires Inv(s) && Enabled(s, step) && TaskOf(Apply(s, step), t).Refers()
    ensures var w := Apply(s, step); w.tasks[t].run in w.table && w.table[w.tasks[t].run] == w.tasks[t].lock
  {
    hide Counted, LockedOnce, SafeScan, Referrers;
    if t != step.t {
      assert TaskOf(Apply(s, step), t) == TaskOf(s, t);
      if step.Remove? {
        DoomedIsFree(s, step.t, t);
      }
    }
  }

  lemma LockPerRunKeeps(s: State, step: Step)
    requires Inv(s) && Enabled(s, step)
    ensures OneLockPerRun(Apply(s, step))
  {
    var w := Apply(s, step);
    TableKeeps(s, step);
    forall t | t in w.tasks && w.tasks[t].Refers()
      ensures w.tasks[t].run in w.table && w.table[w.tasks[t].run] == w.tasks[t].lock
    {
      ReferenceKeeps(s, step, t);
    }
  }

  lemma CountedKeeps(s: State, step: Step)
    requires Inv(s) && Enabled(s, step)
    ensures Counted(Apply(s, step))
  {
    var w := Apply(s, step);
    LockPerRunKeeps(s, step);
    forall r | r in w.table ensures StrongCount(w, w.table[r]) == 1 + |Referrers(w, w.table[r])| {
      var l := w.table[r];
      ReferrersMove(s, step.t, w.tasks[step.t], l);
      assert Referrers(w, l) == Referrers(Move(s, step.t, w.tasks[step.t]), l);
      CountStep(s, step, r);
    }
  }

  predicate RefersTo(s: State, t: TaskId, l: LockId) {
    TaskOf(s, t).Refers() && TaskOf(s, t).lock == l
  }

  /** The one task a step hands a lock to. */
  predicate Hands(s: State, step: Step, l: LockId) {
    step.Take? && TaskOf(s, step.t).Scanning? && TaskOf(s, step.t).run in s.table && s.table[TaskOf(s, step.t).run] == l
  }

  lemma StrongMove(s: State, step: Step, l: LockId)
    requires Enabled(s, step) && l < s.unused && StrongCount(s, l) > 0
    ensures StrongCount(Apply(s, step), l)
         == StrongCount(s, l) + (if Hands(s, step, l) then 1 else 0)
                              - (if step.Drop? && TaskOf(s, step.t).lock == l then 1 else 0)
  {
  }

  lemma ReferenceMove(s: State, step: Step, l: LockId)
    requires Inv(s) && Enabled(s, step) && l < s.unused
    ensures RefersTo(Apply(s, step), step.t, l) <==> (RefersTo(s, step.t, l) && !step.Drop?) || Hands(s, step, l)
    ensures step.Drop? && TaskOf(s, step.t).lock == l ==> RefersTo(s, step.t, l)
    ensures Hands(s, step, l) ==> !RefersTo(s, step.t, l)
  {
  }

  /** How a step changes the count of a lock that is in the table before it. */
  lemma CountChange(s: State, step: Step, r: string)
    requires Inv(s) && Enabled(s, step) && r in s.table && r in Apply(s, step).table
    ensures var w, l := Apply(s, step), s.table[r];
            && w.table[r] == l
            && StrongCount(w, l) == StrongCount(s, l) + (if RefersTo(w, step.t, l) then 1 else 0)
                                                      - (if RefersTo(s, step.t, l) then 1 else 0)
  {
    var l := s.table[r];
    assert StrongCount(s, l) == 1 + |Referrers(s, l)|;
    StrongMove(s, step, l);
    ReferenceMove(s, step, l);
  }

  lemma SetSizes(a: set<TaskId>, t: TaskId)
    ensures |a + {t}| == |a| + (if t in a then 0 else 1)
    ensures |a - {t}| == |a| - (if t in a then 1 else 0)
  {
    assert t in a ==> a + {t} == a;
    assert t !in a ==> a - {t} == a;
  }

  lemma ReferrersHave(s: State, t: TaskId, l: LockId)
    ensures t in Referrers(s, l) <==> RefersTo(s, t, l)
  {
  }

  /** A lock new to the table is handed to the task that called for it, and to nobody before. */
  lemma NewLock(s: State, step: Step, r: string)
    requires Inv(s) && Enabled(s, step) && r in Apply(s, step).table && r !in s.table
    ensures var w, l := Apply(s, step), Apply(s, step).table[r];
            Referrers(s, l) == {} && StrongCount(w, l) == 2 && RefersTo(w, step.t, l)
  {
    hide Counted, LockedOnce, SafeScan, OneInTable;
  }

  lemma CountStep(s: State, step: Step, r: string)
    requires Inv(s) && Enabled(s, step) && r in Apply(s, step).table
    ensures var w := Apply(s, step);
            var l := w.table[r];
            var referrers := if RefersTo(w, step.t, l) then Referrers(s, l) + {step.t} else Referrers(s, l) - {step.t};
            StrongCount(w, l) == 1 + |referrers|
  {
    hide Inv, Enabled, Apply, Referrers, RefersTo, StrongCount;
    var l := Apply(s, step).table[r];
    SetSizes(Referrers(s, l), step.t);
    ReferrersHave(s, step.t, l);
    if r in s.table {
      CountChange(s, step, r);
      TableCount(s, r);
    } else {
      NewLock(s, step, r);
    }
  }

  lemma TableCount(s: State, r: string)
    requires Inv(s) && r in s.table
    ensures StrongCount(s, s.table[r]) == 1 + |Referrers(s, s.table[r])|
  {
  }

  lemma HoldingMove(s: State, step: Step, t: TaskId, l: LockId)
    requires Inv(s) && Enabled(s, step)
    ensures var w := Apply(s, step);
            && (t != step.t ==> (HoldsLock(w, t, l) <==> HoldsLock(s, t, l)))
            && (HoldsLock(w, step.t, l) <==> step.Grab? && TaskOf(s, step.t).lock == l)
            && (HoldsLock(s, step.t, l) ==> step.Unlock?)
            && (l in w.locked <==> (l in s.locked || HoldsLock(w, step.t, l)) && !HoldsLock(s, step.t, l))
  {
    hide Counted, OneInTable, SafeScan;
  }

  lemma LockedKeeps(s: State, step: Step)
    requires Inv(s) && Enabled(s, step)
    ensures LockedOnce(Apply(s, step))
  {
    hide Counted, OneInTable, SafeScan, OneLockPerRun;
    var w := Apply(s, step);
    forall t, l | HoldsLock(w, t, l) ensures l in w.locked {
      HoldingMove(s, step, t, l);
      HoldingMove(s, step, step.t, l);
    }
    forall t, u, l | HoldsLock(w, t, l) && HoldsLock(w, u, l) ensures t == u {
      HoldingMove(s, step, t, l);
      HoldingMove(s, step, u, l);
    }
    forall l | l in w.locked ensures l < w.unused && exists t :: HoldsLock(w, t, l) {
      HolderRemains(s, step, l);
    }
    assert forall t :: t in w.tasks && w.tasks[t].Holding? ==> HoldsLock(w, t, w.tasks[t].lock);
  }

  lemma HolderRemains(s: State, step: Step, l: LockId)
    requires Inv(s) && Enabled(s, step) && l in Apply(s, step).locked
    ensures l < Apply(s, step).unused && exists t :: HoldsLock(Apply(s, step), t, l)
  {
    HoldingMove(s, step, step.t, l);
    if l in s.locked && !HoldsLock(Apply(s, step), step.t, l) {
      var t :| HoldsLock(s, t, l);
      HoldingMove(s, step, t, l);
      assert HoldsLock(Apply(s, step), t, l);
    }
  }

  lemma ScanTodoKeeps(s: State, step: Step)
    requires Inv(s) && Enabled(s, step)
    ensures var w := Apply(s, step);
            forall t :: t in w.tasks && w.tasks[t].InTable() ==> w.tasks[t].todo <= w.table.Keys
  {
  }

  lemma NoReferrers(s: State, l: LockId)
    ensures Referrers(s, l) == {} <==> forall t :: !RefersTo(s, t, l)
  {
    assert forall t :: t in Referrers(s, l) <==> RefersTo(s, t, l);
  }

  /** A count read as one means that no task refers to the lock. */
  lemma JustDoomed(s: State, step: Step)
    requires Inv(s) && Enabled(s, step) && step.Check? && TaskOf(Apply(s, step), step.t).Removing?
    ensures step.entry in s.table && Referrers(s, s.table[step.entry]) == {}
  {
    assert StrongCount(s, s.table[step.entry]) == 1 + |Referrers(s, s.table[step.entry])|;
  }

  /** While one task is in the table, no other step hands out a reference or changes the table. */
  lemma NothingHandedOut(s: State, step: Step, t: TaskId, u: TaskId, l: LockId)
    requires Inv(s) && Enabled(s, step) && TaskOf(s, t).InTable() && t != step.t
    ensures Apply(s, step).table == s.table && TaskOf(Apply(s, step), t) == TaskOf(s, t)
    ensures RefersTo(Apply(s, step), u, l) ==> RefersTo(s, u, l)
  {
    hide Counted, LockedOnce, SafeScan, OneLockPerRun, Referrers;
    assert !TaskOf(s, step.t).InTable() && !step.LockMap?;
  }

  /** A doomed run stays unreferenced: no one else can be handed its lock meanwhile. */
  lemma DoomedKeeps(s: State, step: Step, t: TaskId)
    requires Inv(s) && Enabled(s, step) && TaskOf(Apply(s, step), t).Removing?
    ensures var w := Apply(s, step);
            var doomed := w.tasks[t].doomed;
            doomed in w.table && doomed !in w.tasks[t].todo && Referrers(w, w.table[doomed]) == {}
  {
    hide OneInTable, OneLockPerRun, LockedOnce, Counted;
    var w := Apply(s, step);
    if t == step.t {
      JustDoomed(s, step);
      ReferrersMove(s, t, w.tasks[t], s.table[step.entry]);
      assert Referrers(w, s.table[step.entry]) == Referrers(Move(s, t, w.tasks[t]), s.table[step.entry]);
    } else {
      NothingHandedOut(s, step, t, t, 0);
      var l := s.table[s.tasks[t].doomed];
      NoReferrers(s, l);
      forall u ensures !RefersTo(w, u, l) {
        NothingHandedOut(s, step, t, u, l);
      }
      NoReferrers(w, l);
    }
  }

  lemma ScanKeeps(s: State, step: Step)
    requires Inv(s) && Enabled(s, step)
    ensures SafeScan(Apply(s, step))
  {
    var w := Apply(s, step);
    ScanTodoKeeps(s, step);
    forall t | t in w.tasks && w.tasks[t].Removing?
      ensures w.tasks[t].doomed in w.table && w.tasks[t].doomed !in w.tasks[t].todo
      ensures Referrers(w, w.table[w.tasks[t].doomed]) == {}
    {
      DoomedKeeps(s, step, t);
    }
  }

  lemma StepKeeps(s: State, step: Step)
    requires Inv(s) && Enabled(s, step)
    ensures Inv(Apply(s, step))
  {
    InTableKeeps(s, step);
    LockPerRunKeeps(s, step);
    CountedKeeps(s, step);
    LockedKeeps(s, step);
    ScanKeeps(s, step);
  }

  lemma {:induction false} RunKeeps(s: State, steps: seq<Step>)
    requires Inv(s) && Possible(s, steps)
    ensures Inv(Run(s, steps))
    decreases steps
  {
    if steps != [] {
      StepKeeps(s, steps[0]);
      RunKeeps(Apply(s, steps[0]), steps[1..]);
    }
  }

  lemma EmptyKeeps()
    ensures Inv(EMPTY)
  {
  }

  // ---- What this gives, over every interleaving ----

  /** At most one guard per run is live. */
  lemma MutualExclusion(steps: seq<Step>, t: TaskId, u: TaskId)
    requires Possible(EMPTY, steps)
    requires var s := Run(EMPTY, steps);
             TaskOf(s, t).Holding? && TaskOf(s, u).Holding? && TaskOf(s, t).run == TaskOf(s, u).run
    ensures t == u
  {
    RunKeeps(EMPTY, steps);
    var s := Run(EMPTY, steps);
    assert HoldsLock(s, t, s.tasks[t].lock) && HoldsLock(s, u, s.tasks[t].lock);
  }

  /** Two references are to the same mutex exactly when they are for the same run. */
  lemma OneMutexPerRun(steps: seq<Step>, t: TaskId, u: TaskId)
    requires Possible(EMPTY, steps)
    requires var s := Run(EMPTY, steps); TaskOf(s, t).Refers() && TaskOf(s, u).Refers()
    ensures var s := Run(EMPTY, steps);
            TaskOf(s, t).lock == TaskOf(s, u).lock <==> TaskOf(s, t).run == TaskOf(s, u).run
  {
    RunKeeps(EMPTY, steps);
  }

  /** The collector, although it reads a count and acts on it later, drops no entry anyone refers to. */
  lemma CollectionIsSafe(steps: seq<Step>, t: TaskId, u: TaskId)
    requires Possible(EMPTY, steps) && Enabled(Run(EMPTY, steps), Remove(t))
    ensures var s := Run(EMPTY, steps); TaskOf(s, u).Refers() ==> TaskOf(s, u).run != TaskOf(s, t).doomed
  {
    RunKeeps(EMPTY, steps);
    if TaskOf(Run(EMPTY, steps), u).Refers() {
      DoomedIsFree(Run(EMPTY, steps), t, u);
    }
  }

  /** No one waits for nothing: a waiter can go on, or another task holds the lock of its run. */
  lemma WaitersWaitForHolders(steps: seq<Step>, t: TaskId)
    requires Possible(EMPTY, steps) && TaskOf(Run(EMPTY, steps), t).Waiting?
    ensures var s := Run(EMPTY, steps);
            Enabled(s, Grab(t)) || exists u :: TaskOf(s, u).Holding? && TaskOf(s, u).run == TaskOf(s, t).run
  {
    RunKeeps(EMPTY, steps);
    var s := Run(EMPTY, steps);
    var l := TaskOf(s, t).lock;
    if l in s.locked {
      var u :| HoldsLock(s, u, l);
      assert TaskOf(s, u).Holding? && TaskOf(s, u).run == TaskOf(s, t).run;
    }
  }

  /** Whoever is inside the table can always go on. */
  lemma TableIsNeverStuck(steps: seq<Step>, t: TaskId)
    requires Possible(EMPTY, steps) && Run(EMPTY, steps).mapBusy == Some(t)
    ensures var s := Run(EMPTY, steps);
            Enabled(s, Take(t)) || Enabled(s, Remove(t)) || exists r :: Enabled(s, Check(t, r))
  {
    RunKeeps(EMPTY, steps);
    var s := Run(EMPTY, steps);
    var task := TaskOf(s, t);
    if task.Scanning? && task.todo != {} {
      var r :| r in task.todo;
      assert Enabled(s, Check(t, r));
    }
  }
}
