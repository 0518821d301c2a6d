/** No due task waits long, whatever the priorities. */
module Fairness {
  import opened Machine
  import opened PassOrder
  import opened PeriodicTask
  import opened RunFacts
  import opened RuntimeConfig

  /** The dispatches since task `x` was last dispatched that started when its release `due` had come. */
  function Overtaken(history: seq<Entry>, x: nat, due: int): nat {
    if history == [] || history[|history| - 1].task == x then 0
    else
      Overtaken(history[..|history| - 1], x, due) + (if history[|history| - 1].now >= due then 1 else 0)
  }

  function Waited(s: State, x: nat): nat
    requires x < |s.tasks|
  {
    Overtaken(s.history, x, s.tasks[x].nextRunTime)
  }

  function Bound(mode: Mode, taskCount: nat): int {
    if mode.RoundRobin? then taskCount - 1 else 2 * (taskCount - 1)
  }

  /** A task that has been overtaken is due. */
  ghost predicate OvertakenOnlyWhenDue(w: World) {
    forall x: nat | x < |w.sys.tasks| :: Waited(w.sys, x) > 0 ==> w.sys.tasks[x].nextRunTime <= w.time
  }

  lemma DispatchCounts(p: Plan, w: World, r: Readings, x: nat)
    requires Indices(w.sys.tasks, w.pending) && Enabled(p, w, Dispatch(r)) && x < |w.sys.tasks|
    ensures
      var after := Step(p, w, Dispatch(r)).sys;
      && x < |after.tasks|
      && (x == w.pending[0] ==> Waited(after, x) == 0)
      && (x != w.pending[0] ==>
        && after.tasks[x] == w.sys.tasks[x]
        && Waited(after, x) <= Waited(w.sys, x) + 1
        && (Waited(after, x) > Waited(w.sys, x) ==> w.sys.tasks[x].nextRunTime <= r.now))
  {
    ExecuteFrame(p, w.sys, w.pending[0], r);
    var after := Execute(p, w.sys, w.pending[0], r);
    assert after.history[..|after.history| - 1] == w.sys.history;
  }

  lemma OvertakenStep(p: Plan, w: World, l: Label)
    requires Indices(w.sys.tasks, w.pending) && Enabled(p, w, l) && OvertakenOnlyWhenDue(w)
    ensures OvertakenOnlyWhenDue(Step(p, w, l))
  {
    if l.Dispatch? {
      ExecuteFrame(p, w.sys, w.pending[0], l.readings);
      forall x: nat | x < |w.sys.tasks|
        ensures Waited(Step(p, w, l).sys, x) > 0 ==> Step(p, w, l).sys.tasks[x].nextRunTime <= Step(p, w, l).time
      {
        DispatchCounts(p, w, l.readings, x);
      }
    }
  }

  // ---------- round robin ----------

  /** The next turn of a round-robin cycle. */
  function Cursor(w: World): int {
    |w.sys.tasks| - |w.pending|
  }

  ghost predicate CycleInOrder(w: World) {
    && |w.pending| <= |w.sys.tasks|
    && forall k | 0 <= k < |w.pending| :: w.pending[k] == Cursor(w) + k
  }

  ghost predicate RoundRobinFair(w: World) {
    && CycleInOrder(w)
    && forall x: nat | x < |w.sys.tasks| ::
      if w.over then Waited(w.sys, x) < |w.sys.tasks|
      else if x < Cursor(w) then Waited(w.sys, x) < Cursor(w) - x
      else Waited(w.sys, x) + (x - Cursor(w)) < |w.sys.tasks|
  }

  lemma RoundRobinStep(p: Plan, w: World, l: Label)
    requires p.mode.RoundRobin? && Indices(w.sys.tasks, w.pending) && Enabled(p, w, l)
    requires OvertakenOnlyWhenDue(w) && RoundRobinFair(w)
    ensures RoundRobinFair(Step(p, w, l))
  {
    match l
    case Dispatch(r) =>
      ExecuteFrame(p, w.sys, w.pending[0], r);
      forall x: nat | x < |w.sys.tasks| {
        DispatchCounts(p, w, r, x);
      }
    case _ =>
  }

  // ---------- snapshot passes ----------

  /** The pending turns of a snapshot pass are distinct tasks that are all due. */
  ghost predicate PendingDue(w: World) {
    && Indices(w.sys.tasks, w.pending)
    && (forall j, k | 0 <= j < k < |w.pending| :: w.pending[j] != w.pending[k])
    && (forall k | 0 <= k < |w.pending| :: w.sys.tasks[w.pending[k]].nextRunTime <= w.time)
  }

  ghost predicate SnapshotFair(w: World) {
    var n := |w.sys.tasks|;
    && PendingDue(w)
    && (forall k | 0 <= k < |w.pending| :: Waited(w.sys, w.pending[k]) + k <= 2 * (n - 1))
    && (forall x: nat | x < n && x !in w.pending ::
      if w.over then Waited(w.sys, x) <= 2 * (n - 1) else Waited(w.sys, x) + |w.pending| <= n - 1)
  }

  lemma TurnsAreDistinctDueTasks(mode: Mode, tasks: seq<TaskState>, now: int)
    requires !mode.RoundRobin?
    ensures InStrictOrder(mode, tasks, Turns(mode, tasks, now))
    ensures forall j, k | 0 <= j < k < |Turns(mode, tasks, now)| ::
      Turns(mode, tasks, now)[j] != Turns(mode, tasks, now)[k]
    ensures forall i: nat :: i in Turns(mode, tasks, now) <==> i < |tasks| && tasks[i].ShouldRun(now)
  {
    var turns := Turns(mode, tasks, now);
    SortedInStrictOrder(mode, tasks, DueTasks(tasks, now));
    StrictOrderHasNoRepeats(mode, tasks, turns);
    forall i: nat ensures i in turns <==> i < |tasks| && tasks[i].ShouldRun(now) {
      assert i in turns <==> i in multiset(turns);
      assert i in DueTasks(tasks, now) <==> i in multiset(DueTasks(tasks, now));
    }
  }

  lemma SnapshotBegin(p: Plan, w: World, l: Label)
    requires !p.mode.RoundRobin? && l.BeginPass? && Enabled(p, w, l)
    requires OvertakenOnlyWhenDue(w) && SnapshotFair(w)
    ensures SnapshotFair(Step(p, w, l))
  {
    TurnsAreDistinctDueTasks(p.mode, w.sys.tasks, l.now);
    var after := Step(p, w, l);
    forall k | 0 <= k < |after.pending| ensures w.sys.tasks[after.pending[k]].nextRunTime <= after.time {
      assert after.pending[k] in after.pending;
    }
    DistinctBelow(after.pending, |w.sys.tasks|);
  }

  /** The waits of all tasks after a dispatch. */
  lemma DispatchWaits(p: Plan, w: World, r: Readings)
    requires Indices(w.sys.tasks, w.pending) && Enabled(p, w, Dispatch(r))
    ensures
      var after := Step(p, w, Dispatch(r)).sys;
      && |after.tasks| == |w.sys.tasks|
      && Waited(after, w.pending[0]) == 0
      && forall x: nat | x < |w.sys.tasks| && x != w.pending[0] ::
          after.tasks[x] == w.sys.tasks[x] && Waited(after, x) <= Waited(w.sys, x) + 1
  {
    ExecuteFrame(p, w.sys, w.pending[0], r);
    forall x: nat | x < |w.sys.tasks| {
      DispatchCounts(p, w, r, x);
    }
  }

  lemma SnapshotDispatch(p: Plan, w: World, r: Readings)
    requires !p.mode.RoundRobin? && Enabled(p, w, Dispatch(r)) && SnapshotFair(w)
    ensures SnapshotFair(Step(p, w, Dispatch(r)))
  {
    DistinctBelow(w.pending, |w.sys.tasks|);
    DispatchWaits(p, w, r);
    var after := Step(p, w, Dispatch(r));
    assert w.pending == [w.pending[0]] + after.pending;
    forall x: nat | x < |w.sys.tasks| && x !in after.pending
      ensures Waited(after.sys, x) + |after.pending| <= |w.sys.tasks| - 1
    {
      assert x != w.pending[0] ==> x !in w.pending;
    }
  }

  lemma SnapshotStep(p: Plan, w: World, l: Label)
    requires !p.mode.RoundRobin? && Enabled(p, w, l)
    requires OvertakenOnlyWhenDue(w) && SnapshotFair(w)
    ensures SnapshotFair(Step(p, w, l))
  {
    match l
    case BeginPass(_, _) => SnapshotBegin(p, w, l);
    case Dispatch(r) => SnapshotDispatch(p, w, r);
    case NotDue(_) => assert false;
    case EndOfTime(_) =>
      forall x: nat | x < |w.sys.tasks| ensures Waited(w.sys, x) <= 2 * (|w.sys.tasks| - 1) {
        if x in w.pending {
          var k :| 0 <= k < |w.pending| && w.pending[k] == x;
        }
      }
    case Rest =>
  }

  // ---------- the theorem ----------

  ghost predicate Fair(p: Plan, w: World) {
    && Indices(w.sys.tasks, w.pending)
    && OvertakenOnlyWhenDue(w)
    && if p.mode.RoundRobin? then RoundRobinFair(w) else SnapshotFair(w)
  }

  lemma {:induction false} FairHolds(p: Plan, first: World, run: seq<Label>)
    requires Initial(p, first) && Legal(p, first, run)
    ensures Fair(p, Reach(p, first, run))
  {
    if run != [] {
      var w, l := Reach(p, first, run[..|run| - 1]), run[|run| - 1];
      FairHolds(p, first, run[..|run| - 1]);
      OvertakenStep(p, w, l);
      if p.mode.RoundRobin? {
        RoundRobinStep(p, w, l);
      } else {
        SnapshotStep(p, w, l);
      }
    }
  }

  /** At every moment of every run, a task waiting for its release to be answered has been overtaken by
      at most n-1 dispatches in round robin and 2(n-1) in the other modes. */
  lemma NoStarvation(p: Plan, first: World, run: seq<Label>, x: nat)
    requires Initial(p, first) && Legal(p, first, run) && x < |first.sys.tasks|
    ensures x < |Reach(p, first, run).sys.tasks|
    ensures Waited(Reach(p, first, run).sys, x) <= Bound(p.mode, |first.sys.tasks|)
  {
    FairHolds(p, first, run);
    ShapeHolds(p, first, run);
    var w := Reach(p, first, run);
    if !p.mode.RoundRobin? && x in w.pending {
      var k :| 0 <= k < |w.pending| && w.pending[k] == x;
    }
  }
}
