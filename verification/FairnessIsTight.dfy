/** A run that attains the waiting bound. */
module FairnessIsTight {
  import opened Common
  import opened Fairness
  import opened FaultInjector
  import opened Machine
  import opened MessageBus
  import opened PassOrder
  import opened PeriodicTask
  import opened RunFacts
  import opened RuntimeConfig
  import opened SteadyClock
  import opened Watchdog

  const Quick: TaskConfig := TaskConfig("Quick", 1, 100, 1, 1, 1)
  const Slow: TaskConfig := TaskConfig("Slow", 2, 100, 1, 1, 1)

  /** A second of priority scheduling without faults or watchdog. */
  const SamplePlan: Plan :=
    Plan(Priority, 1000, FaultConfig(false, SlowTask, "", 0, 0, 0), WatchdogConfig(false, 1, false, 0), 0)

  function Start(): World {
    World(
      State(
        [TaskState(Quick, 0, 0, 0), TaskState(Slow, 0, 0, 0)],
        map[Quick.name := Queue(1, []), Slow.name := Queue(1, [])],
        Fresh, {}, 1, [], []),
      0, [], false, false, 0)
  }

  lemma StartIsInitial()
    ensures Initial(SamplePlan, Start())
  {
    var w := Start();
    assert Quick.name[0] == 'Q' && Slow.name[0] == 'S';
    assert w.sys.tasks[0].config.name == Quick.name && w.sys.tasks[1].config.name == Slow.name;
  }

  /** Where a run of the sample stands: times in milliseconds, and how often the slow task has been overtaken. */
  ghost predicate Stands(w: World, pending: seq<nat>, timeMs: int, quickMs: int, slowMs: int, waited: nat) {
    && w.pending == pending && w.time == timeMs * TICKS_PER_MS && !w.over
    && |w.sys.tasks| == 2 && w.sys.tasks[0].config == Quick && w.sys.tasks[1].config == Slow
    && w.sys.tasks[0].nextRunTime == quickMs * TICKS_PER_MS
    && w.sys.tasks[1].nextRunTime == slowMs * TICKS_PER_MS
    && w.sys.failed == {}
    && Waited(w.sys, 1) == waited
  }

  lemma TwoDue(tasks: seq<TaskState>, now: int)
    requires |tasks| == 2 && tasks[0].ShouldRun(now)
    ensures DueTasks(tasks, now) == if tasks[1].ShouldRun(now) then [0, 1] else [0]
  {
    var first := tasks[..1];
    assert first[0] == tasks[0] && first[..0] == [];
    assert DueTasks(first, now) == [0];
    assert [0] + [1] == [0, 1];
  }

  lemma TwoSorted(tasks: seq<TaskState>)
    requires |tasks| == 2 && tasks[0].config == Quick && tasks[1].config == Slow
    ensures InOrder(Priority, tasks, [0]) == [0] && InOrder(Priority, tasks, [0, 1]) == [0, 1]
  {
    assert [0][..0] == [] && InOrder(Priority, tasks, [0]) == InsertStably(Priority, tasks, [], 0);
    assert [0, 1][..1] == [0];
    assert InsertStably(Priority, tasks, [0], 1) == [0] + [1] == [0, 1];
  }

  lemma TwoTurns(tasks: seq<TaskState>, now: int)
    requires |tasks| == 2 && tasks[0].config == Quick && tasks[1].config == Slow && tasks[0].ShouldRun(now)
    ensures Turns(Priority, tasks, now) == if tasks[1].ShouldRun(now) then [0, 1] else [0]
  {
    TwoDue(tasks, now);
    TwoSorted(tasks);
  }

  /** Begin a pass. */
  lemma Open(w: World, timeMs: int, quickMs: int, slowMs: int, waited: nat)
    requires Stands(w, [], timeMs, quickMs, slowMs, waited) && !w.idle && quickMs <= timeMs < 1000
    ensures
      var l := BeginPass(w.time, w.time);
      Enabled(SamplePlan, w, l) &&
      Stands(Step(SamplePlan, w, l), if slowMs <= timeMs then [0, 1] else [0], timeMs, quickMs, slowMs, waited)
  {
    TwoTurns(w.sys.tasks, w.time);
  }

  /** The readings of a dispatch at this time that takes a millisecond. */
  function At(nowMs: int): Readings {
    var now := Reading(nowMs * TICKS_PER_MS, nowMs);
    Readings(now.at, now, now, 1, now, now, 1, (nowMs + 1) * TICKS_PER_MS)
  }

  lemma WaitsOneMore(before: State, after: State, e: Entry)
    requires |before.tasks| == |after.tasks| == 2 && after.history == before.history + [e]
    requires e.task != 1 ==> after.tasks[1].nextRunTime == before.tasks[1].nextRunTime
    ensures Waited(after, 1) ==
      if e.task == 1 then 0 else Waited(before, 1) + if e.now >= before.tasks[1].nextRunTime then 1 else 0
  {
    assert after.history[..|before.history|] == before.history;
  }

  /** Serve the first pending task. */
  lemma Serve(w: World, pending: seq<nat>, timeMs: int, nowMs: int, quickMs: int, slowMs: int, waited: nat)
    requires Stands(w, pending, timeMs, quickMs, slowMs, waited) && pending != [] && pending[0] < 2
    requires timeMs <= nowMs < 1000 && (if pending[0] == 0 then quickMs else slowMs) <= nowMs && 0 <= nowMs
    ensures Enabled(SamplePlan, w, Dispatch(At(nowMs)))
    ensures
      var after := Step(SamplePlan, w, Dispatch(At(nowMs)));
      && !after.idle
      && (pending[0] == 0 ==>
            Stands(after, pending[1..], nowMs + 1, nowMs + 1, slowMs, waited + if nowMs >= slowMs then 1 else 0))
      && (pending[0] == 1 ==> Stands(after, pending[1..], nowMs + 1, quickMs, nowMs + 2, 0))
  {
    var i, r := pending[0], At(nowMs);
    ExecuteFrame(SamplePlan, w.sys, i, r);
    WaitsOneMore(w.sys, Execute(SamplePlan, w.sys, i, r), EntryOf(SamplePlan, w.sys, i, r));
    StaysHealthy(w.sys, i, r);
  }

  lemma StaysHealthy(s: State, i: nat, r: Readings)
    requires i < |s.tasks| && s.failed == {}
    ensures WillRun(SamplePlan, s, i, r) && Execute(SamplePlan, s, i, r).failed == {}
    ensures ExtraMs(SamplePlan, s.tasks[i].config.name, r.fault.ms) == 0
  {
  }

  ghost predicate Attained(p: Plan, first: World, run: seq<Label>, x: nat) {
    && Initial(p, first) && Legal(p, first, run) && x < |first.sys.tasks| && x < |Reach(p, first, run).sys.tasks|
    && !p.mode.RoundRobin?
    && Waited(Reach(p, first, run).sys, x) == Bound(p.mode, |first.sys.tasks|)
  }

  lemma Move(run: seq<Label>, l: Label) returns (more: seq<Label>)
    requires Legal(SamplePlan, Start(), run) && Enabled(SamplePlan, Reach(SamplePlan, Start(), run), l)
    ensures Legal(SamplePlan, Start(), more)
    ensures Reach(SamplePlan, Start(), more) == Step(SamplePlan, Reach(SamplePlan, Start(), run), l)
  {
    Extend(SamplePlan, Start(), run, l);
    more := run + [l];
  }

  /** Begin a pass in which only the quick task is due, and serve it. */
  lemma QuickPass(run: seq<Label>, timeMs: int, nowMs: int, quickMs: int, slowMs: int, waited: nat) returns (more: seq<Label>)
    requires Legal(SamplePlan, Start(), run) && 0 <= timeMs <= nowMs < 1000 && quickMs <= timeMs < slowMs
    requires
      var w := Reach(SamplePlan, Start(), run);
      Stands(w, [], timeMs, quickMs, slowMs, waited) && !w.idle
    ensures Legal(SamplePlan, Start(), more)
    ensures
      var w := Reach(SamplePlan, Start(), more);
      Stands(w, [], nowMs + 1, nowMs + 1, slowMs, waited + if nowMs >= slowMs then 1 else 0) && !w.idle
  {
    Open(Reach(SamplePlan, Start(), run), timeMs, quickMs, slowMs, waited);
    more := Move(run, BeginPass(timeMs * TICKS_PER_MS, timeMs * TICKS_PER_MS));
    Serve(Reach(SamplePlan, Start(), more), [0], timeMs, nowMs, quickMs, slowMs, waited);
    more := Move(more, Dispatch(At(nowMs)));
  }

  /** Begin a pass in which both are due, and serve the quick task. */
  lemma SharedPass(run: seq<Label>, timeMs: int, quickMs: int, slowMs: int, waited: nat) returns (more: seq<Label>)
    requires Legal(SamplePlan, Start(), run) && 0 <= timeMs < 1000 && quickMs <= timeMs && slowMs <= timeMs
    requires
      var w := Reach(SamplePlan, Start(), run);
      Stands(w, [], timeMs, quickMs, slowMs, waited) && !w.idle
    ensures Legal(SamplePlan, Start(), more)
    ensures
      var w := Reach(SamplePlan, Start(), more);
      Stands(w, [1], timeMs + 1, timeMs + 1, slowMs, waited + 1) && !w.idle
  {
    Open(Reach(SamplePlan, Start(), run), timeMs, quickMs, slowMs, waited);
    more := Move(run, BeginPass(timeMs * TICKS_PER_MS, timeMs * TICKS_PER_MS));
    Serve(Reach(SamplePlan, Start(), more), [0, 1], timeMs, timeMs, quickMs, slowMs, waited);
    assert [0, 1][1..] == [1];
    more := Move(more, Dispatch(At(timeMs)));
  }

  /** Two tasks suffice: one is released just after a pass began, sees the other dispatched in that pass, and
      once more ahead of it in the next. */
  lemma BoundIsAttained() returns (run: seq<Label>)
    ensures Attained(SamplePlan, Start(), run, 1)
  {
    StartIsInitial();
    assert Stands(Start(), [], 0, 0, 0, 0);
    run := SharedPass([], 0, 0, 0, 0);
    Serve(Reach(SamplePlan, Start(), run), [1], 1, 1, 1, 0, 1);
    run := Move(run, Dispatch(At(1)));
    assert [1][1..] == [];
    run := QuickPass(run, 2, 3, 1, 3, 0);
    run := SharedPass(run, 4, 4, 3, 1);
  }
}
