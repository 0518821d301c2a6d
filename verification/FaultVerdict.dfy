/** When a slow-down must show in the verdict. */
module FaultVerdict {
  import opened EventLog
  import opened HealthAnalyzer
  import opened LogRecords
  import opened Machine
  import opened PeriodicTask
  import opened RunFacts
  import opened RunTrace
  import opened RuntimeConfig
  import opened TruthfulMetrics
  import opened TruthfulVerdict

  /** How many times a log says that a fault of this kind was injected. */
  function Firings(log: seq<Event>, kind: FaultKind): nat {
    Occurrences(Trace(log), DeedFault(kind))
  }

  /** The extra time the configured fault adds to its target makes the target miss its deadline. */
  predicate Overruns(faults: FaultConfig, config: TaskConfig) {
    && config.name == faults.targetTask
    && config.executionTimeMs + faults.extraExecutionTimeMs > config.deadlineMs
  }

  /** Each slow-down so far has cost the target a deadline. */
  ghost predicate Costly(s: State, x: nat) {
    && x < |s.tasks|
    && Firings(s.log, SlowTask) + Firings(s.log, CpuSpike) <= s.tasks[x].deadlineMissCount
  }

  lemma FourOccurrences<K>(a: seq<K>, b: seq<K>, c: seq<K>, d: seq<K>, key: K)
    ensures Occurrences(a + b + c + d, key) ==
      Occurrences(a, key) + Occurrences(b, key) + Occurrences(c, key) + Occurrences(d, key)
  {
    OccurrencesConcat(a + b + c, d, key);
    OccurrencesConcat(a + b, c, key);
    OccurrencesConcat(a, b, key);
  }

  lemma NoFiringsElsewhere(name: string, outcome: Outcome, kind: FaultKind)
    requires outcome.Ran? && (kind.SlowTask? || kind.CpuSpike?)
    ensures DeedFault(kind) !in [DeedRun(name)]
    ensures DeedFault(kind) !in AlertDeeds(outcome.alert) && DeedFault(kind) !in TrafficDeeds(outcome.traffic)
  {
  }

  lemma FiringsOfEntry(name: string, outcome: Outcome, kind: FaultKind)
    requires kind.SlowTask? || kind.CpuSpike?
    ensures Occurrences(EntryDeeds(name, outcome), DeedFault(kind)) ==
      if outcome.Ran? && (if kind.SlowTask? then outcome.slowed else outcome.spiked) then 1 else 0
  {
    var d := DeedFault(kind);
    if outcome.Ran? {
      NoFiringsElsewhere(name, outcome, kind);
      FourOccurrences(FaultDeeds(outcome.slowed, outcome.spiked), [DeedRun(name)], AlertDeeds(outcome.alert),
        TrafficDeeds(outcome.traffic), d);
      FiringsOfFaults(outcome.slowed, outcome.spiked, kind);
      NotAmong([DeedRun(name)], d);
      NotAmong(AlertDeeds(outcome.alert), d);
      NotAmong(TrafficDeeds(outcome.traffic), d);
    } else {
      NotAmong(EntryDeeds(name, outcome), d);
    }
  }

  lemma FiringsOfFaults(slowed: bool, spiked: bool, kind: FaultKind)
    requires kind.SlowTask? || kind.CpuSpike?
    ensures Occurrences(FaultDeeds(slowed, spiked), DeedFault(kind)) ==
      if (if kind.SlowTask? then slowed else spiked) then 1 else 0
  {
    var slow := if slowed then [DeedFault(SlowTask)] else [];
    var spike := if spiked then [DeedFault(CpuSpike)] else [];
    OccurrencesConcat(slow, spike, DeedFault(kind));
    assert slow != [] ==> slow[..0] == [];
    assert spike != [] ==> spike[..0] == [];
  }

  lemma {:induction false} NotAmong<K>(keys: seq<K>, key: K)
    requires key !in keys
    ensures Occurrences(keys, key) == 0
  {
    if keys != [] {
      NotAmong(keys[..|keys| - 1], key);
    }
  }

  lemma FiringsStep(p: Plan, s: State, i: nat, r: Readings, kind: FaultKind)
    requires i < |s.tasks| && (kind.SlowTask? || kind.CpuSpike?)
    ensures Firings(Execute(p, s, i, r).log, kind) == Firings(s.log, kind) +
      var outcome := EntryOf(p, s, i, r).outcome;
      if outcome.Ran? && (if kind.SlowTask? then outcome.slowed else outcome.spiked) then 1 else 0
  {
    var name, outcome := s.tasks[i].config.name, EntryOf(p, s, i, r).outcome;
    if WillRun(p, s, i, r) {
      RunTraceStep(p, s, i, r);
    } else {
      OtherTraceStep(p, s, i, r);
    }
    OccurrencesConcat(Trace(s.log), EntryDeeds(name, outcome), DeedFault(kind));
    FiringsOfEntry(name, outcome, kind);
  }

  /** A slowed run belongs to the target, and misses; the two slow-down kinds never act together. */
  lemma SlowedRunMisses(p: Plan, s: State, i: nat, r: Readings, x: nat)
    requires i < |s.tasks| && x < |s.tasks| && DistinctNames(s.tasks)
    requires Overruns(p.faults, s.tasks[x].config)
    ensures
      var outcome := EntryOf(p, s, i, r).outcome;
      outcome.Ran? ==>
        && !(outcome.slowed && outcome.spiked)
        && (outcome.slowed || outcome.spiked ==>
              i == x && Execute(p, s, i, r).tasks[x].deadlineMissCount == s.tasks[x].deadlineMissCount + 1)
  {
    ExecuteFrame(p, s, i, r);
    assert s.tasks[i].config.name == s.tasks[x].config.name ==> i == x;
  }

  lemma MissesNeverShrink(p: Plan, s: State, i: nat, r: Readings, x: nat)
    requires i < |s.tasks| && x < |s.tasks|
    ensures s.tasks[x].deadlineMissCount <= Execute(p, s, i, r).tasks[x].deadlineMissCount
  {
    ExecuteFrame(p, s, i, r);
  }

  lemma CostlyStep(p: Plan, s: State, i: nat, r: Readings, x: nat)
    requires i < |s.tasks| && Costly(s, x) && DistinctNames(s.tasks) && Overruns(p.faults, s.tasks[x].config)
    ensures Costly(Execute(p, s, i, r), x)
  {
    FiringsStep(p, s, i, r, SlowTask);
    FiringsStep(p, s, i, r, CpuSpike);
    SlowedRunMisses(p, s, i, r, x);
    MissesNeverShrink(p, s, i, r, x);
    ExecuteFrame(p, s, i, r);
  }

  /** At every moment of a run, the target has missed at least as many deadlines as slow-downs were injected. */
  lemma {:induction false} SlowdownsCostDeadlines(p: Plan, first: World, run: seq<Label>, x: nat)
    requires Initial(p, first) && Legal(p, first, run)
    requires x < |first.sys.tasks| && Overruns(p.faults, first.sys.tasks[x].config)
    ensures
      var s := Reach(p, first, run).sys;
      && x < |s.tasks|
      && Firings(s.log, SlowTask) + Firings(s.log, CpuSpike) <= s.tasks[x].deadlineMissCount
  {
    if run == [] {
      HeaderHasNoTrace(first.sys.log);
    } else {
      var init := run[..|run| - 1];
      SlowdownsCostDeadlines(p, first, init, x);
      ShapeHolds(p, first, init);
      NamesStayDistinct(p, first, init);
      LastStep(p, first, run);
      var w, l := Reach(p, first, init), run[|run| - 1];
      if l.Dispatch? {
        CostlyStep(p, w.sys, w.pending[0], l.readings, x);
      }
    }
  }

  lemma {:induction false} OneOfTheSum(tasks: seq<TaskState>, x: nat)
    requires x < |tasks|
    ensures tasks[x].deadlineMissCount <= SumMisses(tasks)
  {
    var n := |tasks| - 1;
    if x < n {
      OneOfTheSum(tasks[..n], x);
    }
  }

  lemma FiringMeansSlowdown(tasks: seq<TaskState>, s: State)
    requires Faithful(tasks, s) && Firings(s.log, SlowTask) > 0
    ensures HistoryHas(Slowdown, s.history)
  {
    var d := DeedFault(SlowTask);
    if d !in Trace(s.log) {
      NotAmong(Trace(s.log), d);
    } else {
      assert DeedsHave(Slowdown, Told(tasks, s.history));
      TraceMatchesHistory(tasks, s.history, Slowdown);
    }
  }

  /** When the extra time overruns the target's deadline, a single slow-task fault or three CPU spikes on
      file make the verdict on the run unstable. */
  lemma FaultsForceUnstable(p: Plan, first: World, run: seq<Label>, x: nat, lines: seq<Stamped>)
    requires Initial(p, first) && Legal(p, first, run) && Writes(lines, Reach(p, first, run).sys)
    requires x < |first.sys.tasks| && Overruns(p.faults, first.sys.tasks[x].config)
    requires
      var log := Reach(p, first, run).sys.log;
      Firings(log, SlowTask) > 0 || Firings(log, CpuSpike) >= 3
    ensures FindingsOf(ReadAll(lines)).Health().UNSTABLE?
  {
    var s := Reach(p, first, run).sys;
    SlowdownsCostDeadlines(p, first, run, x);
    AllReportedHolds(p, first, run);
    OneOfTheSum(s.tasks, x);
    VerdictIsTrue(p, first, run, lines);
    LogTellsTheRun(p, first, run);
    if Firings(s.log, SlowTask) > 0 {
      FiringMeansSlowdown(first.sys.tasks, s);
    }
  }
}
