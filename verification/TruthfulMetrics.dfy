/** A task's metrics are the task's own counters. */
module TruthfulMetrics {
  import opened EventLog
  import opened HealthAnalyzer
  import opened HealthFacts
  import opened LogRecords
  import opened Machine
  import opened PeriodicTask
  import opened RunFacts
  import opened SteadyClock

  /** The whole log of a run that ended in state `s`. */
  function CompleteLog(s: State): seq<Event> {
    s.log + [SchedulerFinished] + Summaries(s.tasks) + [RuntimeFinished]
  }

  /** The lines on file are a complete log, whatever the time stamps. */
  ghost predicate Writes(lines: seq<Stamped>, s: State) {
    Events(lines) == CompleteLog(s)
  }

  // ---------- deadline misses ----------

  predicate Missed(e: Entry) {
    e.outcome.Ran? && e.outcome.missed
  }

  function MissesIn(history: seq<Entry>): nat {
    if history == [] then 0
    else
      var earlier := MissesIn(history[..|history| - 1]);
      if Missed(history[|history| - 1]) then earlier + 1 else earlier
  }

  function SumMisses(tasks: seq<TaskState>): nat {
    if tasks == [] then 0 else SumMisses(tasks[..|tasks| - 1]) + tasks[|tasks| - 1].deadlineMissCount
  }

  lemma {:induction false} SumMissesUpdate(tasks: seq<TaskState>, i: nat, t: TaskState)
    requires i < |tasks|
    ensures SumMisses(tasks[i := t]) == SumMisses(tasks) + t.deadlineMissCount - tasks[i].deadlineMissCount
  {
    var n := |tasks| - 1;
    if i < n {
      assert tasks[i := t][..n] == tasks[..n][i := t];
      SumMissesUpdate(tasks[..n], i, t);
    } else {
      assert tasks[i := t][..n] == tasks[..n];
    }
  }

  lemma {:induction false} NoMissesYet(tasks: seq<TaskState>)
    requires forall i | 0 <= i < |tasks| :: tasks[i].deadlineMissCount == 0
    ensures SumMisses(tasks) == 0
  {
    if tasks != [] {
      NoMissesYet(tasks[..|tasks| - 1]);
    }
  }

  lemma MissesStep(p: Plan, s: State, i: nat, r: Readings)
    requires i < |s.tasks| && SumMisses(s.tasks) == MissesIn(s.history)
    ensures SumMisses(Execute(p, s, i, r).tasks) == MissesIn(Execute(p, s, i, r).history)
  {
    ExecuteFrame(p, s, i, r);
    var after := Execute(p, s, i, r);
    SumMissesUpdate(s.tasks, i, after.tasks[i]);
    assert after.tasks == s.tasks[i := after.tasks[i]];
    assert after.history[..|s.history|] == s.history;
  }

  // ---------- what completion records say ----------

  /** A completion record names a task and its counters at that time; closing records come later. */
  ghost predicate Reported(e: Event, tasks: seq<TaskState>) {
    && (e.TaskCompleted? ==> exists x :: Covers(tasks, x, e))
    && !e.RuntimeSummary?
  }

  ghost predicate Covers(tasks: seq<TaskState>, x: nat, e: Event)
    requires e.TaskCompleted?
  {
    && x < |tasks|
    && tasks[x].config.name == e.task
    && e.runCount <= tasks[x].runCount
    && e.deadlineMissCount <= tasks[x].deadlineMissCount
  }

  ghost predicate AllReported(s: State) {
    && (forall e <- s.log :: Reported(e, s.tasks))
    && SumMisses(s.tasks) == MissesIn(s.history)
  }

  predicate NoCompletion(e: Event) {
    !e.TaskCompleted? && !e.RuntimeSummary?
  }

  lemma ReportedLater(p: Plan, s: State, i: nat, r: Readings, e: Event)
    requires i < |s.tasks| && Reported(e, s.tasks)
    ensures Reported(e, Execute(p, s, i, r).tasks)
  {
    if e.TaskCompleted? {
      ExecuteFrame(p, s, i, r);
      var x :| Covers(s.tasks, x, e);
      assert Covers(Execute(p, s, i, r).tasks, x, e);
    }
  }

  lemma RunPartReported(p: Plan, s: State, i: nat, r: Readings, e: Event)
    requires i < |s.tasks| && WillRun(p, s, i, r) && e in RunPart(p, s, i, r)
    ensures Reported(e, Execute(p, s, i, r).tasks)
  {
    if e.TaskCompleted? {
      assert Covers(Execute(p, s, i, r).tasks, i, e);
    }
  }

  lemma OtherPartsReportNothing(p: Plan, s: State, i: nat, r: Readings)
    requires i < |s.tasks|
    ensures forall e <- AlertEvents(AlertIn(p, s, i, r)) + ExchangeIn(p, s, i, r).events :: NoCompletion(e)
  {
  }

  lemma RunAdds(p: Plan, s: State, i: nat, r: Readings, e: Event)
    requires i < |s.tasks| && WillRun(p, s, i, r) && e in Execute(p, s, i, r).log
    ensures e in s.log || e in RunPart(p, s, i, r)
      || e in AlertEvents(AlertIn(p, s, i, r)) + ExchangeIn(p, s, i, r).events
  {
    RunWrites(p, s, i, r);
    InFour(s.log, RunPart(p, s, i, r), AlertEvents(AlertIn(p, s, i, r)), ExchangeIn(p, s, i, r).events, e);
  }

  lemma InFour<T>(a: seq<T>, b: seq<T>, c: seq<T>, d: seq<T>, e: T)
    ensures e in a + b + c + d <==> e in a || e in b || e in c + d
  {
  }

  lemma OthersAdd(p: Plan, s: State, i: nat, r: Readings, e: Event)
    requires i < |s.tasks| && !WillRun(p, s, i, r) && e in Execute(p, s, i, r).log
    ensures e in s.log || NoCompletion(e)
  {
  }

  lemma NewReported(p: Plan, s: State, i: nat, r: Readings, e: Event)
    requires i < |s.tasks| && e in Execute(p, s, i, r).log && e !in s.log
    ensures Reported(e, Execute(p, s, i, r).tasks)
  {
    if !WillRun(p, s, i, r) {
      OthersAdd(p, s, i, r, e);
    } else {
      RunAdds(p, s, i, r, e);
      if e in RunPart(p, s, i, r) {
        RunPartReported(p, s, i, r, e);
      } else {
        OtherPartsReportNothing(p, s, i, r);
      }
    }
  }

  lemma AllReportedStep(p: Plan, s: State, i: nat, r: Readings)
    requires i < |s.tasks| && AllReported(s)
    ensures AllReported(Execute(p, s, i, r))
  {
    MissesStep(p, s, i, r);
    forall e <- Execute(p, s, i, r).log ensures Reported(e, Execute(p, s, i, r).tasks) {
      if e in s.log {
        ReportedLater(p, s, i, r, e);
      } else {
        NewReported(p, s, i, r, e);
      }
    }
  }

  lemma {:induction false} AllReportedHolds(p: Plan, first: World, run: seq<Label>)
    requires Initial(p, first) && Legal(p, first, run)
    ensures AllReported(Reach(p, first, run).sys)
  {
    if run == [] {
      NoMissesYet(first.sys.tasks);
    } else {
      AllReportedHolds(p, first, run[..|run| - 1]);
      LastStep(p, first, run);
      var w, l := Reach(p, first, run[..|run| - 1]), run[|run| - 1];
      if l.Dispatch? {
        AllReportedStep(p, w.sys, w.pending[0], l.readings);
      }
    }
  }

  // ---------- metrics ----------

  predicate Sums(t: TaskState, e: Event) {
    e == RuntimeSummary(t.config.name, t.runCount, t.deadlineMissCount)
  }

  lemma {:induction false} SummariesHave(tasks: seq<TaskState>, e: Event)
    ensures e in Summaries(tasks) <==> exists x :: 0 <= x < |tasks| && Sums(tasks[x], e)
  {
    if tasks != [] {
      var n := |tasks| - 1;
      SummariesHave(tasks[..n], e);
      assert forall x | 0 <= x < n :: tasks[..n][x] == tasks[x];
    }
  }

  lemma LineOfRecord(lines: seq<Stamped>, r: Record) returns (line: Stamped)
    requires r in ReadAll(lines)
    ensures line in lines && r == Read(line) && line.event in Events(lines)
  {
    var i :| 0 <= i < |lines| && ReadAll(lines)[i] == r;
    line := lines[i];
    assert Events(lines)[i] == line.event;
  }

  lemma LineOfEvent(lines: seq<Stamped>, e: Event) returns (line: Stamped)
    requires e in Events(lines)
    ensures line in lines && line.event == e && Read(line) in ReadAll(lines)
  {
    var i :| 0 <= i < |lines| && Events(lines)[i] == e;
    line := lines[i];
    assert ReadAll(lines)[i] == Read(line);
  }

  lemma InCompleteLog(s: State, e: Event)
    ensures e in CompleteLog(s) <==> e in s.log || e == SchedulerFinished || e in Summaries(s.tasks) || e == RuntimeFinished
  {
  }

  /** A record about counters names `t` and stays within its final counters. */
  predicate Within(t: TaskState, r: Record) {
    r.task == t.config.name && r.runCount <= t.runCount && r.deadlineMissCount <= t.deadlineMissCount
  }

  /** Only completions and the closing summaries speak of counters, and never of more than the final ones. */
  lemma EventsAreCovered(s: State, e: Event, r: Record)
    requires AllReported(s) && e in CompleteLog(s) && Speaks(r)
    requires exists at :: r == Read(Stamped(at, e))
    ensures exists x :: 0 <= x < |s.tasks| && Within(s.tasks[x], r)
  {
    InCompleteLog(s, e);
    SummariesHave(s.tasks, e);
    if e in s.log {
      assert Reported(e, s.tasks);
      var x: nat :| Covers(s.tasks, x, e);
      assert Within(s.tasks[x], r);
    } else {
      var x :| 0 <= x < |s.tasks| && Sums(s.tasks[x], e);
      assert Within(s.tasks[x], r);
    }
  }

  lemma SpeakersAreCovered(lines: seq<Stamped>, s: State, r: Record)
    requires Writes(lines, s) && AllReported(s) && r in ReadAll(lines) && Speaks(r)
    ensures exists x :: 0 <= x < |s.tasks| && Within(s.tasks[x], r)
  {
    var line := LineOfRecord(lines, r);
    assert r == Read(Stamped(line.timestampMs, line.event));
    EventsAreCovered(s, line.event, r);
  }

  /** Every task has its closing summary on file. */
  lemma TaskHasSummary(lines: seq<Stamped>, s: State, x: nat) returns (r: Record)
    requires Writes(lines, s) && x < |s.tasks|
    ensures r in ReadAll(lines) && Speaks(r) && r.task == s.tasks[x].config.name
    ensures r.runCount == s.tasks[x].runCount && r.deadlineMissCount == s.tasks[x].deadlineMissCount
  {
    var e := RuntimeSummary(s.tasks[x].config.name, s.tasks[x].runCount, s.tasks[x].deadlineMissCount);
    SummariesHave(s.tasks, e);
    assert Sums(s.tasks[x], e);
    InCompleteLog(s, e);
    var line := LineOfEvent(lines, e);
    r := Read(line);
  }

  /** Two records about the task with this name stay within the same counters. */
  lemma CoveredByName(lines: seq<Stamped>, s: State, x: nat, r: Record)
    requires Writes(lines, s) && AllReported(s) && DistinctNames(s.tasks) && x < |s.tasks|
    requires r in ReadAll(lines) && Speaks(r) && r.task == s.tasks[x].config.name
    ensures Within(s.tasks[x], r)
  {
    SpeakersAreCovered(lines, s, r);
  }

  /** The metrics have one entry per task, holding that task's real counters. */
  ghost predicate TrueMetrics(metrics: map<string, Metrics>, tasks: seq<TaskState>) {
    && (forall name <- metrics :: Names(tasks, name))
    && (forall x | 0 <= x < |tasks| ::
          && tasks[x].config.name in metrics
          && metrics[tasks[x].config.name].runs == tasks[x].runCount
          && metrics[tasks[x].config.name].misses == tasks[x].deadlineMissCount)
  }

  lemma MetricsOfTask(lines: seq<Stamped>, s: State, x: nat)
    requires Writes(lines, s) && AllReported(s) && DistinctNames(s.tasks) && x < |s.tasks|
    ensures
      var name, metrics := s.tasks[x].config.name, MetricsOf(ReadAll(lines));
      && name in metrics
      && metrics[name].runs == s.tasks[x].runCount
      && metrics[name].misses == s.tasks[x].deadlineMissCount
  {
    var records, name := ReadAll(lines), s.tasks[x].config.name;
    var m := Gathered(records, name);
    MentionedMeans(records, name);
    var closing := TaskHasSummary(lines, s, x);
    GatheredReports(records, name);
    if m.runs > 0 {
      var r :| r in records && Speaks(r) && r.task == name && r.runCount == m.runs;
      CoveredByName(lines, s, x, r);
    }
    if m.misses > 0 {
      var r :| r in records && Speaks(r) && r.task == name && r.deadlineMissCount == m.misses;
      CoveredByName(lines, s, x, r);
    }
  }

  lemma MetricsAreTrue(lines: seq<Stamped>, s: State)
    requires Writes(lines, s) && AllReported(s) && DistinctNames(s.tasks)
    ensures TrueMetrics(MetricsOf(ReadAll(lines)), s.tasks)
  {
    var metrics := MetricsOf(ReadAll(lines));
    forall x | 0 <= x < |s.tasks|
      ensures s.tasks[x].config.name in metrics
        && metrics[s.tasks[x].config.name].runs == s.tasks[x].runCount
        && metrics[s.tasks[x].config.name].misses == s.tasks[x].deadlineMissCount
    {
      MetricsOfTask(lines, s, x);
    }
    forall name <- metrics ensures Names(s.tasks, name) {
      MentionedMeans(ReadAll(lines), name);
      var r :| r in ReadAll(lines) && Speaks(r) && r.task == name;
      SpeakersAreCovered(lines, s, r);
    }
  }

  lemma {:induction false} TotalIsSum(metrics: map<string, Metrics>, tasks: seq<TaskState>)
    requires TrueMetrics(metrics, tasks) && DistinctNames(tasks)
    ensures TotalMisses(metrics) == SumMisses(tasks)
  {
    if tasks == [] {
      assert forall name :: !Names(tasks, name);
    } else {
      var n := |tasks| - 1;
      var last := tasks[n].config.name;
      TotalMissesTake(metrics, last);
      forall name <- metrics - {last} ensures Names(tasks[..n], name) {
        var x :| 0 <= x < |tasks| && tasks[x].config.name == name;
        assert tasks[..n][x].config.name == name;
      }
      assert forall x | 0 <= x < n :: tasks[..n][x] == tasks[x];
      TotalIsSum(metrics - {last}, tasks[..n]);
    }
  }

  /** On the file of every run, the analyzer's metrics have exactly one entry per task, with that task's
      real run and miss counters, and their misses add up to the deadlines missed in the run. */
  lemma MetricsTellTheTruth(p: Plan, first: World, run: seq<Label>, lines: seq<Stamped>)
    requires Initial(p, first) && Legal(p, first, run) && Writes(lines, Reach(p, first, run).sys)
    ensures
      var s, metrics := Reach(p, first, run).sys, MetricsOf(ReadAll(lines));
      TrueMetrics(metrics, s.tasks) && TotalMisses(metrics) == MissesIn(s.history)
  {
    var s := Reach(p, first, run).sys;
    AllReportedHolds(p, first, run);
    ShapeHolds(p, first, run);
    MetricsAreTrue(lines, s);
    TotalIsSum(MetricsOf(ReadAll(lines)), s.tasks);
  }

  /** The logged flag and the task's own counter apply different tests. They agree on runs too long for the
      deadline; only the counter notices a late start, and only the flag a sleep that overran. */
  lemma FlagVersusCount(p: Plan, s: State, i: nat, r: Readings)
    requires i < |s.tasks| && WillRun(p, s, i, r) && Plausible(p, s, i, r)
    ensures
      var task := s.tasks[i];
      var deadlineMs, totalMs := task.config.deadlineMs, task.TotalExecutionMs(ExtraMs(p, task.config.name, r.fault.ms));
      var late := ExceedsMs(r.now - task.nextRunTime, deadlineMs);
      var counted := Execute(p, s, i, r).tasks[i].deadlineMissCount == task.deadlineMissCount + 1;
      var flagged := Completion(task.config, r.observedMs, 0, 0).deadlineMissed;
      && (totalMs > deadlineMs ==> counted && flagged)
      && (counted && !flagged <==> late && r.observedMs <= deadlineMs)
      && (flagged && !counted <==> !late && totalMs <= deadlineMs < r.observedMs)
  {
  }
}
