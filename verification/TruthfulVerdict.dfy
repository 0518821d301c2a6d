/** The verdict and root causes are true of every run. */
module TruthfulVerdict {
  import opened Common
  import opened EventLog
  import opened HealthAnalyzer
  import opened HealthFacts
  import opened LogRecords
  import opened Machine
  import opened PeriodicTask
  import opened RunTrace
  import opened RuntimeConfig
  import opened TruthfulMetrics

  /** The kinds of trouble a verdict looks for. */
  datatype Trouble = Grave | Slowdown | AnyFault | AnyDrop | Unlisted

  predicate RecordHas(trouble: Trouble, r: Record) {
    match trouble
    case Grave => Severe(r)
    case Slowdown => r.kind.OnFault? && r.faultType.SlowTask?
    case AnyFault => r.kind.OnFault?
    case AnyDrop => r.kind.OnDropped?
    case Unlisted => Unnamed(r)
  }

  predicate DeedHas(trouble: Trouble, d: Deed) {
    match trouble
    case Grave => d.DeedFailure? || d.DeedSkip? || d.DeedTimeout? || d.DeedRecovery?
    case Slowdown => d == DeedFault(SlowTask)
    case AnyFault => d.DeedFault?
    case AnyDrop => d.DeedDrop?
    case Unlisted => (d.DeedFault? && d.kind.UnlistedFault?) || (d.DeedDrop? && d.reason.UnlistedReason?)
  }

  /** The same trouble, said of what happened in a dispatch. */
  predicate EntryHas(trouble: Trouble, e: Entry) {
    match e.outcome
    case Skipped => trouble.Grave?
    case Failed => trouble.Grave? || trouble.AnyFault?
    case Ran(slowed, spiked, _, _, alert, traffic) =>
      match trouble
      case Grave => alert.Some?
      case Slowdown => slowed
      case AnyFault => slowed || spiked || traffic.LostToFault?
      case AnyDrop => traffic.RefusedFull? || traffic.LostToFault?
      case Unlisted => false
  }

  ghost predicate RecordsHave(trouble: Trouble, records: seq<Record>) {
    exists r <- records :: RecordHas(trouble, r)
  }

  ghost predicate HistoryHas(trouble: Trouble, history: seq<Entry>) {
    exists e <- history :: EntryHas(trouble, e)
  }

  function Deserved(grave: bool, misses: nat, slowdown: bool, fault: bool, drop: bool): Health {
    if grave || misses >= 3 || (misses > 0 && slowdown) then UNSTABLE
    else if fault || misses > 0 || drop then WARNING
    else NORMAL
  }

  /** The verdict a run deserves. */
  ghost function TrueHealth(history: seq<Entry>): Health {
    Deserved(
      HistoryHas(Grave, history),
      MissesIn(history),
      HistoryHas(Slowdown, history),
      HistoryHas(AnyFault, history),
      HistoryHas(AnyDrop, history))
  }

  lemma RecordsShowDeeds(line: Stamped, trouble: Trouble)
    ensures RecordHas(trouble, Read(line)) <==> DeedOf(line.event).Some? && DeedHas(trouble, DeedOf(line.event).value)
  {
  }

  lemma {:induction false} TraceHas(log: seq<Event>, d: Deed)
    ensures d in Trace(log) <==> exists e <- log :: DeedOf(e) == Some(d)
  {
    if log != [] {
      TraceHas(log[..|log| - 1], d);
      assert log == log[..|log| - 1] + [log[|log| - 1]];
    }
  }

  lemma {:induction false} SummariesHaveNoTrace(tasks: seq<TaskState>)
    ensures Trace(Summaries(tasks)) == []
  {
    if tasks != [] {
      var n := |tasks| - 1;
      var last := RuntimeSummary(tasks[n].config.name, tasks[n].runCount, tasks[n].deadlineMissCount);
      SummariesHaveNoTrace(tasks[..n]);
      TraceConcat(Summaries(tasks[..n]), [last]);
      TraceOfOne(last);
    }
  }

  lemma ClosingHasNoTrace(s: State)
    ensures Trace(CompleteLog(s)) == Trace(s.log)
  {
    FourTraces(s.log, [SchedulerFinished], Summaries(s.tasks), [RuntimeFinished]);
    TraceOfOne(SchedulerFinished);
    TraceOfOne(RuntimeFinished);
    SummariesHaveNoTrace(s.tasks);
  }

  lemma RecordsMatchTrace(lines: seq<Stamped>, trouble: Trouble)
    ensures RecordsHave(trouble, ReadAll(lines)) <==>
      DeedsHave(trouble, Trace(Events(lines)))
  {
    if r :| r in ReadAll(lines) && RecordHas(trouble, r) {
      var line := LineOfRecord(lines, r);
      RecordsShowDeeds(line, trouble);
      TraceHas(Events(lines), DeedOf(line.event).value);
    }
    if d :| d in Trace(Events(lines)) && DeedHas(trouble, d) {
      TraceHas(Events(lines), d);
      var e :| e in Events(lines) && DeedOf(e) == Some(d);
      var line := LineOfEvent(lines, e);
      RecordsShowDeeds(line, trouble);
    }
  }

  ghost predicate DeedsHave(trouble: Trouble, deeds: seq<Deed>) {
    exists d <- deeds :: DeedHas(trouble, d)
  }

  lemma DeedsHaveConcat(trouble: Trouble, a: seq<Deed>, b: seq<Deed>)
    ensures DeedsHave(trouble, a + b) <==> DeedsHave(trouble, a) || DeedsHave(trouble, b)
  {
    assert forall d <- a :: d in a + b;
    assert forall d <- b :: d in a + b;
  }

  lemma EntriesShowDeeds(name: string, e: Entry, trouble: Trouble)
    ensures EntryHas(trouble, e) <==> DeedsHave(trouble, EntryDeeds(name, e.outcome))
  {
    match e.outcome
    case Skipped =>
      assert DeedSkip(name) in EntryDeeds(name, e.outcome);
    case Failed =>
      assert DeedFault(TaskCrash) in EntryDeeds(name, e.outcome);
      assert DeedFailure(name) in EntryDeeds(name, e.outcome);
    case Ran(slowed, spiked, _, _, alert, traffic) =>
      var faults, run := FaultDeeds(slowed, spiked), [DeedRun(name)];
      DeedsHaveConcat(trouble, faults + run + AlertDeeds(alert), TrafficDeeds(traffic));
      DeedsHaveConcat(trouble, faults + run, AlertDeeds(alert));
      DeedsHaveConcat(trouble, faults, run);
      PartsShowDeeds(slowed, spiked, name, alert, traffic, trouble);
  }

  lemma PartsShowDeeds(
    slowed: bool, spiked: bool, name: string, alert: Option<Watchdog.Alert>, traffic: Traffic, trouble: Trouble)
    ensures DeedsHave(trouble, FaultDeeds(slowed, spiked)) <==>
      (slowed && (trouble.Slowdown? || trouble.AnyFault?)) || (spiked && trouble.AnyFault?)
    ensures !DeedsHave(trouble, [DeedRun(name)])
    ensures DeedsHave(trouble, AlertDeeds(alert)) <==> alert.Some? && trouble.Grave?
    ensures DeedsHave(trouble, TrafficDeeds(traffic)) <==>
      || (traffic.LostToFault? && (trouble.AnyFault? || trouble.AnyDrop?))
      || (traffic.RefusedFull? && trouble.AnyDrop?)
  {
    FaultDeedsHave(slowed, spiked);
    AlertDeedsHave(alert);
    TrafficDeedsHave(traffic);
  }

  lemma FaultDeedsHave(slowed: bool, spiked: bool)
    ensures slowed <==> DeedFault(SlowTask) in FaultDeeds(slowed, spiked)
    ensures spiked <==> DeedFault(CpuSpike) in FaultDeeds(slowed, spiked)
  {
  }

  lemma AlertDeedsHave(alert: Option<Watchdog.Alert>)
    ensures alert.Some? ==> DeedTimeout(alert.value.task) in AlertDeeds(alert)
  {
  }

  lemma TrafficDeedsHave(traffic: Traffic)
    ensures traffic.RefusedFull? ==> DeedDrop(QueueFull) in TrafficDeeds(traffic)
    ensures traffic.LostToFault? ==> DeedFault(DroppedMessages) in TrafficDeeds(traffic)
    ensures traffic.LostToFault? ==> DeedDrop(FaultInjectedDrop) in TrafficDeeds(traffic)
  {
  }

  lemma TraceMatchesHistory(tasks: seq<TaskState>, history: seq<Entry>, trouble: Trouble)
    ensures DeedsHave(trouble, Told(tasks, history)) <==> HistoryHas(trouble, history)
  {
    if d :| d in Told(tasks, history) && DeedHas(trouble, d) {
      ToldHas(tasks, history, d);
      var e :| e in history && DidIn(tasks, e, d);
      EntriesShowDeeds(NameAt(tasks, e.task), e, trouble);
    }
    if e :| e in history && EntryHas(trouble, e) {
      EntriesShowDeeds(NameAt(tasks, e.task), e, trouble);
      var d :| d in EntryDeeds(NameAt(tasks, e.task), e.outcome) && DeedHas(trouble, d);
      assert DidIn(tasks, e, d);
      ToldHas(tasks, history, d);
    }
  }

  /** Trouble shows in the file exactly when it happened in some dispatch. */
  lemma TroubleIsTrue(tasks: seq<TaskState>, s: State, lines: seq<Stamped>, trouble: Trouble)
    requires Faithful(tasks, s) && Writes(lines, s)
    ensures RecordsHave(trouble, ReadAll(lines)) <==> HistoryHas(trouble, s.history)
  {
    ClosingHasNoTrace(s);
    RecordsMatchTrace(lines, trouble);
    TraceMatchesHistory(tasks, s.history, trouble);
  }

  lemma TestsAsTrouble(records: seq<Record>)
    ensures FindingsOf(records).Health() ==
      Deserved(
        RecordsHave(Grave, records),
        TotalMisses(MetricsOf(records)),
        RecordsHave(Slowdown, records),
        RecordsHave(AnyFault, records),
        RecordsHave(AnyDrop, records))
  {
    TestsMean(records);
  }

  lemma VerdictOfState(tasks: seq<TaskState>, s: State, lines: seq<Stamped>)
    requires Faithful(tasks, s) && Writes(lines, s)
    requires TotalMisses(MetricsOf(ReadAll(lines))) == MissesIn(s.history)
    ensures FindingsOf(ReadAll(lines)).Health() == TrueHealth(s.history)
  {
    TestsAsTrouble(ReadAll(lines));
    TroubleIsTrue(tasks, s, lines, Grave);
    TroubleIsTrue(tasks, s, lines, Slowdown);
    TroubleIsTrue(tasks, s, lines, AnyFault);
    TroubleIsTrue(tasks, s, lines, AnyDrop);
  }

  /** The verdict on the file of any run is the one its history deserves. */
  lemma VerdictIsTrue(p: Plan, first: World, run: seq<Label>, lines: seq<Stamped>)
    requires Initial(p, first) && Legal(p, first, run) && Writes(lines, Reach(p, first, run).sys)
    ensures FindingsOf(ReadAll(lines)).Health() == TrueHealth(Reach(p, first, run).sys.history)
  {
    MetricsTellTheTruth(p, first, run, lines);
    LogTellsTheRun(p, first, run);
    VerdictOfState(first.sys.tasks, Reach(p, first, run).sys, lines);
  }

  /** A dispatch without any incident. */
  predicate Clean(e: Entry) {
    && e.outcome.Ran?
    && !e.outcome.slowed && !e.outcome.spiked && !e.outcome.missed
    && e.outcome.alert.None?
    && !e.outcome.traffic.RefusedFull? && !e.outcome.traffic.LostToFault?
  }

  lemma {:induction false} NoMissesMeans(history: seq<Entry>)
    ensures MissesIn(history) == 0 <==> forall e <- history :: !Missed(e)
  {
    if history != [] {
      NoMissesMeans(history[..|history| - 1]);
      assert history == history[..|history| - 1] + [history[|history| - 1]];
    }
  }

  lemma CleanIsUntroubled(e: Entry)
    ensures Clean(e) <==> !Missed(e) && !EntryHas(Grave, e) && !EntryHas(AnyFault, e) && !EntryHas(AnyDrop, e)
  {
  }

  /** No incident is the same as no miss and no trouble. */
  lemma AllCleanMeans(history: seq<Entry>)
    ensures (forall e <- history :: Clean(e)) <==> TrueHealth(history).NORMAL?
  {
    NoMissesMeans(history);
    forall e <- history
      ensures Clean(e) <==> !Missed(e) && !EntryHas(Grave, e) && !EntryHas(AnyFault, e) && !EntryHas(AnyDrop, e)
    {
      CleanIsUntroubled(e);
    }
  }

  /** Every fault type and drop reason a run writes has its sentence. */
  lemma NothingUnlisted(tasks: seq<TaskState>, s: State, lines: seq<Stamped>)
    requires Faithful(tasks, s) && Writes(lines, s)
    ensures forall r <- ReadAll(lines) :: !Unnamed(r)
  {
    TroubleIsTrue(tasks, s, lines, Unlisted);
    assert forall r <- ReadAll(lines) :: Unnamed(r) ==> RecordHas(Unlisted, r);
  }

  lemma ListedReports(records: seq<Record>)
    requires forall r <- records :: !Unnamed(r)
    ensures NothingDetected in ReportOf(records).causes <==> ReportOf(records).health.NORMAL?
    ensures NoSingleCause !in ReportOf(records).causes
  {
    FallbackExactly(records);
    NormalExactly(records);
  }

  /** The file of a run is called normal exactly when every dispatch was clean; then the report says that
      nothing was detected, and on no run does it fall back to "no single root cause". */
  lemma NormalMeansClean(p: Plan, first: World, run: seq<Label>, lines: seq<Stamped>)
    requires Initial(p, first) && Legal(p, first, run) && Writes(lines, Reach(p, first, run).sys)
    ensures
      var history, report := Reach(p, first, run).sys.history, ReportOf(ReadAll(lines));
      && (report.health.NORMAL? <==> forall e <- history :: Clean(e))
      && (NothingDetected in report.causes <==> report.health.NORMAL?)
      && NoSingleCause !in report.causes
  {
    var s := Reach(p, first, run).sys;
    VerdictIsTrue(p, first, run, lines);
    AllCleanMeans(s.history);
    LogTellsTheRun(p, first, run);
    NothingUnlisted(first.sys.tasks, s, lines);
    ListedReports(ReadAll(lines));
  }
}
