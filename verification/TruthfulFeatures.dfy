/** The detector's counters are the run's own. */
module TruthfulFeatures {
  import opened AnomalyFeatures
  import opened Common
  import opened EventLog
  import opened LogRecords
  import opened Machine
  import opened PeriodicTask
  import opened RunTrace
  import opened RuntimeConfig
  import opened TruthfulMetrics
  import opened TruthfulVerdict
  import opened Watchdog

  /** The features that count records. Two of them follow the logged deadline flag, which applies a test of
      its own; see `TruthfulMetrics.FlagVersusCount`. */
  predicate CountsDeeds(f: Feature) {
    !f.AvgTaskDurationMs? && !f.MaxTaskDurationMs? && !f.DeadlineMissedCount? && !f.WarningEventCount?
  }

  predicate DeedShows(f: Feature, d: Deed) {
    match f
    case TaskCompletedCount => d.DeedRun?
    case MessageSentCount => d.DeedSent?
    case MessageReceivedCount => d.DeedReceived?
    case MessageDroppedCount => d.DeedDrop?
    case QueueFullDropCount => d == DeedDrop(QueueFull)
    case FaultInjectedDropCount => d == DeedDrop(FaultInjectedDrop)
    case FaultInjectedCount => d.DeedFault?
    case TaskFailedCount => d.DeedFailure?
    case TaskSkippedCount => d.DeedSkip?
    case WatchdogTimeoutCount => d.DeedTimeout?
    case TaskRecoveredCount => d.DeedRecovery?
    case ErrorEventCount => d == DeedFault(TaskCrash) || d.DeedFailure? || d.DeedTimeout?
    case _ => false
  }

  function One(b: bool): nat {
    if b then 1 else 0
  }

  /** How often a dispatch did what a feature counts. */
  function TimesIn(f: Feature, outcome: Outcome): nat {
    match outcome
    case Skipped => One(f.TaskSkippedCount?)
    case Failed => if f.ErrorEventCount? then 2 else One(f.TaskFailedCount? || f.FaultInjectedCount?)
    case Ran(slowed, spiked, _, _, alert, traffic) =>
      match f
      case TaskCompletedCount => 1
      case MessageSentCount => One(traffic.Accepted?)
      case MessageReceivedCount => One(traffic.Collected?)
      case MessageDroppedCount => One(traffic.RefusedFull? || traffic.LostToFault?)
      case QueueFullDropCount => One(traffic.RefusedFull?)
      case FaultInjectedDropCount => One(traffic.LostToFault?)
      case FaultInjectedCount => One(slowed) + One(spiked) + One(traffic.LostToFault?)
      case WatchdogTimeoutCount => One(alert.Some?)
      case TaskRecoveredCount => One(alert.Some? && alert.value.recoveryPerformed)
      case ErrorEventCount => One(alert.Some?)
      case _ => 0
  }

  /** How often the run did it. */
  function TimesDone(f: Feature, history: seq<Entry>): nat {
    if history == [] then 0
    else TimesDone(f, history[..|history| - 1]) + TimesIn(f, history[|history| - 1].outcome)
  }

  function DeedCount(f: Feature, deeds: seq<Deed>): nat {
    if deeds == [] then 0
    else DeedCount(f, deeds[..|deeds| - 1]) + One(DeedShows(f, deeds[|deeds| - 1]))
  }

  lemma {:induction false} DeedCountConcat(f: Feature, a: seq<Deed>, b: seq<Deed>)
    ensures DeedCount(f, a + b) == DeedCount(f, a) + DeedCount(f, b)
  {
    if b == [] {
      assert a + b == a;
    } else {
      assert (a + b)[..|a + b| - 1] == a + b[..|b| - 1];
      DeedCountConcat(f, a, b[..|b| - 1]);
    }
  }

  lemma DeedCountOne(f: Feature, d: Deed)
    ensures DeedCount(f, [d]) == One(DeedShows(f, d))
  {
    assert [d][..0] == [];
  }

  lemma DeedCountTwo(f: Feature, d: Deed, e: Deed)
    ensures DeedCount(f, [d, e]) == One(DeedShows(f, d)) + One(DeedShows(f, e))
  {
    DeedCountConcat(f, [d], [e]);
    DeedCountOne(f, d);
    DeedCountOne(f, e);
    assert [d] + [e] == [d, e];
  }

  lemma FeatureShowsDeed(f: Feature, line: Stamped)
    requires CountsDeeds(f)
    ensures Shows(f, Read(line)) <==> DeedOf(line.event).Some? && DeedShows(f, DeedOf(line.event).value)
  {
  }

  lemma CountOneMore(f: Feature, records: seq<Record>, r: Record)
    ensures CountOf(f, records + [r]) == CountOf(f, records) + One(Shows(f, r))
  {
    assert (records + [r])[..|records|] == records;
  }

  lemma TraceOneMore(f: Feature, log: seq<Event>, e: Event)
    ensures DeedCount(f, Trace(log + [e])) ==
      DeedCount(f, Trace(log)) + One(DeedOf(e).Some? && DeedShows(f, DeedOf(e).value))
  {
    TraceConcat(log, [e]);
    TraceOfOne(e);
    DeedCountConcat(f, Trace(log), Trace([e]));
    if DeedOf(e).Some? {
      DeedCountOne(f, DeedOf(e).value);
    }
  }

  lemma {:induction false} CountsMatchTrace(f: Feature, lines: seq<Stamped>)
    requires CountsDeeds(f)
    ensures CountOf(f, ReadAll(lines)) == DeedCount(f, Trace(Events(lines)))
  {
    if lines != [] {
      var init, last := lines[..|lines| - 1], lines[|lines| - 1];
      CountsMatchTrace(f, init);
      FeatureShowsDeed(f, last);
      CountOneMore(f, ReadAll(init), Read(last));
      TraceOneMore(f, Events(init), last.event);
      assert Events(lines) == Events(init) + [last.event];
    }
  }

  // ---------- deed by deed ----------

  function FaultTimes(f: Feature, slowed: bool, spiked: bool): nat {
    if f.FaultInjectedCount? then One(slowed) + One(spiked) else 0
  }

  function AlertTimes(f: Feature, alert: Option<Alert>): nat {
    if f.WatchdogTimeoutCount? || f.ErrorEventCount? then One(alert.Some?)
    else if f.TaskRecoveredCount? then One(alert.Some? && alert.value.recoveryPerformed)
    else 0
  }

  lemma FaultDeedCount(f: Feature, slowed: bool, spiked: bool)
    requires CountsDeeds(f)
    ensures DeedCount(f, FaultDeeds(slowed, spiked)) == FaultTimes(f, slowed, spiked)
  {
    DeedCountConcat(f, if slowed then [DeedFault(SlowTask)] else [], if spiked then [DeedFault(CpuSpike)] else []);
    DeedCountOne(f, DeedFault(SlowTask));
    DeedCountOne(f, DeedFault(CpuSpike));
  }

  lemma AlertDeedCount(f: Feature, alert: Option<Alert>)
    requires CountsDeeds(f)
    ensures DeedCount(f, AlertDeeds(alert)) == AlertTimes(f, alert)
  {
    if alert.Some? {
      var a := alert.value;
      DeedCountOne(f, DeedTimeout(a.task));
      DeedCountTwo(f, DeedTimeout(a.task), DeedRecovery(a.task));
    }
  }

  function TrafficTimes(f: Feature, traffic: Traffic): nat {
    match traffic
    case Quiet => 0
    case Accepted(_) => One(f.MessageSentCount?)
    case RefusedFull(_) => One(f.MessageDroppedCount? || f.QueueFullDropCount?)
    case LostToFault(_) => One(f.MessageDroppedCount? || f.FaultInjectedDropCount? || f.FaultInjectedCount?)
    case Collected(_) => One(f.MessageReceivedCount?)
  }

  lemma TrafficDeedCount(f: Feature, traffic: Traffic)
    requires CountsDeeds(f)
    ensures DeedCount(f, TrafficDeeds(traffic)) == TrafficTimes(f, traffic)
  {
    match traffic
    case Quiet =>
    case Accepted(_) => DeedCountOne(f, DeedSent);
    case RefusedFull(_) => DeedCountOne(f, DeedDrop(QueueFull));
    case LostToFault(_) => DeedCountTwo(f, DeedFault(DroppedMessages), DeedDrop(FaultInjectedDrop));
    case Collected(_) => DeedCountOne(f, DeedReceived);
  }

  lemma FourDeedCounts(f: Feature, a: seq<Deed>, b: seq<Deed>, c: seq<Deed>, d: seq<Deed>)
    ensures DeedCount(f, a + b + c + d) == DeedCount(f, a) + DeedCount(f, b) + DeedCount(f, c) + DeedCount(f, d)
  {
    DeedCountConcat(f, a + b + c, d);
    DeedCountConcat(f, a + b, c);
    DeedCountConcat(f, a, b);
  }

  lemma RanTimes(f: Feature, outcome: Outcome)
    requires CountsDeeds(f) && outcome.Ran?
    ensures TimesIn(f, outcome) == FaultTimes(f, outcome.slowed, outcome.spiked) + One(f.TaskCompletedCount?) +
      AlertTimes(f, outcome.alert) + TrafficTimes(f, outcome.traffic)
  {
  }

  lemma RanDeedCount(f: Feature, name: string, outcome: Outcome)
    requires CountsDeeds(f) && outcome.Ran?
    ensures DeedCount(f, EntryDeeds(name, outcome)) == TimesIn(f, outcome)
  {
    FourDeedCounts(f, FaultDeeds(outcome.slowed, outcome.spiked), [DeedRun(name)], AlertDeeds(outcome.alert),
      TrafficDeeds(outcome.traffic));
    DeedCountOne(f, DeedRun(name));
    FaultDeedCount(f, outcome.slowed, outcome.spiked);
    AlertDeedCount(f, outcome.alert);
    TrafficDeedCount(f, outcome.traffic);
    RanTimes(f, outcome);
  }

  lemma EntryDeedCount(f: Feature, name: string, outcome: Outcome)
    requires CountsDeeds(f)
    ensures DeedCount(f, EntryDeeds(name, outcome)) == TimesIn(f, outcome)
  {
    match outcome
    case Skipped => DeedCountOne(f, DeedSkip(name));
    case Failed => DeedCountTwo(f, DeedFault(TaskCrash), DeedFailure(name));
    case Ran(_, _, _, _, _, _) => RanDeedCount(f, name, outcome);
  }

  lemma {:induction false} ToldCount(f: Feature, tasks: seq<TaskState>, history: seq<Entry>)
    requires CountsDeeds(f)
    ensures DeedCount(f, Told(tasks, history)) == TimesDone(f, history)
  {
    if history != [] {
      var init, last := history[..|history| - 1], history[|history| - 1];
      ToldCount(f, tasks, init);
      DeedCountConcat(f, Told(tasks, init), EntryDeeds(NameAt(tasks, last.task), last.outcome));
      EntryDeedCount(f, NameAt(tasks, last.task), last.outcome);
    }
  }

  /** On the file of every run, a counting feature of the whole log is how often the run's dispatches did what
      it counts. */
  lemma FeaturesTellTheTruth(p: Plan, first: World, run: seq<Label>, lines: seq<Stamped>, f: Feature)
    requires Initial(p, first) && Legal(p, first, run) && Writes(lines, Reach(p, first, run).sys) && CountsDeeds(f)
    ensures Extract(ReadAll(lines))[f] == TimesDone(f, Reach(p, first, run).sys.history) as real
  {
    var s := Reach(p, first, run).sys;
    CountsMatchTrace(f, lines);
    ClosingHasNoTrace(s);
    LogTellsTheRun(p, first, run);
    ToldCount(f, first.sys.tasks, s.history);
  }
}
