/** From a run of the scheduler to the figures its web report shows: the log file is written and loaded, both
    analyzers judge its records, their reports are printed one behind the other, and the print is parsed. */
module EndToEnd {
  import opened AnomalyFeatures
  import opened AnomalyReport
  import opened AnomalyScore
  import opened Common
  import opened EventLog
  import opened HealthAnalyzer
  import opened JsonText
  import opened LogFields
  import opened LogFile
  import opened LogRecords
  import opened Machine
  import opened PeriodicTask
  import opened PlainText
  import opened PrintableRuns
  import opened ReportExactness
  import opened ReportLines
  import opened ReportPrinter
  import opened ReportReading
  import opened ReportRoundTrip
  import opened ReportTexts
  import opened RunFacts
  import opened RunTexts
  import opened RuntimeConfig
  import opened Scheduling
  import opened TruthfulFeatures
  import opened TruthfulMetrics
  import opened TruthfulVerdict
  import opened UnreadNames
  import Parser = ReportParser

  // ---------- the whole program ----------

  datatype Failure = RunFailed(runError: RunError) | LoadFailed(loadError: LoadError) | ParseFailed(parseError: Parser.ParseError)

  /** The anomaly report on a log. */
  ghost function DetectorOf(records: seq<Record>, windowMs: int): (d: DetectorReport)
    requires windowMs > 0
    ensures PrintableDetector(d)
  {
    DetectorIsPrintable(records, windowMs);
    DetectorReportOf(AnomaliesOf(RULES, records, windowMs).value)
  }

  /** The health report on a log. */
  ghost function HealthOf(logFile: string, records: seq<Record>): HealthReport {
    HealthReportOf(logFile, records, ReportOf(records))
  }

  /** What both analyzers print about a log. */
  ghost function PrintOf(logFile: string, records: seq<Record>, windowMs: int): string
    requires windowMs > 0
  {
    FullText(HealthOf(logFile, records), DetectorOf(records, windowMs))
  }

  /** The causes of both reports: the analyzer's, then the detector's drivers. */
  ghost function AllCauses(records: seq<Record>, windowMs: int): seq<string>
    requires windowMs > 0
  {
    CauseTexts(ReportOf(records).causes) + DriverTexts(DetectorOf(records, windowMs).drivers)
  }

  function Published(parsed: Result<Parser.Response, Parser.ParseError>): Result<Parser.Response, Failure> {
    if parsed.Err? then Err(ParseFailed(parsed.error)) else Ok(parsed.value)
  }

  /** Loading the file that these lines are written to. */
  function Reloaded(lines: seq<Stamped>): Result<seq<Fields>, LoadError> {
    Loaded(LinesOf(FileText(AllFields(lines))), 1)
  }

  /** The web report on these log lines: their file is loaded and analyzed, both reports are printed, and the
      print is parsed. */
  ghost function WebReport(logFile: string, lines: seq<Stamped>, windowMs: int): Result<Parser.Response, Failure>
    requires windowMs > 0
  {
    var loaded := Reloaded(lines);
    if loaded.Err? then Err(LoadFailed(loaded.error))
    else Published(Parser.ReadReport(PrintOf(logFile, RecordsOf(loaded.value), windowMs)))
  }

  /** From log records to what the web report holds: analyze, print both reports, and parse the print. */
  method Publish(logFile: string, records: seq<Record>, windowMs: int)
    returns (result: Result<Parser.Response, Parser.ParseError>)
    requires windowMs > 0
    ensures result == Parser.ReadReport(PrintOf(logFile, records, windowMs))
  {
    DetectorIsPrintable(records, windowMs);
    var analysis := Analyze(records);
    var anomalies := AnalyzeAnomalyWindows(records, windowMs);
    var text := PrintAll(HealthReportOf(logFile, records, analysis), DetectorReportOf(anomalies.value));
    result := Parser.Parse(text);
  }

  /** The same from the lines of a log on. */
  method PublishFile(logFile: string, lines: seq<Stamped>, windowMs: int) returns (result: Result<Parser.Response, Failure>)
    requires windowMs > 0
    ensures result == WebReport(logFile, lines, windowMs) && !(result.Err? && result.error.RunFailed?)
  {
    var text := WriteAll(AllFields(lines));
    var loaded := LoadEvents(text);
    if loaded.Err? {
      return Err(LoadFailed(loaded.error));
    }
    var published := Publish(logFile, RecordsOf(loaded.value), windowMs);
    if published.Err? {
      return Err(ParseFailed(published.error));
    }
    return Ok(published.value);
  }

  // ---------- the truth about a run ----------

  predicate ShowsTask(response: Parser.Response, name: string, runCount: nat, missCount: nat) {
    && name in response.taskMetrics
    && response.taskMetrics[name].runs == runCount
    && response.taskMetrics[name].misses == missCount
  }

  /** The message figures are those of the run's dispatches. */
  function TrueMessages(history: seq<Machine.Entry>): Parser.Messages {
    Parser.Messages(
      TimesDone(MessageSentCount, history),
      TimesDone(MessageReceivedCount, history),
      TimesDone(MessageDroppedCount, history),
      TimesDone(QueueFullDropCount, history),
      TimesDone(FaultInjectedDropCount, history))
  }

  /** What the first record of the runtime's start tells. */
  function OpeningIn(events: seq<Event>): Opening {
    if events == [] then NoOpening
    else
      match events[0]
      case RuntimeStarted(name, seconds, mode, _) => Opening(Some(name), Some(mode), Some(seconds))
      case _ => OpeningIn(events[1..])
  }

  predicate ShowsOpening(response: Parser.Response, o: Opening) {
    && response.simulationName == o.simulationName
    && response.schedulerMode == o.schedulerMode
    && response.durationSeconds == o.durationSeconds
  }

  /** What the web report must show of a run: its true verdict, every task's real counters and no other tasks,
      how many messages were sent, received and dropped, and what the log's header told. */
  ghost predicate ShowsRun(response: Parser.Response, header: seq<Event>, s: State) {
    && response.runtimeHealth == Some(HealthText(TrueHealth(s.history)))
    && (forall name <- response.taskMetrics :: Names(s.tasks, name))
    && (forall x | 0 <= x < |s.tasks| ::
          ShowsTask(response, s.tasks[x].config.name, s.tasks[x].runCount, s.tasks[x].deadlineMissCount))
    && response.messages == TrueMessages(s.history)
    && ShowsOpening(response, OpeningIn(header))
  }

  // ---------- the records of a run ----------

  /** Names in the log's header can be encoded and printed, and the duration fits the reader's integers. */
  predicate RegularStart(e: Event) {
    && EncodableStart(e)
    && (e.RuntimeStarted? ==> FreeText(e.simulationName) && FreeText(e.modeName) && Fits(e.durationSeconds))
  }

  /** What a run is given: texts on one line without white space at their ends. */
  ghost predicate RegularRun(logFile: string, s: State) {
    && FreeText(logFile)
    && (forall e <- s.log :: RegularStart(e))
    && (forall x | 0 <= x < |s.tasks| :: FreeText(s.tasks[x].config.name))
  }

  /** The log is of a size the reader's integers can count. */
  ghost predicate Sized(lines: seq<Stamped>) {
    && |lines| <= Parser.MAX_INT
    && forall line <- lines ::
      Fits(line.timestampMs) && (line.event.TaskCompleted? ==> line.event.observedDurationMs <= Parser.MAX_INT)
  }

  lemma LineIsRunRecord(line: Stamped, header: seq<Event>, names: set<string>)
    requires line.event in header || Tame(line.event, names)
    requires Header(header) && (forall e <- header :: RegularStart(e)) && Fits(line.timestampMs)
    requires line.event.TaskCompleted? ==> line.event.observedDurationMs <= Parser.MAX_INT
    ensures RunRecord(Read(line), names)
  {
    ReadIsListed(line);
  }

  lemma LinesAreRunRecords(lines: seq<Stamped>, header: seq<Event>, names: set<string>)
    requires Sized(lines) && TameBehind(Events(lines), header, names)
    requires Header(header) && forall e <- header :: RegularStart(e)
    ensures RunRecords(ReadAll(lines), names)
  {
    forall r <- ReadAll(lines) ensures RunRecord(r, names) {
      var line := LineOfRecord(lines, r);
      TameOrHeader(Events(lines), header, names, line.event);
      LineIsRunRecord(line, header, names);
    }
  }

  lemma {:induction false} OpeningIsRead(lines: seq<Stamped>)
    ensures OpeningOf(ReadAll(lines)) == OpeningIn(Events(lines))
  {
    if lines != [] {
      OpeningIsRead(lines[1..]);
      assert ReadAll(lines)[1..] == ReadAll(lines[1..]);
      assert Events(lines)[1..] == Events(lines[1..]);
      ReadIsListed(lines[0]);
    }
  }

  lemma {:induction false} OpeningInHeader(header: seq<Event>, rest: seq<Event>, names: set<string>)
    requires AllTame(rest, names)
    ensures OpeningIn(header + rest) == OpeningIn(header)
    decreases |header| + |rest|
  {
    if header != [] {
      assert (header + rest)[1..] == header[1..] + rest;
      OpeningInHeader(header[1..], rest, names);
    } else if rest != [] {
      assert rest[0] in rest && forall e <- rest[1..] :: e in rest;
      assert (header + rest)[1..] == [] + rest[1..];
      OpeningInHeader([], rest[1..], names);
    }
  }

  lemma OpeningIsTrue(lines: seq<Stamped>, header: seq<Event>, names: set<string>)
    requires TameBehind(Events(lines), header, names)
    ensures OpeningOf(ReadAll(lines)) == OpeningIn(header)
  {
    OpeningIsRead(lines);
    SplitAt(Events(lines), |header|);
    assert Events(lines)[..|header|] == header;
    OpeningInHeader(header, Events(lines)[|header|..], names);
  }

  // ---------- counters of messages ----------

  lemma KindShows(kind: Kind, f: Feature, r: Record)
    requires AnomalyFeatures.CounterOf(kind) == Some(f)
    ensures Shows(f, r) <==> r.kind == kind
  {
  }

  lemma {:induction false} KindIsCounted(records: seq<Record>, kind: Kind, f: Feature)
    requires AnomalyFeatures.CounterOf(kind) == Some(f)
    ensures Occurrences(Kinds(records), kind) == CountOf(f, records)
  {
    if records != [] {
      var init, last := records[..|records| - 1], records[|records| - 1];
      KindIsCounted(init, kind, f);
      KindShows(kind, f, last);
      assert Kinds(records) == Kinds(init) + [last.kind];
      assert Kinds(records)[..|Kinds(init)|] == Kinds(init);
    }
  }

  lemma {:induction false} ReasonIsCounted(records: seq<Record>, reason: DropReason, f: Feature)
    requires (reason.QueueFull? && f.QueueFullDropCount?) || (reason.FaultInjectedDrop? && f.FaultInjectedDropCount?)
    ensures Occurrences(DropReasons(records), reason) == CountOf(f, records)
  {
    if records != [] {
      ReasonIsCounted(records[..|records| - 1], reason, f);
    }
  }

  function PrintedMessages(records: seq<Record>): Parser.Messages {
    Parser.Messages(
      CountOf(MessageSentCount, records),
      CountOf(MessageReceivedCount, records),
      CountOf(MessageDroppedCount, records),
      CountOf(QueueFullDropCount, records),
      CountOf(FaultInjectedDropCount, records))
  }

  lemma MessagesAreCounted(records: seq<Record>)
    ensures
      var f := FindingsOf(records);
      Parser.Messages(At(f.events, OnSent), At(f.events, OnReceived), At(f.events, OnDropped),
        At(f.drops, QueueFull), At(f.drops, FaultInjectedDrop)) == PrintedMessages(records)
  {
    KindIsCounted(records, OnSent, MessageSentCount);
    KindIsCounted(records, OnReceived, MessageReceivedCount);
    KindIsCounted(records, OnDropped, MessageDroppedCount);
    ReasonIsCounted(records, QueueFull, QueueFullDropCount);
    ReasonIsCounted(records, FaultInjectedDrop, FaultInjectedDropCount);
  }

  lemma MessagesArePrinted(logFile: string, records: seq<Record>)
    ensures ReadMessages(HealthOf(logFile, records).messages) == PrintedMessages(records)
  {
    MessagesAreCounted(records);
  }

  lemma CountIsTrue(p: Plan, first: World, run: seq<Label>, lines: seq<Stamped>, f: Feature)
    requires Initial(p, first) && Legal(p, first, run) && Writes(lines, Reach(p, first, run).sys) && CountsDeeds(f)
    ensures CountOf(f, ReadAll(lines)) == TimesDone(f, Reach(p, first, run).sys.history)
  {
    FeaturesTellTheTruth(p, first, run, lines, f);
  }

  lemma MessagesAreTrue(p: Plan, first: World, run: seq<Label>, lines: seq<Stamped>)
    requires Initial(p, first) && Legal(p, first, run) && Writes(lines, Reach(p, first, run).sys)
    ensures PrintedMessages(ReadAll(lines)) == TrueMessages(Reach(p, first, run).sys.history)
  {
    CountIsTrue(p, first, run, lines, MessageSentCount);
    CountIsTrue(p, first, run, lines, MessageReceivedCount);
    CountIsTrue(p, first, run, lines, MessageDroppedCount);
    CountIsTrue(p, first, run, lines, QueueFullDropCount);
    CountIsTrue(p, first, run, lines, FaultInjectedDropCount);
  }

  // ---------- the report on a run ----------

  lemma {:induction false} MetricsAreOfRun(p: Plan, first: World, run: seq<Label>, lines: seq<Stamped>)
    requires Initial(p, first) && Legal(p, first, run) && Writes(lines, Reach(p, first, run).sys)
    requires |lines| <= Parser.MAX_INT
    ensures RunMetrics(ReadAll(lines), TaskNames(first.sys.tasks))
  {
    var s := Reach(p, first, run).sys;
    MetricsTellTheTruth(p, first, run, lines);
    ShapeHolds(p, first, run);
    LogIsTame(p, first, run);
    forall task <- MetricsOf(ReadAll(lines))
      ensures task in TaskNames(first.sys.tasks)
        && Fits(MetricsOf(ReadAll(lines))[task].runs) && Fits(MetricsOf(ReadAll(lines))[task].misses)
    {
      var x :| 0 <= x < |s.tasks| && s.tasks[x].config.name == task;
      assert first.sys.tasks[x].config.name in TaskNames(first.sys.tasks);
      assert |s.log| <= |CompleteLog(s)| == |Events(lines)|;
    }
  }

  lemma PartsShowRun(report: HealthReport, causes: seq<string>, header: seq<Event>, s: State)
    requires report.status == TrueHealth(s.history) && TrueMetrics(report.metrics, s.tasks)
    requires ReadMessages(report.messages) == TrueMessages(s.history)
    requires Opening(report.simulationName, report.schedulerMode, report.durationSeconds) == OpeningIn(header)
    ensures ShowsRun(Recovered(report, causes), header, s)
  {
  }

  /** What the report on a run holds before it is printed is true. */
  lemma RecoveredShowsRun(p: Plan, first: World, run: seq<Label>, lines: seq<Stamped>, logFile: string, causes: seq<string>)
    requires Initial(p, first) && Legal(p, first, run) && Writes(lines, Reach(p, first, run).sys)
    ensures ShowsRun(Recovered(HealthOf(logFile, ReadAll(lines)), causes), first.sys.log, Reach(p, first, run).sys)
  {
    VerdictIsTrue(p, first, run, lines);
    MetricsTellTheTruth(p, first, run, lines);
    MessagesArePrinted(logFile, ReadAll(lines));
    MessagesAreTrue(p, first, run, lines);
    CompleteLogIsTame(p, first, run);
    OpeningIsTrue(lines, first.sys.log, TaskNames(first.sys.tasks));
    PartsShowRun(HealthOf(logFile, ReadAll(lines)), causes, first.sys.log, Reach(p, first, run).sys);
  }

  // ---------- when the web report tells the truth ----------

  ghost predicate AllFree(names: set<string>) {
    forall name <- names :: FreeTask(name)
  }

  /** Every task's name can be encoded, and the reader takes its line for a task. */
  ghost predicate ReadableTasks(tasks: seq<TaskState>) {
    AllFree(TaskNames(tasks)) && AllEncodable(TaskNames(tasks))
  }

  lemma MetricsNameTasks(p: Plan, first: World, run: seq<Label>, lines: seq<Stamped>)
    requires Initial(p, first) && Legal(p, first, run) && Writes(lines, Reach(p, first, run).sys)
    ensures MetricsOf(ReadAll(lines)).Keys <= TaskNames(first.sys.tasks)
  {
    MetricsTellTheTruth(p, first, run, lines);
    NamesStay(p, first, run);
  }

  lemma PrintIsRead(p: Plan, first: World, run: seq<Label>, lines: seq<Stamped>, logFile: string, windowMs: int)
    requires Initial(p, first) && Legal(p, first, run) && Writes(lines, Reach(p, first, run).sys) && windowMs > 0
    requires RegularRun(logFile, first.sys) && Sized(lines) && ReadableTasks(first.sys.tasks)
    ensures Parser.ReadReport(PrintOf(logFile, ReadAll(lines), windowMs)) ==
      Ok(Recovered(HealthOf(logFile, ReadAll(lines)), AllCauses(ReadAll(lines), windowMs)))
  {
    var records, names := ReadAll(lines), TaskNames(first.sys.tasks);
    CompleteLogIsTame(p, first, run);
    LinesAreRunRecords(lines, first.sys.log, names);
    MetricsAreOfRun(p, first, run, lines);
    RunReportIsRegular(logFile, records, names);
    MetricsNameTasks(p, first, run, lines);
    FullReportRoundTrip(HealthOf(logFile, records), DetectorOf(records, windowMs));
  }

  /** A name that is no free task is shown by no report at all. */
  lemma UnfreeTaskIsNotShown(text: string, name: string)
    requires !FreeTask(name) && Parser.ReadReport(text).Ok?
    ensures name !in Parser.ReadReport(text).value.taskMetrics
  {
    TaskNeverRead(Parser.AtStart, SplitLines(text), name);
  }

  ghost predicate TellsTheTruth(result: Result<Parser.Response, Failure>, header: seq<Event>, s: State) {
    result.Ok? && ShowsRun(result.value, header, s)
  }

  /** A response that shows the run has read all task names. */
  lemma ShownTasksAreFree(text: string, header: seq<Event>, s: State)
    requires Parser.ReadReport(text).Ok? && ShowsRun(Parser.ReadReport(text).value, header, s)
    ensures AllFree(TaskNames(s.tasks))
  {
    forall name <- TaskNames(s.tasks) ensures FreeTask(name) {
      var x :| 0 <= x < |s.tasks| && s.tasks[x].config.name == name;
      if !FreeTask(name) {
        UnfreeTaskIsNotShown(text, name);
      }
    }
  }

  lemma {:induction false} TruthIsLoaded(lines: seq<Stamped>, logFile: string, windowMs: int, header: seq<Event>, s: State)
    requires windowMs > 0 && TellsTheTruth(WebReport(logFile, lines, windowMs), header, s)
    ensures Reloaded(lines).Ok? && AllFree(TaskNames(s.tasks))
  {
    ShownTasksAreFree(PrintOf(logFile, RecordsOf(Reloaded(lines).value), windowMs), header, s);
  }

  lemma LoadedWebReport(p: Plan, first: World, run: seq<Label>, lines: seq<Stamped>, logFile: string, windowMs: int)
    requires Initial(p, first) && Legal(p, first, run) && Writes(lines, Reach(p, first, run).sys) && windowMs > 0
    requires (forall e <- first.sys.log :: EncodableStart(e)) && AllEncodable(TaskNames(first.sys.tasks))
    ensures WebReport(logFile, lines, windowMs) == Published(Parser.ReadReport(PrintOf(logFile, ReadAll(lines), windowMs)))
  {
    LoadableExactly(p, first, run, lines);
    FileTellsTheRecords(lines);
  }

  lemma {:induction false} WebReportIsRecovered(p: Plan, first: World, run: seq<Label>, lines: seq<Stamped>, logFile: string, windowMs: int)
    requires Initial(p, first) && Legal(p, first, run) && Writes(lines, Reach(p, first, run).sys) && windowMs > 0
    requires RegularRun(logFile, first.sys) && Sized(lines) && ReadableTasks(first.sys.tasks)
    ensures WebReport(logFile, lines, windowMs) ==
      Ok(Recovered(HealthOf(logFile, ReadAll(lines)), AllCauses(ReadAll(lines), windowMs)))
  {
    LoadedWebReport(p, first, run, lines, logFile, windowMs);
    PrintIsRead(p, first, run, lines, logFile, windowMs);
  }

  /** For every run on regular texts and of a size that can be counted, the web report shows the truth about the
      run exactly if every task's name can be encoded and is neither a section title of the reader nor starts
      with one of its captions. Then its figures are those of the log's records (see `PrintedFacts`), and its causes
      are the analyzer's, followed by the detector's drivers. */
  lemma {:induction false} WebReportTellsTheTruth(p: Plan, first: World, run: seq<Label>, lines: seq<Stamped>, logFile: string, windowMs: int)
    requires Initial(p, first) && Legal(p, first, run) && Writes(lines, Reach(p, first, run).sys) && windowMs > 0
    requires RegularRun(logFile, first.sys) && Sized(lines)
    ensures TellsTheTruth(WebReport(logFile, lines, windowMs), first.sys.log, Reach(p, first, run).sys) <==>
      ReadableTasks(first.sys.tasks)
    ensures ReadableTasks(first.sys.tasks) ==>
      && WebReport(logFile, lines, windowMs) == Ok(Shown(logFile, ReadAll(lines), AllCauses(ReadAll(lines), windowMs)))
      && WebReport(logFile, lines, windowMs).value.rootCauses == AllCauses(ReadAll(lines), windowMs)
  {
    if ReadableTasks(first.sys.tasks) {
      WebReportIsRecovered(p, first, run, lines, logFile, windowMs);
      RecoveredShowsRun(p, first, run, lines, logFile, AllCauses(ReadAll(lines), windowMs));
    } else if TellsTheTruth(WebReport(logFile, lines, windowMs), first.sys.log, Reach(p, first, run).sys) {
      TruthIsLoaded(lines, logFile, windowMs, first.sys.log, Reach(p, first, run).sys);
      NamesStay(p, first, run);
      LoadableExactly(p, first, run, lines);
    }
  }

  /** What was made of a run and its log: a complete run and the web report on it, which tells the truth exactly
      if the names of the tasks are readable. */
  ghost predicate PublishesRun(p: Plan, first: World, run: seq<Label>, lines: seq<Stamped>, logFile: string, windowMs: int,
      result: Result<Parser.Response, Failure>)
    requires windowMs > 0
  {
    && Initial(p, first) && Legal(p, first, run) && Writes(lines, Reach(p, first, run).sys)
    && result == WebReport(logFile, lines, windowMs)
    && (RegularRun(logFile, first.sys) && Sized(lines) ==>
          (TellsTheTruth(result, first.sys.log, Reach(p, first, run).sys) <==> ReadableTasks(first.sys.tasks)))
  }

  lemma {:induction false} RunIsPublished(p: Plan, first: World, run: seq<Label>, lines: seq<Stamped>, logFile: string, windowMs: int)
    requires Initial(p, first) && Legal(p, first, run) && Writes(lines, Reach(p, first, run).sys) && windowMs > 0
    ensures PublishesRun(p, first, run, lines, logFile, windowMs, WebReport(logFile, lines, windowMs))
  {
    if RegularRun(logFile, first.sys) && Sized(lines) {
      WebReportTellsTheTruth(p, first, run, lines, logFile, windowMs);
    }
  }

  /** Run the scheduler, write its log file, load and analyze it, print the reports and parse them. */
  method RunAndPublish(scheduler: Scheduler, logFile: string, windowMs: int)
    returns (result: Result<Parser.Response, Failure>)
    requires scheduler.Unused() && windowMs > 0
    modifies scheduler, scheduler.Parts()
    ensures result.Err? && result.error.RunFailed? <==>
      scheduler.durationSeconds <= 0 || scheduler.tasks == [] || scheduler.mode.UnsupportedMode?
    ensures !(result.Err? && result.error.RunFailed?) ==>
      PublishesRun(scheduler.plan, scheduler.first, scheduler.run, scheduler.logger.lines, logFile, windowMs, result)
  {
    var ran := scheduler.Run();
    if ran.Err? {
      return Err(RunFailed(ran.error));
    }
    scheduler.logger.Log(scheduler.clock, RuntimeFinished);
    var lines := scheduler.logger.lines;
    assert Writes(lines, Reach(scheduler.plan, scheduler.first, scheduler.run).sys);
    result := PublishFile(logFile, lines, windowMs);
    RunIsPublished(scheduler.plan, scheduler.first, scheduler.run, lines, logFile, windowMs);
  }
}
