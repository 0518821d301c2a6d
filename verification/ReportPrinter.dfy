/** The writer of the analyzer's text report: the health report, then the anomaly report. */
module ReportPrinter {
  import opened Common
  import opened HealthAnalyzer
  import opened LogRecords
  import opened PlainText
  import opened ReportLines
  import opened ReportParser
  import opened TextOrder

  datatype MessageCounts = MessageCounts(sent: nat, received: nat, dropped: nat, queueFull: nat, faultInjected: nat)

  /** Everything the health report prints. */
  datatype HealthReport = HealthReport(
    logFile: string,
    eventsLoaded: nat,
    status: Health,
    simulationName: Option<string>,
    schedulerMode: Option<string>,
    durationSeconds: Option<int>,
    observedMs: int,
    eventCounts: Counter<string>,
    severityCounts: Counter<string>,
    metrics: map<string, Metrics>,
    messages: MessageCounts,
    faultCounts: Counter<string>,
    timeouts: nat,
    recoveries: nat,
    timeoutTasks: Counter<string>,
    recoveredTasks: Counter<string>,
    failures: nat,
    skips: nat,
    failedTasks: Counter<string>,
    skippedTasks: Counter<string>,
    causes: seq<string>)

  datatype WindowRow = WindowRow(startMs: nat, endMs: nat, text: string)

  /** Everything the anomaly report prints; texts that mix words and numbers are given as printed. */
  datatype DetectorReport = DetectorReport(
    windowSize: string,
    overall: string,
    windowCounts: string,
    highestScore: string,
    drivers: seq<string>,
    windows: seq<WindowRow>)

  function HealthText(health: Health): string {
    match health
    case NORMAL => "NORMAL"
    case WARNING => "WARNING"
    case UNSTABLE => "UNSTABLE"
  }

  /** An average in tenths, rounded to the nearest. */
  function Tenths(average: real): int {
    (average * 10.0 + 0.5).Floor
  }

  function CounterLines(names: seq<string>, counter: Counter<string>): seq<Line> {
    if names == [] then []
    else
      var last := names[|names| - 1];
      CounterLines(names[..|names| - 1], counter) + [Entry(last, At(counter, last))]
  }

  function SubEntries(names: seq<string>, counter: Counter<string>): seq<Line> {
    if names == [] then []
    else
      var last := names[|names| - 1];
      SubEntries(names[..|names| - 1], counter) + [SubEntry(last, At(counter, last))]
  }

  function TaskLines(name: string, m: Metrics): seq<Line> {
    var average := Tenths(m.avgDurationMs);
    [TaskName(name),
     MetricLine(Runs, m.runs),
     MetricLine(Misses, m.misses),
     MetricLine(MissedEvents, m.missedEvents),
     AverageLine(if average < 0 then 0 else average),
     MetricLine(MaxDuration, m.maxDurationMs)]
  }

  function AllTaskLines(names: seq<string>, metrics: map<string, Metrics>): seq<Line> {
    if names == [] then []
    else
      var last := names[|names| - 1];
      AllTaskLines(names[..|names| - 1], metrics) +
      TaskLines(last, if last in metrics then metrics[last] else NoMetrics)
  }

  function Bullets(texts: seq<string>): seq<Line> {
    if texts == [] then [] else Bullets(texts[..|texts| - 1]) + [Bullet(texts[|texts| - 1])]
  }

  function WindowLines(rows: seq<WindowRow>): seq<Line> {
    if rows == [] then []
    else
      var last := rows[|rows| - 1];
      WindowLines(rows[..|rows| - 1]) + [WindowLine(last.startMs, last.endMs, last.text)]
  }

  // ---------- the parts of the report ----------

  function TitlePart(r: HealthReport): seq<Line> {
    [Plain(Title), Underline(38), Empty,
     Unused(LogFile, r.logFile),
     CaptionedNumber(EventsLoaded, r.eventsLoaded, ""),
     CaptionedText(RuntimeStatus, HealthText(r.status))]
  }

  function OptionalText(caption: Caption, text: Option<string>): seq<Line> {
    if text.Some? then [CaptionedText(caption, text.value)] else []
  }

  function OptionalNumber(caption: Caption, n: Option<int>, unit: string): seq<Line> {
    if n.Some? then [CaptionedNumber(caption, n.value, unit)] else []
  }

  ghost function CounterPart(head: Head, counter: Counter<string>): seq<Line> {
    [Heading(head)] +
    (if counter == map[] then [Plain(NoneEntry)] else CounterLines(Sorted(counter.Keys), counter)) +
    [Empty]
  }

  ghost function TaskPart(metrics: map<string, Metrics>): seq<Line> {
    [Heading(TaskHead)] +
    (if metrics == map[] then [Plain(NoneEntry)] else AllTaskLines(Sorted(metrics.Keys), metrics)) +
    [Empty]
  }

  function MessagePart(m: MessageCounts): seq<Line> {
    [Heading(MessageHead),
     MessageLine(Sent, m.sent),
     MessageLine(Received, m.received),
     MessageLine(Dropped, m.dropped),
     MessageLine(QueueFullDrops, m.queueFull),
     MessageLine(FaultInjectedDrops, m.faultInjected),
     Empty]
  }

  ghost function SubPart(sub: Word, counter: Counter<string>): seq<Line> {
    if counter == map[] then [] else [SubHeading(sub)] + SubEntries(Sorted(counter.Keys), counter)
  }

  ghost function WatchdogPart(r: HealthReport): seq<Line> {
    [Heading(WatchdogHead), Unused(WatchdogTimeouts, Digits(r.timeouts)), Unused(TaskRecoveries, Digits(r.recoveries))] +
    SubPart(TimeoutTasks, r.timeoutTasks) +
    SubPart(RecoveredTasks, r.recoveredTasks) +
    [Empty]
  }

  ghost function FailurePart(r: HealthReport): seq<Line> {
    [Heading(FailureHead), Unused(TaskFailures, Digits(r.failures)), Unused(TaskSkips, Digits(r.skips))] +
    SubPart(FailedTasks, r.failedTasks) +
    SubPart(SkippedTasks, r.skippedTasks) +
    [Empty]
  }

  function CausePart(causes: seq<string>): seq<Line> {
    [Heading(CauseHead)] + Bullets(causes)
  }

  ghost function OpeningLines(r: HealthReport): seq<Line> {
    TitlePart(r) +
    OptionalText(Simulation, r.simulationName) +
    OptionalText(SchedulerMode, r.schedulerMode) +
    OptionalNumber(ConfiguredDuration, r.durationSeconds, " seconds") +
    [CaptionedNumber(ObservedDuration, r.observedMs, " ms"), Empty]
  }

  ghost function CountLines(r: HealthReport): seq<Line> {
    CounterPart(EventHead, r.eventCounts) + CounterPart(SeverityHead, r.severityCounts)
  }

  ghost function ClosingLines(r: HealthReport): seq<Line> {
    CounterPart(FaultHead, r.faultCounts) + WatchdogPart(r) + FailurePart(r)
  }

  ghost function FigureLines(r: HealthReport): seq<Line> {
    OpeningLines(r) + CountLines(r) + TaskPart(r.metrics)
  }

  ghost function FindingLines(r: HealthReport): seq<Line> {
    MessagePart(r.messages) + ClosingLines(r) + CausePart(r.causes)
  }

  ghost function HealthLines(r: HealthReport): seq<Line> {
    FigureLines(r) + FindingLines(r)
  }

  function DetectorTitle(d: DetectorReport): seq<Line> {
    [Empty, Plain(AnomalyTitle), Underline(28), Empty,
     Unused(WindowSize, d.windowSize),
     Unused(OverallClass, d.overall),
     Unused(AnomalyCount, d.windowCounts),
     Unused(HighestScore, d.highestScore),
     Empty,
     SubHeading(TopDrivers)]
  }

  function DriverTexts(drivers: seq<string>): seq<string> {
    if drivers == [] then ["none"] else drivers
  }

  function DetectorLines(d: DetectorReport): seq<Line> {
    DetectorTitle(d) + Bullets(DriverTexts(d.drivers)) + [Empty, SubHeading(WindowSummary)] + WindowLines(d.windows)
  }

  // ---------- text ----------

  function RenderAll(lines: seq<Line>): (texts: seq<string>)
    ensures |texts| == |lines|
  {
    if lines == [] then [] else RenderAll(lines[..|lines| - 1]) + [Render(lines[|lines| - 1])]
  }

  /** What is written for the health report followed by the anomaly report. */
  ghost function FullText(r: HealthReport, d: DetectorReport): string {
    JoinLines(RenderAll(HealthLines(r) + DetectorLines(d)))
  }

  lemma PartsInOrder<T>(start: seq<T>, a: seq<T>, b: seq<T>, c: seq<T>, d: seq<T>)
    ensures start + a + b + c + d == start + (a + b + (c + d))
  {
  }

  // ---------- the writer as it runs ----------

  /** Lines printed so far. */
  class Output {
    var lines: seq<Line>

    constructor ()
      ensures lines == []
    {
      lines := [];
    }

    method Print(more: seq<Line>)
      modifies this
      ensures lines == old(lines) + more
    {
      lines := lines + more;
    }

    method PrintCounter(head: Head, counter: Counter<string>)
      modifies this
      ensures lines == old(lines) + CounterPart(head, counter)
    {
      ghost var start := lines;
      lines := lines + [Heading(head)];
      if counter == map[] {
        lines := lines + [Plain(NoneEntry)];
      } else {
        var names := SortNames(counter.Keys);
        PrintEntries(names, counter);
      }
      ghost var body := lines[|start| + 1..];
      lines := lines + [Empty];
      ConcatRegroup(start, [Heading(head)], body, [Empty]);
    }

    method PrintEntries(names: seq<string>, counter: Counter<string>)
      modifies this
      ensures lines == old(lines) + CounterLines(names, counter)
    {
      for i := 0 to |names|
        invariant lines == old(lines) + CounterLines(names[..i], counter)
      {
        assert names[..i + 1][..i] == names[..i];
        lines := lines + [Entry(names[i], At(counter, names[i]))];
      }
      assert names[..|names|] == names;
    }

    method PrintTasks(metrics: map<string, Metrics>)
      modifies this
      ensures lines == old(lines) + TaskPart(metrics)
    {
      ghost var start := lines;
      lines := lines + [Heading(TaskHead)];
      if metrics == map[] {
        lines := lines + [Plain(NoneEntry)];
      } else {
        var names := SortNames(metrics.Keys);
        PrintEachTask(names, metrics);
      }
      ghost var body := lines[|start| + 1..];
      lines := lines + [Empty];
      ConcatRegroup(start, [Heading(TaskHead)], body, [Empty]);
    }

    method PrintEachTask(names: seq<string>, metrics: map<string, Metrics>)
      modifies this
      ensures lines == old(lines) + AllTaskLines(names, metrics)
    {
      for i := 0 to |names|
        invariant lines == old(lines) + AllTaskLines(names[..i], metrics)
      {
        assert names[..i + 1][..i] == names[..i];
        lines := lines + TaskLines(names[i], if names[i] in metrics then metrics[names[i]] else NoMetrics);
      }
      assert names[..|names|] == names;
    }

    method PrintSubPart(sub: Word, counter: Counter<string>)
      modifies this
      ensures lines == old(lines) + SubPart(sub, counter)
    {
      if counter != map[] {
        var names := SortNames(counter.Keys);
        ghost var start := lines;
        lines := lines + [SubHeading(sub)];
        PrintSubEntries(names, counter);
        ConcatAssociative(start, [SubHeading(sub)], SubEntries(names, counter));
      }
    }

    method PrintSubEntries(names: seq<string>, counter: Counter<string>)
      modifies this
      ensures lines == old(lines) + SubEntries(names, counter)
    {
      for i := 0 to |names|
        invariant lines == old(lines) + SubEntries(names[..i], counter)
      {
        assert names[..i + 1][..i] == names[..i];
        lines := lines + [SubEntry(names[i], At(counter, names[i]))];
      }
      assert names[..|names|] == names;
    }

    method PrintBullets(texts: seq<string>)
      modifies this
      ensures lines == old(lines) + Bullets(texts)
    {
      for i := 0 to |texts|
        invariant lines == old(lines) + Bullets(texts[..i])
      {
        assert texts[..i + 1][..i] == texts[..i];
        lines := lines + [Bullet(texts[i])];
      }
      assert texts[..|texts|] == texts;
    }

    method PrintOpening(r: HealthReport)
      modifies this
      ensures lines == old(lines) + OpeningLines(r)
    {
      ghost var start := lines;
      Print(TitlePart(r));
      Print(OptionalText(Simulation, r.simulationName));
      Print(OptionalText(SchedulerMode, r.schedulerMode));
      Print(OptionalNumber(ConfiguredDuration, r.durationSeconds, " seconds"));
      Print([CaptionedNumber(ObservedDuration, r.observedMs, " ms"), Empty]);
      assert lines == start + OpeningLines(r);
    }

    method PrintClosing(r: HealthReport)
      modifies this
      ensures lines == old(lines) + ClosingLines(r)
    {
      ghost var start := lines;
      PrintCounter(FaultHead, r.faultCounts);
      PrintWatchdog(r);
      PrintFailures(r);
      assert lines == start + ClosingLines(r);
    }

    method PrintWatchdog(r: HealthReport)
      modifies this
      ensures lines == old(lines) + WatchdogPart(r)
    {
      ghost var start := lines;
      Print([Heading(WatchdogHead), Unused(WatchdogTimeouts, Digits(r.timeouts)), Unused(TaskRecoveries, Digits(r.recoveries))]);
      PrintSubPart(TimeoutTasks, r.timeoutTasks);
      PrintSubPart(RecoveredTasks, r.recoveredTasks);
      Print([Empty]);
      assert lines == start + WatchdogPart(r);
    }

    method PrintFailures(r: HealthReport)
      modifies this
      ensures lines == old(lines) + FailurePart(r)
    {
      ghost var start := lines;
      Print([Heading(FailureHead), Unused(TaskFailures, Digits(r.failures)), Unused(TaskSkips, Digits(r.skips))]);
      PrintSubPart(FailedTasks, r.failedTasks);
      PrintSubPart(SkippedTasks, r.skippedTasks);
      Print([Empty]);
      assert lines == start + FailurePart(r);
    }

    method PrintCounts(r: HealthReport)
      modifies this
      ensures lines == old(lines) + CountLines(r)
    {
      ghost var start := lines;
      PrintCounter(EventHead, r.eventCounts);
      PrintCounter(SeverityHead, r.severityCounts);
      assert lines == start + CountLines(r);
    }

    method PrintFigures(r: HealthReport)
      modifies this
      ensures lines == old(lines) + FigureLines(r)
    {
      ghost var start := lines;
      PrintOpening(r);
      PrintCounts(r);
      PrintTasks(r.metrics);
      ConcatRegroup(start, OpeningLines(r), CountLines(r), TaskPart(r.metrics));
    }

    method PrintFindings(r: HealthReport)
      modifies this
      ensures lines == old(lines) + FindingLines(r)
    {
      ghost var start := lines;
      Print(MessagePart(r.messages));
      PrintClosing(r);
      Print([Heading(CauseHead)]);
      PrintBullets(r.causes);
      PartsInOrder(start, MessagePart(r.messages), ClosingLines(r), [Heading(CauseHead)], Bullets(r.causes));
    }

    method PrintReport(r: HealthReport)
      modifies this
      ensures lines == old(lines) + HealthLines(r)
    {
      ghost var start := lines;
      PrintFigures(r);
      PrintFindings(r);
      assert lines == start + HealthLines(r);
    }

    method PrintAnomalyReport(d: DetectorReport)
      modifies this
      ensures lines == old(lines) + DetectorLines(d)
    {
      ghost var start := lines;
      Print(DetectorTitle(d));
      PrintBullets(DriverTexts(d.drivers));
      Print([Empty, SubHeading(WindowSummary)]);
      for i := 0 to |d.windows|
        invariant lines == start + DetectorTitle(d) + Bullets(DriverTexts(d.drivers)) +
          [Empty, SubHeading(WindowSummary)] + WindowLines(d.windows[..i])
      {
        assert d.windows[..i + 1][..i] == d.windows[..i];
        var row := d.windows[i];
        lines := lines + [WindowLine(row.startMs, row.endMs, row.text)];
      }
      assert d.windows[..|d.windows|] == d.windows;
      assert lines == start + DetectorLines(d);
    }
  }

  method PrintAll(r: HealthReport, d: DetectorReport) returns (text: string)
    ensures text == FullText(r, d)
  {
    var out := new Output();
    out.PrintReport(r);
    out.PrintAnomalyReport(d);
    assert out.lines == HealthLines(r) + DetectorLines(d);
    text := JoinLines(RenderAll(out.lines));
  }
}
