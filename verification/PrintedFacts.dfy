/** What both reports say about a log, figure by figure: the web report's figures in terms of the log's records, and
    the printed lines that the reader of the report passes over. */
module PrintedFacts {
  import opened AnomalyReport
  import opened Common
  import opened EventLog
  import opened HealthAnalyzer
  import opened HealthFacts
  import opened LogFields
  import opened LogRecords
  import opened MetricFacts
  import opened PlainText
  import opened ReadingFacts
  import opened ReportLines
  import opened ReportParser
  import opened ReportPrinter
  import opened ReportRoundTrip
  import opened ReportTexts
  import opened RuntimeConfig
  import opened TextOrder

  // ---------- counters by name ----------

  lemma {:induction false} KindNamesCount(records: seq<Record>, name: string)
    ensures Occurrences(KindNames(records), name) == Total(records, (r: Record) => One(KindName(r.kind) == name))
  {
    if records != [] {
      var init, last := records[..|records| - 1], records[|records| - 1];
      KindNamesCount(init, name);
      OccurrencesOneMore(KindNames(init), KindName(last.kind), name);
    }
  }

  lemma {:induction false} LevelNamesCount(records: seq<Record>, name: string)
    ensures Occurrences(LevelNames(records), name) == Total(records, (r: Record) => One(LevelName(r.level) == name))
  {
    if records != [] {
      var init, last := records[..|records| - 1], records[|records| - 1];
      LevelNamesCount(init, name);
      OccurrencesOneMore(LevelNames(init), LevelName(last.level), name);
    }
  }

  lemma {:induction false} FaultNamesCount(records: seq<Record>, name: string)
    ensures Occurrences(FaultNames(FaultTypes(records)), name) ==
      Total(records, (r: Record) => One(r.kind.OnFault? && FaultName(r.faultType) == name))
  {
    if records != [] {
      var init, last := records[..|records| - 1], records[|records| - 1];
      FaultNamesCount(init, name);
      FaultNamesOneMore(FaultTypes(init), last.faultType);
      OccurrencesOneMore(FaultNames(FaultTypes(init)), FaultName(last.faultType), name);
    }
  }

  lemma {:induction false} FaultNamesOneMore(faults: seq<FaultKind>, fault: FaultKind)
    ensures FaultNames(faults + [fault]) == FaultNames(faults) + [FaultName(fault)]
  {
    assert (faults + [fault])[..|faults|] == faults;
  }

  function CountIn(counter: map<string, int>, name: string): int {
    if name in counter then counter[name] else 0
  }

  /** The web report counts the records of each event type and severity by name. */
  lemma {:induction false} ShownCounts(logFile: string, records: seq<Record>, causes: seq<string>, name: string)
    ensures
      var shown := Shown(logFile, records, causes);
      && shown.eventsLoaded == Some(|records|)
      && CountIn(shown.eventCounts, name) == Total(records, (r: Record) => One(KindName(r.kind) == name))
      && CountIn(shown.severityCounts, name) == Total(records, (r: Record) => One(LevelName(r.level) == name))
  {
    KindNamesCount(records, name);
    LevelNamesCount(records, name);
  }

  /** The fault summary, which the reader passes over, counts the injected faults by the name of their type. */
  lemma {:induction false} PrintedFaults(logFile: string, records: seq<Record>, name: string)
    ensures At(HealthReportOf(logFile, records, ReportOf(records)).faultCounts, name) ==
      Total(records, (r: Record) => One(r.kind.OnFault? && FaultName(r.faultType) == name))
  {
    FaultNamesCount(records, name);
  }

  /** The header: what the first record of a runtime's start tells, and the latest time stamp; see `MetricFacts`. */
  lemma {:induction false} ShownHeader(logFile: string, records: seq<Record>, causes: seq<string>)
    ensures
      var shown, report := Shown(logFile, records, causes), ReportOf(records);
      && Opening(shown.simulationName, shown.schedulerMode, shown.durationSeconds) == report.opening
      && shown.observedDurationMs == Some(report.observedDurationMs)
  {
  }

  /** Its message figures are the numbers of records of each kind and reason. */
  lemma {:induction false} ShownMessages(logFile: string, records: seq<Record>, causes: seq<string>)
    ensures
      var m := Shown(logFile, records, causes).messages;
      && m.sent == Total(records, (r: Record) => One(r.kind == OnSent))
      && m.received == Total(records, (r: Record) => One(r.kind == OnReceived))
      && m.dropped == Total(records, (r: Record) => One(r.kind == OnDropped))
      && m.queueFullDrops == Total(records, (r: Record) => One(r.kind.OnDropped? && r.reason == QueueFull))
      && m.faultInjectedDrops == Total(records, (r: Record) => One(r.kind.OnDropped? && r.reason == FaultInjectedDrop))
  {
    KindsCount(records, OnSent);
    KindsCount(records, OnReceived);
    KindsCount(records, OnDropped);
    ReasonsCount(records, QueueFull);
    ReasonsCount(records, FaultInjectedDrop);
  }

  lemma {:induction false} ShownParts(logFile: string, records: seq<Record>, causes: seq<string>)
    ensures Shown(logFile, records, causes).taskMetrics == ShownMetrics(MetricsOf(records))
    ensures Shown(logFile, records, causes).runtimeHealth == Some(HealthText(FindingsOf(records).Health()))
  {
  }

  /** `x` is the mean duration of the task's completions up to half a tenth, and zero without any. */
  ghost predicate IsNearAverage(x: real, records: seq<Record>, task: string) {
    var n, total := Completions(records, task) as real, TimeCompleting(records, task) as real;
    && total - 0.05 * n <= x * n <= total + 0.05 * n
    && (n == 0.0 ==> x == 0.0)
  }

  lemma {:induction false} CountsAreNatural(records: seq<Record>, task: string)
    ensures Completions(records, task) >= 0
  {
    if records != [] {
      CountsAreNatural(records[..|records| - 1], task);
    }
  }

  lemma {:induction false} Product(a: real, b: real)
    requires a >= 0.0 && b >= 0.0
    ensures a * b >= 0.0
  {
  }

  lemma NoTenths(average: real)
    requires average == 0.0
    ensures Tenths(average) as real / 10.0 == 0.0
  {
  }

  lemma NearMean(x: real, average: real, n: real, total: real)
    requires n >= 0.0 && -0.05 <= x - average <= 0.05 && average * n == total
    ensures total - 0.05 * n <= x * n <= total + 0.05 * n
  {
    var above, below := x - average + 0.05, average + 0.05 - x;
    Product(above, n);
    Product(below, n);
    assert above * n == x * n - average * n + 0.05 * n;
    assert below * n == average * n + 0.05 * n - x * n;
  }

  lemma {:induction false} NearAverage(records: seq<Record>, task: string, average: real)
    requires average * Completions(records, task) as real == TimeCompleting(records, task) as real
    requires Completions(records, task) == 0 ==> average == 0.0
    ensures IsNearAverage(Tenths(average) as real / 10.0, records, task)
  {
    var n, x := Completions(records, task) as real, Tenths(average) as real / 10.0;
    TenthsAreNear(average);
    CountsAreNatural(records, task);
    NearMean(x, average, n, TimeCompleting(records, task) as real);
    if average == 0.0 {
      NoTenths(average);
    }
  }

  /** What the report shows of a task is true of the log's records. */
  ghost predicate TellsTask(shown: TaskMetric, records: seq<Record>, task: string) {
    && shown.missedEvents == FlaggedCompletions(records, task)
    && IsLongest(shown.maxDurationMs, records, task)
    && IsNearAverage(shown.avgDurationMs, records, task)
  }

  lemma {:induction false} MetricTells(records: seq<Record>, task: string)
    requires task in MetricsOf(records)
    ensures TellsTask(ShownMetric(MetricsOf(records)[task]), records, task)
  {
    DurationsTellTheRecords(records, task);
    NearAverage(records, task, MetricsOf(records)[task].avgDurationMs);
  }

  lemma {:induction false} MetricsTell(records: seq<Record>, task: string)
    ensures
      var shown := ShownMetrics(MetricsOf(records));
      && (task in shown <==> exists r <- records :: (r.kind.OnCompletion? || r.kind.OnSummary?) && r.task == task)
      && (task in shown ==> TellsTask(shown[task], records, task))
  {
    DurationsTellTheRecords(records, task);
    if task in MetricsOf(records) {
      MetricTells(records, task);
    }
  }

  /** The task metrics of the web report are for just the tasks that a completion or summary names. The missed events
      and the longest duration are those of the records, and the average is off by no more than half a tenth. */
  lemma {:induction false} ShownTask(logFile: string, records: seq<Record>, causes: seq<string>, task: string)
    ensures
      var shown := Shown(logFile, records, causes).taskMetrics;
      && (task in shown <==> exists r <- records :: (r.kind.OnCompletion? || r.kind.OnSummary?) && r.task == task)
      && (task in shown ==> TellsTask(shown[task], records, task))
  {
    ShownParts(logFile, records, causes);
    MetricsTell(records, task);
  }

  lemma {:induction false} WordsOfHealth(health: Health)
    ensures HealthText(health) == "NORMAL" <==> health.NORMAL?
    ensures HealthText(health) == "WARNING" <==> health.WARNING?
    ensures HealthText(health) == "UNSTABLE" <==> health.UNSTABLE?
  {
    assert |"NORMAL"| == 6 && |"WARNING"| == 7 && |"UNSTABLE"| == 8;
  }

  /** The verdict by its word: normal if every record is quiet, and unstable by the tests of `UnstableExactly`. */
  lemma {:induction false} ShownHealth(logFile: string, records: seq<Record>, causes: seq<string>)
    ensures
      var word, misses := Shown(logFile, records, causes).runtimeHealth, TotalMisses(MetricsOf(records));
      && (word == Some("NORMAL") <==> forall r <- records :: Quiet(r))
      && (word == Some("UNSTABLE") <==>
            || (exists r <- records :: Severe(r))
            || misses >= 3
            || (misses > 0 && exists r <- records :: r.kind.OnFault? && r.faultType.SlowTask?))
      && (word == Some("NORMAL") || word == Some("WARNING") || word == Some("UNSTABLE"))
  {
    ShownParts(logFile, records, causes);
    WordsOfHealth(FindingsOf(records).Health());
    NormalExactly(records);
    UnstableExactly(records);
  }

  // ---------- texts of figures ----------

  lemma {:induction false} KeyedText(indent: string, key: string, value: string)
    ensures Keyed(indent, key, value) == indent + key + ": " + value
  {
  }

  lemma {:induction false} TwoDigits(a: nat, b: nat)
    requires a < 10 && b < 10
    ensures AllDigits([DigitChar(a), DigitChar(b)])
    ensures Fraction([DigitChar(a), DigitChar(b)]) == (10 * a + b) as real / 100.0
  {
    var digits := [DigitChar(a), DigitChar(b)];
    assert digits[1..] == [DigitChar(b)] && digits[1..][1..] == "";
    assert Fraction(digits[1..]) == b as real / 10.0;
  }

  lemma HundredthsRead(n: nat)
    ensures DecimalOrZero(Digits(n / 100) + ("." + [DigitChar(n % 100 / 10), DigitChar(n % 10)])) == n as real / 100.0
  {
    TwoDigits(n % 100 / 10, n % 10);
    DecimalParts(n / 100, [DigitChar(n % 100 / 10), DigitChar(n % 10)]);
    assert n == 100 * (n / 100) + 10 * (n % 100 / 10) + n % 10;
  }

  lemma HundredthsAre(score: real, n: nat)
    requires score >= 0.0 && n == (score * 100.0 + 0.5).Floor
    ensures HundredthsText(score) == Digits(n / 100) + ("." + [DigitChar(n % 100 / 10), DigitChar(n % 10)])
  {
  }

  /** A score is printed as the nearest number with two decimals. */
  lemma HundredthsAreNear(score: real)
    requires score >= 0.0
    ensures -0.005 <= DecimalOrZero(HundredthsText(score)) - score <= 0.005
  {
    var n: nat := (score * 100.0 + 0.5).Floor;
    HundredthsAre(score, n);
    HundredthsRead(n);
  }

  /** A list of names begins with the first one, and the others follow behind a comma. */
  lemma {:induction false} ListingFromFront(name: string, rest: seq<string>)
    ensures Listing([name] + rest) == if rest == [] then name else name + ", " + Listing(rest)
  {
    if rest != [] {
      var n := |rest| - 1;
      ListingFromFront(name, rest[..n]);
      assert ([name] + rest)[..n + 1] == [name] + rest[..n];
    }
  }

  // ---------- the detector's print ----------

  ghost predicate Stands(lines: seq<Line>, k: nat, line: Line) {
    k < |lines| && lines[k] == line
  }

  lemma {:induction false} BulletAt(texts: seq<string>, k: nat)
    requires k < |texts|
    ensures |Bullets(texts)| == |texts| && Bullets(texts)[k] == Bullet(texts[k])
  {
    if k < |texts| - 1 {
      BulletAt(texts[..|texts| - 1], k);
    } else {
      BulletCount(texts[..|texts| - 1]);
    }
  }

  lemma {:induction false} BulletCount(texts: seq<string>)
    ensures |Bullets(texts)| == |texts|
  {
    if texts != [] {
      BulletCount(texts[..|texts| - 1]);
    }
  }

  lemma {:induction false} RowAt(windows: seq<WindowAnalysis>, k: nat)
    requires k < |windows|
    ensures
      var lines, row := WindowLines(RowsOf(windows)), RowOf(windows[k]);
      |lines| == |windows| == |RowsOf(windows)| && lines[k] == WindowLine(row.startMs, row.endMs, row.text)
  {
    if k < |windows| - 1 {
      RowAt(windows[..|windows| - 1], k);
    } else {
      RowCount(windows[..|windows| - 1]);
    }
  }

  lemma {:induction false} RowCount(windows: seq<WindowAnalysis>)
    ensures |WindowLines(RowsOf(windows))| == |windows| == |RowsOf(windows)|
  {
    if windows != [] {
      RowCount(windows[..|windows| - 1]);
    }
  }

  /** The lines before, of and behind the drivers. */
  lemma {:induction false} DetectorLinesAt(d: DetectorReport, k: nat)
    ensures
      var lines, n := DetectorLines(d), |DriverTexts(d.drivers)|;
      && |lines| == 12 + n + |WindowLines(d.windows)|
      && (k < 10 ==> lines[k] == DetectorTitle(d)[k])
      && (k < n ==> lines[10 + k] == Bullet(DriverTexts(d.drivers)[k]))
      && lines[11 + n] == SubHeading(WindowSummary)
      && (k < |WindowLines(d.windows)| ==> lines[12 + n + k] == WindowLines(d.windows)[k])
  {
    BulletCount(DriverTexts(d.drivers));
    if k < |DriverTexts(d.drivers)| {
      BulletAt(DriverTexts(d.drivers), k);
    }
  }

  lemma TitleStands(d: DetectorReport)
    ensures
      var title := DetectorTitle(d);
      && |title| == 10
      && title[4] == Unused(WindowSize, d.windowSize) && title[5] == Unused(OverallClass, d.overall)
      && title[6] == Unused(AnomalyCount, d.windowCounts) && title[7] == Unused(HighestScore, d.highestScore)
      && title[9] == SubHeading(TopDrivers)
  {
  }

  /** The anomaly report is printed with the detector's figures, then its drivers. */
  lemma DetectorFiguresTell(a: Anomalies)
    requires a.windowMs >= 0
    ensures
      var lines := DetectorLines(DetectorReportOf(a));
      && Stands(lines, 4, Unused(WindowSize, Digits(a.windowMs) + " ms"))
      && Stands(lines, 5, Unused(OverallClass, HealthText(a.overall)))
      && Stands(lines, 6, Unused(AnomalyCount, Digits(a.anomalyCount) + " / " + Digits(a.totalCount)))
      && Stands(lines, 7, Unused(HighestScore, HundredthsText(a.highestScore)))
      && Stands(lines, 9, SubHeading(TopDrivers))
  {
    var d := DetectorReportOf(a);
    TitleStands(d);
    DetectorLinesAt(d, 4);
    DetectorLinesAt(d, 5);
    DetectorLinesAt(d, 6);
    DetectorLinesAt(d, 7);
    DetectorLinesAt(d, 9);
  }

  /** The drivers are printed one to a line under their heading. */
  lemma DetectorDriversTell(a: Anomalies, k: nat)
    ensures
      var lines, drivers := DetectorLines(DetectorReportOf(a)), if a.topDrivers == [] then ["none"] else a.topDrivers;
      && (k < |drivers| ==> Stands(lines, 10 + k, Bullet(drivers[k])))
      && Stands(lines, 11 + |drivers|, SubHeading(WindowSummary))
  {
    DetectorLinesAt(DetectorReportOf(a), k);
  }

  /** The line for a window: its bounds, class, score and drivers. */
  function WindowText(w: WindowAnalysis): string {
    HealthText(w.class_) + " score=" + HundredthsText(w.score) + " drivers=" +
    (if w.drivers == [] then "none" else Listing(w.drivers))
  }

  lemma RowTells(w: WindowAnalysis)
    requires w.startMs >= 0 && w.endMs >= 0
    ensures RowOf(w) == WindowRow(w.startMs, w.endMs, WindowText(w))
  {
  }

  /** A line for every window in order ends the print. */
  lemma DetectorWindowsTell(a: Anomalies, k: nat)
    requires k < |a.windows| && a.windows[k].startMs >= 0 && a.windows[k].endMs >= 0
    ensures
      var d, w := DetectorReportOf(a), a.windows[k];
      && |DetectorLines(d)| == 12 + |DriverTexts(d.drivers)| + |a.windows|
      && Stands(DetectorLines(d), 12 + |DriverTexts(d.drivers)| + k, WindowLine(w.startMs, w.endMs, WindowText(w)))
  {
    var d := DetectorReportOf(a);
    RowAt(a.windows, k);
    RowTells(a.windows[k]);
    DetectorLinesAt(d, k);
  }

  lemma UnusedText(word: Word, text: string)
    ensures Render(Unused(word, text)) == Indent(word) + WordText(word) + ": " + text
  {
    KeyedText(Indent(word), WordText(word), text);
  }

  lemma SubEntryText(task: string, n: nat)
    ensures Render(SubEntry(task, n)) == "    " + ("- " + task) + ": " + Digits(n)
  {
    KeyedText("    ", "- " + task, Digits(n));
  }

  lemma WindowLineText(startMs: nat, endMs: nat, text: string)
    ensures Render(WindowLine(startMs, endMs, text)) == "  " + (Digits(startMs) + "-" + Digits(endMs) + " ms") + ": " + text
  {
    KeyedText("  ", Digits(startMs) + "-" + Digits(endMs) + " ms", text);
  }

  // ---------- the lines of trouble ----------

  /** How many records of a kind name the task. */
  function TimesOf(records: seq<Record>, kind: Kind, task: string): int {
    Total(records, (r: Record) => One(r.kind == kind && r.task == task))
  }

  /** The lines under a heading list these tasks with the numbers of their records. */
  ghost predicate ListsTasks(lines: seq<Line>, from: nat, names: seq<string>, records: seq<Record>, kind: Kind) {
    && from + |names| <= |lines|
    && (forall k | 0 <= k < |names| :: TimesOf(records, kind, names[k]) >= 0)
    && (forall k | 0 <= k < |names| :: lines[from + k] == SubEntry(names[k], TimesOf(records, kind, names[k])))
  }

  lemma {:induction false} SubEntryAt(names: seq<string>, counter: Counter<string>, k: nat)
    requires k < |names|
    ensures |SubEntries(names, counter)| == |names|
    ensures SubEntries(names, counter)[k] == SubEntry(names[k], At(counter, names[k]))
  {
    if k < |names| - 1 {
      SubEntryAt(names[..|names| - 1], counter, k);
    } else {
      SubEntryCount(names[..|names| - 1], counter);
    }
  }

  lemma {:induction false} SubEntryCount(names: seq<string>, counter: Counter<string>)
    ensures |SubEntries(names, counter)| == |names|
  {
    if names != [] {
      SubEntryCount(names[..|names| - 1], counter);
    }
  }

  /** The tasks that some record of a kind names, in ascending order. */
  ghost predicate NamesTasks(names: seq<string>, records: seq<Record>, kind: Kind) {
    && Ascending(names)
    && forall task: string :: task in names <==> exists r <- records :: r.kind == kind && r.task == task
  }

  lemma {:induction false} TroubleIsNamed(records: seq<Record>, kind: Kind)
    ensures NamesTasks(Sorted(Counted(TasksOf(records, kind)).Keys), records, kind)
  {
    forall task: string
      ensures task in TasksOf(records, kind) <==> exists r <- records :: r.kind == kind && r.task == task
    {
      TasksOfHave(records, kind, task);
    }
  }

  lemma {:induction false} EntriesTell(records: seq<Record>, kind: Kind, names: seq<string>)
    ensures ListsTasks(SubEntries(names, Counted(TasksOf(records, kind))), 0, names, records, kind)
  {
    var counter := Counted(TasksOf(records, kind));
    SubEntryCount(names, counter);
    forall k | 0 <= k < |names|
      ensures TimesOf(records, kind, names[k]) >= 0
      ensures SubEntries(names, counter)[k] == SubEntry(names[k], TimesOf(records, kind, names[k]))
    {
      SubEntryAt(names, counter, k);
      TasksCount(records, kind, names[k]);
    }
  }

  lemma {:induction false} ListsBehind(line: Line, lines: seq<Line>, names: seq<string>, records: seq<Record>, kind: Kind)
    requires ListsTasks(lines, 0, names, records, kind)
    ensures ListsTasks([line] + lines, 1, names, records, kind)
  {
  }

  /** Under its heading, a list of tasks names those with a record of the kind, each with their number; without such a
      record there is no heading either. */
  lemma {:induction false} SubPartTells(records: seq<Record>, kind: Kind, sub: Word) returns (names: seq<string>)
    ensures NamesTasks(names, records, kind)
    ensures names == [] ==> SubPart(sub, Counted(TasksOf(records, kind))) == []
    ensures names != [] ==>
      var lines := SubPart(sub, Counted(TasksOf(records, kind)));
      |lines| == 1 + |names| && lines[0] == SubHeading(sub) && ListsTasks(lines, 1, names, records, kind)
  {
    var counter := Counted(TasksOf(records, kind));
    names := Sorted(counter.Keys);
    TroubleIsNamed(records, kind);
    if names == [] {
      assert forall task: string :: task !in counter.Keys;
      assert counter == map[];
    } else {
      assert names[0] in counter.Keys;
      EntriesTell(records, kind, names);
      SubEntryCount(names, counter);
      ListsBehind(SubHeading(sub), SubEntries(names, counter), names, records, kind);
    }
  }

  lemma FigureLines(r: HealthReport)
    ensures Stands(OpeningLines(r), 3, Unused(LogFile, r.logFile))
    ensures Stands(WatchdogPart(r), 1, Unused(WatchdogTimeouts, Digits(r.timeouts)))
    ensures Stands(WatchdogPart(r), 2, Unused(TaskRecoveries, Digits(r.recoveries)))
    ensures Stands(FailurePart(r), 1, Unused(TaskFailures, Digits(r.failures)))
    ensures Stands(FailurePart(r), 2, Unused(TaskSkips, Digits(r.skips)))
  {
  }

  /** The number of records of a kind. */
  function CountKind(records: seq<Record>, kind: Kind): int {
    Total(records, (r: Record) => One(r.kind == kind))
  }

  lemma {:induction false} KindIsCounted(records: seq<Record>, kind: Kind)
    ensures At(Counted(Kinds(records)), kind) == CountKind(records, kind)
  {
    KindsCount(records, kind);
  }

  lemma {:induction false} ListsOfReport(logFile: string, records: seq<Record>, a: Report)
    ensures
      var r := HealthReportOf(logFile, records, a);
      && r.logFile == logFile
      && r.timeoutTasks == a.findings.timeouts && r.recoveredTasks == a.findings.recoveries
      && r.failedTasks == a.findings.failures && r.skippedTasks == a.findings.skips
      && r.timeouts == At(a.findings.events, OnTimeout) && r.recoveries == At(a.findings.events, OnRecovery)
      && r.failures == At(a.findings.events, OnFailure) && r.skips == At(a.findings.events, OnSkip)
  {
  }

  lemma FindingsOfReport(records: seq<Record>)
    ensures ReportOf(records).findings == FindingsOf(records)
  {
  }

  lemma ListsOfFindings(records: seq<Record>)
    ensures
      var f := FindingsOf(records);
      && f.events == Counted(Kinds(records))
      && f.timeouts == Counted(TasksOf(records, OnTimeout)) && f.recoveries == Counted(TasksOf(records, OnRecovery))
      && f.failures == Counted(TasksOf(records, OnFailure)) && f.skips == Counted(TasksOf(records, OnSkip))
  {
  }

  /** The figures at the head of the two parts on trouble are the numbers of records of their kinds, each part lists its
      tasks by `SubPartTells`, and the log file is named. */
  lemma {:induction false} TroubleTellsTheRecords(logFile: string, records: seq<Record>)
    ensures
      var r := HealthReportOf(logFile, records, ReportOf(records));
      && Stands(OpeningLines(r), 3, Unused(LogFile, logFile))
      && CountKind(records, OnTimeout) >= 0 && CountKind(records, OnRecovery) >= 0
      && CountKind(records, OnFailure) >= 0 && CountKind(records, OnSkip) >= 0
      && Stands(WatchdogPart(r), 1, Unused(WatchdogTimeouts, Digits(CountKind(records, OnTimeout))))
      && Stands(WatchdogPart(r), 2, Unused(TaskRecoveries, Digits(CountKind(records, OnRecovery))))
      && WatchdogPart(r)[3..] ==
           SubPart(TimeoutTasks, Counted(TasksOf(records, OnTimeout))) +
           SubPart(RecoveredTasks, Counted(TasksOf(records, OnRecovery))) + [Empty]
      && Stands(FailurePart(r), 1, Unused(TaskFailures, Digits(CountKind(records, OnFailure))))
      && Stands(FailurePart(r), 2, Unused(TaskSkips, Digits(CountKind(records, OnSkip))))
      && FailurePart(r)[3..] ==
           SubPart(FailedTasks, Counted(TasksOf(records, OnFailure))) +
           SubPart(SkippedTasks, Counted(TasksOf(records, OnSkip))) + [Empty]
  {
    var r := HealthReportOf(logFile, records, ReportOf(records));
    ListsOfReport(logFile, records, ReportOf(records));
    FindingsOfReport(records);
    ListsOfFindings(records);
    KindIsCounted(records, OnTimeout);
    KindIsCounted(records, OnRecovery);
    KindIsCounted(records, OnFailure);
    KindIsCounted(records, OnSkip);
    FigureLines(r);
    TailOfPart(
      [Heading(WatchdogHead), Unused(WatchdogTimeouts, Digits(r.timeouts)), Unused(TaskRecoveries, Digits(r.recoveries))],
      SubPart(TimeoutTasks, r.timeoutTasks), SubPart(RecoveredTasks, r.recoveredTasks));
    TailOfPart(
      [Heading(FailureHead), Unused(TaskFailures, Digits(r.failures)), Unused(TaskSkips, Digits(r.skips))],
      SubPart(FailedTasks, r.failedTasks), SubPart(SkippedTasks, r.skippedTasks));
  }

  lemma {:induction false} TailOfPart(head: seq<Line>, a: seq<Line>, b: seq<Line>)
    ensures (head + a + b + [Empty])[|head|..] == a + b + [Empty]
  {
  }
}
