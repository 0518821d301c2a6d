/** Part by part, what the reader takes from a printed report whose names it can read: the opening lines, the
    counters, the tasks, the messages, and the causes with the drivers behind them. */
module ReportRoundTrip {
  import opened Common
  import opened HealthAnalyzer
  import opened LineReading
  import opened LogRecords
  import opened NameReading
  import opened PlainText
  import opened ReportLines
  import opened ReportParser
  import opened ReportPrinter
  import opened ReportWords
  import opened ReportReading
  import opened TextOrder

  // ---------- the opening lines ----------

  function Opened(r: HealthReport): Response {
    NoResponse.(
      eventsLoaded := Some(r.eventsLoaded),
      runtimeHealth := Some(HealthText(r.status)),
      simulationName := r.simulationName,
      schedulerMode := r.schedulerMode,
      durationSeconds := r.durationSeconds,
      observedDurationMs := Some(r.observedMs))
  }

  lemma HealthTextIsFree(health: Health)
    ensures FreeText(HealthText(health))
  {
    HealthChars(health);
    KeyCharsAreFree(HealthText(health));
  }

  lemma HealthChars(health: Health)
    ensures Neat(HealthText(health)) && KeyChars(HealthText(health))
  {
  }

  lemma TitlePartTells(r: HealthReport)
    requires Regular(r)
    ensures Tells(AtStart, TitlePart(r), AtStart.(response := NoResponse.(
      eventsLoaded := Some(r.eventsLoaded), runtimeHealth := Some(HealthText(r.status)))))
  {
    var plain := [Plain(Title), Underline(38), Empty, Unused(LogFile, r.logFile)];
    var loaded, status := CaptionedNumber(EventsLoaded, r.eventsLoaded, ""), CaptionedText(RuntimeStatus, HealthText(r.status));
    HealthTextIsFree(r.status);
    TellsNothing(AtStart, plain);
    TellsMore(AtStart, plain, AtStart, loaded);
    TellsMore(AtStart, plain + [loaded], Meaning(AtStart, loaded), status);
    assert TitlePart(r) == plain + [loaded] + [status];
  }

  lemma OptionalTextTells(st: ReaderState, caption: Caption, text: Option<string>)
    requires TextCaption(caption) && (text.Some? ==> FreeText(text.value))
    ensures Tells(st, OptionalText(caption, text),
      if text.Some? then st.(response := Captioned(st.response, caption, text.value)) else st)
  {
    if text.Some? {
      TellsOne(st, CaptionedText(caption, text.value));
    }
  }

  lemma OptionalNumberTells(st: ReaderState, caption: Caption, n: Option<int>, unit: string)
    requires !TextCaption(caption) && IsUnit(unit) && (n.Some? ==> Fits(n.value))
    ensures Tells(st, OptionalNumber(caption, n, unit),
      if n.Some? then st.(response := Numbered(st.response, caption, n.value)) else st)
  {
    if n.Some? {
      TellsOne(st, CaptionedNumber(caption, n.value, unit));
    }
  }

  lemma ObservedTells(st: ReaderState, n: int)
    requires Fits(n)
    ensures Tells(st, [CaptionedNumber(ObservedDuration, n, " ms"), Empty],
      st.(response := st.response.(observedDurationMs := Some(n))))
  {
    var line := CaptionedNumber(ObservedDuration, n, " ms");
    TellsOne(st, line);
    TellsMore(st, [line], Meaning(st, line), Empty);
    assert [line] + [Empty] == [line, Empty];
  }

  lemma OpeningTells(r: HealthReport)
    requires Regular(r)
    ensures Tells(AtStart, OpeningLines(r), AtStart.(response := Opened(r)))
  {
    var a := NoResponse.(eventsLoaded := Some(r.eventsLoaded), runtimeHealth := Some(HealthText(r.status)));
    var b := a.(simulationName := r.simulationName);
    var c := b.(schedulerMode := r.schedulerMode);
    var e := c.(durationSeconds := r.durationSeconds);
    var s0, s1, s2, s3 := AtStart.(response := a), AtStart.(response := b), AtStart.(response := c), AtStart.(response := e);
    var p0, p1 := TitlePart(r), OptionalText(Simulation, r.simulationName);
    var p2, p3 := OptionalText(SchedulerMode, r.schedulerMode), OptionalNumber(ConfiguredDuration, r.durationSeconds, " seconds");
    TitlePartTells(r);
    OptionalTextTells(s0, Simulation, r.simulationName);
    OptionalTextTells(s1, SchedulerMode, r.schedulerMode);
    OptionalNumberTells(s2, ConfiguredDuration, r.durationSeconds, " seconds");
    ObservedTells(s3, r.observedMs);
    TellsConcat(AtStart, p0, s0, p1, s1);
    TellsConcat(AtStart, p0 + p1, s1, p2, s2);
    TellsConcat(AtStart, p0 + p1 + p2, s2, p3, s3);
    TellsConcat(AtStart, p0 + p1 + p2 + p3, s3, [CaptionedNumber(ObservedDuration, r.observedMs, " ms"), Empty],
      AtStart.(response := Opened(r)));
  }

  // ---------- the tasks ----------

  function ShownMetric(m: Metrics): TaskMetric {
    TaskMetric(m.runs, m.misses, m.missedEvents, Tenths(m.avgDurationMs) as real / 10.0, m.maxDurationMs)
  }

  function ShownMetrics(metrics: map<string, Metrics>): map<string, TaskMetric> {
    map name | name in metrics :: ShownMetric(metrics[name])
  }

  function MetricsFor(metrics: map<string, Metrics>, name: string): Metrics {
    if name in metrics then metrics[name] else NoMetrics
  }

  function AfterTask(st: ReaderState, name: string, m: Metrics): ReaderState {
    st.(current := Some(CurrentTask(name, ShownMetric(m))), response := st.response.(taskMetrics := Filed(st)))
  }

  function AfterTasks(st: ReaderState, names: seq<string>, metrics: map<string, Metrics>): (after: ReaderState)
    ensures after.section == st.section
    ensures after.response.(taskMetrics := st.response.taskMetrics) == st.response
  {
    if names == [] then st
    else
      var last := names[|names| - 1];
      AfterTask(AfterTasks(st, names[..|names| - 1], metrics), last, MetricsFor(metrics, last))
  }

  /** The printed average is the nearest number with one decimal. */
  lemma TenthsAreNear(average: real)
    ensures -0.05 <= Tenths(average) as real / 10.0 - average <= 0.05
  {
  }

  lemma FourMetricsTell(st: ReaderState, m: Metrics)
    requires st.section.TaskSummary? && st.current.Some? && st.current.value.metric == NoTaskMetric
    requires RegularMetrics(m)
    ensures Tells(st,
      [MetricLine(Runs, m.runs), MetricLine(Misses, m.misses), MetricLine(MissedEvents, m.missedEvents),
       AverageLine(Tenths(m.avgDurationMs)), MetricLine(MaxDuration, m.maxDurationMs)],
      st.(current := Some(CurrentTask(st.current.value.name, ShownMetric(m)))))
  {
    var a, b, c := MetricLine(Runs, m.runs), MetricLine(Misses, m.misses), MetricLine(MissedEvents, m.missedEvents);
    var d, e := AverageLine(Tenths(m.avgDurationMs)), MetricLine(MaxDuration, m.maxDurationMs);
    var s1 := Meaning(st, a);
    var s2 := Meaning(s1, b);
    var s3 := Meaning(s2, c);
    var s4 := Meaning(s3, d);
    TellsOne(st, a);
    TellsMore(st, [a], s1, b);
    TellsMore(st, [a] + [b], s2, c);
    TellsMore(st, [a] + [b] + [c], s3, d);
    TellsMore(st, [a] + [b] + [c] + [d], s4, e);
    assert [a] + [b] + [c] + [d] + [e] == [a, b, c, d, e];
  }

  lemma TaskLinesTell(st: ReaderState, name: string, m: Metrics)
    requires st.section.TaskSummary? && FreeText(name) && FreeTask(name) && RegularMetrics(m)
    ensures Tells(st, TaskLines(name, m), AfterTask(st, name, m))
  {
    var named := Meaning(st, TaskName(name));
    var fields := [MetricLine(Runs, m.runs), MetricLine(Misses, m.misses), MetricLine(MissedEvents, m.missedEvents),
      AverageLine(Tenths(m.avgDurationMs)), MetricLine(MaxDuration, m.maxDurationMs)];
    TellsOne(st, TaskName(name));
    FourMetricsTell(named, m);
    TellsConcat(st, [TaskName(name)], named, fields, AfterTask(st, name, m));
    assert TaskLines(name, m) == [TaskName(name)] + fields;
  }

  lemma {:induction false} AllTaskLinesTell(st: ReaderState, names: seq<string>, metrics: map<string, Metrics>)
    requires st.section.TaskSummary?
    requires forall name <- names :: FreeText(name) && FreeTask(name) && RegularMetrics(MetricsFor(metrics, name))
    ensures Tells(st, AllTaskLines(names, metrics), AfterTasks(st, names, metrics))
  {
    if names != [] {
      var init, last := names[..|names| - 1], names[|names| - 1];
      assert last in names && forall name <- init :: name in names;
      AllTaskLinesTell(st, init, metrics);
      TaskLinesTell(AfterTasks(st, init, metrics), last, MetricsFor(metrics, last));
      TellsConcat(st, AllTaskLines(init, metrics), AfterTasks(st, init, metrics),
        TaskLines(last, MetricsFor(metrics, last)), AfterTasks(st, names, metrics));
    }
  }

  lemma {:induction false} FiledAfter(st: ReaderState, names: seq<string>, metrics: map<string, Metrics>)
    ensures forall key :: key in Filed(AfterTasks(st, names, metrics)) <==> key in Filed(st) || key in names
    ensures forall name <- names :: Filed(AfterTasks(st, names, metrics))[name] == ShownMetric(MetricsFor(metrics, name))
  {
    if names != [] {
      FiledAfter(st, names[..|names| - 1], metrics);
      assert names == names[..|names| - 1] + [names[|names| - 1]];
    }
  }

  ghost function AfterTaskPart(st: ReaderState, metrics: map<string, Metrics>): ReaderState {
    AfterTasks(st.(section := TaskSummary), Sorted(metrics.Keys), metrics)
  }

  lemma TaskPartTells(st: ReaderState, metrics: map<string, Metrics>)
    requires forall name <- metrics :: FreeText(name) && FreeTask(name) && RegularMetrics(metrics[name])
    ensures Tells(st, TaskPart(metrics), AfterTaskPart(st, metrics))
  {
    var begun, after := st.(section := TaskSummary), AfterTaskPart(st, metrics);
    var body := if metrics == map[] then [Plain(NoneEntry)] else AllTaskLines(Sorted(metrics.Keys), metrics);
    TellsOne(st, Heading(TaskHead));
    if metrics == map[] {
      TellsOne(begun, Plain(NoneEntry));
      assert Sorted(metrics.Keys) == [] by {
        assert forall name :: name !in Sorted(metrics.Keys);
      }
    } else {
      AllTaskLinesTell(begun, Sorted(metrics.Keys), metrics);
    }
    TellsConcat(st, [Heading(TaskHead)], begun, body, after);
    TellsMore(st, [Heading(TaskHead)] + body, after, Empty);
  }

  lemma FiledTasks(st: ReaderState, metrics: map<string, Metrics>)
    requires st.current == None && st.response.taskMetrics == map[]
    ensures Filed(AfterTaskPart(st, metrics)) == ShownMetrics(metrics)
  {
    FiledAfter(st.(section := TaskSummary), Sorted(metrics.Keys), metrics);
  }

  // ---------- messages ----------

  function ReadMessages(m: MessageCounts): Messages {
    Messages(m.sent, m.received, m.dropped, m.queueFull, m.faultInjected)
  }

  lemma MessagePartTells(st: ReaderState, m: MessageCounts)
    requires Fits(m.sent) && Fits(m.received) && Fits(m.dropped) && Fits(m.queueFull) && Fits(m.faultInjected)
    ensures Tells(st, MessagePart(m), st.(section := MessageSummary, response := st.response.(messages := ReadMessages(m))))
  {
    var head := Heading(MessageHead);
    var a, b, c := MessageLine(Sent, m.sent), MessageLine(Received, m.received), MessageLine(Dropped, m.dropped);
    var d, e := MessageLine(QueueFullDrops, m.queueFull), MessageLine(FaultInjectedDrops, m.faultInjected);
    var s0 := Meaning(st, head);
    var s1 := Meaning(s0, a);
    var s2 := Meaning(s1, b);
    var s3 := Meaning(s2, c);
    var s4 := Meaning(s3, d);
    var s5 := Meaning(s4, e);
    TellsOne(st, head);
    TellsMore(st, [head], s0, a);
    TellsMore(st, [head] + [a], s1, b);
    TellsMore(st, [head] + [a] + [b], s2, c);
    TellsMore(st, [head] + [a] + [b] + [c], s3, d);
    TellsMore(st, [head] + [a] + [b] + [c] + [d], s4, e);
    TellsMore(st, [head] + [a] + [b] + [c] + [d] + [e], s5, Empty);
    assert [head] + [a] + [b] + [c] + [d] + [e] + [Empty] == MessagePart(m);
  }

  // ---------- parts the reader skips ----------

  ghost predicate Skippable(lines: seq<Line>) {
    forall line <- lines :: Writable(line) && (line.Unused? || line.SubHeading? || line.SubEntry? || line.Empty?)
  }

  lemma SubPartIsSkippable(sub: Word, counter: Counter<string>)
    requires RegularTasks(counter)
    ensures Skippable(SubPart(sub, counter))
  {
    if counter != map[] {
      SubEntriesAre(Sorted(counter.Keys), counter);
    }
  }

  lemma SkippablePart(st: ReaderState, head: Head, rest: seq<Line>)
    requires SectionOf(head).OtherSection? && Skippable(rest)
    ensures Tells(st, [Heading(head)] + rest, st.(section := OtherSection))
  {
    var begun := st.(section := OtherSection);
    TellsOne(st, Heading(head));
    TellsNothing(begun, rest);
    TellsConcat(st, [Heading(head)], begun, rest, begun);
  }

  lemma TwoSubPartsTell(
    st: ReaderState, head: Head, first: Line, second: Line, a: seq<Line>, b: seq<Line>)
    requires SectionOf(head).OtherSection? && Skippable([first, second]) && Skippable(a) && Skippable(b)
    ensures Tells(st, [Heading(head), first, second] + a + b + [Empty], st.(section := OtherSection))
  {
    var rest := [first, second] + a + b + [Empty];
    SkippablePart(st, head, rest);
    assert [Heading(head), first, second] + a + b + [Empty] == [Heading(head)] + rest;
  }

  lemma FiguresAreSkippable(a: Word, m: nat, b: Word, n: nat)
    ensures Skippable([Unused(a, Digits(m)), Unused(b, Digits(n))])
  {
    NumbersAreNeat(m);
    NumbersAreNeat(n);
  }

  /** Everything between the fault counter and the root causes. */
  ghost function SummaryLines(r: HealthReport): seq<Line> {
    WatchdogPart(r) + FailurePart(r)
  }

  lemma SummariesTell(st: ReaderState, r: HealthReport)
    requires Regular(r) && st.section.OtherSection?
    ensures Tells(st, SummaryLines(r), st)
  {
    SubPartIsSkippable(TimeoutTasks, r.timeoutTasks);
    SubPartIsSkippable(RecoveredTasks, r.recoveredTasks);
    FiguresAreSkippable(WatchdogTimeouts, r.timeouts, TaskRecoveries, r.recoveries);
    TwoSubPartsTell(st, WatchdogHead,
      Unused(WatchdogTimeouts, Digits(r.timeouts)), Unused(TaskRecoveries, Digits(r.recoveries)),
      SubPart(TimeoutTasks, r.timeoutTasks), SubPart(RecoveredTasks, r.recoveredTasks));
    SubPartIsSkippable(FailedTasks, r.failedTasks);
    SubPartIsSkippable(SkippedTasks, r.skippedTasks);
    FiguresAreSkippable(TaskFailures, r.failures, TaskSkips, r.skips);
    TwoSubPartsTell(st, FailureHead, Unused(TaskFailures, Digits(r.failures)), Unused(TaskSkips, Digits(r.skips)),
      SubPart(FailedTasks, r.failedTasks), SubPart(SkippedTasks, r.skippedTasks));
    TellsConcat(st, WatchdogPart(r), st, FailurePart(r), st);
  }

  // ---------- causes and drivers ----------

  function WithCauses(st: ReaderState, texts: seq<string>): ReaderState {
    st.(response := st.response.(rootCauses := st.response.rootCauses + texts))
  }

  lemma {:induction false} BulletsTell(st: ReaderState, texts: seq<string>)
    requires st.section.RootCauses? && forall text <- texts :: FreeText(text)
    ensures Tells(st, Bullets(texts), WithCauses(st, texts))
  {
    if texts == [] {
      assert st.response.rootCauses + texts == st.response.rootCauses;
    } else {
      var init, last := texts[..|texts| - 1], texts[|texts| - 1];
      assert last in texts && forall text <- init :: text in texts;
      BulletsTell(st, init);
      TellsMore(st, Bullets(init), WithCauses(st, init), Bullet(last));
      ConcatAssociative(st.response.rootCauses, init, [last]);
      assert init + [last] == texts;
    }
  }

  lemma CausePartTells(st: ReaderState, causes: seq<string>)
    requires forall cause <- causes :: FreeText(cause)
    ensures Tells(st, CausePart(causes), WithCauses(st.(section := RootCauses), causes))
  {
    TellsOne(st, Heading(CauseHead));
    BulletsTell(st.(section := RootCauses), causes);
    TellsConcat(st, [Heading(CauseHead)], st.(section := RootCauses), Bullets(causes),
      WithCauses(st.(section := RootCauses), causes));
  }

  lemma NoneIsFree()
    ensures FreeText("none")
  {
  }

  lemma DetectorTitleTells(st: ReaderState, d: DetectorReport)
    requires st.section.RootCauses? && PrintableDetector(d)
    ensures Tells(st, DetectorTitle(d), st)
  {
    TellsNothing(st, DetectorTitle(d));
  }

  lemma DetectorTells(st: ReaderState, d: DetectorReport)
    requires st.section.RootCauses? && PrintableDetector(d)
    ensures Tells(st, DetectorLines(d), WithCauses(st, DriverTexts(d.drivers)))
  {
    var after := WithCauses(st, DriverTexts(d.drivers));
    var between := [Empty, SubHeading(WindowSummary)];
    NoneIsFree();
    DetectorTitleTells(st, d);
    BulletsTell(st, DriverTexts(d.drivers));
    TellsNothing(after, between);
    WindowLinesAre(d.windows);
    TellsNothing(after, WindowLines(d.windows));
    var bullets := Bullets(DriverTexts(d.drivers));
    TellsConcat(st, DetectorTitle(d), st, bullets, after);
    TellsConcat(st, DetectorTitle(d) + bullets, after, between, after);
    TellsConcat(st, DetectorTitle(d) + bullets + between, after, WindowLines(d.windows), after);
  }

  // ---------- the whole report ----------

  /** What the reader should get from a report. */
  function Recovered(r: HealthReport, causes: seq<string>): Response {
    Response(
      Some(HealthText(r.status)),
      Some(r.eventsLoaded),
      r.simulationName,
      r.schedulerMode,
      r.durationSeconds,
      Some(r.observedMs),
      AsRead(r.eventCounts),
      AsRead(r.severityCounts),
      ShownMetrics(r.metrics),
      ReadMessages(r.messages),
      causes)
  }

  function AfterCounts(r: HealthReport): ReaderState {
    ReaderState(SeverityCounts, None,
      Opened(r).(eventCounts := AsRead(r.eventCounts), severityCounts := AsRead(r.severityCounts)))
  }

  lemma CountsTell(r: HealthReport)
    requires Regular(r) && FreeCounter(r.eventCounts) && FreeCounter(r.severityCounts)
    ensures Tells(AtStart.(response := Opened(r)), CountLines(r), AfterCounts(r))
  {
    var start := AtStart.(response := Opened(r));
    var events := AfterCounter(start, EventHead, r.eventCounts);
    CounterPartTells(start, EventHead, r.eventCounts);
    CounterPartTells(events, SeverityHead, r.severityCounts);
    TellsConcat(start, CounterPart(EventHead, r.eventCounts), events,
      CounterPart(SeverityHead, r.severityCounts), AfterCounts(r));
  }

  /** All names and keys but those of the fault counter are read as they are. */
  ghost predicate FreeNames(r: HealthReport) {
    FreeTasks(r) && FreeCounter(r.eventCounts) && FreeCounter(r.severityCounts)
  }

  lemma FiguresTell(r: HealthReport)
    requires Regular(r) && FreeNames(r)
    ensures Tells(AtStart, FigureLines(r), AfterTaskPart(AfterCounts(r), r.metrics))
  {
    var start := AtStart.(response := Opened(r));
    OpeningTells(r);
    CountsTell(r);
    TaskPartTells(AfterCounts(r), r.metrics);
    TellsConcat(AtStart, OpeningLines(r), start, CountLines(r), AfterCounts(r));
    TellsConcat(AtStart, OpeningLines(r) + CountLines(r), AfterCounts(r), TaskPart(r.metrics),
      AfterTaskPart(AfterCounts(r), r.metrics));
  }
}
