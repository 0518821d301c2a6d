/** From an analysis to the texts that are printed, and why the anomaly report of any log can be printed so that the
    reader takes it in. */
module ReportTexts {
  import opened AnomalyFeatures
  import opened AnomalyReport
  import opened AnomalyScore
  import opened AnomalyWindows
  import opened Common
  import opened EventLog
  import opened HealthAnalyzer
  import opened LogFields
  import opened LogRecords
  import opened PlainText
  import opened ReportLines
  import opened ReportPrinter
  import opened ReportReading
  import opened ReportRoundTrip
  import opened ReportWords
  import opened RuntimeConfig
  import opened TextOrder
  import Parser = ReportParser

  function FaultWord(fault: FaultKind): string {
    match fault
    case SlowTask => "Slow-task"
    case CpuSpike => "CPU-spike"
    case DroppedMessages => "Dropped-message"
    case _ => "Task-crash"
  }

  const SKIP_REASON: string := " was skipped because it" + " remained in a failed state "

  const CRASH_REASON: string := " failed due to" + " simulated task crash "

  function TaskSentence(kind: Kind, task: string, times: nat): string {
    match kind
    case OnTimeout => "Watchdog timeout triggered for " + task + " " + Digits(times) + " time(s)."
    case OnRecovery => "Simulated recovery ran for " + task + " " + Digits(times) + " time(s)."
    case OnFailure => task + CRASH_REASON + Digits(times) + " time(s)."
    case _ => task + SKIP_REASON + Digits(times) + " time(s)."
  }

  function CauseText(c: Cause): string {
    match c
    case MissedDeadline(task, times) => task + " missed its deadline " + Digits(times) + " time(s)."
    case FaultActive(fault) => FaultWord(fault) + " fault injection was active."
    case QueuesFull => "One or more task queues became full," + " causing queue_full message drops."
    case IntentionalDrops => "Fault injection intentionally dropped" + " messages before enqueue."
    case Happened(kind, task, times) => TaskSentence(kind, task, times)
    case NothingDetected => "No faults, deadline misses, watchdog" + " events, or drops detected."
    case NoSingleCause => "Runtime showed warning signals, but" + " no single root cause dominated."
  }

  function CauseTexts(causes: seq<Cause>): (texts: seq<string>)
    ensures |texts| == |causes|
    ensures forall i | 0 <= i < |causes| :: texts[i] == CauseText(causes[i])
  {
    seq(|causes|, i requires 0 <= i < |causes| => CauseText(causes[i]))
  }

  function KindNames(records: seq<Record>): seq<string> {
    if records == [] then [] else KindNames(records[..|records| - 1]) + [KindName(records[|records| - 1].kind)]
  }

  function LevelNames(records: seq<Record>): seq<string> {
    if records == [] then [] else LevelNames(records[..|records| - 1]) + [LevelName(records[|records| - 1].level)]
  }

  function FaultNames(faults: seq<FaultKind>): seq<string> {
    if faults == [] then [] else FaultNames(faults[..|faults| - 1]) + [FaultName(faults[|faults| - 1])]
  }

  /** The health report of an analysis, ready to print. */
  function HealthReportOf(logFile: string, records: seq<Record>, a: Report): HealthReport {
    var f := a.findings;
    HealthReport(
      logFile,
      |records|,
      a.health,
      a.opening.simulationName,
      a.opening.schedulerMode,
      a.opening.durationSeconds,
      a.observedDurationMs,
      Counted(KindNames(records)),
      Counted(LevelNames(records)),
      f.metrics,
      MessageCounts(
        At(f.events, OnSent),
        At(f.events, OnReceived),
        At(f.events, OnDropped),
        At(f.drops, QueueFull),
        At(f.drops, FaultInjectedDrop)),
      Counted(FaultNames(FaultTypes(records))),
      At(f.events, OnTimeout),
      At(f.events, OnRecovery),
      f.timeouts,
      f.recoveries,
      At(f.events, OnFailure),
      At(f.events, OnSkip),
      f.failures,
      f.skips,
      CauseTexts(a.causes))
  }

  /** What the web report holds of a log, once its print is read as it was written. */
  ghost function Shown(logFile: string, records: seq<Record>, causes: seq<string>): Parser.Response {
    Recovered(HealthReportOf(logFile, records, ReportOf(records)), causes)
  }

  // ---------- the anomaly report ----------

  /** A score in hundredths, rounded to the nearest. */
  function HundredthsText(score: real): string {
    var scaled := (score * 100.0 + 0.5).Floor;
    var n: nat := if scaled < 0 then 0 else scaled;
    Digits(n / 100) + "." + [DigitChar(n % 100 / 10), DigitChar(n % 10)]
  }

  function Listing(names: seq<string>): string {
    if names == [] then ""
    else if |names| == 1 then names[0]
    else Listing(names[..|names| - 1]) + ", " + names[|names| - 1]
  }

  function RowOf(w: WindowAnalysis): WindowRow {
    WindowRow(
      if w.startMs < 0 then 0 else w.startMs,
      if w.endMs < 0 then 0 else w.endMs,
      HealthText(w.class_) + " score=" + HundredthsText(w.score) + " drivers=" +
        (if w.drivers == [] then "none" else Listing(w.drivers)))
  }

  function RowsOf(windows: seq<WindowAnalysis>): seq<WindowRow> {
    if windows == [] then [] else RowsOf(windows[..|windows| - 1]) + [RowOf(windows[|windows| - 1])]
  }

  /** The anomaly report, ready to print. */
  function DetectorReportOf(a: Anomalies): DetectorReport {
    DetectorReport(
      Digits(if a.windowMs < 0 then 0 else a.windowMs) + " ms",
      HealthText(a.overall),
      Digits(a.anomalyCount) + " / " + Digits(a.totalCount),
      HundredthsText(a.highestScore),
      a.topDrivers,
      RowsOf(a.windows))
  }

  // ---------- the anomaly report can always be printed ----------

  lemma FreeEnds(s: string, middle: string, t: string)
    requires FreeText(s) && OneLine(middle) && FreeText(t)
    ensures FreeText(s + middle + t)
  {
    var text := s + middle + t;
    assert text[0] == s[0] && text[|text| - 1] == t[|t| - 1];
  }

  lemma NumberIsFree(n: nat)
    ensures FreeText(Digits(n))
  {
    DigitsRead(n);
    assert Digits(n)[0] in Digits(n) && Digits(n)[|Digits(n)| - 1] in Digits(n);
  }

  lemma HundredthsAreFree(score: real)
    ensures FreeText(HundredthsText(score))
  {
    var scaled := (score * 100.0 + 0.5).Floor;
    var n: nat := if scaled < 0 then 0 else scaled;
    var last := [DigitChar(n % 100 / 10), DigitChar(n % 10)];
    NumberIsFree(n / 100);
    assert FreeText(last) && OneLine(".");
    FreeEnds(Digits(n / 100), ".", last);
  }

  predicate CountsMessages(f: Feature) {
    || f.MessageSentCount? || f.MessageReceivedCount? || f.MessageDroppedCount? || f.QueueFullDropCount?
    || f.FaultInjectedDropCount? || f.FaultInjectedCount?
  }

  lemma MessageFeatureChars(f: Feature)
    requires CountsMessages(f)
    ensures KeyChars(FeatureName(f))
  {
  }

  predicate CountsTasks(f: Feature) {
    f.TaskCompletedCount? || f.DeadlineMissedCount? || f.AvgTaskDurationMs? || f.MaxTaskDurationMs? || f.TaskFailedCount?
  }

  lemma TaskFeatureChars(f: Feature)
    requires CountsTasks(f)
    ensures KeyChars(FeatureName(f))
  {
  }

  lemma OtherFeatureChars(f: Feature)
    requires !CountsMessages(f) && !CountsTasks(f)
    ensures KeyChars(FeatureName(f))
  {
  }

  lemma FeatureChars(f: Feature)
    ensures KeyChars(FeatureName(f))
  {
    if CountsMessages(f) {
      MessageFeatureChars(f);
    } else if CountsTasks(f) {
      TaskFeatureChars(f);
    } else {
      OtherFeatureChars(f);
    }
  }

  lemma FeatureEnds(f: Feature)
    ensures Neat(FeatureName(f))
  {
  }

  lemma {:induction false} NamesAreFree(features: seq<Feature>)
    ensures forall name <- NamesOf(features) :: FreeText(name)
  {
    if features != [] {
      NamesAreFree(features[..|features| - 1]);
      FeatureChars(features[|features| - 1]);
      KeyCharsAreFree(FeatureName(features[|features| - 1]));
      FeatureEnds(features[|features| - 1]);
    }
  }

  lemma {:induction false} ListingIsFree(names: seq<string>)
    requires names != [] && forall name <- names :: FreeText(name)
    ensures FreeText(Listing(names))
  {
    assert names[0] in names && names[|names| - 1] in names;
    if |names| > 1 {
      assert forall name <- names[..|names| - 1] :: name in names;
      ListingIsFree(names[..|names| - 1]);
      FreeEnds(Listing(names[..|names| - 1]), ", ", names[|names| - 1]);
    }
  }

  lemma RowIsFree(w: WindowAnalysis)
    requires forall name <- w.drivers :: FreeText(name)
    ensures FreeText(RowOf(w).text)
  {
    var shown := if w.drivers == [] then "none" else Listing(w.drivers);
    HealthTextIsFree(w.class_);
    HundredthsAreFree(w.score);
    NoneIsFree();
    if w.drivers != [] {
      ListingIsFree(w.drivers);
    }
    FreeEnds(HealthText(w.class_), " score=", HundredthsText(w.score));
    FreeEnds(HealthText(w.class_) + " score=" + HundredthsText(w.score), " drivers=", shown);
  }

  ghost predicate FreeDrivers(windows: seq<WindowAnalysis>) {
    forall w <- windows :: forall name <- w.drivers :: FreeText(name)
  }

  lemma {:induction false} RowsAreFree(windows: seq<WindowAnalysis>)
    requires FreeDrivers(windows)
    ensures forall row <- RowsOf(windows) :: FreeText(row.text)
  {
    if windows != [] {
      var init, last := windows[..|windows| - 1], windows[|windows| - 1];
      assert last in windows && forall w <- init :: w in windows;
      RowsAreFree(init);
      RowIsFree(last);
    }
  }

  lemma {:induction false} AllDriversAreFree(windows: seq<WindowAnalysis>)
    requires FreeDrivers(windows)
    ensures forall name <- AllDrivers(windows) :: FreeText(name)
  {
    if windows != [] {
      var init, last := windows[..|windows| - 1], windows[|windows| - 1];
      assert last in windows && forall w <- init :: w in windows;
      AllDriversAreFree(init);
    }
  }

  lemma {:induction false} AnomalousAreWindows(windows: seq<WindowAnalysis>)
    ensures forall w <- AnomalousOf(windows) :: w in windows
  {
    if windows != [] {
      AnomalousAreWindows(windows[..|windows| - 1]);
      assert windows[|windows| - 1] in windows && forall w <- windows[..|windows| - 1] :: w in windows;
    }
  }

  lemma AnalysesNameFeatures(windows: seq<Window>)
    ensures FreeDrivers(AnalysesOf(RULES, windows))
  {
    forall w <- AnalysesOf(RULES, windows) ensures forall name <- w.drivers :: FreeText(name) {
      var k :| 0 <= k < |windows| && w == AnalysisOf(RULES, windows[k]);
      NamesAreFree(DriversOf(RULES, Extract(windows[k].records)));
    }
  }

  lemma DriversAreFree(windows: seq<WindowAnalysis>)
    requires FreeDrivers(windows)
    ensures forall name <- TopOverall(Counted(AllDrivers(AnomalousOf(windows)))) :: FreeText(name)
  {
    AnomalousAreWindows(windows);
    AllDriversAreFree(AnomalousOf(windows));
    TopOverallIsCommonest(Counted(AllDrivers(AnomalousOf(windows))));
  }

  lemma FiguresAreFree(windowMs: nat, count: nat, total: nat)
    ensures FreeText(Digits(windowMs) + " ms") && FreeText(Digits(count) + " / " + Digits(total))
  {
    NumberIsFree(windowMs);
    NumberIsFree(count);
    NumberIsFree(total);
    var text := Digits(windowMs) + " ms";
    assert text[0] == Digits(windowMs)[0] && text[|text| - 1] == 's';
    FreeEnds(Digits(count), " / ", Digits(total));
  }

  /** The anomaly report of any log can be printed so that the reader takes it in. */
  lemma DetectorIsPrintable(records: seq<Record>, windowMs: int)
    requires windowMs > 0
    ensures AnomaliesOf(RULES, records, windowMs).Ok?
    ensures PrintableDetector(DetectorReportOf(AnomaliesOf(RULES, records, windowMs).value))
  {
    var a := AnomaliesOf(RULES, records, windowMs).value;
    AnalysesNameFeatures(Windows(records, windowMs).value);
    FiguresAreFree(windowMs, a.anomalyCount, a.totalCount);
    HealthTextIsFree(a.overall);
    HundredthsAreFree(a.highestScore);
    DriversAreFree(a.windows);
    RowsAreFree(a.windows);
  }
}
