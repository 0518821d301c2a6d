/** The detector's answers, by the records. */
module DetectorFacts {
  import opened AnalyzersAgree
  import opened AnomalyFeatures
  import opened AnomalyReport
  import opened AnomalyScore
  import opened AnomalyWindows
  import opened EventLog
  import opened HealthAnalyzer
  import opened LogRecords
  import opened MetricFacts

  // ---------- the windows ----------

  /** Window `k` spans its own stretch of time. */
  ghost predicate Spans(w: Window, k: nat, windowMs: int) {
    w.startMs == k * windowMs && w.endMs == k * windowMs + windowMs - 1
  }

  lemma WindowSpans(records: seq<Record>, windowMs: int, k: nat)
    requires windowMs > 0
    ensures Spans(WindowAt(records, windowMs, k), k, windowMs)
  {
    StartIsProduct(k, windowMs);
  }

  lemma {:induction false} LatestIsAStamp(records: seq<Record>)
    ensures LatestStamp(records) == 0 ||
      exists r <- records :: r.timestampMs.Some? && r.timestampMs.value == LatestStamp(records)
  {
    if records != [] {
      var init, last := records[..|records| - 1], records[|records| - 1];
      LatestIsAStamp(init);
      assert records == init + [last];
    }
  }

  lemma CountSpans(records: seq<Record>, windowMs: int)
    requires windowMs > 0
    ensures
      var n := WindowCount(records, windowMs);
      (n - 1) * windowMs <= LatestStamp(records) < n * windowMs
  {
    var n := WindowCount(records, windowMs);
    IndexIsWithin(LatestStamp(records), windowMs);
    StartIsProduct(n - 1, windowMs);
    StartIsProduct(n, windowMs);
  }

  /** A log with a time stamp is split into windows of equal length from zero on, just enough of them for its latest
      stamp; one without stamps becomes a single window. */
  lemma WindowsAreLaidOut(records: seq<Record>, windowMs: int)
    requires windowMs > 0
    ensures
      var windows := Windows(records, windowMs).value;
      if exists r <- records :: r.timestampMs.Some? then
        && |windows| > 0
        && (forall k: nat | k < |windows| :: Spans(windows[k], k, windowMs))
        && (forall r <- records | r.timestampMs.Some? :: r.timestampMs.value < |windows| * windowMs)
        && (|windows| > 1 ==> exists r <- records ::
              r.timestampMs.Some? && (|windows| - 1) * windowMs <= r.timestampMs.value)
      else windows == [Window(0, windowMs, records)]
  {
    if !NoStamps(records) {
      CountSpans(records, windowMs);
      LatestIsAStamp(records);
      StampsBelow(records, windowMs);
      forall k: nat | k < |Windows(records, windowMs).value|
        ensures Spans(Windows(records, windowMs).value[k], k, windowMs)
      {
        WindowSpans(records, windowMs, k);
      }
      if WindowCount(records, windowMs) > 1 {
        AtLeastOne(WindowCount(records, windowMs) - 1, windowMs);
      }
    }
  }

  lemma AtLeastOne(n: nat, d: int)
    requires n > 0 && d > 0
    ensures n * d > 0
  {
  }

  lemma StampsBelow(records: seq<Record>, windowMs: int)
    requires windowMs > 0
    ensures forall r <- records | r.timestampMs.Some? :: r.timestampMs.value < WindowCount(records, windowMs) * windowMs
  {
    CountSpans(records, windowMs);
    forall r <- records | r.timestampMs.Some?
      ensures r.timestampMs.value < WindowCount(records, windowMs) * windowMs
    {
      StampsAreBelowLatest(records, r);
    }
  }

  /** A record belongs to the window that its time falls in; a missing or negative stamp counts as zero. */
  lemma WindowHolds(records: seq<Record>, windowMs: int, k: nat, r: Record)
    requires windowMs > 0 && k < |Windows(records, windowMs).value| && exists s <- records :: s.timestampMs.Some?
    ensures
      var at := if r.timestampMs.Some? && r.timestampMs.value >= 0 then r.timestampMs.value else 0;
      r in Windows(records, windowMs).value[k].records <==>
        r in records && k * windowMs <= at < k * windowMs + windowMs
  {
    MembersOfWindow(records, windowMs, k, r);
    HomeMeans(r, windowMs, k);
  }

  lemma HomeMeans(r: Record, windowMs: int, k: nat)
    requires windowMs > 0
    ensures Home(r, windowMs) == k <==> k * windowMs <= StampOf(r) < k * windowMs + windowMs
  {
    var home := Home(r, windowMs);
    IndexIsWithin(StampOf(r), windowMs);
    StartIsProduct(home, windowMs);
    StartIsProduct(home + 1, windowMs);
    if home < k {
      ProductGrows(home + 1, k, windowMs);
    } else if k < home {
      ProductGrows(k + 1, home, windowMs);
    }
  }

  lemma ProductGrows(m: nat, n: nat, d: int)
    requires m <= n && d > 0
    ensures m * d <= n * d
  {
    assert n * d - m * d == (n - m) * d;
  }

  // ---------- the features ----------

  lemma {:induction false} CountsAreTotals(records: seq<Record>, f: Feature)
    ensures CountOf(f, records) == Total(records, (r: Record) => One(Shows(f, r)))
  {
    if records != [] {
      CountsAreTotals(records[..|records| - 1], f);
    }
  }

  lemma {:induction false} SameTotals(records: seq<Record>, f: Record -> int, g: Record -> int)
    requires forall r: Record :: f(r) == g(r)
    ensures Total(records, f) == Total(records, g)
  {
    if records != [] {
      SameTotals(records[..|records| - 1], f, g);
    }
  }

  /** What each counting feature counts. */
  predicate Counts(f: Feature, r: Record) {
    || (f.ErrorEventCount? && r.level.ErrorLevel?)
    || (f.WarningEventCount? && r.level.WarningLevel?)
    || (f.TaskCompletedCount? && r.kind.OnCompletion?)
    || (f.DeadlineMissedCount? && r.kind.OnCompletion? && r.deadlineMissed)
    || (f.MessageSentCount? && r.kind.OnSent?)
    || (f.MessageReceivedCount? && r.kind.OnReceived?)
    || (f.MessageDroppedCount? && r.kind.OnDropped?)
    || (f.QueueFullDropCount? && r.kind.OnDropped? && r.reason == QueueFull)
    || (f.FaultInjectedDropCount? && r.kind.OnDropped? && r.reason == FaultInjectedDrop)
    || (f.FaultInjectedCount? && r.kind.OnFault?)
    || (f.TaskFailedCount? && r.kind.OnFailure?)
    || (f.TaskSkippedCount? && r.kind.OnSkip?)
    || (f.WatchdogTimeoutCount? && r.kind.OnTimeout?)
    || (f.TaskRecoveredCount? && r.kind.OnRecovery?)
  }

  lemma CountsIsShows(f: Feature, r: Record)
    ensures Counts(f, r) <==> Shows(f, r)
  {
  }

  /** A counting feature is the number of records of the window that it counts. */
  lemma FeaturesCountRecords(records: seq<Record>, f: Feature)
    requires !f.AvgTaskDurationMs? && !f.MaxTaskDurationMs?
    ensures Extract(records)[f] == Total(records, (r: Record) => One(Counts(f, r))) as real
  {
    CountsAreTotals(records, f);
    forall r: Record ensures Counts(f, r) <==> Shows(f, r) {
      CountsIsShows(f, r);
    }
    SameTotals(records, (r: Record) => One(Shows(f, r)), (r: Record) => One(Counts(f, r)));
  }

  lemma {:induction false} DurationsAreTotals(records: seq<Record>)
    ensures |DurationsOf(records)| == Total(records, (r: Record) => One(r.kind.OnCompletion?))
    ensures SumOf(DurationsOf(records)) ==
      Total(records, (r: Record) => if r.kind.OnCompletion? then r.observedDurationMs else 0)
  {
    if records != [] {
      DurationsAreTotals(records[..|records| - 1]);
    }
  }

  lemma {:induction false} DurationIsOfRecord(records: seq<Record>, x: int)
    ensures x in DurationsOf(records) <==> exists r <- records :: r.kind.OnCompletion? && r.observedDurationMs == x
  {
    if records != [] {
      var init, last := records[..|records| - 1], records[|records| - 1];
      DurationIsOfRecord(init, x);
      assert records == init + [last];
    }
  }

  /** The average duration times the number of completions is their total, and zero without any. */
  lemma AverageTellsTheRecords(records: seq<Record>)
    ensures
      var completions := Total(records, (r: Record) => One(r.kind.OnCompletion?));
      var total := Total(records, (r: Record) => if r.kind.OnCompletion? then r.observedDurationMs else 0);
      && Extract(records)[AvgTaskDurationMs] * completions as real == total as real
      && (completions == 0 ==> Extract(records)[AvgTaskDurationMs] == 0.0)
  {
    DurationsAreTotals(records);
    AverageTimesCount(DurationsOf(records));
  }

  /** The longest duration is that of one of the completions and no less than any other; it is zero without any. */
  lemma LongestTellsTheRecords(records: seq<Record>)
    ensures
      var longest := Extract(records)[MaxTaskDurationMs];
      if exists r <- records :: r.kind.OnCompletion? then
        && (exists r <- records :: r.kind.OnCompletion? && r.observedDurationMs as real == longest)
        && (forall r <- records | r.kind.OnCompletion? :: r.observedDurationMs as real <= longest)
      else longest == 0.0
  {
    var durations := DurationsOf(records);
    if durations != [] {
      MaxIsLargest(durations);
      DurationIsOfRecord(records, MaxOf(durations));
    }
    forall r <- records | r.kind.OnCompletion? ensures r.observedDurationMs in durations {
      DurationIsOfRecord(records, r.observedDurationMs);
    }
  }

  // ---------- the score ----------

  /** A rule adds its whole weight from its saturation on, a proportional part of it below, and nothing for a value
      that is not positive. */
  lemma ShareMeans(rule: Rule, features: Features)
    requires rule.saturation > 0.0
    ensures
      var value, share := Value(features, rule.feature), Share(rule, features);
      && (value >= rule.saturation ==> share == rule.weight)
      && (0.0 < value < rule.saturation ==> share * rule.saturation == rule.weight * value)
      && (value <= 0.0 ==> share == 0.0)
  {
    var value := Value(features, rule.feature);
    if value >= rule.saturation {
      AtLeastWhole(value, rule.saturation);
      assert rule.weight * 1.0 == rule.weight;
    } else if value > 0.0 {
      BelowWhole(value, rule.saturation);
      Regrouped(rule.weight, value / rule.saturation, rule.saturation);
    }
  }

  lemma AtLeastWhole(a: real, b: real)
    requires a >= b > 0.0
    ensures a / b >= 1.0
  {
  }

  lemma BelowWhole(a: real, b: real)
    requires b > 0.0 && a < b
    ensures a / b < 1.0
    ensures a / b * b == a
  {
  }

  lemma Regrouped(w: real, q: real, s: real)
    ensures w * q * s == w * (q * s)
  {
  }

  /** The part of a rule's weight that a value earns. */
  function Earned(value: real, saturation: real): real
    requires saturation > 0.0
  {
    if value <= 0.0 then 0.0 else if value < saturation then value / saturation else 1.0
  }

  lemma ShareIsEarned(rule: Rule, features: Features)
    requires rule.saturation > 0.0
    ensures Share(rule, features) == rule.weight * Earned(Value(features, rule.feature), rule.saturation)
  {
    var value := Value(features, rule.feature);
    if value >= rule.saturation {
      AtLeastWhole(value, rule.saturation);
    } else if value > 0.0 {
      BelowWhole(value, rule.saturation);
    } else {
      assert rule.weight * 0.0 == 0.0;
    }
  }

  lemma OneShareMore(rules: seq<Rule>, features: Features, n: nat, rule: Rule)
    requires ValidRules(rules) && n < |rules| && rules[n] == rule
    ensures ValidRules(rules[..n]) && ValidRules(rules[..n + 1])
    ensures SumShares(rules[..n + 1], features) == SumShares(rules[..n], features) +
      rule.weight * Earned(Value(features, rule.feature), rule.saturation)
  {
    assert rules[..n + 1][..n] == rules[..n];
    ShareIsEarned(rule, features);
  }

  lemma FirstShares(v: Features)
    requires Whole(v)
    ensures SumShares(RULES[..4], v) ==
      0.45 * Earned(v[TaskFailedCount], 1.0) +
      0.30 * Earned(v[TaskSkippedCount], 3.0) +
      0.35 * Earned(v[WatchdogTimeoutCount], 1.0) +
      0.25 * Earned(v[TaskRecoveredCount], 1.0)
  {
    var rules := RULES;
    assert SumShares(rules[..0], v) == 0.0;
    OneShareMore(rules, v, 0, Rule(TaskFailedCount, 0.45, 1.0));
    OneShareMore(rules, v, 1, Rule(TaskSkippedCount, 0.30, 3.0));
    OneShareMore(rules, v, 2, Rule(WatchdogTimeoutCount, 0.35, 1.0));
    OneShareMore(rules, v, 3, Rule(TaskRecoveredCount, 0.25, 1.0));
  }

  lemma MiddleShares(v: Features)
    requires Whole(v)
    ensures SumShares(RULES[..9], v) == SumShares(RULES[..4], v) +
      0.25 * Earned(v[DeadlineMissedCount], 3.0) +
      0.20 * Earned(v[FaultInjectedCount], 10.0) +
      0.18 * Earned(v[FaultInjectedDropCount], 5.0) +
      0.15 * Earned(v[MessageDroppedCount], 25.0) +
      0.12 * Earned(v[QueueFullDropCount], 25.0)
  {
    var rules := RULES;
    OneShareMore(rules, v, 4, Rule(DeadlineMissedCount, 0.25, 3.0));
    OneShareMore(rules, v, 5, Rule(FaultInjectedCount, 0.20, 10.0));
    OneShareMore(rules, v, 6, Rule(FaultInjectedDropCount, 0.18, 5.0));
    OneShareMore(rules, v, 7, Rule(MessageDroppedCount, 0.15, 25.0));
    OneShareMore(rules, v, 8, Rule(QueueFullDropCount, 0.12, 25.0));
  }

  lemma LastShares(v: Features)
    requires Whole(v)
    ensures SumShares(RULES, v) == SumShares(RULES[..9], v) +
      0.25 * Earned(v[ErrorEventCount], 1.0) +
      0.08 * Earned(v[WarningEventCount], 25.0) +
      0.18 * Earned(v[MaxTaskDurationMs], 100.0) +
      0.10 * Earned(v[AvgTaskDurationMs], 60.0)
  {
    var rules := RULES;
    OneShareMore(rules, v, 9, Rule(ErrorEventCount, 0.25, 1.0));
    OneShareMore(rules, v, 10, Rule(WarningEventCount, 0.08, 25.0));
    OneShareMore(rules, v, 11, Rule(MaxTaskDurationMs, 0.18, 100.0));
    OneShareMore(rules, v, 12, Rule(AvgTaskDurationMs, 0.10, 60.0));
    assert rules[..13] == rules;
  }

  /** The score of the detector's own table, written out: the sum of what the thirteen features earn, cut off at one. */
  lemma ScoreInFull(v: Features)
    requires Whole(v)
    ensures
      var sum :=
        0.45 * Earned(v[TaskFailedCount], 1.0) +
        0.30 * Earned(v[TaskSkippedCount], 3.0) +
        0.35 * Earned(v[WatchdogTimeoutCount], 1.0) +
        0.25 * Earned(v[TaskRecoveredCount], 1.0) +
        0.25 * Earned(v[DeadlineMissedCount], 3.0) +
        0.20 * Earned(v[FaultInjectedCount], 10.0) +
        0.18 * Earned(v[FaultInjectedDropCount], 5.0) +
        0.15 * Earned(v[MessageDroppedCount], 25.0) +
        0.12 * Earned(v[QueueFullDropCount], 25.0) +
        0.25 * Earned(v[ErrorEventCount], 1.0) +
        0.08 * Earned(v[WarningEventCount], 25.0) +
        0.18 * Earned(v[MaxTaskDurationMs], 100.0) +
        0.10 * Earned(v[AvgTaskDurationMs], 60.0);
      ScoreOf(RULES, v) == if sum < 1.0 then sum else 1.0
  {
    FirstShares(v);
    MiddleShares(v);
    LastShares(v);
  }

  // ---------- the classes ----------

  /** Anything that keeps a window from being normal. */
  ghost predicate Suspicious(rules: RuleTable, w: Window) {
    || (exists r <- w.records :: Alarming(r))
    || Strained(rules, w)
    || ScoreOf(rules, Extract(w.records)) >= 0.25
  }

  lemma WindowNormalExactly(rules: RuleTable, w: Window)
    ensures AnalysisOf(rules, w).class_.NORMAL? <==> !Suspicious(rules, w)
  {
    WindowUnstableExactly(rules, w);
  }

  lemma OverallNormalExactly(analyses: seq<WindowAnalysis>)
    ensures Overall(analyses).NORMAL? <==> forall k: nat | k < |analyses| :: analyses[k].class_.NORMAL?
  {
    if k: nat :| k < |analyses| && !analyses[k].class_.NORMAL? {
      assert analyses[k] in analyses;
    }
    if !Overall(analyses).NORMAL? {
      var a :| a in analyses && !a.class_.NORMAL?;
    }
  }

  /** For any log, window length and rule table, the detector calls the log normal exactly when no window of it has an
      alarm, is strained or scores at least 0.25. As `DetectorUnstableExactly` says when it is unstable, this says
      when it is only a warning. */
  lemma DetectorNormalExactly(rules: RuleTable, records: seq<Record>, windowMs: int)
    requires windowMs > 0
    ensures AnomaliesOf(rules, records, windowMs).value.overall.NORMAL? <==>
      forall w <- Windows(records, windowMs).value :: !Suspicious(rules, w)
  {
    var windows := Windows(records, windowMs).value;
    OverallNormalExactly(AnalysesOf(rules, windows));
    forall w <- windows ensures AnalysisOf(rules, w).class_.NORMAL? <==> !Suspicious(rules, w) {
      WindowNormalExactly(rules, w);
    }
    assert forall k: nat | k < |windows| :: windows[k] in windows;
  }

  /** The positions of the suspicious windows. */
  ghost predicate SuspiciousAt(rules: RuleTable, windows: seq<Window>, at: seq<nat>) {
    && (forall i, j | 0 <= i < j < |at| :: at[i] < at[j])
    && (forall k: nat :: k in at <==> k < |windows| && Suspicious(rules, windows[k]))
  }

  ghost predicate PicksFrom<T(!new)>(picked: seq<T>, items: seq<T>, at: seq<nat>) {
    |picked| == |at| && forall i | 0 <= i < |at| :: at[i] < |items| && picked[i] == items[at[i]]
  }

  /** The positions that are marked. */
  function Marked(marks: seq<bool>): (at: seq<nat>)
    ensures forall i, j | 0 <= i < j < |at| :: at[i] < at[j]
    ensures forall k: nat :: k in at <==> k < |marks| && marks[k]
  {
    if marks == [] then []
    else
      var n := |marks| - 1;
      var earlier := Marked(marks[..n]);
      assert forall i | 0 <= i < |earlier| :: earlier[i] in earlier;
      if marks[n] then earlier + [n] else earlier
  }

  lemma MarkedOneMore(marks: seq<bool>, mark: bool)
    ensures Marked(marks + [mark]) == if mark then Marked(marks) + [|marks|] else Marked(marks)
  {
    assert (marks + [mark])[..|marks|] == marks;
  }

  lemma PicksOneMore<T(!new)>(picked: seq<T>, items: seq<T>, x: T, at: seq<nat>)
    requires PicksFrom(picked, items, at)
    ensures PicksFrom(picked, items + [x], at)
    ensures PicksFrom(picked + [x], items + [x], at + [|items|])
  {
  }

  ghost function MarksOf(rules: RuleTable, windows: seq<Window>): (marks: seq<bool>)
    ensures |marks| == |windows|
    ensures forall k | 0 <= k < |windows| :: marks[k] == Suspicious(rules, windows[k])
  {
    if windows == [] then []
    else MarksOf(rules, windows[..|windows| - 1]) + [Suspicious(rules, windows[|windows| - 1])]
  }

  lemma AnomalousOneMore(analyses: seq<WindowAnalysis>, a: WindowAnalysis)
    ensures AnomalousOf(analyses + [a]) ==
      if a.class_.NORMAL? then AnomalousOf(analyses) else AnomalousOf(analyses) + [a]
  {
    assert (analyses + [a])[..|analyses|] == analyses;
  }

  lemma {:induction false} AnomalousArePicked(rules: RuleTable, windows: seq<Window>)
    ensures PicksFrom(AnomalousOf(AnalysesOf(rules, windows)), AnalysesOf(rules, windows), Marked(MarksOf(rules, windows)))
  {
    if windows != [] {
      var init, w := windows[..|windows| - 1], windows[|windows| - 1];
      AnomalousArePicked(rules, init);
      WindowNormalExactly(rules, w);
      AnomalousOneMore(AnalysesOf(rules, init), AnalysisOf(rules, w));
      MarkedOneMore(MarksOf(rules, init), Suspicious(rules, w));
      PicksOneMore(AnomalousOf(AnalysesOf(rules, init)), AnalysesOf(rules, init), AnalysisOf(rules, w),
        Marked(MarksOf(rules, init)));
    }
  }

  lemma {:induction false} HighestIsReached(analyses: seq<WindowAnalysis>)
    requires analyses != []
    ensures forall a <- analyses :: a.score <= HighestScore(analyses)
    ensures exists a <- analyses :: a.score == HighestScore(analyses)
  {
    var n := |analyses| - 1;
    assert analyses == analyses[..n] + [analyses[n]];
    if n > 0 {
      HighestIsReached(analyses[..n]);
      if HighestScore(analyses) == HighestScore(analyses[..n]) {
        var a :| a in analyses[..n] && a.score == HighestScore(analyses[..n]);
        assert a in analyses;
      }
    }
  }

  /** How often the windows name a driver. */
  function TimesNamed(analyses: seq<WindowAnalysis>, name: string): nat {
    if analyses == [] then 0
    else
      TimesNamed(analyses[..|analyses| - 1], name) + Occurrences(analyses[|analyses| - 1].drivers, name)
  }

  lemma {:induction false} DriversAreNamed(analyses: seq<WindowAnalysis>, name: string)
    ensures Occurrences(AllDrivers(analyses), name) == TimesNamed(analyses, name)
  {
    if analyses != [] {
      var n := |analyses| - 1;
      DriversAreNamed(analyses[..n], name);
      OccurrencesConcat(AllDrivers(analyses[..n]), analyses[n].drivers, name);
    }
  }

  /** The drivers of the report are the commonest by these counts; see `AnomalyReport.TopOverallIsCommonest`. */
  ghost predicate RankedBy(top: seq<string>, anomalous: seq<WindowAnalysis>) {
    exists counts: Counter<string> :: top == TopOverall(counts) && CountsNames(counts, anomalous)
  }

  ghost predicate CountsNames(counts: Counter<string>, anomalous: seq<WindowAnalysis>) {
    && (forall name: string :: At(counts, name) == TimesNamed(anomalous, name))
    && (forall name <- counts :: counts[name] > 0)
  }

  lemma HighestOfWindows(rules: RuleTable, windows: seq<Window>)
    requires windows != []
    ensures
      var highest := HighestScore(AnalysesOf(rules, windows));
      && (forall w <- windows :: ScoreOf(rules, Extract(w.records)) <= highest)
      && (exists w <- windows :: ScoreOf(rules, Extract(w.records)) == highest)
  {
    var analyses := AnalysesOf(rules, windows);
    HighestIsReached(analyses);
    forall w <- windows ensures ScoreOf(rules, Extract(w.records)) <= HighestScore(analyses) {
      var k: nat :| k < |windows| && windows[k] == w;
      assert analyses[k] in analyses;
    }
    var a :| a in analyses && a.score == HighestScore(analyses);
    var k: nat :| k < |analyses| && analyses[k] == a;
    assert windows[k] in windows;
  }

  /** The figures of the detector's report: the windows counted as anomalies are the suspicious ones, the highest
      score is that of a window and no less than any other's, and the drivers are the commonest among the anomalies. */
  lemma DetectorFigures(rules: RuleTable, records: seq<Record>, windowMs: int)
    returns (at: seq<nat>, anomalous: seq<WindowAnalysis>)
    requires windowMs > 0
    ensures SuspiciousAt(rules, Windows(records, windowMs).value, at)
    ensures
      var windows, report := Windows(records, windowMs).value, AnomaliesOf(rules, records, windowMs).value;
      && PicksFrom(anomalous, report.windows, at)
      && report.anomalyCount == |at|
      && report.totalCount == |report.windows| == |windows|
      && (forall w <- windows :: ScoreOf(rules, Extract(w.records)) <= report.highestScore)
      && (exists w <- windows :: ScoreOf(rules, Extract(w.records)) == report.highestScore)
      && RankedBy(report.topDrivers, anomalous)
  {
    var windows := Windows(records, windowMs).value;
    var analyses := AnalysesOf(rules, windows);
    at := Marked(MarksOf(rules, windows));
    AnomalousArePicked(rules, windows);
    anomalous := AnomalousOf(analyses);
    HighestOfWindows(rules, windows);
    var counts := Counted(AllDrivers(anomalous));
    forall name: string ensures At(counts, name) == TimesNamed(anomalous, name) {
      DriversAreNamed(anomalous, name);
    }
    assert CountsNames(counts, anomalous);
  }
}
