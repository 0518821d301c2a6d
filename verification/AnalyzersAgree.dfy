/** Where both analyzers must agree. */
module AnalyzersAgree {
  import opened Accounting
  import opened AnomalyFeatures
  import opened AnomalyReport
  import opened AnomalyScore
  import opened AnomalyWindows
  import opened Common
  import opened EventLog
  import opened HealthAnalyzer
  import opened HealthFacts
  import opened LogRecords
  import opened Machine
  import opened RunFacts
  import opened RunTrace
  import opened TruthfulMetrics
  import opened TruthfulVerdict

  /** A record that both analyzers take as a sign of instability by itself. */
  predicate Alarming(r: Record) {
    r.kind.OnFailure? || r.kind.OnTimeout? || r.kind.OnRecovery?
  }

  lemma {:induction false} CountMeans(f: Feature, records: seq<Record>)
    ensures CountOf(f, records) > 0 <==> exists r <- records :: Shows(f, r)
  {
    if records != [] {
      CountMeans(f, records[..|records| - 1]);
      assert records == records[..|records| - 1] + [records[|records| - 1]];
    }
  }

  ghost predicate HasAlarm(records: seq<Record>) {
    exists r <- records :: Alarming(r)
  }

  /** A window that the detector's limits on skips, flagged completions or the score make unstable. */
  predicate Strained(rules: RuleTable, w: Window) {
    || CountOf(TaskSkippedCount, w.records) >= 3
    || CountOf(DeadlineMissedCount, w.records) >= 3
    || ScoreOf(rules, Extract(w.records)) >= 0.70
  }

  lemma AlarmsAreCounted(records: seq<Record>)
    ensures HasAlarm(records) <==>
      || CountOf(TaskFailedCount, records) > 0
      || CountOf(WatchdogTimeoutCount, records) > 0
      || CountOf(TaskRecoveredCount, records) > 0
  {
    CountMeans(TaskFailedCount, records);
    CountMeans(WatchdogTimeoutCount, records);
    CountMeans(TaskRecoveredCount, records);
    forall r <- records
      ensures Alarming(r) <==> Shows(TaskFailedCount, r) || Shows(WatchdogTimeoutCount, r) || Shows(TaskRecoveredCount, r)
    {
    }
  }

  lemma FeatureIsCount(records: seq<Record>, f: Feature)
    requires !f.AvgTaskDurationMs? && !f.MaxTaskDurationMs?
    ensures Value(Extract(records), f) == CountOf(f, records) as real
  {
  }

  lemma WindowUnstableExactly(rules: RuleTable, w: Window)
    ensures AnalysisOf(rules, w).class_.UNSTABLE? <==> HasAlarm(w.records) || Strained(rules, w)
  {
    AlarmsAreCounted(w.records);
    FeatureIsCount(w.records, TaskFailedCount);
    FeatureIsCount(w.records, WatchdogTimeoutCount);
    FeatureIsCount(w.records, TaskRecoveredCount);
    FeatureIsCount(w.records, TaskSkippedCount);
    FeatureIsCount(w.records, DeadlineMissedCount);
  }

  lemma WorstWindow(analyses: seq<WindowAnalysis>, k: nat)
    requires k < |analyses| && analyses[k].class_.UNSTABLE?
    ensures Overall(analyses).UNSTABLE?
  {
    assert analyses[k] in analyses;
  }

  lemma SomeWindow(analyses: seq<WindowAnalysis>) returns (k: nat)
    requires Overall(analyses).UNSTABLE?
    ensures k < |analyses| && analyses[k].class_.UNSTABLE?
  {
    var a :| a in analyses && a.class_.UNSTABLE?;
    k :| k < |analyses| && analyses[k] == a;
  }

  lemma OverallUnstableExactly(rules: RuleTable, windows: seq<Window>)
    ensures Overall(AnalysesOf(rules, windows)).UNSTABLE? <==> exists w <- windows :: AnalysisOf(rules, w).class_.UNSTABLE?
  {
    if w :| w in windows && AnalysisOf(rules, w).class_.UNSTABLE? {
      var k: nat :| k < |windows| && windows[k] == w;
      WorstWindow(AnalysesOf(rules, windows), k);
    }
    if Overall(AnalysesOf(rules, windows)).UNSTABLE? {
      var k := SomeWindow(AnalysesOf(rules, windows));
      assert windows[k] in windows;
    }
  }

  /** Splitting a log into windows neither loses an alarm nor makes one up. */
  lemma AlarmsStayInWindows(records: seq<Record>, windowMs: int)
    requires windowMs > 0
    ensures HasAlarm(records) <==> exists w <- Windows(records, windowMs).value :: HasAlarm(w.records)
  {
    var windows := Windows(records, windowMs).value;
    if r :| r in records && Alarming(r) {
      var k := WindowsPartition(records, windowMs, r);
      assert windows[k] in windows && HasAlarm(windows[k].records);
    }
    if w :| w in windows && HasAlarm(w.records) {
      var r :| r in w.records && Alarming(r);
      WindowHoldsRecords(records, windowMs, w, r);
    }
  }

  lemma WindowHoldsRecords(records: seq<Record>, windowMs: int, w: Window, r: Record)
    requires windowMs > 0 && w in Windows(records, windowMs).value && r in w.records
    ensures r in records
  {
    if !NoStamps(records) {
      var k: nat :| k < |Windows(records, windowMs).value| && Windows(records, windowMs).value[k] == w;
      MembersOfWindow(records, windowMs, k, r);
    }
  }

  /** For any log, window length and rule table, the detector calls the log unstable exactly when it has a failure,
      timeout or recovery anywhere, or some window of it has three skips, three completions flagged as missed,
      or a score of at least 0.70. */
  lemma DetectorUnstableExactly(rules: RuleTable, records: seq<Record>, windowMs: int)
    requires windowMs > 0
    ensures AnomaliesOf(rules, records, windowMs).value.overall.UNSTABLE? <==>
      || (exists r <- records :: Alarming(r))
      || (exists w <- Windows(records, windowMs).value :: Strained(rules, w))
  {
    var windows := Windows(records, windowMs).value;
    OverallUnstableExactly(rules, windows);
    AlarmsStayInWindows(records, windowMs);
    forall w <- windows
      ensures AnalysisOf(rules, w).class_.UNSTABLE? <==> HasAlarm(w.records) || Strained(rules, w)
    {
      WindowUnstableExactly(rules, w);
    }
  }

  /** Any log with a task failure, watchdog timeout or recovery is unstable to both analyzers, whatever
      the window length. */
  lemma AlarmsAgree(rules: RuleTable, records: seq<Record>, windowMs: int, r: Record)
    requires windowMs > 0 && r in records && Alarming(r)
    ensures FindingsOf(records).Health().UNSTABLE?
    ensures AnomaliesOf(rules, records, windowMs).value.overall.UNSTABLE?
  {
    UnstableExactly(records);
    assert Severe(r);
    DetectorUnstableExactly(rules, records, windowMs);
  }

  lemma {:induction false} SkipsAreTallied(history: seq<Entry>, x: nat)
    ensures TallyOf(history, x).skips > 0 <==> exists e <- history :: e.task == x && e.outcome.Skipped?
    ensures TallyOf(history, x).failures > 0 <==> exists e <- history :: e.task == x && e.outcome.Failed?
  {
    if history != [] {
      SkipsAreTallied(history[..|history| - 1], x);
      assert history == history[..|history| - 1] + [history[|history| - 1]];
    }
  }

  /** A task is only skipped after it has failed. */
  lemma SkipsFollowFailures(p: Plan, first: World, run: seq<Label>, e: Entry)
    requires Initial(p, first) && Legal(p, first, run)
    requires e in Reach(p, first, run).sys.history && e.outcome.Skipped?
    ensures exists f <- Reach(p, first, run).sys.history :: f.task == e.task && f.outcome.Failed?
  {
    var s := Reach(p, first, run).sys;
    AccountedHolds(p, first, run);
    ShapeHolds(p, first, run);
    assert Accounted(p, s, e.task);
    SkipsAreTallied(s.history, e.task);
  }

  lemma FileHas(p: Plan, first: World, run: seq<Label>, lines: seq<Stamped>, e: Entry, d: Deed)
    returns (line: Stamped)
    requires Initial(p, first) && Legal(p, first, run) && Writes(lines, Reach(p, first, run).sys)
    requires e in Reach(p, first, run).sys.history
    requires d in EntryDeeds(NameAt(first.sys.tasks, e.task), e.outcome)
    ensures DeedOf(line.event) == Some(d) && Read(line) in ReadAll(lines)
  {
    var s := Reach(p, first, run).sys;
    assert DidIn(first.sys.tasks, e, d);
    ToldHas(first.sys.tasks, s.history, d);
    LogTellsTheRun(p, first, run);
    ClosingHasNoTrace(s);
    TraceHas(Events(lines), d);
    var event :| event in Events(lines) && DeedOf(event) == Some(d);
    line := LineOfEvent(lines, event);
  }

  lemma EntryAlarms(p: Plan, first: World, run: seq<Label>, lines: seq<Stamped>, e: Entry) returns (r: Record)
    requires Initial(p, first) && Legal(p, first, run) && Writes(lines, Reach(p, first, run).sys)
    requires e in Reach(p, first, run).sys.history
    requires e.outcome.Failed? || (e.outcome.Ran? && e.outcome.alert.Some?)
    ensures r in ReadAll(lines) && Alarming(r)
  {
    var name := NameAt(first.sys.tasks, e.task);
    var d := if e.outcome.Failed? then DeedFailure(name) else DeedTimeout(e.outcome.alert.value.task);
    AlarmIsTold(name, e.outcome, d);
    var line := FileHas(p, first, run, lines, e, d);
    AlarmIsRead(line, d);
    r := Read(line);
  }

  lemma AlarmIsRead(line: Stamped, d: Deed)
    requires DeedOf(line.event) == Some(d) && (d.DeedFailure? || d.DeedTimeout?)
    ensures Alarming(Read(line))
  {
  }

  lemma AlarmIsTold(name: string, outcome: Outcome, d: Deed)
    requires outcome.Failed? || (outcome.Ran? && outcome.alert.Some?)
    requires d == if outcome.Failed? then DeedFailure(name) else DeedTimeout(outcome.alert.value.task)
    ensures d in EntryDeeds(name, outcome)
  {
    if outcome.Ran? {
      assert d in AlertDeeds(outcome.alert);
    }
  }

  /** On the file of a run, any failure, skip or watchdog alert makes both verdicts unstable. A single skip is
      enough, although the detector's own rule asks for three in one window, as a failure comes before it. */
  lemma VerdictsAgreeOnRuns(p: Plan, first: World, run: seq<Label>, lines: seq<Stamped>, rules: RuleTable, windowMs: int)
    requires Initial(p, first) && Legal(p, first, run) && Writes(lines, Reach(p, first, run).sys)
    requires windowMs > 0 && HistoryHas(Grave, Reach(p, first, run).sys.history)
    ensures FindingsOf(ReadAll(lines)).Health().UNSTABLE?
    ensures AnomaliesOf(rules, ReadAll(lines), windowMs).value.overall.UNSTABLE?
  {
    var history := Reach(p, first, run).sys.history;
    var e :| e in history && EntryHas(Grave, e);
    if e.outcome.Skipped? {
      SkipsFollowFailures(p, first, run, e);
      e :| e in history && e.outcome.Failed?;
    }
    var r := EntryAlarms(p, first, run, lines, e);
    AlarmsAgree(rules, ReadAll(lines), windowMs, r);
  }

  /** The lines a logger writes are in time order for the window split. */
  lemma LogsAreInTimeOrder(lines: seq<Stamped>)
    requires TimeOrdered(lines)
    ensures InTimeOrder(ReadAll(lines))
  {
    forall i, j | 0 <= i < j < |lines| ensures StampOf(Read(lines[i])) <= StampOf(Read(lines[j])) {
      StampIsKept(lines[i]);
      StampIsKept(lines[j]);
      assert lines[i].timestampMs <= lines[j].timestampMs;
    }
  }

  lemma StampIsKept(line: Stamped)
    ensures Read(line).timestampMs == Some(line.timestampMs)
  {
  }

  // ---------- where they differ ----------

  /** Only two rules of the table contribute. */
  ghost predicate OnlyTwo(rules: seq<Rule>, features: Features, i: nat, j: nat)
    requires ValidRules(rules)
  {
    forall k | 0 <= k < |rules| && k != i && k != j :: Value(features, rules[k].feature) <= 0.0
  }

  lemma {:induction false} SumOfTwo(rules: seq<Rule>, features: Features, i: nat, j: nat)
    requires ValidRules(rules) && i < j && OnlyTwo(rules, features, i, j)
    ensures SumShares(rules, features) ==
      (if i < |rules| then Share(rules[i], features) else 0.0) + (if j < |rules| then Share(rules[j], features) else 0.0)
  {
    if rules != [] {
      SumOfTwo(rules[..|rules| - 1], features, i, j);
    }
  }

  lemma SkipFeatures(r: Record)
    requires r == Bare(0, OnSkip, WarningLevel)
    ensures forall f: Feature ::
      Extract([r])[f] == if f.TaskSkippedCount? || f.WarningEventCount? then 1.0 else 0.0
  {
    assert [r][..0] == [];
    assert DurationsOf([r]) == DurationsOf([]) == [];
    forall f: Feature
      ensures Extract([r])[f] == if f.TaskSkippedCount? || f.WarningEventCount? then 1.0 else 0.0
    {
      assert CountOf(f, [r]) == if Shows(f, r) then 1 else 0;
    }
  }

  lemma SkipScore(features: Features)
    requires Whole(features)
    requires forall f: Feature :: features[f] == if f.TaskSkippedCount? || f.WarningEventCount? then 1.0 else 0.0
    ensures SumShares(RULES, features) == 0.1032
  {
    var rules := RULES;
    assert rules[1] == Rule(TaskSkippedCount, 0.30, 3.0) && rules[10] == Rule(WarningEventCount, 0.08, 25.0);
    forall k | 0 <= k < |rules| && k != 1 && k != 10 ensures Value(features, rules[k].feature) <= 0.0 {
      assert !rules[k].feature.TaskSkippedCount? && !rules[k].feature.WarningEventCount?;
    }
    SumOfTwo(rules, features, 1, 10);
  }

  /** On a log with a skip, which the health analyzer always calls unstable, the two differ exactly when the log has
      no failure, timeout or recovery, and every window has at most two skips, at most two completions flagged as
      missed and a score below 0.70. */
  lemma SkipsSplitExactly(rules: RuleTable, records: seq<Record>, windowMs: int)
    requires windowMs > 0 && exists r <- records :: r.kind.OnSkip?
    ensures FindingsOf(records).Health().UNSTABLE?
    ensures FindingsOf(records).Health() != AnomaliesOf(rules, records, windowMs).value.overall <==>
      && (forall r <- records :: !Alarming(r))
      && (forall w <- Windows(records, windowMs).value ::
            && CountOf(TaskSkippedCount, w.records) <= 2
            && CountOf(DeadlineMissedCount, w.records) <= 2
            && ScoreOf(rules, Extract(w.records)) < 0.70)
  {
    UnstableExactly(records);
    var r :| r in records && r.kind.OnSkip?;
    assert Severe(r);
    DetectorUnstableExactly(rules, records, windowMs);
    assert forall w <- Windows(records, windowMs).value :: Strained(rules, w) <==>
      !(CountOf(TaskSkippedCount, w.records) <= 2 && CountOf(DeadlineMissedCount, w.records) <= 2 &&
        ScoreOf(rules, Extract(w.records)) < 0.70);
  }

  /** On logs that no run writes the two can differ: a log with nothing but one skip is unstable to the health
      analyzer and normal to the detector. */
  lemma SkipAloneSplitsThem(windowMs: int)
    requires windowMs > 0
    ensures
      var records := [Bare(0, OnSkip, WarningLevel)];
      && FindingsOf(records).Health().UNSTABLE?
      && AnomaliesOf(RULES, records, windowMs).value.overall.NORMAL?
  {
    var r := Bare(0, OnSkip, WarningLevel);
    var records := [r];
    UnstableExactly(records);
    assert r in records && Severe(r);
    OneWindow(r, windowMs);
    var w := Windows(records, windowMs).value[0];
    SkipWindow(w, r);
    OverallOfOne(RULES, w);
  }

  lemma SkipWindow(w: Window, r: Record)
    requires r == Bare(0, OnSkip, WarningLevel) && w.records == [r]
    ensures AnalysisOf(RULES, w).class_.NORMAL?
  {
    SkipFeatures(r);
    SkipScore(Extract([r]));
  }

  lemma OverallOfOne(rules: RuleTable, w: Window)
    ensures Overall(AnalysesOf(rules, [w])) == AnalysisOf(rules, w).class_
  {
    assert AnalysesOf(rules, [w]) == [AnalysisOf(rules, w)];
    assert AnalysisOf(rules, w) in AnalysesOf(rules, [w]);
  }

  lemma OneWindow(r: Record, windowMs: int)
    requires windowMs > 0 && r.timestampMs == Some(0)
    ensures |Windows([r], windowMs).value| == 1 && Windows([r], windowMs).value[0].records == [r]
    ensures Windows([r], windowMs).value == [Windows([r], windowMs).value[0]]
  {
    assert [r][..0] == [];
    assert LatestStamp([r]) == 0;
    assert InWindow([r], windowMs, 0) == [r];
    assert FirstWindows([r], windowMs, 1)[0] == WindowAt([r], windowMs, 0);
    assert r in [r] && r.timestampMs.Some?;
  }
}
