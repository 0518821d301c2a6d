/** The health report on a run is regular: its keys, figures and sentences can always be printed and read, and only
    the names of tasks are left to matter. */
module PrintableRuns {
  import opened Common
  import opened EventLog
  import opened HealthAnalyzer
  import opened HealthFacts
  import opened LineReading
  import opened LogFields
  import opened LogRecords
  import opened Machine
  import opened PeriodicTask
  import opened PlainText
  import opened ReportExactness
  import opened ReportLines
  import opened ReportParser
  import opened ReportPrinter
  import opened ReportReading
  import opened ReportRoundTrip
  import opened ReportTexts
  import opened ReportWords
  import opened RunFacts
  import opened RunTexts
  import opened RuntimeConfig
  import opened TextOrder
  import opened TruthfulMetrics

  // ---------- counters over fixed names ----------

  /** A key that may be printed and that the reader takes as it is. */
  predicate GoodKey(key: string) {
    FreeText(key) && FreeCount(key)
  }

  lemma GoodByChars(key: string)
    requires Neat(key) && KeyChars(key) && key[0] !in "ERSCO"
    ensures GoodKey(key)
  {
    KeyCharsAreFree(key);
    FreeByFirst(key);
    FreeCountIsFreeKey(key);
  }

  lemma KindEnds(kind: Kind)
    requires !kind.OnOther?
    ensures Neat(KindName(kind)) && KindName(kind)[0] !in "ERSCO"
  {
  }

  lemma LevelEnds(level: Level)
    requires !level.OtherLevel?
    ensures Neat(LevelName(level)) && LevelName(level)[0] !in "ERSCO"
  {
  }

  lemma FaultEnds(fault: FaultKind)
    requires !fault.UnlistedFault?
    ensures Neat(FaultName(fault)) && FaultName(fault)[0] !in "ERSCO"
  {
  }

  /** A record whose kind, level, fault and reason are known by name. */
  predicate ListedRecord(r: Record) {
    && !r.kind.OnOther? && !r.level.OtherLevel?
    && (r.kind.OnFault? ==> !r.faultType.UnlistedFault?)
  }

  lemma {:induction false} KindNamesAreGood(records: seq<Record>)
    requires forall r <- records :: ListedRecord(r)
    ensures |KindNames(records)| == |records| && forall name <- KindNames(records) :: GoodKey(name)
  {
    if records != [] {
      var init, last := records[..|records| - 1], records[|records| - 1];
      assert last in records && forall r <- init :: r in records;
      KindNamesAreGood(init);
      KindChars(last.kind);
      KindEnds(last.kind);
      GoodByChars(KindName(last.kind));
    }
  }

  lemma {:induction false} LevelNamesAreGood(records: seq<Record>)
    requires forall r <- records :: ListedRecord(r)
    ensures |LevelNames(records)| == |records| && forall name <- LevelNames(records) :: GoodKey(name)
  {
    if records != [] {
      var init, last := records[..|records| - 1], records[|records| - 1];
      assert last in records && forall r <- init :: r in records;
      LevelNamesAreGood(init);
      LevelChars(last.level);
      LevelEnds(last.level);
      GoodByChars(LevelName(last.level));
    }
  }

  lemma {:induction false} FaultTypesAreListed(records: seq<Record>)
    requires forall r <- records :: ListedRecord(r)
    ensures |FaultTypes(records)| <= |records| && forall fault <- FaultTypes(records) :: !fault.UnlistedFault?
  {
    if records != [] {
      var init, last := records[..|records| - 1], records[|records| - 1];
      assert last in records && forall r <- init :: r in records;
      FaultTypesAreListed(init);
    }
  }

  lemma {:induction false} FaultNamesAreGood(faults: seq<FaultKind>)
    requires forall fault <- faults :: !fault.UnlistedFault?
    ensures |FaultNames(faults)| == |faults| && forall name <- FaultNames(faults) :: GoodKey(name)
  {
    if faults != [] {
      var init, last := faults[..|faults| - 1], faults[|faults| - 1];
      assert last in faults && forall fault <- init :: fault in faults;
      FaultNamesAreGood(init);
      FaultChars(last);
      FaultEnds(last);
      GoodByChars(FaultName(last));
    }
  }

  lemma {:induction false} OccurrencesBound<K>(keys: seq<K>, key: K)
    ensures Occurrences(keys, key) <= |keys|
  {
    if keys != [] {
      OccurrencesBound(keys[..|keys| - 1], key);
    }
  }

  lemma CountedFits<K(!new)>(keys: seq<K>, key: K)
    requires |keys| <= MAX_INT
    ensures Fits(At(Counted(keys), key))
  {
    OccurrencesBound(keys, key);
  }

  lemma {:induction false} GoodCounter(keys: seq<string>)
    requires |keys| <= MAX_INT && forall key <- keys :: GoodKey(key)
    ensures RegularCounter(Counted(keys)) && FreeCounter(Counted(keys))
  {
    forall key <- Counted(keys) ensures FreeText(key) && FreeCount(key) && Fits(Counted(keys)[key]) {
      CountedFits(keys, key);
      assert GoodKey(key);
    }
  }

  lemma GoodFaultsAreQuiet(r: HealthReport)
    requires RegularCounter(r.faultCounts) && FreeCounter(r.faultCounts)
    ensures HarmlessFaults(r)
  {
    forall key <- r.faultCounts ensures CaptionAt(FaultBody(key, r.faultCounts)).None? {
      FreeCountIsFreeKey(key);
      CaptionByKey(CAPTIONS, key, " " + Digits(At(r.faultCounts, key)));
    }
    QuietFaultsAreHarmless(r);
  }

  // ---------- the records of a run ----------

  /** A record of a run with these tasks: known names, numbers in range. */
  predicate RunRecord(r: Record, names: set<string>) {
    && ListedRecord(r)
    && (r.kind.OnCompletion? ==> Fits(r.observedDurationMs))
    && (r.timestampMs.Some? ==> Fits(r.timestampMs.value))
    && (r.kind.OnTimeout? || r.kind.OnRecovery? || r.kind.OnFailure? || r.kind.OnSkip? ==> r.task in names)
    && (r.kind.OnRuntimeStart? ==> RegularOpening(r.opening))
  }

  predicate RegularOpening(o: Opening) {
    && (o.simulationName.Some? ==> FreeText(o.simulationName.value))
    && (o.schedulerMode.Some? ==> FreeText(o.schedulerMode.value))
    && (o.durationSeconds.Some? ==> Fits(o.durationSeconds.value))
  }

  ghost predicate RunRecords(records: seq<Record>, names: set<string>) {
    |records| <= MAX_INT && forall r <- records :: RunRecord(r, names)
  }

  lemma {:induction false} OpeningIsRegular(records: seq<Record>, names: set<string>)
    requires forall r <- records :: RunRecord(r, names)
    ensures RegularOpening(OpeningOf(records))
  {
    if records != [] {
      assert records[0] in records && forall r <- records[1..] :: r in records;
      OpeningIsRegular(records[1..], names);
    }
  }

  lemma {:induction false} StampsFit(records: seq<Record>, names: set<string>)
    requires forall r <- records :: RunRecord(r, names)
    ensures forall t <- Timestamps(records) :: Fits(t)
  {
    if records != [] {
      var init, last := records[..|records| - 1], records[|records| - 1];
      assert last in records && forall r <- init :: r in records;
      StampsFit(init, names);
    }
  }

  lemma {:induction false} MaxFits(values: seq<int>)
    requires values != [] && forall v <- values :: Fits(v)
    ensures Fits(MaxOf(values)) && 0 <= SumOf(values)
  {
    var init, last := values[..|values| - 1], values[|values| - 1];
    assert last in values && forall v <- init :: v in values;
    if |values| > 1 {
      MaxFits(init);
    }
  }

  lemma {:induction false} TasksAreNamed(records: seq<Record>, kind: Kind, names: set<string>)
    requires forall r <- records :: RunRecord(r, names)
    requires kind.OnTimeout? || kind.OnRecovery? || kind.OnFailure? || kind.OnSkip?
    ensures forall task <- TasksOf(records, kind) :: task in names
  {
    if records != [] {
      var init, last := records[..|records| - 1], records[|records| - 1];
      assert last in records && forall r <- init :: r in records;
      TasksAreNamed(init, kind, names);
    }
  }

  lemma {:induction false} KindsCounted(records: seq<Record>)
    ensures |Kinds(records)| == |records| && |DropReasons(records)| <= |records|
  {
    if records != [] {
      KindsCounted(records[..|records| - 1]);
    }
  }

  lemma MessagesFit(records: seq<Record>)
    requires |records| <= MAX_INT
    ensures
      var f := FindingsOf(records);
      && Fits(At(f.events, OnSent)) && Fits(At(f.events, OnReceived)) && Fits(At(f.events, OnDropped))
      && Fits(At(f.drops, QueueFull)) && Fits(At(f.drops, FaultInjectedDrop))
  {
    KindsCounted(records);
    CountedFits(Kinds(records), OnSent);
    CountedFits(Kinds(records), OnReceived);
    CountedFits(Kinds(records), OnDropped);
    CountedFits(DropReasons(records), QueueFull);
    CountedFits(DropReasons(records), FaultInjectedDrop);
  }

  // ---------- metrics ----------

  lemma {:induction false} GatheredFits(records: seq<Record>, task: string, names: set<string>)
    requires forall r <- records :: RunRecord(r, names)
    ensures Gathered(records, task).missedEvents <= |records|
    ensures forall d <- Gathered(records, task).durations :: Fits(d)
    ensures Gathered(records, task).maxDurationMs == 0 && Gathered(records, task).avgDurationMs == 0.0
  {
    if records != [] {
      var init, last := records[..|records| - 1], records[|records| - 1];
      assert last in records && forall r <- init :: r in records;
      GatheredFits(init, task, names);
    }
  }

  lemma AverageIsNatural(sum: int, n: nat)
    requires 0 <= sum && n > 0
    ensures sum as real / n as real >= 0.0
  {
  }

  lemma MetricsFit(records: seq<Record>, task: string, names: set<string>)
    requires RunRecords(records, names) && task in MetricsOf(records)
    requires Fits(MetricsOf(records)[task].runs) && Fits(MetricsOf(records)[task].misses)
    ensures RegularMetrics(MetricsOf(records)[task])
  {
    GatheredFits(records, task, names);
    var durations := Gathered(records, task).durations;
    if durations != [] {
      MaxFits(durations);
      AverageIsNatural(SumOf(durations), |durations|);
    }
  }

  // ---------- causes ----------

  lemma PutTogether(s: string, t: string)
    requires s != "" && t != "" && OneLine(s) && OneLine(t)
    requires !IsTrimmed(s[0]) && !IsSpace(s[0]) && !IsTrimmed(t[|t| - 1]) && !IsSpace(t[|t| - 1])
    ensures FreeText(s + t)
  {
    assert (s + t)[0] == s[0] && (s + t)[|s + t| - 1] == t[|t| - 1];
  }

  /** A cause about tasks among these. */
  predicate CauseNames(c: Cause, names: set<string>) {
    match c
    case MissedDeadline(task, _) => task in names
    case Happened(_, task, _) => task in names
    case _ => true
  }

  lemma Sentence(before: string, task: string, middle: string, times: nat)
    requires OneLine(before) && OneLine(middle) && FreeText(task)
    requires before == "" || (!IsTrimmed(before[0]) && !IsSpace(before[0]))
    ensures FreeText(before + task + middle + Digits(times) + " time(s).")
  {
    NumberIsFree(times);
    var s := before + task;
    assert s[0] == if before == "" then task[0] else before[0];
    assert OneLine(s + middle + Digits(times));
    assert (s + middle + Digits(times))[0] == s[0];
    PutTogether(s + middle + Digits(times), " time(s).");
  }

  lemma SkipReasonIsOneLine()
    ensures OneLine(SKIP_REASON)
  {
    assert KeyChars(" was skipped because it");
    assert KeyChars(" remained in a failed state ");
    OneLineConcat(" was skipped because it", " remained in a failed state ");
  }

  lemma TimeoutSentenceIsFree(task: string, times: nat)
    requires FreeText(task)
    ensures FreeText(TaskSentence(OnTimeout, task, times))
  {
    Sentence("Watchdog timeout triggered for ", task, " ", times);
  }

  lemma RecoverySentenceIsFree(task: string, times: nat)
    requires FreeText(task)
    ensures FreeText(TaskSentence(OnRecovery, task, times))
  {
    Sentence("Simulated recovery ran for ", task, " ", times);
  }

  lemma SentenceAbout(task: string, middle: string, times: nat)
    requires FreeText(task) && OneLine(middle)
    ensures FreeText(task + middle + Digits(times) + " time(s).")
  {
    Sentence("", task, middle, times);
    assert "" + task == task;
  }

  lemma FailureSentenceIsFree(task: string, times: nat)
    requires FreeText(task)
    ensures FreeText(TaskSentence(OnFailure, task, times))
  {
    assert KeyChars(" failed due to");
    assert KeyChars(" simulated task crash ");
    OneLineConcat(" failed due to", " simulated task crash ");
    SentenceAbout(task, CRASH_REASON, times);
  }

  lemma TaskSentenceIsFree(kind: Kind, task: string, times: nat)
    requires FreeText(task)
    ensures FreeText(TaskSentence(kind, task, times))
  {
    if kind.OnTimeout? {
      TimeoutSentenceIsFree(task, times);
    } else if kind.OnRecovery? {
      RecoverySentenceIsFree(task, times);
    } else if kind.OnFailure? {
      FailureSentenceIsFree(task, times);
    } else {
      SkipReasonIsOneLine();
      SentenceAbout(task, SKIP_REASON, times);
    }
  }

  lemma FaultWordIsFree(fault: FaultKind)
    ensures FreeText(FaultWord(fault) + " fault injection was active.")
  {
    FaultWordChars(fault);
    assert KeyChars(" fault injection was active.");
    PutTogether(FaultWord(fault), " fault injection was active.");
  }

  lemma FaultWordChars(fault: FaultKind)
    ensures Neat(FaultWord(fault)) && KeyChars(FaultWord(fault))
  {
  }

  lemma Halves(s: string, t: string)
    requires s != "" && t != "" && KeyChars(s) && KeyChars(t) && s[0] != ' ' && t[|t| - 1] != ' '
    ensures FreeText(s + t)
  {
    assert s[0] in s && t[|t| - 1] in t;
    PutTogether(s, t);
  }

  lemma QueueSentenceIsFree()
    ensures FreeText(CauseText(QueuesFull))
  {
    assert KeyChars("One or more task queues became full,");
    assert KeyChars(" causing queue_full message drops.");
    Halves("One or more task queues became full,", " causing queue_full message drops.");
  }

  lemma DropSentenceIsFree()
    ensures FreeText(CauseText(IntentionalDrops))
  {
    assert KeyChars("Fault injection intentionally dropped");
    assert KeyChars(" messages before enqueue.");
    Halves("Fault injection intentionally dropped", " messages before enqueue.");
  }

  lemma NothingSentenceIsFree()
    ensures FreeText(CauseText(NothingDetected))
  {
    assert KeyChars("No faults, deadline misses, watchdog");
    assert KeyChars(" events, or drops detected.");
    Halves("No faults, deadline misses, watchdog", " events, or drops detected.");
  }

  lemma NoSingleSentenceIsFree()
    ensures FreeText(CauseText(NoSingleCause))
  {
    assert KeyChars("Runtime showed warning signals, but");
    assert KeyChars(" no single root cause dominated.");
    Halves("Runtime showed warning signals, but", " no single root cause dominated.");
  }

  lemma CauseTextIsFree(c: Cause, names: set<string>)
    requires CauseNames(c, names) && forall name <- names :: FreeText(name)
    ensures FreeText(CauseText(c))
  {
    match c
    case MissedDeadline(task, times) =>
      SentenceAbout(task, " missed its deadline ", times);
    case FaultActive(fault) => FaultWordIsFree(fault);
    case QueuesFull => QueueSentenceIsFree();
    case IntentionalDrops => DropSentenceIsFree();
    case Happened(kind, task, times) => TaskSentenceIsFree(kind, task, times);
    case NothingDetected => NothingSentenceIsFree();
    case NoSingleCause => NoSingleSentenceIsFree();
  }

  // ---------- the whole report ----------

  /** The metrics of the records are about these tasks, with counters in range. */
  ghost predicate RunMetrics(records: seq<Record>, names: set<string>) {
    forall task <- MetricsOf(records) ::
      task in names && Fits(MetricsOf(records)[task].runs) && Fits(MetricsOf(records)[task].misses)
  }

  lemma TroubleIsNamed(records: seq<Record>, kind: Kind, names: set<string>)
    requires RunRecords(records, names)
    ensures forall task <- TroubleOf(FindingsOf(records), kind) :: task in names
  {
    if kind.OnTimeout? || kind.OnRecovery? || kind.OnFailure? || kind.OnSkip? {
      TasksAreNamed(records, kind, names);
    }
  }

  lemma CausesAreFree(records: seq<Record>, names: set<string>)
    requires RunRecords(records, names) && RunMetrics(records, names) && forall name <- names :: FreeText(name)
    ensures forall text <- CauseTexts(ReportOf(records).causes) :: FreeText(text)
  {
    var f := FindingsOf(records);
    forall c <- ReportOf(records).causes ensures FreeText(CauseText(c)) {
      CausesExactly(f, c);
      if c.Happened? {
        TroubleIsNamed(records, c.kind, names);
      }
      CauseTextIsFree(c, names);
    }
  }

  lemma TasksAreRegular(records: seq<Record>, kind: Kind, names: set<string>)
    requires RunRecords(records, names) && forall name <- names :: FreeText(name)
    requires kind.OnTimeout? || kind.OnRecovery? || kind.OnFailure? || kind.OnSkip?
    ensures RegularTasks(Counted(TasksOf(records, kind)))
  {
    TasksAreNamed(records, kind, names);
  }

  lemma TroubleIsRegular(records: seq<Record>, names: set<string>)
    requires RunRecords(records, names) && forall name <- names :: FreeText(name)
    ensures
      var f := FindingsOf(records);
      RegularTasks(f.timeouts) && RegularTasks(f.recoveries) && RegularTasks(f.failures) && RegularTasks(f.skips)
  {
    TasksAreRegular(records, OnTimeout, names);
    TasksAreRegular(records, OnRecovery, names);
    TasksAreRegular(records, OnFailure, names);
    TasksAreRegular(records, OnSkip, names);
  }

  lemma CountersAreGood(records: seq<Record>, names: set<string>)
    requires RunRecords(records, names)
    ensures
      var kinds, levels, faults := Counted(KindNames(records)), Counted(LevelNames(records)), Counted(FaultNames(FaultTypes(records)));
      && RegularCounter(kinds) && FreeCounter(kinds)
      && RegularCounter(levels) && FreeCounter(levels)
      && RegularCounter(faults) && FreeCounter(faults)
  {
    KindNamesAreGood(records);
    GoodCounter(KindNames(records));
    LevelNamesAreGood(records);
    GoodCounter(LevelNames(records));
    FaultTypesAreListed(records);
    FaultNamesAreGood(FaultTypes(records));
    GoodCounter(FaultNames(FaultTypes(records)));
  }

  lemma ObservedFits(records: seq<Record>, names: set<string>)
    requires RunRecords(records, names)
    ensures Fits(ReportOf(records).observedDurationMs)
  {
    StampsFit(records, names);
    if Timestamps(records) != [] {
      MaxFits(Timestamps(records));
    }
  }

  lemma AllMetricsFit(records: seq<Record>, names: set<string>)
    requires RunRecords(records, names) && RunMetrics(records, names)
    ensures forall task <- MetricsOf(records) :: RegularMetrics(MetricsOf(records)[task])
  {
    forall task <- MetricsOf(records) ensures RegularMetrics(MetricsOf(records)[task]) {
      MetricsFit(records, task, names);
    }
  }

  /** The report on such records is regular, with free keys and harmless faults: only task names are left to
      decide whether it can be read back. */
  lemma RunReportIsRegular(logFile: string, records: seq<Record>, names: set<string>)
    requires RunRecords(records, names) && RunMetrics(records, names)
    requires FreeText(logFile) && forall name <- names :: FreeText(name)
    ensures
      var r := HealthReportOf(logFile, records, ReportOf(records));
      && Regular(r) && HarmlessFaults(r)
      && (FreeNames(r) <==> forall task <- MetricsOf(records) :: FreeTask(task))
  {
    OpeningIsRegular(records, names);
    ObservedFits(records, names);
    CountersAreGood(records, names);
    MessagesFit(records);
    TroubleIsRegular(records, names);
    AllMetricsFit(records, names);
    CausesAreFree(records, names);
    GoodFaultsAreQuiet(HealthReportOf(logFile, records, ReportOf(records)));
  }
}
