/** The health report's figures, by the records. */
module MetricFacts {
  import opened Common
  import opened EventLog
  import opened HealthAnalyzer
  import opened HealthFacts
  import opened LogRecords
  import opened RuntimeConfig
  import opened TextOrder

  /** The sum of a figure over the records. */
  function Total(records: seq<Record>, figure: Record -> int): int {
    if records == [] then 0
    else Total(records[..|records| - 1], figure) + figure(records[|records| - 1])
  }

  predicate Completes(r: Record, task: string) {
    r.kind.OnCompletion? && r.task == task
  }

  function One(holds: bool): int {
    if holds then 1 else 0
  }

  function Completions(records: seq<Record>, task: string): int {
    Total(records, (r: Record) => One(Completes(r, task)))
  }

  function FlaggedCompletions(records: seq<Record>, task: string): int {
    Total(records, (r: Record) => One(Completes(r, task) && r.deadlineMissed))
  }

  function TimeCompleting(records: seq<Record>, task: string): int {
    Total(records, (r: Record) => if Completes(r, task) then r.observedDurationMs else 0)
  }

  // ---------- sums and maxima ----------

  /** `m` is the largest of the values. */
  ghost predicate IsLargest(m: int, values: seq<int>) {
    m in values && forall x <- values :: x <= m
  }

  lemma {:induction false} MaxIsLargest(values: seq<int>)
    requires values != []
    ensures IsLargest(MaxOf(values), values)
  {
    var n := |values| - 1;
    assert values == values[..n] + [values[n]];
    if n > 0 {
      MaxIsLargest(values[..n]);
    }
  }

  lemma {:induction false} GatheredMeans(records: seq<Record>, task: string)
    ensures
      var m := Gathered(records, task);
      && m.maxDurationMs == 0 && m.avgDurationMs == 0.0
      && m.missedEvents == FlaggedCompletions(records, task)
      && |m.durations| == Completions(records, task)
      && SumOf(m.durations) == TimeCompleting(records, task)
  {
    if records != [] {
      GatheredMeans(records[..|records| - 1], task);
    }
  }

  lemma {:induction false} DurationsHave(records: seq<Record>, task: string, x: int)
    ensures x in Gathered(records, task).durations <==>
      exists r <- records :: Completes(r, task) && r.observedDurationMs == x
  {
    if records != [] {
      var init, last := records[..|records| - 1], records[|records| - 1];
      DurationsHave(init, task, x);
      assert records == init + [last];
    }
  }

  lemma CompletionsHave(records: seq<Record>, task: string)
    ensures Gathered(records, task).durations != [] <==> exists r <- records :: Completes(r, task)
  {
    var durations := Gathered(records, task).durations;
    if durations != [] {
      DurationsHave(records, task, durations[0]);
    }
    if r :| r in records && Completes(r, task) {
      DurationsHave(records, task, r.observedDurationMs);
    }
  }

  /** `m` is the longest observed duration of the task's completions, and zero without any. */
  ghost predicate IsLongest(m: int, records: seq<Record>, task: string) {
    if exists r <- records :: Completes(r, task) then
      && (exists r <- records :: Completes(r, task) && r.observedDurationMs == m)
      && (forall r <- records | Completes(r, task) :: r.observedDurationMs <= m)
    else m == 0
  }

  lemma LongestMeans(records: seq<Record>, task: string)
    ensures IsLongest(WithDurations(Gathered(records, task)).maxDurationMs, records, task)
  {
    var m := Gathered(records, task);
    CompletionsHave(records, task);
    GatheredMeans(records, task);
    if m.durations != [] {
      MaxIsLargest(m.durations);
      DurationsHave(records, task, MaxOf(m.durations));
      forall r <- records | Completes(r, task) ensures r.observedDurationMs <= MaxOf(m.durations) {
        DurationsHave(records, task, r.observedDurationMs);
      }
    }
  }

  /** The metrics have an entry for just the tasks that a completion or summary names. In each entry the longest
      duration is that of one of the task's completions and no less than any other, the average times their number
      is the sum of their durations, and the missed events are the completions flagged as missed; a task without
      completions has zero for all three. */
  lemma DurationsTellTheRecords(records: seq<Record>, task: string)
    ensures task in MetricsOf(records) <==>
      exists r <- records :: (r.kind.OnCompletion? || r.kind.OnSummary?) && r.task == task
    ensures task in MetricsOf(records) ==>
      var m := MetricsOf(records)[task];
      && IsLongest(m.maxDurationMs, records, task)
      && m.avgDurationMs * Completions(records, task) as real == TimeCompleting(records, task) as real
      && (Completions(records, task) == 0 ==> m.avgDurationMs == 0.0)
      && m.missedEvents == FlaggedCompletions(records, task)
  {
    MentionedMeans(records, task);
    LongestMeans(records, task);
    GatheredMeans(records, task);
    AverageMeans(Gathered(records, task));
  }

  lemma AverageMeans(m: Metrics)
    ensures m.durations != [] ==>
      WithDurations(m).avgDurationMs * |m.durations| as real == SumOf(m.durations) as real
  {
  }

  /** The counters of runs and misses are bounds that some completion or summary of the task reaches. */
  lemma CountersTellTheRecords(records: seq<Record>, task: string)
    requires task in MetricsOf(records)
    ensures
      var m := MetricsOf(records)[task];
      && (forall r <- records | (r.kind.OnCompletion? || r.kind.OnSummary?) && r.task == task ::
            r.runCount <= m.runs && r.deadlineMissCount <= m.misses)
      && (m.runs > 0 ==> exists r <- records ::
            (r.kind.OnCompletion? || r.kind.OnSummary?) && r.task == task && r.runCount == m.runs)
      && (m.misses > 0 ==> exists r <- records ::
            (r.kind.OnCompletion? || r.kind.OnSummary?) && r.task == task && r.deadlineMissCount == m.misses)
  {
    GatheredReports(records, task);
  }

  // ---------- the counters of a report ----------

  lemma OccurrencesOneMore<K>(keys: seq<K>, last: K, key: K)
    ensures Occurrences(keys + [last], key) == Occurrences(keys, key) + One(last == key)
  {
    assert (keys + [last])[..|keys|] == keys;
  }

  lemma {:induction false} KindsCount(records: seq<Record>, kind: Kind)
    ensures Occurrences(Kinds(records), kind) == Total(records, (r: Record) => One(r.kind == kind))
  {
    if records != [] {
      var init, last := records[..|records| - 1], records[|records| - 1];
      KindsCount(init, kind);
      OccurrencesOneMore(Kinds(init), last.kind, kind);
    }
  }

  lemma {:induction false} LevelsCount(records: seq<Record>, level: Level)
    ensures Occurrences(Levels(records), level) == Total(records, (r: Record) => One(r.level == level))
  {
    if records != [] {
      var init, last := records[..|records| - 1], records[|records| - 1];
      LevelsCount(init, level);
      OccurrencesOneMore(Levels(init), last.level, level);
    }
  }

  lemma {:induction false} FaultsCount(records: seq<Record>, fault: FaultKind)
    ensures Occurrences(FaultTypes(records), fault) ==
      Total(records, (r: Record) => One(r.kind.OnFault? && r.faultType == fault))
  {
    if records != [] {
      var init, last := records[..|records| - 1], records[|records| - 1];
      FaultsCount(init, fault);
      OccurrencesOneMore(FaultTypes(init), last.faultType, fault);
    }
  }

  lemma {:induction false} ReasonsCount(records: seq<Record>, reason: DropReason)
    ensures Occurrences(DropReasons(records), reason) ==
      Total(records, (r: Record) => One(r.kind.OnDropped? && r.reason == reason))
  {
    if records != [] {
      var init, last := records[..|records| - 1], records[|records| - 1];
      ReasonsCount(init, reason);
      OccurrencesOneMore(DropReasons(init), last.reason, reason);
    }
  }

  lemma {:induction false} TasksCount(records: seq<Record>, kind: Kind, task: string)
    ensures Occurrences(TasksOf(records, kind), task) ==
      Total(records, (r: Record) => One(r.kind == kind && r.task == task))
  {
    if records != [] {
      var init, last := records[..|records| - 1], records[|records| - 1];
      TasksCount(init, kind, task);
      OccurrencesOneMore(TasksOf(init, kind), last.task, task);
    }
  }

  /** Every counter of a report holds the number of records with its key. */
  lemma CountersCountRecords(
    records: seq<Record>, kind: Kind, level: Level, fault: FaultKind, reason: DropReason, task: string)
    ensures
      var f := ReportOf(records).findings;
      && At(f.events, kind) == Total(records, (r: Record) => One(r.kind == kind))
      && At(f.levels, level) == Total(records, (r: Record) => One(r.level == level))
      && At(f.faults, fault) == Total(records, (r: Record) => One(r.kind.OnFault? && r.faultType == fault))
      && At(f.drops, reason) == Total(records, (r: Record) => One(r.kind.OnDropped? && r.reason == reason))
      && At(f.timeouts, task) == Total(records, (r: Record) => One(r.kind == OnTimeout && r.task == task))
      && At(f.recoveries, task) == Total(records, (r: Record) => One(r.kind == OnRecovery && r.task == task))
      && At(f.failures, task) == Total(records, (r: Record) => One(r.kind == OnFailure && r.task == task))
      && At(f.skips, task) == Total(records, (r: Record) => One(r.kind == OnSkip && r.task == task))
  {
    KindsCount(records, kind);
    LevelsCount(records, level);
    FaultsCount(records, fault);
    ReasonsCount(records, reason);
    TasksCount(records, OnTimeout, task);
    TasksCount(records, OnRecovery, task);
    TasksCount(records, OnFailure, task);
    TasksCount(records, OnSkip, task);
  }

  // ---------- the observed duration and the opening ----------

  lemma {:induction false} StampsHave(records: seq<Record>, x: int)
    ensures x in Timestamps(records) <==> exists r <- records :: r.timestampMs == Some(x)
  {
    if records != [] {
      var init, last := records[..|records| - 1], records[|records| - 1];
      StampsHave(init, x);
      assert records == init + [last];
    }
  }

  /** The observed duration is the largest time stamp of any record, and zero when no record has one. */
  lemma DurationIsLatestStamp(records: seq<Record>)
    ensures
      var observed := ReportOf(records).observedDurationMs;
      if exists r <- records :: r.timestampMs.Some? then
        && (exists r <- records :: r.timestampMs == Some(observed))
        && (forall r <- records | r.timestampMs.Some? :: r.timestampMs.value <= observed)
      else observed == 0
  {
    var stamps := Timestamps(records);
    if stamps != [] {
      MaxIsLargest(stamps);
      StampsHave(records, MaxOf(stamps));
    }
    forall r <- records | r.timestampMs.Some? ensures r.timestampMs.value in stamps {
      StampsHave(records, r.timestampMs.value);
    }
  }

  /** Record `i` is the first one of a runtime's start; when `i` is past the end there is none. */
  ghost predicate FirstStart(records: seq<Record>, i: nat) {
    && i <= |records|
    && (forall k | 0 <= k < i :: !records[k].kind.OnRuntimeStart?)
    && (i < |records| ==> records[i].kind.OnRuntimeStart?)
  }

  lemma {:induction false} FirstStartOpens(records: seq<Record>, i: nat)
    requires FirstStart(records, i)
    ensures OpeningOf(records) == if i < |records| then records[i].opening else Opening(None, None, None)
    decreases i
  {
    if i > 0 {
      FirstStartOpens(records[1..], i - 1);
    }
  }

  /** The opening of a report is that of the first record of a runtime's start. */
  lemma OpeningIsTheFirst(records: seq<Record>, i: nat)
    requires FirstStart(records, i)
    ensures ReportOf(records).opening == if i < |records| then records[i].opening else Opening(None, None, None)
  {
    FirstStartOpens(records, i);
  }

  // ---------- the order of the causes ----------

  /** The part of the list a cause belongs to. */
  function Part(c: Cause): nat {
    match c
    case MissedDeadline(_, _) => 0
    case FaultActive(SlowTask) => 1
    case FaultActive(CpuSpike) => 2
    case FaultActive(DroppedMessages) => 3
    case FaultActive(TaskCrash) => 4
    case QueuesFull => 5
    case IntentionalDrops => 6
    case Happened(OnTimeout, _, _) => 7
    case Happened(OnRecovery, _, _) => 8
    case Happened(OnFailure, _, _) => 9
    case Happened(OnSkip, _, _) => 10
    case _ => 11
  }

  /** One cause is listed before another: its part comes first, or they share a part that goes by task name. */
  predicate ListedBefore(a: Cause, b: Cause) {
    || Part(a) < Part(b)
    || (Part(a) == Part(b) && a.MissedDeadline? && b.MissedDeadline? && Before(a.task, b.task))
    || (Part(a) == Part(b) && a.Happened? && b.Happened? && Before(a.task, b.task))
  }

  ghost predicate InListOrder(causes: seq<Cause>) {
    forall i, j | 0 <= i < j < |causes| :: ListedBefore(causes[i], causes[j])
  }

  ghost predicate PartsWithin(causes: seq<Cause>, low: nat, high: nat) {
    forall c <- causes :: low <= Part(c) < high
  }

  lemma Joined(a: seq<Cause>, b: seq<Cause>, low: nat, mid: nat, high: nat)
    requires low <= mid <= high
    requires InListOrder(a) && PartsWithin(a, low, mid)
    requires InListOrder(b) && PartsWithin(b, mid, high)
    ensures InListOrder(a + b) && PartsWithin(a + b, low, high)
  {
    assert forall i | 0 <= i < |a| :: a[i] in a;
    assert forall i | 0 <= i < |b| :: b[i] in b;
  }

  lemma {:induction false} MissesAreOrdered(names: seq<string>, metrics: map<string, Metrics>)
    requires Ascending(names)
    ensures InListOrder(MissCauses(names, metrics)) && PartsWithin(MissCauses(names, metrics), 0, 1)
  {
    if names != [] {
      var n := |names| - 1;
      var earlier := MissCauses(names[..n], metrics);
      MissesAreOrdered(names[..n], metrics);
      forall i | 0 <= i < |earlier| ensures earlier[i].MissedDeadline? && Before(earlier[i].task, names[n]) {
        MissCausesHave(names[..n], metrics, earlier[i]);
        assert earlier[i] in earlier;
      }
    }
  }

  lemma {:induction false} TasksAreOrdered(kind: Kind, names: seq<string>, counter: Counter<string>)
    requires Ascending(names) && Part(Happened(kind, "", 0)) < 11
    ensures
      var causes, part := TaskCauses(kind, names, counter), Part(Happened(kind, "", 0));
      && InListOrder(causes) && PartsWithin(causes, part, part + 1)
  {
    if names != [] {
      var n := |names| - 1;
      var earlier := TaskCauses(kind, names[..n], counter);
      TasksAreOrdered(kind, names[..n], counter);
      forall i | 0 <= i < |earlier| ensures
        earlier[i].Happened? && earlier[i].kind == kind && Before(earlier[i].task, names[n])
      {
        TaskCausesHave(kind, names[..n], counter, earlier[i]);
        assert earlier[i] in earlier;
      }
    }
  }

  lemma FaultsAreOrdered(faults: Counter<FaultKind>)
    ensures InListOrder(FaultCauses(faults)) && PartsWithin(FaultCauses(faults), 1, 5)
  {
    var slow := if At(faults, SlowTask) > 0 then [FaultActive(SlowTask)] else [];
    var spike := if At(faults, CpuSpike) > 0 then [FaultActive(CpuSpike)] else [];
    var dropped := if At(faults, DroppedMessages) > 0 then [FaultActive(DroppedMessages)] else [];
    var crash := if At(faults, TaskCrash) > 0 then [FaultActive(TaskCrash)] else [];
    Joined(slow, spike, 1, 2, 3);
    Joined(slow + spike, dropped, 1, 3, 4);
    Joined(slow + spike + dropped, crash, 1, 4, 5);
  }

  lemma DropsAreOrdered(drops: Counter<DropReason>)
    ensures InListOrder(DropCauses(drops)) && PartsWithin(DropCauses(drops), 5, 7)
  {
  }

  lemma EarlyAreOrdered(f: Findings)
    ensures InListOrder(EarlyCauses(f)) && PartsWithin(EarlyCauses(f), 0, 7)
  {
    var misses := MissCauses(Sorted(f.metrics.Keys), f.metrics);
    MissesAreOrdered(Sorted(f.metrics.Keys), f.metrics);
    FaultsAreOrdered(f.faults);
    DropsAreOrdered(f.drops);
    Joined(misses, FaultCauses(f.faults), 0, 1, 5);
    Joined(misses + FaultCauses(f.faults), DropCauses(f.drops), 0, 5, 7);
  }

  lemma ListedAreOrdered(f: Findings, kind: Kind, part: nat)
    requires part == Part(Happened(kind, "", 0)) < 11
    ensures InListOrder(Listed(f, kind)) && PartsWithin(Listed(f, kind), part, part + 1)
  {
    TasksAreOrdered(kind, Sorted(TroubleOf(f, kind).Keys), TroubleOf(f, kind));
  }

  lemma JoinedFive(a: seq<Cause>, b: seq<Cause>, c: seq<Cause>, d: seq<Cause>, e: seq<Cause>)
    requires InListOrder(a) && PartsWithin(a, 0, 7)
    requires InListOrder(b) && PartsWithin(b, 7, 8)
    requires InListOrder(c) && PartsWithin(c, 8, 9)
    requires InListOrder(d) && PartsWithin(d, 9, 10)
    requires InListOrder(e) && PartsWithin(e, 10, 11)
    ensures InListOrder(a + b + c + d + e)
  {
    Joined(a, b, 0, 7, 8);
    Joined(a + b, c, 0, 8, 9);
    Joined(a + b + c, d, 0, 9, 10);
    Joined(a + b + c + d, e, 0, 10, 11);
  }

  lemma FourAreOrdered(f: Findings)
    ensures InListOrder(Listed(f, OnTimeout)) && PartsWithin(Listed(f, OnTimeout), 7, 8)
    ensures InListOrder(Listed(f, OnRecovery)) && PartsWithin(Listed(f, OnRecovery), 8, 9)
    ensures InListOrder(Listed(f, OnFailure)) && PartsWithin(Listed(f, OnFailure), 9, 10)
    ensures InListOrder(Listed(f, OnSkip)) && PartsWithin(Listed(f, OnSkip), 10, 11)
  {
    ListedAreOrdered(f, OnTimeout, 7);
    ListedAreOrdered(f, OnRecovery, 8);
    ListedAreOrdered(f, OnFailure, 9);
    ListedAreOrdered(f, OnSkip, 10);
  }

  lemma NamedAreOrdered(f: Findings)
    ensures InListOrder(NamedCauses(f))
  {
    EarlyAreOrdered(f);
    FourAreOrdered(f);
    JoinedFive(EarlyCauses(f), Listed(f, OnTimeout), Listed(f, OnRecovery), Listed(f, OnFailure), Listed(f, OnSkip));
  }

  /** With the members that `CausesExactly` gives, this leaves one possible list: misses by task, the four faults,
      full queues, intentional drops, then timeouts, recoveries, failures and skips, each by task. */
  lemma CausesAreInOrder(f: Findings)
    ensures InListOrder(RootCauses(f))
  {
    NamedAreOrdered(f);
    if NamedCauses(f) == [] {
      assert |RootCauses(f)| == 1;
    } else {
      assert RootCauses(f) == NamedCauses(f);
    }
  }
}
