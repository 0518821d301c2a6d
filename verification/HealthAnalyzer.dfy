/** The health analyzer: metrics, verdict, causes. */
module HealthAnalyzer {
  import opened EventLog
  import opened LogRecords
  import opened RuntimeConfig
  import opened TextOrder

  // ---------- task metrics ----------

  datatype Metrics = Metrics(
    runs: nat,
    misses: nat,
    missedEvents: nat,
    durations: seq<int>,
    maxDurationMs: int,
    avgDurationMs: real)

  const NoMetrics: Metrics := Metrics(0, 0, 0, [], 0, 0.0)

  /** Only completions and summaries speak of a task's counters. */
  predicate Speaks(r: Record) {
    r.kind.OnCompletion? || r.kind.OnSummary?
  }

  function Mentioned(records: seq<Record>): set<string> {
    if records == [] then {}
    else
      var earlier, last := Mentioned(records[..|records| - 1]), records[|records| - 1];
      if Speaks(last) then earlier + {last.task} else earlier
  }

  function Larger(a: nat, b: int): nat {
    if b > a then b else a
  }

  /** What one record says about the task it names. */
  function Noted(m: Metrics, r: Record): Metrics {
    match r.kind
    case OnCompletion =>
      m.(
        runs := Larger(m.runs, r.runCount),
        misses := Larger(m.misses, r.deadlineMissCount),
        missedEvents := if r.deadlineMissed then m.missedEvents + 1 else m.missedEvents,
        durations := m.durations + [r.observedDurationMs])
    case OnSummary =>
      m.(runs := Larger(m.runs, r.runCount), misses := Larger(m.misses, r.deadlineMissCount))
    case _ => m
  }

  function NotedFor(m: Metrics, r: Record, task: string): Metrics {
    if r.task == task then Noted(m, r) else m
  }

  function Gathered(records: seq<Record>, task: string): Metrics {
    if records == [] then NoMetrics
    else
      NotedFor(Gathered(records[..|records| - 1], task), records[|records| - 1], task)
  }

  function MaxOf(values: seq<int>): int
    requires values != []
  {
    if |values| == 1 then values[0]
    else
      var m, last := MaxOf(values[..|values| - 1]), values[|values| - 1];
      if last > m then last else m
  }

  function SumOf(values: seq<int>): int {
    if values == [] then 0 else SumOf(values[..|values| - 1]) + values[|values| - 1]
  }

  function WithDurations(m: Metrics): Metrics {
    if m.durations == [] then m
    else m.(
      maxDurationMs := MaxOf(m.durations),
      avgDurationMs := SumOf(m.durations) as real / |m.durations| as real)
  }

  function MetricsOf(records: seq<Record>): map<string, Metrics> {
    map task | task in Mentioned(records) :: WithDurations(Gathered(records, task))
  }

  lemma MentionedOne(records: seq<Record>, i: nat)
    requires i < |records|
    ensures Mentioned(records[..i + 1]) ==
      if Speaks(records[i]) then Mentioned(records[..i]) + {records[i].task} else Mentioned(records[..i])
    ensures forall task :: Gathered(records[..i + 1], task) == NotedFor(Gathered(records[..i], task), records[i], task)
  {
    assert records[..i + 1][..i] == records[..i];
  }

  lemma {:induction false} UnmentionedIsEmpty(records: seq<Record>, task: string)
    requires task !in Mentioned(records)
    ensures Gathered(records, task) == NoMetrics
  {
    if records != [] {
      UnmentionedIsEmpty(records[..|records| - 1], task);
    }
  }

  method CollectTaskMetrics(records: seq<Record>) returns (metrics: map<string, Metrics>)
    ensures metrics == MetricsOf(records)
  {
    metrics := map[];
    for i := 0 to |records|
      invariant metrics == map task | task in Mentioned(records[..i]) :: Gathered(records[..i], task)
    {
      var r := records[i];
      MentionedOne(records, i);
      if r.kind.OnCompletion? {
        var m := if r.task in metrics then metrics[r.task] else NoMetrics;
        if r.task !in metrics {
          UnmentionedIsEmpty(records[..i], r.task);
        }
        m := m.(
          runs := Larger(m.runs, r.runCount),
          misses := Larger(m.misses, r.deadlineMissCount),
          durations := m.durations + [r.observedDurationMs]);
        if r.deadlineMissed {
          m := m.(missedEvents := m.missedEvents + 1);
        }
        metrics := metrics[r.task := m];
      } else if r.kind.OnSummary? {
        var m := if r.task in metrics then metrics[r.task] else NoMetrics;
        if r.task !in metrics {
          UnmentionedIsEmpty(records[..i], r.task);
        }
        metrics := metrics[r.task :=
          m.(runs := Larger(m.runs, r.runCount), misses := Larger(m.misses, r.deadlineMissCount))];
      }
    }
    assert records[..|records|] == records;
    metrics := FillDurations(metrics);
  }

  method FillDurations(gathered: map<string, Metrics>) returns (metrics: map<string, Metrics>)
    ensures metrics == map task | task in gathered :: WithDurations(gathered[task])
  {
    metrics := gathered;
    var rest := gathered.Keys;
    while rest != {}
      invariant rest <= gathered.Keys == metrics.Keys
      invariant forall task <- metrics ::
        metrics[task] == if task in rest then gathered[task] else WithDurations(gathered[task])
      decreases |rest|
    {
      var task :| task in rest;
      var m := metrics[task];
      if m.durations != [] {
        m := m.(maxDurationMs := MaxOf(m.durations));
        m := m.(avgDurationMs := SumOf(m.durations) as real / |m.durations| as real);
        metrics := metrics[task := m];
      }
      rest := rest - {task};
    }
  }

  /** What the metrics of a task mean: bounds that are reached by some record about it. */
  ghost predicate Reports(records: seq<Record>, task: string, m: Metrics) {
    && (forall r <- records | Speaks(r) && r.task == task :: r.runCount <= m.runs && r.deadlineMissCount <= m.misses)
    && (m.runs > 0 ==> exists r <- records :: Speaks(r) && r.task == task && r.runCount == m.runs)
    && (m.misses > 0 ==> exists r <- records :: Speaks(r) && r.task == task && r.deadlineMissCount == m.misses)
  }

  lemma ReportsOneMore(init: seq<Record>, last: Record, task: string, m: Metrics)
    requires Reports(init, task, m)
    ensures Reports(init + [last], task, NotedFor(m, last, task))
  {
    var after := NotedFor(m, last, task);
    assert last in init + [last] && forall r <- init :: r in init + [last];
    if after.runs > 0 && after.runs == m.runs {
      var r :| r in init && Speaks(r) && r.task == task && r.runCount == m.runs;
      assert r in init + [last];
    }
    if after.misses > 0 && after.misses == m.misses {
      var r :| r in init && Speaks(r) && r.task == task && r.deadlineMissCount == m.misses;
      assert r in init + [last];
    }
  }

  lemma {:induction false} GatheredReports(records: seq<Record>, task: string)
    ensures Reports(records, task, Gathered(records, task))
  {
    if records != [] {
      var init, last := records[..|records| - 1], records[|records| - 1];
      GatheredReports(init, task);
      assert records == init + [last];
      ReportsOneMore(init, last, task, Gathered(init, task));
    }
  }

  // ---------- the verdict ----------

  datatype Health = NORMAL | WARNING | UNSTABLE

  function Rank(health: Health): nat {
    match health case NORMAL => 0 case WARNING => 1 case UNSTABLE => 2
  }

  ghost function TotalMisses(metrics: map<string, Metrics>): nat {
    if metrics == map[] then 0
    else
      var task :| task in metrics;
      metrics[task].misses + TotalMisses(metrics - {task})
  }

  /** The total does not depend on the order in which tasks are added up. */
  lemma {:induction false} TotalMissesTake(metrics: map<string, Metrics>, task: string)
    requires task in metrics
    ensures TotalMisses(metrics) == metrics[task].misses + TotalMisses(metrics - {task})
    decreases |metrics|
  {
    var picked :| picked in metrics && TotalMisses(metrics) == metrics[picked].misses + TotalMisses(metrics - {picked});
    if picked != task {
      TotalMissesTake(metrics - {picked}, task);
      TotalMissesTake(metrics - {task}, picked);
      assert metrics - {picked} - {task} == metrics - {task} - {picked};
    }
  }

  function Verdict(
    events: Counter<Kind>, totalMisses: int, faults: Counter<FaultKind>, drops: Counter<DropReason>): Health
  {
    if At(events, OnFailure) > 0 then UNSTABLE
    else if At(events, OnSkip) > 0 then UNSTABLE
    else if At(events, OnTimeout) > 0 then UNSTABLE
    else if At(events, OnRecovery) > 0 then UNSTABLE
    else if totalMisses >= 3 then UNSTABLE
    else if At(faults, SlowTask) > 0 && totalMisses > 0 then UNSTABLE
    else if At(events, OnFault) > 0 then WARNING
    else if totalMisses > 0 then WARNING
    else if drops != map[] then WARNING
    else NORMAL
  }

  method ClassifyHealth(
    events: Counter<Kind>,
    metrics: map<string, Metrics>,
    faults: Counter<FaultKind>,
    drops: Counter<DropReason>)
    returns (health: Health)
    ensures health == Verdict(events, TotalMisses(metrics), faults, drops)
  {
    var total := 0;
    var rest := metrics;
    while rest != map[]
      invariant total + TotalMisses(rest) == TotalMisses(metrics)
      invariant rest.Keys <= metrics.Keys && forall task <- rest :: rest[task] == metrics[task]
      decreases |rest|
    {
      var task :| task in rest;
      TotalMissesTake(rest, task);
      total := total + metrics[task].misses;
      rest := rest - {task};
    }
    return Verdict(events, total, faults, drops);
  }

  // ---------- root causes ----------

  datatype Cause =
    | MissedDeadline(task: string, times: nat)
    | FaultActive(fault: FaultKind)
    | QueuesFull
    | IntentionalDrops
    | Happened(kind: Kind, task: string, times: nat)
    | NothingDetected
    | NoSingleCause

  datatype Findings = Findings(
    events: Counter<Kind>,
    levels: Counter<Level>,
    faults: Counter<FaultKind>,
    drops: Counter<DropReason>,
    timeouts: Counter<string>,
    recoveries: Counter<string>,
    failures: Counter<string>,
    skips: Counter<string>,
    metrics: map<string, Metrics>)
  {
    ghost function Health(): Health {
      Verdict(events, TotalMisses(metrics), faults, drops)
    }
  }

  function MissesFor(metrics: map<string, Metrics>, task: string): nat {
    if task in metrics then metrics[task].misses else 0
  }

  function MissCauses(names: seq<string>, metrics: map<string, Metrics>): seq<Cause> {
    if names == [] then []
    else
      var earlier, last := MissCauses(names[..|names| - 1], metrics), names[|names| - 1];
      var misses := MissesFor(metrics, last);
      if misses > 0 then earlier + [MissedDeadline(last, misses)] else earlier
  }

  function FaultCauses(faults: Counter<FaultKind>): seq<Cause> {
    (if At(faults, SlowTask) > 0 then [FaultActive(SlowTask)] else []) +
    (if At(faults, CpuSpike) > 0 then [FaultActive(CpuSpike)] else []) +
    (if At(faults, DroppedMessages) > 0 then [FaultActive(DroppedMessages)] else []) +
    (if At(faults, TaskCrash) > 0 then [FaultActive(TaskCrash)] else [])
  }

  function DropCauses(drops: Counter<DropReason>): seq<Cause> {
    (if At(drops, QueueFull) > 0 then [QueuesFull] else []) +
    (if At(drops, FaultInjectedDrop) > 0 then [IntentionalDrops] else [])
  }

  function TaskCauses(kind: Kind, names: seq<string>, counter: Counter<string>): seq<Cause> {
    if names == [] then []
    else
      var last := names[|names| - 1];
      TaskCauses(kind, names[..|names| - 1], counter) + [Happened(kind, last, At(counter, last))]
  }

  ghost function EarlyCauses(f: Findings): seq<Cause> {
    MissCauses(Sorted(f.metrics.Keys), f.metrics) + FaultCauses(f.faults) + DropCauses(f.drops)
  }

  function TroubleOf(f: Findings, kind: Kind): Counter<string> {
    match kind
    case OnTimeout => f.timeouts
    case OnRecovery => f.recoveries
    case OnFailure => f.failures
    case OnSkip => f.skips
    case _ => map[]
  }

  /** The causes that list the tasks of one kind of event. */
  ghost function Listed(f: Findings, kind: Kind): seq<Cause> {
    TaskCauses(kind, Sorted(TroubleOf(f, kind).Keys), TroubleOf(f, kind))
  }

  ghost function NamedCauses(f: Findings): seq<Cause> {
    EarlyCauses(f) + Listed(f, OnTimeout) + Listed(f, OnRecovery) + Listed(f, OnFailure) + Listed(f, OnSkip)
  }

  /** The named causes, or a single sentence that stands in for them. */
  ghost function RootCauses(f: Findings): seq<Cause> {
    var causes := NamedCauses(f);
    if causes != [] then causes
    else if f.Health().NORMAL? then [NothingDetected]
    else [NoSingleCause]
  }

  method ListMisses(metrics: map<string, Metrics>) returns (causes: seq<Cause>)
    ensures causes == MissCauses(Sorted(metrics.Keys), metrics)
  {
    var names := SortNames(metrics.Keys);
    causes := [];
    for i := 0 to |names|
      invariant causes == MissCauses(names[..i], metrics)
    {
      assert names[..i + 1][..i] == names[..i];
      var misses := MissesFor(metrics, names[i]);
      if misses > 0 {
        causes := causes + [MissedDeadline(names[i], misses)];
      }
    }
    assert names[..|names|] == names;
  }

  method ListTasks(f: Findings, kind: Kind) returns (causes: seq<Cause>)
    ensures causes == Listed(f, kind)
  {
    var counter := TroubleOf(f, kind);
    var names := SortNames(counter.Keys);
    causes := ListEach(kind, names, counter);
  }

  method ListEach(kind: Kind, names: seq<string>, counter: Counter<string>) returns (causes: seq<Cause>)
    ensures causes == TaskCauses(kind, names, counter)
  {
    causes := [];
    for i := 0 to |names|
      invariant causes == TaskCauses(kind, names[..i], counter)
    {
      assert names[..i + 1][..i] == names[..i];
      causes := causes + [Happened(kind, names[i], At(counter, names[i]))];
    }
    assert names[..|names|] == names;
  }

  method CollectRootCauses(health: Health, f: Findings) returns (causes: seq<Cause>)
    requires health == f.Health()
    ensures causes == RootCauses(f)
  {
    causes := ListMisses(f.metrics);
    causes := causes + FaultCauses(f.faults);
    causes := causes + DropCauses(f.drops);
    var timeouts := ListTasks(f, OnTimeout);
    causes := causes + timeouts;
    var recoveries := ListTasks(f, OnRecovery);
    causes := causes + recoveries;
    var failures := ListTasks(f, OnFailure);
    causes := causes + failures;
    var skips := ListTasks(f, OnSkip);
    causes := causes + skips;
    if causes == [] && health.NORMAL? {
      causes := causes + [NothingDetected];
    }
    if causes == [] {
      causes := causes + [NoSingleCause];
    }
  }

  // ---------- the analysis of a log ----------

  datatype Report = Report(
    findings: Findings, health: Health, causes: seq<Cause>, observedDurationMs: int, opening: Opening)

  ghost function FindingsOf(records: seq<Record>): Findings {
    Findings(
      Counted(Kinds(records)),
      Counted(Levels(records)),
      Counted(FaultTypes(records)),
      Counted(DropReasons(records)),
      Counted(TasksOf(records, OnTimeout)),
      Counted(TasksOf(records, OnRecovery)),
      Counted(TasksOf(records, OnFailure)),
      Counted(TasksOf(records, OnSkip)),
      MetricsOf(records))
  }

  function Timestamps(records: seq<Record>): seq<int> {
    if records == [] then []
    else
      var earlier, last := Timestamps(records[..|records| - 1]), records[|records| - 1];
      if last.timestampMs.Some? then earlier + [last.timestampMs.value] else earlier
  }

  /** What the first record of a runtime's start tells. */
  function OpeningOf(records: seq<Record>): Opening {
    if records == [] then NoOpening
    else if records[0].kind.OnRuntimeStart? then records[0].opening
    else OpeningOf(records[1..])
  }

  method FindOpening(records: seq<Record>) returns (opening: Opening)
    ensures opening == OpeningOf(records)
  {
    opening := NoOpening;
    for i := 0 to |records|
      invariant opening == NoOpening && OpeningOf(records[i..]) == OpeningOf(records)
    {
      assert records[i..][1..] == records[i + 1..];
      if records[i].kind.OnRuntimeStart? {
        return records[i].opening;
      }
    }
  }

  ghost function ReportOf(records: seq<Record>): Report {
    var f, stamps := FindingsOf(records), Timestamps(records);
    Report(f, f.Health(), RootCauses(f), if stamps == [] then 0 else MaxOf(stamps), OpeningOf(records))
  }

  method Analyze(records: seq<Record>) returns (report: Report)
    ensures report == ReportOf(records)
  {
    var metrics := CollectTaskMetrics(records);
    var f := Findings(
      Counted(Kinds(records)),
      Counted(Levels(records)),
      Counted(FaultTypes(records)),
      Counted(DropReasons(records)),
      Counted(TasksOf(records, OnTimeout)),
      Counted(TasksOf(records, OnRecovery)),
      Counted(TasksOf(records, OnFailure)),
      Counted(TasksOf(records, OnSkip)),
      metrics);
    var health := ClassifyHealth(f.events, f.metrics, f.faults, f.drops);
    var causes := CollectRootCauses(health, f);
    var stamps := Timestamps(records);
    var opening := FindOpening(records);
    report := Report(f, health, causes, if stamps == [] then 0 else MaxOf(stamps), opening);
  }
}
