/** The anomaly detector as a whole. */
module AnomalyReport {
  import opened Common
  import opened AnomalyFeatures
  import opened AnomalyScore
  import opened AnomalyWindows
  import opened HealthAnalyzer
  import opened LogRecords
  import opened Ranking
  import opened TextOrder

  function FeatureName(f: Feature): string {
    match f
    case TaskCompletedCount => "task_completed_count"
    case DeadlineMissedCount => "deadline_missed_count"
    case AvgTaskDurationMs => "avg_task_duration_ms"
    case MaxTaskDurationMs => "max_task_duration_ms"
    case MessageSentCount => "message_sent_count"
    case MessageReceivedCount => "message_received_count"
    case MessageDroppedCount => "message_dropped_count"
    case QueueFullDropCount => "queue_full_drop_count"
    case FaultInjectedDropCount => "fault_injected_drop_count"
    case FaultInjectedCount => "fault_injected_count"
    case TaskFailedCount => "task_failed_count"
    case TaskSkippedCount => "task_skipped_count"
    case WatchdogTimeoutCount => "watchdog_timeout_count"
    case TaskRecoveredCount => "task_recovered_count"
    case ErrorEventCount => "error_event_count"
    case WarningEventCount => "warning_event_count"
  }

  function NamesOf(features: seq<Feature>): (names: seq<string>)
    ensures |names| == |features|
  {
    if features == [] then [] else NamesOf(features[..|features| - 1]) + [FeatureName(features[|features| - 1])]
  }

  datatype WindowAnalysis = WindowAnalysis(
    startMs: int, endMs: int, features: Features, score: real, class_: Health, drivers: seq<string>)

  datatype Anomalies = Anomalies(
    windowMs: int,
    overall: Health,
    anomalyCount: nat,
    totalCount: nat,
    highestScore: real,
    topDrivers: seq<string>,
    windows: seq<WindowAnalysis>)

  function AnalysisOf(rules: RuleTable, w: Window): WindowAnalysis
  {
    var features := Extract(w.records);
    var score := ScoreOf(rules, features);
    WindowAnalysis(
      w.startMs, w.endMs, features, score, Classify(score, features), NamesOf(DriversOf(rules, features)))
  }

  function AnalysesOf(rules: RuleTable, windows: seq<Window>): (analyses: seq<WindowAnalysis>)
    ensures |analyses| == |windows|
    ensures forall k | 0 <= k < |windows| :: analyses[k] == AnalysisOf(rules, windows[k])
  {
    if windows == [] then [] else AnalysesOf(rules, windows[..|windows| - 1]) + [AnalysisOf(rules, windows[|windows| - 1])]
  }

  /** The worst class among the windows. */
  function Overall(analyses: seq<WindowAnalysis>): Health {
    if exists a <- analyses :: a.class_.UNSTABLE? then UNSTABLE
    else if exists a <- analyses :: a.class_.WARNING? then WARNING
    else NORMAL
  }

  function AnomalousOf(analyses: seq<WindowAnalysis>): seq<WindowAnalysis> {
    if analyses == [] then []
    else
      var earlier, last := AnomalousOf(analyses[..|analyses| - 1]), analyses[|analyses| - 1];
      if last.class_.NORMAL? then earlier else earlier + [last]
  }

  function HighestScore(analyses: seq<WindowAnalysis>): real {
    if analyses == [] then 0.0
    else if |analyses| == 1 then analyses[0].score
    else Greater(HighestScore(analyses[..|analyses| - 1]), analyses[|analyses| - 1].score)
  }

  function AllDrivers(analyses: seq<WindowAnalysis>): seq<string> {
    if analyses == [] then [] else AllDrivers(analyses[..|analyses| - 1]) + analyses[|analyses| - 1].drivers
  }

  function CountsFor(counts: Counter<string>, names: seq<string>): (weights: seq<real>)
    ensures |weights| == |names|
    ensures forall k | 0 <= k < |names| :: weights[k] == At(counts, names[k]) as real
  {
    seq(|names|, k requires 0 <= k < |names| => At(counts, names[k]) as real)
  }

  /** The five drivers named most often; equal counts go by name. */
  function Commonest(counts: Counter<string>, names: seq<string>): (top: seq<string>)
    ensures |top| == if |names| < 5 then |names| else 5
  {
    var order := Ranked(CountsFor(counts, names), |names|);
    PickedAt(names, order[..if |order| < 5 then |order| else 5])
  }

  ghost function TopOverall(counts: Counter<string>): seq<string> {
    Commonest(counts, Sorted(counts.Keys))
  }

  ghost function AnomaliesOf(rules: RuleTable, records: seq<Record>, windowMs: int): Result<Anomalies, WindowError>
  {
    match Windows(records, windowMs)
    case Err(e) => Err(e)
    case Ok(windows) =>
      var analyses := AnalysesOf(rules, windows);
      var anomalous := AnomalousOf(analyses);
      Ok(Anomalies(
        windowMs,
        Overall(analyses),
        |anomalous|,
        |analyses|,
        HighestScore(analyses),
        TopOverall(Counted(AllDrivers(anomalous))),
        analyses))
  }

  method AnalyzeWindow(rules: RuleTable, w: Window) returns (analysis: WindowAnalysis)
    ensures analysis == AnalysisOf(rules, w)
  {
    var features := ExtractFeatures(w.records);
    var score, drivers := ApplyRules(rules, features);
    analysis := WindowAnalysis(w.startMs, w.endMs, features, score, Classify(score, features), NamesOf(drivers));
  }

  method AnalyzeEach(rules: RuleTable, windows: seq<Window>) returns (analyses: seq<WindowAnalysis>)
    ensures analyses == AnalysesOf(rules, windows)
  {
    analyses := [];
    for i := 0 to |windows|
      invariant analyses == AnalysesOf(rules, windows[..i])
    {
      assert windows[..i + 1][..i] == windows[..i];
      var analysis := AnalyzeWindow(rules, windows[i]);
      analyses := analyses + [analysis];
    }
    assert windows[..|windows|] == windows;
  }

  method AddDrivers(before: Counter<string>, drivers: seq<string>) returns (counts: Counter<string>)
    ensures counts == CountMore(before, drivers)
  {
    counts := before;
    for j := 0 to |drivers|
      invariant counts == CountMore(before, drivers[..j])
    {
      assert drivers[..j + 1][..j] == drivers[..j];
      counts := counts[drivers[j] := At(counts, drivers[j]) + 1];
    }
    assert drivers[..|drivers|] == drivers;
  }

  method CountDrivers(anomalous: seq<WindowAnalysis>) returns (counts: Counter<string>)
    ensures counts == Counted(AllDrivers(anomalous))
  {
    counts := map[];
    for i := 0 to |anomalous|
      invariant counts == Counted(AllDrivers(anomalous[..i]))
    {
      assert anomalous[..i + 1][..i] == anomalous[..i];
      CountMoreIsCounted(AllDrivers(anomalous[..i]), anomalous[i].drivers);
      counts := AddDrivers(counts, anomalous[i].drivers);
    }
    assert anomalous[..|anomalous|] == anomalous;
  }

  method AnalyzeAnomalyWindows(records: seq<Record>, windowMs: int) returns (result: Result<Anomalies, WindowError>)
    ensures result == AnomaliesOf(RULES, records, windowMs)
  {
    var split := SplitIntoWindows(records, windowMs);
    if split.Err? {
      return Err(split.error);
    }
    var analyses := AnalyzeEach(RULES, split.value);
    var anomalous := AnomalousOf(analyses);
    var counts := CountDrivers(anomalous);
    var names := SortNames(counts.Keys);
    return Ok(Anomalies(
      windowMs,
      Overall(analyses),
      |anomalous|,
      |analyses|,
      HighestScore(analyses),
      Commonest(counts, names),
      analyses));
  }

  /** One driver outranks another: counted more often, or as often and earlier by name. */
  predicate NamedBefore(counts: Counter<string>, a: string, b: string) {
    At(counts, a) > At(counts, b) || (At(counts, a) == At(counts, b) && Before(a, b))
  }

  function TopPlacesOf(counts: Counter<string>, names: seq<string>): (places: seq<nat>)
    ensures forall k | 0 <= k < |places| :: places[k] < |names|
    ensures Commonest(counts, names) == PickedAt(names, places)
  {
    var order := Ranked(CountsFor(counts, names), |names|);
    order[..if |order| < 5 then |order| else 5]
  }

  lemma PlacesAreTop(counts: Counter<string>, names: seq<string>)
    ensures
      var places, weights := TopPlacesOf(counts, names), CountsFor(counts, names);
      && (forall j, k | 0 <= j < k < |places| :: Ahead(weights, places[j], places[k]))
      && (forall i: nat, k | i < |names| && i !in places && 0 <= k < |places| :: Ahead(weights, places[k], i))
      && (|places| < 5 ==> forall i: nat | i < |names| :: i in places)
  {
    TopPlaces(CountsFor(counts, names), 5);
    var order := Ranked(CountsFor(counts, names), |names|);
    assert |order| < 5 ==> TopPlacesOf(counts, names) == order;
  }

  lemma AheadIsBefore(counts: Counter<string>, names: seq<string>, i: nat, j: nat)
    requires Ascending(names) && i < |names| && j < |names| && Ahead(CountsFor(counts, names), i, j)
    ensures NamedBefore(counts, names[i], names[j])
  {
  }

  ghost predicate BehindAll(counts: Counter<string>, top: seq<string>, name: string) {
    |top| == 5 && forall k | 0 <= k < |top| :: NamedBefore(counts, top[k], name)
  }

  lemma PlaceLeftOut(counts: Counter<string>, name: string)
    requires name in counts && name !in TopOverall(counts)
    ensures BehindAll(counts, TopOverall(counts), name)
  {
    var names := Sorted(counts.Keys);
    var places := TopPlacesOf(counts, names);
    PlacesAreTop(counts, names);
    assert name in names;
    var i: nat :| i < |names| && names[i] == name;
    assert forall q | 0 <= q < |places| :: PickedAt(names, places)[q] in TopOverall(counts);
    assert i !in places;
    forall k | 0 <= k < |places| ensures NamedBefore(counts, names[places[k]], name) {
      AheadIsBefore(counts, names, places[k], i);
    }
  }

  /** The report names up to five drivers of the anomalous windows, each outranking the next, and all of them
      outranking every driver left out; it leaves drivers out only when it names five. */
  lemma TopOverallIsCommonest(counts: Counter<string>)
    ensures
      var top := TopOverall(counts);
      && |top| <= 5
      && (forall name <- top :: name in counts)
      && (forall j, k | 0 <= j < k < |top| :: NamedBefore(counts, top[j], top[k]))
      && (forall name <- counts | name !in top :: BehindAll(counts, top, name))
  {
    var names := Sorted(counts.Keys);
    var places, top := TopPlacesOf(counts, names), TopOverall(counts);
    PlacesAreTop(counts, names);
    forall name <- top ensures name in counts {
      var k :| 0 <= k < |top| && top[k] == name;
      assert names[places[k]] in names;
    }
    forall j, k | 0 <= j < k < |top| ensures NamedBefore(counts, top[j], top[k]) {
      AheadIsBefore(counts, names, places[j], places[k]);
    }
    forall name <- counts | name !in top ensures BehindAll(counts, top, name) {
      PlaceLeftOut(counts, name);
    }
  }
}
