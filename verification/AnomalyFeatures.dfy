/** The features of a window of log records. */
module AnomalyFeatures {
  import opened Common
  import opened AnomalyWindows
  import opened HealthAnalyzer
  import opened LogRecords

  datatype Feature =
    | TaskCompletedCount
    | DeadlineMissedCount
    | AvgTaskDurationMs
    | MaxTaskDurationMs
    | MessageSentCount
    | MessageReceivedCount
    | MessageDroppedCount
    | QueueFullDropCount
    | FaultInjectedDropCount
    | FaultInjectedCount
    | TaskFailedCount
    | TaskSkippedCount
    | WatchdogTimeoutCount
    | TaskRecoveredCount
    | ErrorEventCount
    | WarningEventCount

  type Features = map<Feature, real>

  predicate Whole(features: Features) {
    forall f: Feature :: f in features
  }

  function InitialValue(f: Feature): real {
    0.0
  }

  function EmptyFeatures(): (features: Features)
    ensures Whole(features)
  {
    map f: Feature | true :: InitialValue(f)
  }

  /** Whether a record adds one to a counting feature. */
  predicate Shows(f: Feature, r: Record) {
    match f
    case TaskCompletedCount => r.kind.OnCompletion?
    case DeadlineMissedCount => r.kind.OnCompletion? && r.deadlineMissed
    case AvgTaskDurationMs => false
    case MaxTaskDurationMs => false
    case MessageSentCount => r.kind.OnSent?
    case MessageReceivedCount => r.kind.OnReceived?
    case MessageDroppedCount => r.kind.OnDropped?
    case QueueFullDropCount => r.kind.OnDropped? && r.reason.QueueFull?
    case FaultInjectedDropCount => r.kind.OnDropped? && r.reason.FaultInjectedDrop?
    case FaultInjectedCount => r.kind.OnFault?
    case TaskFailedCount => r.kind.OnFailure?
    case TaskSkippedCount => r.kind.OnSkip?
    case WatchdogTimeoutCount => r.kind.OnTimeout?
    case TaskRecoveredCount => r.kind.OnRecovery?
    case ErrorEventCount => r.level.ErrorLevel?
    case WarningEventCount => r.level.WarningLevel?
  }

  function CountOf(f: Feature, records: seq<Record>): nat {
    if records == [] then 0
    else
      var earlier := CountOf(f, records[..|records| - 1]);
      if Shows(f, records[|records| - 1]) then earlier + 1 else earlier
  }

  function DurationsOf(records: seq<Record>): seq<int> {
    if records == [] then []
    else
      var earlier, last := DurationsOf(records[..|records| - 1]), records[|records| - 1];
      if last.kind.OnCompletion? then earlier + [last.observedDurationMs] else earlier
  }

  function Average(durations: seq<int>): real {
    if durations == [] then 0.0 else SumOf(durations) as real / |durations| as real
  }

  function Longest(durations: seq<int>): real {
    if durations == [] then 0.0 else MaxOf(durations) as real
  }

  function FeatureOf(f: Feature, records: seq<Record>): real {
    match f
    case AvgTaskDurationMs => Average(DurationsOf(records))
    case MaxTaskDurationMs => Longest(DurationsOf(records))
    case _ => CountOf(f, records) as real
  }

  function Extract(records: seq<Record>): (features: Features)
    ensures Whole(features)
  {
    map f: Feature | true :: FeatureOf(f, records)
  }

  /** The counts so far, with the two duration features still at zero. */
  ghost predicate CountedSoFar(features: Features, records: seq<Record>) {
    Whole(features) && forall f: Feature :: features[f] == CountOf(f, records) as real
  }

  function Bumped(features: Features, f: Feature): Features
    requires Whole(features)
  {
    features[f := features[f] + 1.0]
  }

  /** The counter that the kind of a record adds to, if any. */
  function CounterOf(kind: Kind): Option<Feature> {
    match kind
    case OnCompletion => Some(TaskCompletedCount)
    case OnSent => Some(MessageSentCount)
    case OnReceived => Some(MessageReceivedCount)
    case OnDropped => Some(MessageDroppedCount)
    case OnFault => Some(FaultInjectedCount)
    case OnFailure => Some(TaskFailedCount)
    case OnSkip => Some(TaskSkippedCount)
    case OnTimeout => Some(WatchdogTimeoutCount)
    case OnRecovery => Some(TaskRecoveredCount)
    case _ => None
  }

  method CountRecord(before: Features, r: Record) returns (features: Features)
    requires Whole(before)
    ensures Whole(features)
    ensures forall f: Feature :: features[f] == before[f] + if Shows(f, r) then 1.0 else 0.0
  {
    features := before;
    if r.level.ErrorLevel? {
      features := Bumped(features, ErrorEventCount);
    }
    if r.level.WarningLevel? {
      features := Bumped(features, WarningEventCount);
    }
    var counter := CounterOf(r.kind);
    if counter.Some? {
      features := Bumped(features, counter.value);
    }
    if r.kind.OnCompletion? && r.deadlineMissed {
      features := Bumped(features, DeadlineMissedCount);
    } else if r.kind.OnDropped? && r.reason.QueueFull? {
      features := Bumped(features, QueueFullDropCount);
    } else if r.kind.OnDropped? && r.reason.FaultInjectedDrop? {
      features := Bumped(features, FaultInjectedDropCount);
    }
  }

  lemma NothingCounted()
    ensures forall f: Feature :: CountOf(f, []) == 0
  {
  }

  lemma NoDurationCounts(records: seq<Record>)
    ensures CountOf(AvgTaskDurationMs, records) == 0 && CountOf(MaxTaskDurationMs, records) == 0
  {
    if records != [] {
      NoDurationCounts(records[..|records| - 1]);
    }
  }

  method ExtractFeatures(records: seq<Record>) returns (features: Features)
    ensures features == Extract(records)
  {
    features := EmptyFeatures();
    var durations: seq<int> := [];
    NothingCounted();
    for i := 0 to |records|
      invariant CountedSoFar(features, records[..i])
      invariant durations == DurationsOf(records[..i])
    {
      assert records[..i + 1][..i] == records[..i];
      features := CountRecord(features, records[i]);
      if records[i].kind.OnCompletion? {
        durations := durations + [records[i].observedDurationMs];
      }
    }
    assert records[..|records|] == records;
    NoDurationCounts(records);
    if durations != [] {
      features := features[AvgTaskDurationMs := SumOf(durations) as real / |durations| as real];
      features := features[MaxTaskDurationMs := MaxOf(durations) as real];
    }
  }

  // ---------- features of joined logs ----------

  function Greater(a: real, b: real): real {
    if a > b then a else b
  }

  function Weighted(x: real, m: real, y: real, n: real): real {
    if m + n == 0.0 then 0.0 else (x * m + y * n) / (m + n)
  }

  /** The features of two logs put one after the other, from the features of each. */
  function Combine(a: Features, b: Features): Features
    requires Whole(a) && Whole(b)
  {
    map f: Feature | true :: CombineOne(f, a, b)
  }

  function CombineOne(f: Feature, a: Features, b: Features): real
    requires Whole(a) && Whole(b)
  {
    var m, n := a[TaskCompletedCount], b[TaskCompletedCount];
    match f
    case AvgTaskDurationMs =>
      Weighted(a[f], m, b[f], n)
    case MaxTaskDurationMs =>
      if m == 0.0 then b[f] else if n == 0.0 then a[f] else Greater(a[f], b[f])
    case _ => a[f] + b[f]
  }

  lemma {:induction false} CountConcat(f: Feature, a: seq<Record>, b: seq<Record>)
    ensures CountOf(f, a + b) == CountOf(f, a) + CountOf(f, b)
  {
    if b == [] {
      assert a + b == a;
    } else {
      assert (a + b)[..|a + b| - 1] == a + b[..|b| - 1];
      CountConcat(f, a, b[..|b| - 1]);
    }
  }

  lemma {:induction false} DurationsConcat(a: seq<Record>, b: seq<Record>)
    ensures DurationsOf(a + b) == DurationsOf(a) + DurationsOf(b)
  {
    if b == [] {
      assert a + b == a;
    } else {
      assert (a + b)[..|a + b| - 1] == a + b[..|b| - 1];
      DurationsConcat(a, b[..|b| - 1]);
    }
  }

  lemma {:induction false} DurationsAreCompletions(records: seq<Record>)
    ensures |DurationsOf(records)| == CountOf(TaskCompletedCount, records)
  {
    if records != [] {
      DurationsAreCompletions(records[..|records| - 1]);
    }
  }

  lemma {:induction false} SumConcat(a: seq<int>, b: seq<int>)
    ensures SumOf(a + b) == SumOf(a) + SumOf(b)
  {
    if b == [] {
      assert a + b == a;
    } else {
      assert (a + b)[..|a + b| - 1] == a + b[..|b| - 1];
      SumConcat(a, b[..|b| - 1]);
    }
  }

  lemma {:induction false} MaxConcat(a: seq<int>, b: seq<int>)
    requires a != [] && b != []
    ensures MaxOf(a + b) == if MaxOf(a) > MaxOf(b) then MaxOf(a) else MaxOf(b)
  {
    assert (a + b)[..|a + b| - 1] == a + b[..|b| - 1];
    if |b| == 1 {
      assert a + b[..0] == a;
    } else {
      MaxConcat(a, b[..|b| - 1]);
    }
  }

  lemma AverageTimesCount(durations: seq<int>)
    ensures Average(durations) * |durations| as real == SumOf(durations) as real
  {
  }

  lemma AverageConcat(a: seq<int>, b: seq<int>)
    ensures Average(a + b) == Weighted(Average(a), |a| as real, Average(b), |b| as real)
  {
    SumConcat(a, b);
    AverageTimesCount(a);
    AverageTimesCount(b);
  }

  lemma CombinedAverage(a: seq<Record>, b: seq<Record>)
    ensures FeatureOf(AvgTaskDurationMs, a + b) == CombineOne(AvgTaskDurationMs, Extract(a), Extract(b))
  {
    var da, db := DurationsOf(a), DurationsOf(b);
    DurationsAreCompletions(a);
    DurationsAreCompletions(b);
    DurationsConcat(a, b);
    assert Extract(a)[TaskCompletedCount] == |da| as real && Extract(b)[TaskCompletedCount] == |db| as real;
    assert Extract(a)[AvgTaskDurationMs] == Average(da) && Extract(b)[AvgTaskDurationMs] == Average(db);
    AverageConcat(da, db);
  }

  lemma CombinedLongest(a: seq<Record>, b: seq<Record>)
    ensures FeatureOf(MaxTaskDurationMs, a + b) == CombineOne(MaxTaskDurationMs, Extract(a), Extract(b))
  {
    var da, db := DurationsOf(a), DurationsOf(b);
    DurationsAreCompletions(a);
    DurationsAreCompletions(b);
    DurationsConcat(a, b);
    if da == [] {
      assert da + db == db;
    } else if db == [] {
      assert da + db == da;
    } else {
      MaxConcat(da, db);
    }
  }

  /** Counts add up, the longest duration is the longer of the two, and averages combine by weight. */
  lemma FeaturesCombine(a: seq<Record>, b: seq<Record>)
    ensures Extract(a + b) == Combine(Extract(a), Extract(b))
  {
    forall f: Feature ensures FeatureOf(f, a + b) == CombineOne(f, Extract(a), Extract(b)) {
      if f.AvgTaskDurationMs? {
        CombinedAverage(a, b);
      } else if f.MaxTaskDurationMs? {
        CombinedLongest(a, b);
      } else {
        CountConcat(f, a, b);
      }
    }
  }

  function CombinedOver(windows: seq<Window>): (features: Features)
    ensures Whole(features)
  {
    if windows == [] then Extract([])
    else Combine(CombinedOver(windows[..|windows| - 1]), Extract(windows[|windows| - 1].records))
  }

  lemma {:induction false} CombinedIsExtracted(windows: seq<Window>)
    ensures CombinedOver(windows) == Extract(Flatten(windows))
  {
    if windows != [] {
      CombinedIsExtracted(windows[..|windows| - 1]);
      FeaturesCombine(Flatten(windows[..|windows| - 1]), windows[|windows| - 1].records);
    }
  }

  /** The features of the windows of a log in time order combine to the features of the whole log. */
  lemma WindowFeaturesCombine(records: seq<Record>, windowMs: int)
    requires windowMs > 0 && InTimeOrder(records)
    ensures CombinedOver(Windows(records, windowMs).value) == Extract(records)
  {
    CombinedIsExtracted(Windows(records, windowMs).value);
    WindowsKeepOrder(records, windowMs);
  }
}
