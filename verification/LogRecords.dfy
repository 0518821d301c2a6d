/** Log records as the analyzers read them, after their lookups with defaults. */
module LogRecords {
  import opened Common
  import opened EventLog
  import opened RuntimeConfig

  datatype Kind =
    | OnRuntimeStart | OnSchedulerStart | OnTaskStart | OnCompletion
    | OnSent | OnReceived | OnDropped | OnFault | OnFailure | OnSkip | OnTimeout | OnRecovery
    | OnSchedulerEnd | OnSummary | OnRuntimeEnd | OnOther(name: string)

  datatype Level = InfoLevel | WarningLevel | ErrorLevel | OtherLevel(name: string)

  /** What the record of the runtime's start tells about the run. */
  datatype Opening = Opening(simulationName: Option<string>, schedulerMode: Option<string>, durationSeconds: Option<int>)

  const NoOpening: Opening := Opening(None, None, None)

  /** `faultType` is only looked up in a record of an injected fault, `reason` only in one of a dropped message,
      and `opening` only in one of the runtime's start. */
  datatype Record = Record(
    timestampMs: Option<int>,
    kind: Kind,
    level: Level,
    task: string,
    faultType: FaultKind,
    reason: DropReason,
    observedDurationMs: int,
    runCount: int,
    deadlineMissCount: int,
    deadlineMissed: bool,
    opening: Opening)

  const UNKNOWN: string := "unknown"

  /** A record with only its kind and severity. */
  function Bare(at: int, kind: Kind, level: Level): Record {
    Record(Some(at), kind, level, UNKNOWN, UnlistedFault(UNKNOWN), UnlistedReason(UNKNOWN), 0, 0, 0, false, NoOpening)
  }

  /** The record an analyzer reads back from a line the runtime wrote. */
  function Read(line: Stamped): Record {
    var at := line.timestampMs;
    match line.event
    case RuntimeStarted(name, seconds, mode, _) =>
      Bare(at, OnRuntimeStart, InfoLevel).(opening := Opening(Some(name), Some(mode), Some(seconds)))
    case SchedulerStarted(_, _) => Bare(at, OnSchedulerStart, InfoLevel)
    case TaskStarted(task, _, _, _) => Bare(at, OnTaskStart, InfoLevel).(task := task)
    case TaskCompleted(task, observedMs, _, _, missed, runCount, missCount) =>
      Bare(at, OnCompletion, if missed then WarningLevel else InfoLevel).(
        task := task,
        observedDurationMs := observedMs,
        runCount := runCount,
        deadlineMissCount := missCount,
        deadlineMissed := missed)
    case MessageSent(_, _, _, _, _, _) => Bare(at, OnSent, InfoLevel)
    case MessageReceived(_, _, _, _, _) => Bare(at, OnReceived, InfoLevel)
    case MessageDropped(_, _, _, _, _, _, reason) => Bare(at, OnDropped, WarningLevel).(reason := reason)
    case FaultInjected(kind, _, _) =>
      Bare(at, OnFault, if kind.TaskCrash? then ErrorLevel else WarningLevel).(faultType := kind)
    case TaskFailed(task) => Bare(at, OnFailure, ErrorLevel).(task := task)
    case TaskSkipped(task) => Bare(at, OnSkip, WarningLevel).(task := task)
    case WatchdogTimeout(task, missCount, _) =>
      Bare(at, OnTimeout, ErrorLevel).(task := task, deadlineMissCount := missCount)
    case TaskRecovered(task) => Bare(at, OnRecovery, WarningLevel).(task := task)
    case SchedulerFinished => Bare(at, OnSchedulerEnd, InfoLevel)
    case RuntimeSummary(task, runCount, missCount) =>
      Bare(at, OnSummary, InfoLevel).(task := task, runCount := runCount, deadlineMissCount := missCount)
    case RuntimeFinished => Bare(at, OnRuntimeEnd, InfoLevel)
  }

  function ReadAll(lines: seq<Stamped>): (records: seq<Record>)
    ensures |records| == |lines|
    ensures forall i | 0 <= i < |lines| :: records[i] == Read(lines[i])
  {
    if lines == [] then [] else ReadAll(lines[..|lines| - 1]) + [Read(lines[|lines| - 1])]
  }

  // ---------- counters ----------

  type Counter<!K(==)> = map<K, nat>

  function At<K>(counter: Counter<K>, key: K): nat {
    if key in counter then counter[key] else 0
  }

  function Occurrences<K(==)>(keys: seq<K>, key: K): nat {
    if keys == [] then 0
    else
      var earlier := Occurrences(keys[..|keys| - 1], key);
      if keys[|keys| - 1] == key then earlier + 1 else earlier
  }

  /** Counts the keys; only keys that occur have an entry. */
  function Counted<K(==,!new)>(keys: seq<K>): (counter: Counter<K>)
    ensures forall key :: key in counter <==> key in keys
    ensures forall key :: At(counter, key) == Occurrences(keys, key)
    ensures forall key <- counter :: counter[key] > 0
  {
    if keys == [] then map[]
    else
      var last := keys[|keys| - 1];
      var earlier := Counted(keys[..|keys| - 1]);
      assert keys == keys[..|keys| - 1] + [last];
      earlier[last := At(earlier, last) + 1]
  }

  lemma {:induction false} OccurrencesConcat<K>(a: seq<K>, b: seq<K>, key: K)
    ensures Occurrences(a + b, key) == Occurrences(a, key) + Occurrences(b, key)
  {
    if b == [] {
      assert a + b == a;
    } else {
      assert (a + b)[..|a + b| - 1] == a + b[..|b| - 1];
      OccurrencesConcat(a, b[..|b| - 1], key);
    }
  }

  /** Counting on from what is already counted. */
  function CountMore<K(==,!new)>(counter: Counter<K>, keys: seq<K>): Counter<K> {
    if keys == [] then counter
    else
      var earlier, last := CountMore(counter, keys[..|keys| - 1]), keys[|keys| - 1];
      earlier[last := At(earlier, last) + 1]
  }

  lemma {:induction false} CountMoreIsCounted<K(!new)>(a: seq<K>, b: seq<K>)
    ensures CountMore(Counted(a), b) == Counted(a + b)
  {
    if b == [] {
      assert a + b == a;
    } else {
      assert (a + b)[..|a + b| - 1] == a + b[..|b| - 1];
      CountMoreIsCounted(a, b[..|b| - 1]);
    }
  }

  // ---------- the keys each counter counts ----------

  function Kinds(records: seq<Record>): seq<Kind> {
    if records == [] then [] else Kinds(records[..|records| - 1]) + [records[|records| - 1].kind]
  }

  function Levels(records: seq<Record>): seq<Level> {
    if records == [] then [] else Levels(records[..|records| - 1]) + [records[|records| - 1].level]
  }

  function FaultTypes(records: seq<Record>): seq<FaultKind> {
    if records == [] then []
    else
      var earlier, last := FaultTypes(records[..|records| - 1]), records[|records| - 1];
      if last.kind.OnFault? then earlier + [last.faultType] else earlier
  }

  function DropReasons(records: seq<Record>): seq<DropReason> {
    if records == [] then []
    else
      var earlier, last := DropReasons(records[..|records| - 1]), records[|records| - 1];
      if last.kind.OnDropped? then earlier + [last.reason] else earlier
  }

  /** The tasks named in the records of one kind. */
  function TasksOf(records: seq<Record>, kind: Kind): seq<string> {
    if records == [] then []
    else
      var earlier, last := TasksOf(records[..|records| - 1], kind), records[|records| - 1];
      if last.kind == kind then earlier + [last.task] else earlier
  }
}
