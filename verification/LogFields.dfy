/** The JSON fields of each log line, as the logger writes them, and the record that an analyzer gets when
    it looks them up by name. */
module LogFields {
  import opened Common
  import opened EventLog
  import opened JsonText
  import opened LogFile
  import opened LogRecords
  import opened MessageBus
  import opened PlainText
  import opened RuntimeConfig

  /** The names of fields; the first thirteen are those the analyzers look up. */
  datatype Field =
    | TimestampField | EventTypeField | SeverityField | TaskField | FaultTypeField | ReasonField
    | ObservedDurationField | RunCountField | MissCountField | DeadlineMissedField
    | SimulationNameField | DurationSecondsField | SchedulerModeField | TaskCountField
    | PeriodField | DeadlineField | PriorityField | ConfiguredTimeField
    | SourceTaskField | TargetTaskField | MessageTypeField | SequenceIdField
    | QueueDepthField | QueueLimitField | RemainingDepthField | ExtraTimeField
    | ConsecutiveMissesField | RecoveryActionField

  function FieldText(f: Field): string {
    match f
    case TimestampField => "timestamp_ms"
    case EventTypeField => "event_type"
    case SeverityField => "severity"
    case TaskField => "task"
    case FaultTypeField => "fault_type"
    case ReasonField => "reason"
    case ObservedDurationField => "observed_duration_ms"
    case RunCountField => "run_count"
    case MissCountField => "deadline_miss_count"
    case DeadlineMissedField => "deadline_missed"
    case SimulationNameField => "simulation_name"
    case DurationSecondsField => "duration_seconds"
    case SchedulerModeField => "scheduler_mode"
    case TaskCountField => "task_count"
    case PeriodField => "period_ms"
    case DeadlineField => "deadline_ms"
    case PriorityField => "priority"
    case ConfiguredTimeField => "configured_execution" + "_time_ms"
    case SourceTaskField => "source_task"
    case TargetTaskField => "target_task"
    case MessageTypeField => "message_type"
    case SequenceIdField => "sequence_id"
    case QueueDepthField => "target_queue_depth"
    case QueueLimitField => "target_queue_limit"
    case RemainingDepthField => "remaining_queue_depth"
    case ExtraTimeField => "extra_execution_time_ms"
    case ConsecutiveMissesField => "consecutive_miss_count"
    case RecoveryActionField => "recovery_action"
  }

  predicate LookedUp(f: Field) {
    || f.TimestampField? || f.EventTypeField? || f.SeverityField? || f.TaskField? || f.FaultTypeField?
    || f.ReasonField? || f.ObservedDurationField? || f.RunCountField? || f.MissCountField? || f.DeadlineMissedField?
    || f.SimulationNameField? || f.DurationSecondsField? || f.SchedulerModeField?
  }

  function KindName(kind: Kind): string {
    match kind
    case OnRuntimeStart => "runtime_started"
    case OnSchedulerStart => "scheduler_started"
    case OnTaskStart => "task_started"
    case OnCompletion => "task_completed"
    case OnSent => "message_sent"
    case OnReceived => "message_received"
    case OnDropped => "message_dropped"
    case OnFault => "fault_injected"
    case OnFailure => "task_failed"
    case OnSkip => "task_skipped"
    case OnTimeout => "watchdog_timeout"
    case OnRecovery => "task_recovered"
    case OnSchedulerEnd => "scheduler_finished"
    case OnSummary => "runtime_summary"
    case OnRuntimeEnd => "runtime_finished"
    case OnOther(name) => name
  }

  function LevelName(level: Level): string {
    match level
    case InfoLevel => "info"
    case WarningLevel => "warning"
    case ErrorLevel => "error"
    case OtherLevel(name) => name
  }

  function FaultName(fault: FaultKind): string {
    match fault
    case SlowTask => "slow_task"
    case CpuSpike => "cpu_spike"
    case DroppedMessages => "dropped_messages"
    case TaskCrash => "task_crash"
    case UnlistedFault(name) => name
  }

  function ReasonName(reason: DropReason): string {
    match reason
    case QueueFull => "queue_full"
    case FaultInjectedDrop => "fault_injected_drop"
    case UnlistedReason(name) => name
  }

  function ContentName(content: Content): string {
    match content
    case ControlStatus => "control_status"
    case NetworkPacket => "network_packet"
  }

  const KINDS: seq<Kind> := [
    OnRuntimeStart, OnSchedulerStart, OnTaskStart, OnCompletion, OnSent, OnReceived, OnDropped, OnFault,
    OnFailure, OnSkip, OnTimeout, OnRecovery, OnSchedulerEnd, OnSummary, OnRuntimeEnd]

  function KindOf(kinds: seq<Kind>, name: string): Kind {
    if kinds == [] then OnOther(name)
    else if name == KindName(kinds[0]) then kinds[0]
    else KindOf(kinds[1..], name)
  }

  function LevelOf(name: string): Level {
    if name == "info" then InfoLevel
    else if name == "warning" then WarningLevel
    else if name == "error" then ErrorLevel
    else OtherLevel(name)
  }

  function FaultOf(name: string): FaultKind {
    if name == "slow_task" then SlowTask
    else if name == "cpu_spike" then CpuSpike
    else if name == "dropped_messages" then DroppedMessages
    else if name == "task_crash" then TaskCrash
    else UnlistedFault(name)
  }

  function ReasonOf(name: string): DropReason {
    if name == "queue_full" then QueueFull
    else if name == "fault_injected_drop" then FaultInjectedDrop
    else UnlistedReason(name)
  }

  // ---------- the fields of a line ----------

  datatype Entry = Entry(field: Field, value: Json)

  function Lead(at: int, kind: Kind, level: Level): seq<Entry> {
    [Entry(TimestampField, Number(at)), Entry(EventTypeField, Text(KindName(kind))), Entry(SeverityField, Text(LevelName(level)))]
  }

  /** The fields after the time stamp, event type and severity. */
  function Details(e: Event): seq<Entry> {
    match e
    case RuntimeStarted(name, seconds, mode, taskCount) =>
      [Entry(SimulationNameField, Text(name)), Entry(DurationSecondsField, Number(seconds)),
       Entry(SchedulerModeField, Text(mode)), Entry(TaskCountField, Number(taskCount))]
    case SchedulerStarted(mode, seconds) =>
      [Entry(SchedulerModeField, Text(mode)), Entry(DurationSecondsField, Number(seconds))]
    case TaskStarted(task, period, deadline, priority) =>
      [Entry(TaskField, Text(task)), Entry(PeriodField, Number(period)), Entry(DeadlineField, Number(deadline)),
       Entry(PriorityField, Number(priority))]
    case TaskCompleted(task, observed, configured, deadline, missed, runs, misses) =>
      [Entry(TaskField, Text(task)), Entry(ObservedDurationField, Number(observed)),
       Entry(ConfiguredTimeField, Number(configured)), Entry(DeadlineField, Number(deadline)),
       Entry(DeadlineMissedField, Flag(missed)), Entry(RunCountField, Number(runs)), Entry(MissCountField, Number(misses))]
    case MessageSent(source, target, content, id, depth, limit) =>
      [Entry(SourceTaskField, Text(source)), Entry(TargetTaskField, Text(target)),
       Entry(MessageTypeField, Text(ContentName(content))), Entry(SequenceIdField, Number(id)),
       Entry(QueueDepthField, Number(depth)), Entry(QueueLimitField, Number(limit))]
    case MessageReceived(source, target, content, id, remaining) =>
      [Entry(SourceTaskField, Text(source)), Entry(TargetTaskField, Text(target)),
       Entry(MessageTypeField, Text(ContentName(content))), Entry(SequenceIdField, Number(id)),
       Entry(RemainingDepthField, Number(remaining))]
    case MessageDropped(source, target, content, id, depth, limit, reason) =>
      [Entry(SourceTaskField, Text(source)), Entry(TargetTaskField, Text(target)),
       Entry(MessageTypeField, Text(ContentName(content))), Entry(SequenceIdField, Number(id)),
       Entry(QueueDepthField, Number(depth)), Entry(QueueLimitField, Number(limit)),
       Entry(ReasonField, Text(ReasonName(reason)))]
    case FaultInjected(kind, target, ExtraExecution(ms)) =>
      [Entry(FaultTypeField, Text(FaultName(kind))), Entry(TargetTaskField, Text(target)), Entry(ExtraTimeField, Number(ms))]
    case FaultInjected(kind, target, SimulatedCrash) =>
      [Entry(FaultTypeField, Text(FaultName(kind))), Entry(TargetTaskField, Text(target)),
       Entry(ReasonField, Text("simulated_task_crash"))]
    case FaultInjected(kind, target, LostMessage(source, content, id)) =>
      [Entry(FaultTypeField, Text(FaultName(kind))), Entry(SourceTaskField, Text(source)),
       Entry(TargetTaskField, Text(target)), Entry(MessageTypeField, Text(ContentName(content))),
       Entry(SequenceIdField, Number(id)), Entry(ReasonField, Text(ReasonName(FaultInjectedDrop)))]
    case TaskFailed(task) =>
      [Entry(FaultTypeField, Text(FaultName(TaskCrash))), Entry(TaskField, Text(task)),
       Entry(ReasonField, Text("simulated_task_crash"))]
    case TaskSkipped(task) =>
      [Entry(FaultTypeField, Text(FaultName(TaskCrash))), Entry(TaskField, Text(task)),
       Entry(ReasonField, Text("task_in_failed_state"))]
    case WatchdogTimeout(task, misses, consecutive) =>
      [Entry(TaskField, Text(task)), Entry(MissCountField, Number(misses)),
       Entry(ConsecutiveMissesField, Number(consecutive)), Entry(ReasonField, Text("consecutive_deadline_misses"))]
    case TaskRecovered(task) =>
      [Entry(TaskField, Text(task)), Entry(RecoveryActionField, Text("simulated_task_reset"))]
    case RuntimeSummary(task, runs, misses) =>
      [Entry(TaskField, Text(task)), Entry(RunCountField, Number(runs)), Entry(MissCountField, Number(misses))]
    case SchedulerFinished => []
    case RuntimeFinished => []
  }

  function EntriesOf(line: Stamped): seq<Entry> {
    Lead(line.timestampMs, Read(line).kind, Read(line).level) + Details(line.event)
  }

  /** The members for these entries, under the names that `text` gives their fields. */
  function NamedBy(entries: seq<Entry>, text: Field -> string): (members: seq<Member>)
    ensures |members| == |entries|
  {
    if entries == [] then []
    else
      var last := entries[|entries| - 1];
      NamedBy(entries[..|entries| - 1], text) + [Member(text(last.field), last.value)]
  }

  function Named(entries: seq<Entry>): (members: seq<Member>) {
    NamedBy(entries, FieldText)
  }

  function FieldsOf(line: Stamped): Fields {
    Fields(Named(EntriesOf(line)))
  }

  // ---------- looking fields up ----------

  /** The last value under a name, as in a dictionary built in order. */
  function Lookup(members: seq<Member>, name: string): Option<Json> {
    if members == [] then None
    else
      var last := members[|members| - 1];
      if last.name == name then Some(last.value) else Lookup(members[..|members| - 1], name)
  }

  function Find(entries: seq<Entry>, f: Field): Option<Json> {
    if entries == [] then None
    else
      var last := entries[|entries| - 1];
      if last.field == f then Some(last.value) else Find(entries[..|entries| - 1], f)
  }

  /** `str(event.get(name, "unknown"))` */
  function TextOr(value: Option<Json>): string {
    match value
    case None => UNKNOWN
    case Some(Text(s)) => s
    case Some(Number(n)) => SignedText(n)
    case Some(Flag(b)) => if b then "True" else "False"
  }

  /** `as_int(event.get(name))`; a text counts by its digits, with an optional sign. */
  function IntOr(value: Option<Json>): int {
    match value
    case None => 0
    case Some(Number(n)) => n
    case Some(Flag(b)) => if b then 1 else 0
    case Some(Text(s)) => WholeOrZero(s)
  }

  /** `event.get(name)`, as it is printed. */
  function TextIn(value: Option<Json>): Option<string> {
    if value.Some? then Some(TextOr(value)) else None
  }

  function NumberIn(value: Option<Json>): Option<int> {
    match value
    case Some(Number(n)) => Some(n)
    case _ => None
  }

  function WholeOrZero(s: string): int {
    var signed := s != "" && (s[0] == '-' || s[0] == '+');
    var digits := if signed then s[1..] else s;
    if digits == "" || !AllDigits(digits) then 0
    else
      var size: int := NumberOf(digits);
      if signed && s[0] == '-' then -size else size
  }

  /** What the analyzers look up. */
  datatype Lookups = Lookups(
    timestamp: Option<Json>,
    eventType: Option<Json>,
    severity: Option<Json>,
    task: Option<Json>,
    faultType: Option<Json>,
    reason: Option<Json>,
    observed: Option<Json>,
    runs: Option<Json>,
    misses: Option<Json>,
    missed: Option<Json>,
    simulation: Option<Json>,
    seconds: Option<Json>,
    mode: Option<Json>)

  function RecordFrom(l: Lookups): Record {
    var kind := KindOf(KINDS, TextOr(l.eventType));
    Record(
      if l.timestamp.Some? then Some(IntOr(l.timestamp)) else None,
      kind,
      LevelOf(TextOr(l.severity)),
      TextOr(l.task),
      if kind.OnFault? then FaultOf(TextOr(l.faultType)) else UnlistedFault(UNKNOWN),
      if kind.OnDropped? then ReasonOf(TextOr(l.reason)) else UnlistedReason(UNKNOWN),
      IntOr(l.observed),
      IntOr(l.runs),
      IntOr(l.misses),
      l.missed == Some(Flag(true)),
      if kind.OnRuntimeStart? then Opening(TextIn(l.simulation), TextIn(l.mode), NumberIn(l.seconds)) else NoOpening)
  }

  function LookupsIn(members: seq<Member>): Lookups {
    Lookups(
      Lookup(members, FieldText(TimestampField)),
      Lookup(members, FieldText(EventTypeField)),
      Lookup(members, FieldText(SeverityField)),
      Lookup(members, FieldText(TaskField)),
      Lookup(members, FieldText(FaultTypeField)),
      Lookup(members, FieldText(ReasonField)),
      Lookup(members, FieldText(ObservedDurationField)),
      Lookup(members, FieldText(RunCountField)),
      Lookup(members, FieldText(MissCountField)),
      Lookup(members, FieldText(DeadlineMissedField)),
      Lookup(members, FieldText(SimulationNameField)),
      Lookup(members, FieldText(DurationSecondsField)),
      Lookup(members, FieldText(SchedulerModeField)))
  }

  /** The record the analyzers work with, looked up in the fields of a line. */
  function RecordOf(fields: Fields): Record {
    RecordFrom(LookupsIn(fields.members))
  }

  function RecordsOf(all: seq<Fields>): (records: seq<Record>)
    ensures |records| == |all|
  {
    if all == [] then [] else RecordsOf(all[..|all| - 1]) + [RecordOf(all[|all| - 1])]
  }

  // ---------- what is written is what is looked up ----------

  /** The length and the first letter of a field's name. */
  function Sign(f: Field): (nat, char) {
    match f
    case TimestampField => (12, 't')
    case EventTypeField => (10, 'e')
    case SeverityField => (8, 's')
    case TaskField => (4, 't')
    case FaultTypeField => (10, 'f')
    case ReasonField => (6, 'r')
    case ObservedDurationField => (20, 'o')
    case RunCountField => (9, 'r')
    case MissCountField => (19, 'd')
    case DeadlineMissedField => (15, 'd')
    case SimulationNameField => (15, 's')
    case DurationSecondsField => (16, 'd')
    case SchedulerModeField => (14, 's')
    case TaskCountField => (10, 't')
    case PeriodField => (9, 'p')
    case DeadlineField => (11, 'd')
    case PriorityField => (8, 'p')
    case ConfiguredTimeField => (28, 'c')
    case SourceTaskField => (11, 's')
    case TargetTaskField => (11, 't')
    case MessageTypeField => (12, 'm')
    case SequenceIdField => (11, 's')
    case QueueDepthField => (18, 't')
    case QueueLimitField => (18, 't')
    case RemainingDepthField => (21, 'r')
    case ExtraTimeField => (23, 'e')
    case ConsecutiveMissesField => (22, 'c')
    case RecoveryActionField => (15, 'r')
  }

  lemma FieldsAreSigned(f: Field)
    ensures (|FieldText(f)|, FieldText(f)[0]) == Sign(f)
  {
  }

  lemma FieldTextsDiffer(a: Field, b: Field)
    requires LookedUp(a) && a != b
    ensures FieldText(a) != FieldText(b)
  {
    FieldsAreSigned(a);
    FieldsAreSigned(b);
    assert Sign(a) != Sign(b);
  }

  lemma {:induction false} LookupByIsFind(entries: seq<Entry>, text: Field -> string, f: Field)
    requires forall g: Field | g != f :: text(g) != text(f)
    ensures Lookup(NamedBy(entries, text), text(f)) == Find(entries, f)
  {
    if entries != [] {
      LookupByIsFind(entries[..|entries| - 1], text, f);
    }
  }

  lemma LookupIsFind(entries: seq<Entry>, f: Field)
    requires LookedUp(f)
    ensures Lookup(Named(entries), FieldText(f)) == Find(entries, f)
  {
    forall g: Field | g != f ensures FieldText(g) != FieldText(f) {
      FieldTextsDiffer(f, g);
    }
    LookupByIsFind(entries, FieldText, f);
  }

  function FindsIn(entries: seq<Entry>): Lookups {
    Lookups(
      Find(entries, TimestampField),
      Find(entries, EventTypeField),
      Find(entries, SeverityField),
      Find(entries, TaskField),
      Find(entries, FaultTypeField),
      Find(entries, ReasonField),
      Find(entries, ObservedDurationField),
      Find(entries, RunCountField),
      Find(entries, MissCountField),
      Find(entries, DeadlineMissedField),
      Find(entries, SimulationNameField),
      Find(entries, DurationSecondsField),
      Find(entries, SchedulerModeField))
  }

  lemma LookupsAreFinds(entries: seq<Entry>)
    ensures LookupsIn(Named(entries)) == FindsIn(entries)
  {
    LookupIsFind(entries, TimestampField);
    LookupIsFind(entries, EventTypeField);
    LookupIsFind(entries, SeverityField);
    LookupIsFind(entries, TaskField);
    LookupIsFind(entries, FaultTypeField);
    LookupIsFind(entries, ReasonField);
    LookupIsFind(entries, ObservedDurationField);
    LookupIsFind(entries, RunCountField);
    LookupIsFind(entries, MissCountField);
    LookupIsFind(entries, DeadlineMissedField);
    LookupIsFind(entries, SimulationNameField);
    LookupIsFind(entries, DurationSecondsField);
    LookupIsFind(entries, SchedulerModeField);
  }

  lemma {:induction false} FindMeans(entries: seq<Entry>, f: Field)
    ensures
      match Find(entries, f)
      case None => forall i | 0 <= i < |entries| :: entries[i].field != f
      case Some(v) => exists i :: 0 <= i < |entries| && entries[i] == Entry(f, v)
  {
    if entries != [] {
      FindMeans(entries[..|entries| - 1], f);
    }
  }

  lemma {:induction false} FindConcat(a: seq<Entry>, b: seq<Entry>, f: Field)
    ensures Find(a + b, f) == if Find(b, f).Some? then Find(b, f) else Find(a, f)
  {
    if b == [] {
      assert a + b == a;
    } else {
      assert (a + b)[..|a + b| - 1] == a + b[..|b| - 1];
      FindConcat(a, b[..|b| - 1], f);
    }
  }

  /** What each kind of event holds of the fields that are looked up. */
  function DetailOf(e: Event, f: Field): Option<Json> {
    match f
    case TaskField =>
      (match e
       case TaskStarted(task, _, _, _) => Some(Text(task))
       case TaskCompleted(task, _, _, _, _, _, _) => Some(Text(task))
       case TaskFailed(task) => Some(Text(task))
       case TaskSkipped(task) => Some(Text(task))
       case WatchdogTimeout(task, _, _) => Some(Text(task))
       case TaskRecovered(task) => Some(Text(task))
       case RuntimeSummary(task, _, _) => Some(Text(task))
       case _ => None)
    case FaultTypeField =>
      (match e
       case FaultInjected(kind, _, _) => Some(Text(FaultName(kind)))
       case TaskFailed(_) => Some(Text(FaultName(TaskCrash)))
       case TaskSkipped(_) => Some(Text(FaultName(TaskCrash)))
       case _ => None)
    case ObservedDurationField => if e.TaskCompleted? then Some(Number(e.observedDurationMs)) else None
    case RunCountField => if e.TaskCompleted? || e.RuntimeSummary? then Some(Number(e.runCount)) else None
    case MissCountField =>
      if e.TaskCompleted? || e.RuntimeSummary? || e.WatchdogTimeout? then Some(Number(e.deadlineMissCount)) else None
    case DeadlineMissedField => if e.TaskCompleted? then Some(Flag(e.deadlineMissed)) else None
    case SimulationNameField => if e.RuntimeStarted? then Some(Text(e.simulationName)) else None
    case DurationSecondsField =>
      if e.RuntimeStarted? || e.SchedulerStarted? then Some(Number(e.durationSeconds)) else None
    case SchedulerModeField =>
      if e.RuntimeStarted? || e.SchedulerStarted? then Some(Text(e.modeName)) else None
    case _ => None
  }

  lemma CompletionHolds(e: Event, f: Field)
    requires LookedUp(f) && !f.ReasonField? && e.TaskCompleted?
    ensures Find(Details(e), f) == DetailOf(e, f)
  {
    var d := Details(e);
    FindMeans(d, f);
    assert d[0].field == TaskField && d[1].field == ObservedDurationField && d[4].field == DeadlineMissedField;
    assert d[5].field == RunCountField && d[6].field == MissCountField;
  }

  predicate IsMessage(e: Event) {
    e.MessageSent? || e.MessageReceived? || e.MessageDropped?
  }

  lemma MessageHolds(e: Event, f: Field)
    requires LookedUp(f) && !f.ReasonField? && IsMessage(e)
    ensures Find(Details(e), f) == None
  {
    FindMeans(Details(e), f);
  }

  lemma StartHolds(e: Event, f: Field)
    requires LookedUp(f) && !f.ReasonField? && (e.RuntimeStarted? || e.SchedulerStarted?)
    ensures Find(Details(e), f) == DetailOf(e, f)
  {
    var d := Details(e);
    FindMeans(d, f);
    if e.RuntimeStarted? {
      assert d[0].field == SimulationNameField && d[1].field == DurationSecondsField && d[2].field == SchedulerModeField;
    } else {
      assert d[0].field == SchedulerModeField && d[1].field == DurationSecondsField;
    }
  }

  lemma FaultHolds(e: Event, f: Field)
    requires LookedUp(f) && !f.ReasonField? && e.FaultInjected?
    ensures Find(Details(e), f) == DetailOf(e, f)
  {
    FindMeans(Details(e), f);
    assert Details(e)[0].field == FaultTypeField;
  }

  lemma DetailsHold(e: Event, f: Field)
    requires LookedUp(f) && !f.ReasonField?
    ensures Find(Details(e), f) == DetailOf(e, f)
  {
    if e.TaskCompleted? {
      CompletionHolds(e, f);
    } else if e.FaultInjected? {
      FaultHolds(e, f);
    } else if IsMessage(e) {
      MessageHolds(e, f);
    } else if e.RuntimeStarted? || e.SchedulerStarted? {
      StartHolds(e, f);
    } else {
      var d := Details(e);
      FindMeans(d, f);
      match e
      case TaskStarted(_, _, _, _) => assert d[0].field == TaskField;
      case TaskFailed(_) => assert d[0].field == FaultTypeField && d[1].field == TaskField;
      case TaskSkipped(_) => assert d[0].field == FaultTypeField && d[1].field == TaskField;
      case WatchdogTimeout(_, _, _) => assert d[0].field == TaskField && d[1].field == MissCountField;
      case TaskRecovered(_) => assert d[0].field == TaskField;
      case RuntimeSummary(_, _, _) =>
        assert d[0].field == TaskField && d[1].field == RunCountField && d[2].field == MissCountField;
      case _ =>
    }
  }

  lemma DropReasonHolds(e: Event)
    requires e.MessageDropped?
    ensures Find(Details(e), ReasonField) == Some(Text(ReasonName(e.reason)))
  {
    FindMeans(Details(e), ReasonField);
    assert Details(e)[6].field == ReasonField;
  }

  lemma LeadHolds(at: int, kind: Kind, level: Level, f: Field)
    ensures Find(Lead(at, kind, level), f) ==
      match f
      case TimestampField => Some(Number(at))
      case EventTypeField => Some(Text(KindName(kind)))
      case SeverityField => Some(Text(LevelName(level)))
      case _ => None
  {
    var lead := Lead(at, kind, level);
    FindMeans(lead, f);
    assert lead[0].field == TimestampField && lead[1].field == EventTypeField && lead[2].field == SeverityField;
  }

  lemma EntriesHold(line: Stamped, f: Field)
    requires LookedUp(f) && !f.ReasonField?
    ensures Find(EntriesOf(line), f) ==
      match f
      case TimestampField => Some(Number(line.timestampMs))
      case EventTypeField => Some(Text(KindName(Read(line).kind)))
      case SeverityField => Some(Text(LevelName(Read(line).level)))
      case _ => DetailOf(line.event, f)
  {
    var lead := Lead(line.timestampMs, Read(line).kind, Read(line).level);
    FindConcat(lead, Details(line.event), f);
    LeadHolds(line.timestampMs, Read(line).kind, Read(line).level, f);
    DetailsHold(line.event, f);
  }

  // ---------- names and what they stand for ----------

  lemma KindNamesDiffer(a: Kind, b: Kind)
    requires !a.OnOther? && !b.OnOther? && a != b
    ensures KindName(a) != KindName(b)
  {
    var s, t := KindName(a), KindName(b);
    assert |s| != |t| || s[0] != t[0] || s[5] != t[5] || s[6] != t[6] || s[9] != t[9];
  }

  lemma {:induction false} KindsAreFound(kinds: seq<Kind>, kind: Kind)
    requires kind in kinds && forall k <- kinds :: !k.OnOther?
    ensures KindOf(kinds, KindName(kind)) == kind
  {
    assert kinds[0] in kinds && kinds == [kinds[0]] + kinds[1..];
    if kinds[0] != kind {
      KindNamesDiffer(kind, kinds[0]);
      KindsAreFound(kinds[1..], kind);
    }
  }

  lemma AllKindsListed(kind: Kind)
    requires !kind.OnOther?
    ensures kind in KINDS && forall k <- KINDS :: !k.OnOther?
  {
    var k := KINDS;
    assert k[0].OnRuntimeStart? && k[1].OnSchedulerStart? && k[2].OnTaskStart? && k[3].OnCompletion? && k[4].OnSent?;
    assert k[5].OnReceived? && k[6].OnDropped? && k[7].OnFault? && k[8].OnFailure? && k[9].OnSkip?;
    assert k[10].OnTimeout? && k[11].OnRecovery? && k[12].OnSchedulerEnd? && k[13].OnSummary? && k[14].OnRuntimeEnd?;
  }

  lemma KindRoundTrip(kind: Kind)
    requires !kind.OnOther?
    ensures KindOf(KINDS, KindName(kind)) == kind
  {
    AllKindsListed(kind);
    KindsAreFound(KINDS, kind);
  }

  lemma LevelRoundTrip(level: Level)
    requires !level.OtherLevel?
    ensures LevelOf(LevelName(level)) == level
  {
    assert |"info"| == 4 && |"warning"| == 7 && |"error"| == 5;
  }

  lemma FaultRoundTrip(fault: FaultKind)
    requires !fault.UnlistedFault?
    ensures FaultOf(FaultName(fault)) == fault
  {
    assert "slow_task"[0] == 's' && "cpu_spike"[0] == 'c' && "dropped_messages"[0] == 'd' && "task_crash"[0] == 't';
  }

  lemma ReasonRoundTrip(reason: DropReason)
    requires !reason.UnlistedReason?
    ensures ReasonOf(ReasonName(reason)) == reason
  {
    assert "queue_full"[0] == 'q' && "fault_injected_drop"[0] == 'f';
  }

  /** Fault kinds and drop reasons that have a name of their own. */
  predicate ListedEvent(e: Event) {
    && (e.FaultInjected? ==> !e.kind.UnlistedFault?)
    && (e.MessageDropped? ==> !e.reason.UnlistedReason?)
  }

  lemma FieldsOfLead(line: Stamped)
    ensures
      var entries, r := EntriesOf(line), Read(line);
      && Find(entries, TimestampField) == Some(Number(line.timestampMs))
      && Find(entries, EventTypeField) == Some(Text(KindName(r.kind)))
      && Find(entries, SeverityField) == Some(Text(LevelName(r.level)))
  {
    EntriesHold(line, TimestampField);
    EntriesHold(line, EventTypeField);
    EntriesHold(line, SeverityField);
  }

  lemma FieldsOfTask(line: Stamped)
    ensures TextOr(Find(EntriesOf(line), TaskField)) == Read(line).task
    ensures Find(EntriesOf(line), DeadlineMissedField) == Some(Flag(true)) <==> Read(line).deadlineMissed
  {
    EntriesHold(line, TaskField);
    EntriesHold(line, DeadlineMissedField);
  }

  lemma FieldsOfCounts(line: Stamped)
    ensures IntOr(Find(EntriesOf(line), ObservedDurationField)) == Read(line).observedDurationMs
    ensures IntOr(Find(EntriesOf(line), RunCountField)) == Read(line).runCount
    ensures IntOr(Find(EntriesOf(line), MissCountField)) == Read(line).deadlineMissCount
  {
    EntriesHold(line, ObservedDurationField);
    EntriesHold(line, RunCountField);
    EntriesHold(line, MissCountField);
  }

  lemma FieldsOfFault(line: Stamped)
    requires line.event.FaultInjected? && ListedEvent(line.event)
    ensures FaultOf(TextOr(Find(EntriesOf(line), FaultTypeField))) == Read(line).faultType
  {
    EntriesHold(line, FaultTypeField);
    FaultRoundTrip(line.event.kind);
  }

  lemma FieldsOfDrop(line: Stamped)
    requires line.event.MessageDropped? && ListedEvent(line.event)
    ensures ReasonOf(TextOr(Find(EntriesOf(line), ReasonField))) == Read(line).reason
  {
    DropReasonHolds(line.event);
    FindConcat(Lead(line.timestampMs, Read(line).kind, Read(line).level), Details(line.event), ReasonField);
    ReasonRoundTrip(line.event.reason);
  }

  lemma FieldsOfStart(line: Stamped)
    requires line.event.RuntimeStarted?
    ensures
      var entries := EntriesOf(line);
      Opening(TextIn(Find(entries, SimulationNameField)), TextIn(Find(entries, SchedulerModeField)),
        NumberIn(Find(entries, DurationSecondsField))) == Read(line).opening
  {
    EntriesHold(line, SimulationNameField);
    EntriesHold(line, DurationSecondsField);
    EntriesHold(line, SchedulerModeField);
  }

  /** What the analyzers look up in the fields of a line is what the line was written for. */
  lemma FieldsAreRead(line: Stamped)
    requires ListedEvent(line.event)
    ensures RecordOf(FieldsOf(line)) == Read(line)
  {
    LookupsAreFinds(EntriesOf(line));
    FieldsOfLead(line);
    FieldsOfTask(line);
    FieldsOfCounts(line);
    if line.event.FaultInjected? {
      FieldsOfFault(line);
    }
    if line.event.MessageDropped? {
      FieldsOfDrop(line);
    }
    if line.event.RuntimeStarted? {
      FieldsOfStart(line);
    }
    ReadIsListed(line);
    KindRoundTrip(Read(line).kind);
    LevelRoundTrip(Read(line).level);
  }

  lemma ReadIsListed(line: Stamped)
    ensures !Read(line).kind.OnOther? && !Read(line).level.OtherLevel?
    ensures Read(line).timestampMs == Some(line.timestampMs)
    ensures Read(line).kind.OnFault? <==> line.event.FaultInjected?
    ensures Read(line).kind.OnDropped? <==> line.event.MessageDropped?
    ensures Read(line).kind.OnRuntimeStart? <==> line.event.RuntimeStarted?
    ensures !line.event.FaultInjected? ==> Read(line).faultType == UnlistedFault(UNKNOWN)
    ensures !line.event.MessageDropped? ==> Read(line).reason == UnlistedReason(UNKNOWN)
    ensures !line.event.RuntimeStarted? ==> Read(line).opening == NoOpening
  {
  }

  // ---------- whole files ----------

  function AllFields(lines: seq<Stamped>): (all: seq<Fields>)
    ensures |all| == |lines|
  {
    if lines == [] then [] else AllFields(lines[..|lines| - 1]) + [FieldsOf(lines[|lines| - 1])]
  }

  /** Nothing the writer leaves raw, and no name unknown to the analyzers. */
  ghost predicate Loadable(lines: seq<Stamped>) {
    forall line <- lines :: ListedEvent(line.event) && EncodableRecord(FieldsOf(line).members)
  }

  lemma {:induction false} AllFieldsAreRead(lines: seq<Stamped>)
    requires forall line <- lines :: ListedEvent(line.event)
    ensures RecordsOf(AllFields(lines)) == ReadAll(lines)
  {
    if lines != [] {
      var init, last := lines[..|lines| - 1], lines[|lines| - 1];
      assert last in lines && forall line <- init :: line in lines;
      AllFieldsAreRead(init);
      FieldsAreRead(last);
    }
  }

  lemma {:induction false} AllFieldsAreEncodable(lines: seq<Stamped>)
    requires forall line <- lines :: EncodableRecord(FieldsOf(line).members)
    ensures forall record <- AllFields(lines) :: EncodableRecord(record.members)
  {
    if lines != [] {
      var init, last := lines[..|lines| - 1], lines[|lines| - 1];
      assert last in lines && forall line <- init :: line in lines;
      AllFieldsAreEncodable(init);
    }
  }

  /** Loading the file the runtime writes gives the analyzers exactly the records it was written for. */
  lemma FileTellsTheRecords(lines: seq<Stamped>)
    requires Loadable(lines)
    ensures
      var loaded := Loaded(LinesOf(FileText(AllFields(lines))), 1);
      loaded.Ok? && RecordsOf(loaded.value) == ReadAll(lines)
  {
    AllFieldsAreEncodable(lines);
    FileRoundTrip(AllFields(lines));
    AllFieldsAreRead(lines);
  }
}
