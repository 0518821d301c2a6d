/** Every member of every kind of log line, under its JSON name and in its place; with
    `DispatchFacts.WritesExactly` this ties each written figure to the task, queue or alert it is about. */
module LogDetails {
  import opened EventLog
  import opened JsonText
  import opened LogFields
  import opened LogRecords
  import opened RuntimeConfig

  /** Member `k` of the line has this name and value. */
  ghost predicate Holds(line: Stamped, k: nat, name: string, value: Json) {
    var members := FieldsOf(line).members;
    k < |members| && members[k].name == name && members[k].value == value
  }

  /** The line has `count` members, and starts with its time, kind and severity. */
  ghost predicate Opens(line: Stamped, kind: string, severity: string, count: nat) {
    && |FieldsOf(line).members| == count
    && Holds(line, 0, "timestamp_ms", Number(line.timestampMs))
    && Holds(line, 1, "event_type", Text(kind))
    && Holds(line, 2, "severity", Text(severity))
  }

  /** Entry `k` of the line's own entries. */
  ghost predicate Enters(line: Stamped, k: nat, f: Field, value: Json) {
    var entries := EntriesOf(line);
    k < |entries| && entries[k] == Entry(f, value)
  }

  lemma {:induction false} NamedAt(entries: seq<Entry>, k: nat)
    requires k < |entries|
    ensures Named(entries)[k].name == FieldText(entries[k].field)
    ensures Named(entries)[k].value == entries[k].value
  {
    if k < |entries| - 1 {
      NamedAt(entries[..|entries| - 1], k);
    }
  }

  lemma Detail(line: Stamped, k: nat, f: Field, value: Json)
    requires Enters(line, k, f, value)
    ensures Holds(line, k, FieldText(f), value)
  {
    NamedAt(EntriesOf(line), k);
  }

  lemma OpeningMembers(line: Stamped)
    ensures Opens(line, KindName(Read(line).kind), LevelName(Read(line).level), |Details(line.event)| + 3)
  {
    NamedAt(EntriesOf(line), 0);
    NamedAt(EntriesOf(line), 1);
    NamedAt(EntriesOf(line), 2);
  }

  lemma RuntimeStartedEntries(line: Stamped)
    requires line.event.RuntimeStarted?
    ensures
      var e := line.event;
      && Enters(line, 3, SimulationNameField, Text(e.simulationName))
      && Enters(line, 4, DurationSecondsField, Number(e.durationSeconds))
      && Enters(line, 5, SchedulerModeField, Text(e.modeName))
      && Enters(line, 6, TaskCountField, Number(e.taskCount))
  {
  }

  lemma RuntimeStartedLine(line: Stamped)
    requires line.event.RuntimeStarted?
    ensures
      var e := line.event;
      && Opens(line, "runtime_started", "info", 7)
      && Holds(line, 3, "simulation_name", Text(e.simulationName))
      && Holds(line, 4, "duration_seconds", Number(e.durationSeconds))
      && Holds(line, 5, "scheduler_mode", Text(e.modeName))
      && Holds(line, 6, "task_count", Number(e.taskCount))
  {
    var e := line.event;
    OpeningMembers(line);
    RuntimeStartedEntries(line);
    Detail(line, 3, SimulationNameField, Text(e.simulationName));
    Detail(line, 4, DurationSecondsField, Number(e.durationSeconds));
    Detail(line, 5, SchedulerModeField, Text(e.modeName));
    Detail(line, 6, TaskCountField, Number(e.taskCount));
  }

  lemma SchedulerStartedEntries(line: Stamped)
    requires line.event.SchedulerStarted?
    ensures
      && Enters(line, 3, SchedulerModeField, Text(line.event.modeName))
      && Enters(line, 4, DurationSecondsField, Number(line.event.durationSeconds))
  {
  }

  lemma SchedulerStartedLine(line: Stamped)
    requires line.event.SchedulerStarted?
    ensures
      && Opens(line, "scheduler_started", "info", 5)
      && Holds(line, 3, "scheduler_mode", Text(line.event.modeName))
      && Holds(line, 4, "duration_seconds", Number(line.event.durationSeconds))
  {
    OpeningMembers(line);
    SchedulerStartedEntries(line);
    Detail(line, 3, SchedulerModeField, Text(line.event.modeName));
    Detail(line, 4, DurationSecondsField, Number(line.event.durationSeconds));
  }

  lemma TaskStartedEntries(line: Stamped)
    requires line.event.TaskStarted?
    ensures
      var e := line.event;
      && Enters(line, 3, TaskField, Text(e.task))
      && Enters(line, 4, PeriodField, Number(e.periodMs))
      && Enters(line, 5, DeadlineField, Number(e.deadlineMs))
      && Enters(line, 6, PriorityField, Number(e.priority))
  {
  }

  lemma TaskStartedLine(line: Stamped)
    requires line.event.TaskStarted?
    ensures
      var e := line.event;
      && Opens(line, "task_started", "info", 7)
      && Holds(line, 3, "task", Text(e.task))
      && Holds(line, 4, "period_ms", Number(e.periodMs))
      && Holds(line, 5, "deadline_ms", Number(e.deadlineMs))
      && Holds(line, 6, "priority", Number(e.priority))
  {
    var e := line.event;
    OpeningMembers(line);
    TaskStartedEntries(line);
    Detail(line, 3, TaskField, Text(e.task));
    Detail(line, 4, PeriodField, Number(e.periodMs));
    Detail(line, 5, DeadlineField, Number(e.deadlineMs));
    Detail(line, 6, PriorityField, Number(e.priority));
  }

  lemma TaskCompletedEntries(line: Stamped)
    requires line.event.TaskCompleted?
    ensures
      var e := line.event;
      && Enters(line, 3, TaskField, Text(e.task))
      && Enters(line, 4, ObservedDurationField, Number(e.observedDurationMs))
      && Enters(line, 5, ConfiguredTimeField, Number(e.executionTimeMs))
      && Enters(line, 6, DeadlineField, Number(e.deadlineMs))
      && Enters(line, 7, DeadlineMissedField, Flag(e.deadlineMissed))
      && Enters(line, 8, RunCountField, Number(e.runCount))
      && Enters(line, 9, MissCountField, Number(e.deadlineMissCount))
  {
  }

  lemma TaskCompletedLine(line: Stamped)
    requires line.event.TaskCompleted?
    ensures
      var e := line.event;
      && Opens(line, "task_completed", if e.deadlineMissed then "warning" else "info", 10)
      && Holds(line, 3, "task", Text(e.task))
      && Holds(line, 4, "observed_duration_ms", Number(e.observedDurationMs))
      && Holds(line, 5, "configured_execution" + "_time_ms", Number(e.executionTimeMs))
      && Holds(line, 6, "deadline_ms", Number(e.deadlineMs))
      && Holds(line, 7, "deadline_missed", Flag(e.deadlineMissed))
      && Holds(line, 8, "run_count", Number(e.runCount))
      && Holds(line, 9, "deadline_miss_count", Number(e.deadlineMissCount))
  {
    var e := line.event;
    OpeningMembers(line);
    TaskCompletedEntries(line);
    Detail(line, 3, TaskField, Text(e.task));
    Detail(line, 4, ObservedDurationField, Number(e.observedDurationMs));
    Detail(line, 5, ConfiguredTimeField, Number(e.executionTimeMs));
    Detail(line, 6, DeadlineField, Number(e.deadlineMs));
    Detail(line, 7, DeadlineMissedField, Flag(e.deadlineMissed));
    Detail(line, 8, RunCountField, Number(e.runCount));
    Detail(line, 9, MissCountField, Number(e.deadlineMissCount));
  }

  lemma PartyMembers(line: Stamped)
    requires IsMessage(line.event)
    ensures Holds(line, 3, "source_task", Text(line.event.source))
    ensures Holds(line, 4, "target_task", Text(line.event.target))
  {
    Detail(line, 3, SourceTaskField, Text(line.event.source));
    Detail(line, 4, TargetTaskField, Text(line.event.target));
  }

  lemma ContentMember(line: Stamped)
    requires IsMessage(line.event)
    ensures Holds(line, 5, "message_type", Text(ContentName(line.event.content)))
  {
    Detail(line, 5, MessageTypeField, Text(ContentName(line.event.content)));
  }

  lemma IdMember(line: Stamped)
    requires IsMessage(line.event)
    ensures Holds(line, 6, "sequence_id", Number(line.event.sequenceId))
  {
    Detail(line, 6, SequenceIdField, Number(line.event.sequenceId));
  }

  lemma DepthMember(line: Stamped)
    requires line.event.MessageSent? || line.event.MessageDropped?
    ensures Holds(line, 7, "target_queue_depth", Number(line.event.depth))
  {
    Detail(line, 7, QueueDepthField, Number(line.event.depth));
  }

  lemma LimitMember(line: Stamped)
    requires line.event.MessageSent? || line.event.MessageDropped?
    ensures Holds(line, 8, "target_queue_limit", Number(line.event.limit))
  {
    Detail(line, 8, QueueLimitField, Number(line.event.limit));
  }

  lemma MessageSentLine(line: Stamped)
    requires line.event.MessageSent?
    ensures Opens(line, "message_sent", "info", 9)
  {
    OpeningMembers(line);
  }

  lemma MessageReceivedEntries(line: Stamped)
    requires line.event.MessageReceived?
    ensures
      && Enters(line, 7, RemainingDepthField, Number(line.event.remaining))
  {
  }

  lemma MessageReceivedLine(line: Stamped)
    requires line.event.MessageReceived?
    ensures Opens(line, "message_received", "info", 8)
    ensures Holds(line, 7, "remaining_queue_depth", Number(line.event.remaining))
  {
    OpeningMembers(line);
    MessageReceivedEntries(line);
    Detail(line, 7, RemainingDepthField, Number(line.event.remaining));
  }

  lemma MessageDroppedEntries(line: Stamped)
    requires line.event.MessageDropped? && !line.event.reason.UnlistedReason?
    ensures
      && Enters(line, 9, ReasonField, Text(ReasonName(line.event.reason)))
  {
  }

  lemma MessageDroppedLine(line: Stamped)
    requires line.event.MessageDropped? && !line.event.reason.UnlistedReason?
    ensures Opens(line, "message_dropped", "warning", 10)
    ensures Holds(line, 9, "reason", Text(if line.event.reason.QueueFull? then "queue_full" else "fault_injected_drop"))
  {
    OpeningMembers(line);
    MessageDroppedEntries(line);
    Detail(line, 9, ReasonField, Text(ReasonName(line.event.reason)));
  }

  /** The lines about messages: who sent what to whom under which id, and the queue after it. */
  lemma MessageLines(line: Stamped)
    requires IsMessage(line.event) && ListedEvent(line.event)
    ensures
      var e := line.event;
      && Holds(line, 3, "source_task", Text(e.source))
      && Holds(line, 4, "target_task", Text(e.target))
      && Holds(line, 5, "message_type", Text(if e.content.ControlStatus? then "control_status" else "network_packet"))
      && Holds(line, 6, "sequence_id", Number(e.sequenceId))
      && (e.MessageReceived? ==>
            Opens(line, "message_received", "info", 8) && Holds(line, 7, "remaining_queue_depth", Number(e.remaining)))
      && (e.MessageSent? || e.MessageDropped? ==>
            && Holds(line, 7, "target_queue_depth", Number(e.depth))
            && Holds(line, 8, "target_queue_limit", Number(e.limit)))
      && (e.MessageSent? ==> Opens(line, "message_sent", "info", 9))
      && (e.MessageDropped? ==>
            && Opens(line, "message_dropped", "warning", 10)
            && Holds(line, 9, "reason", Text(if e.reason.QueueFull? then "queue_full" else "fault_injected_drop")))
  {
    PartyMembers(line);
    ContentMember(line);
    IdMember(line);
    if line.event.MessageReceived? {
      MessageReceivedLine(line);
    } else {
      DepthMember(line);
      LimitMember(line);
      if line.event.MessageSent? {
        MessageSentLine(line);
      } else {
        MessageDroppedLine(line);
      }
    }
  }

  /** A fault that acted on a run: which, on whom, and how much longer the run takes. */
  lemma ExtraTimeEntries(line: Stamped)
    requires line.event.FaultInjected? && line.event.detail.ExtraExecution? && (line.event.kind.SlowTask? || line.event.kind.CpuSpike?)
    ensures
      var e := line.event;
      && Enters(line, 3, FaultTypeField, Text(FaultName(e.kind)))
      && Enters(line, 4, TargetTaskField, Text(e.target))
      && Enters(line, 5, ExtraTimeField, Number(e.detail.ms))
  {
  }

  lemma ExtraTimeLine(line: Stamped)
    requires line.event.FaultInjected? && line.event.detail.ExtraExecution? && (line.event.kind.SlowTask? || line.event.kind.CpuSpike?)
    ensures
      var e := line.event;
      && Opens(line, "fault_injected", "warning", 6)
      && Holds(line, 3, "fault_type", Text(if e.kind.SlowTask? then "slow_task" else "cpu_spike"))
      && Holds(line, 4, "target_task", Text(e.target))
      && Holds(line, 5, "extra_execution_time_ms", Number(e.detail.ms))
  {
    var e := line.event;
    OpeningMembers(line);
    ExtraTimeEntries(line);
    Detail(line, 3, FaultTypeField, Text(FaultName(e.kind)));
    Detail(line, 4, TargetTaskField, Text(e.target));
    Detail(line, 5, ExtraTimeField, Number(e.detail.ms));
  }

  lemma LostMessageEntries(line: Stamped)
    requires line.event.FaultInjected? && line.event.detail.LostMessage? && line.event.kind == DroppedMessages
    ensures
      var e := line.event;
      && Enters(line, 3, FaultTypeField, Text(FaultName(DroppedMessages)))
      && Enters(line, 4, SourceTaskField, Text(e.detail.source))
      && Enters(line, 5, TargetTaskField, Text(e.target))
      && Enters(line, 6, MessageTypeField, Text(ContentName(e.detail.content)))
      && Enters(line, 7, SequenceIdField, Number(e.detail.sequenceId))
      && Enters(line, 8, ReasonField, Text(ReasonName(FaultInjectedDrop)))
  {
  }

  lemma LostMessageLine(line: Stamped)
    requires line.event.FaultInjected? && line.event.detail.LostMessage? && line.event.kind == DroppedMessages
    ensures
      var e := line.event;
      && Opens(line, "fault_injected", "warning", 9)
      && Holds(line, 3, "fault_type", Text("dropped_messages"))
      && Holds(line, 4, "source_task", Text(e.detail.source))
      && Holds(line, 5, "target_task", Text(e.target))
      && Holds(line, 6, "message_type", Text(if e.detail.content.ControlStatus? then "control_status" else "network_packet"))
      && Holds(line, 7, "sequence_id", Number(e.detail.sequenceId))
      && Holds(line, 8, "reason", Text("fault_injected_drop"))
  {
    var e := line.event;
    OpeningMembers(line);
    LostMessageEntries(line);
    Detail(line, 3, FaultTypeField, Text(FaultName(DroppedMessages)));
    Detail(line, 4, SourceTaskField, Text(e.detail.source));
    Detail(line, 5, TargetTaskField, Text(e.target));
    Detail(line, 6, MessageTypeField, Text(ContentName(e.detail.content)));
    Detail(line, 7, SequenceIdField, Number(e.detail.sequenceId));
    Detail(line, 8, ReasonField, Text(ReasonName(FaultInjectedDrop)));
  }

  lemma CrashEntries(line: Stamped)
    requires line.event.FaultInjected? && line.event.detail.SimulatedCrash? && line.event.kind == TaskCrash
    ensures
      && Enters(line, 3, FaultTypeField, Text(FaultName(TaskCrash)))
      && Enters(line, 4, TargetTaskField, Text(line.event.target))
      && Enters(line, 5, ReasonField, Text("simulated_task_crash"))
  {
  }

  lemma CrashLine(line: Stamped)
    requires line.event.FaultInjected? && line.event.detail.SimulatedCrash? && line.event.kind == TaskCrash
    ensures
      && Opens(line, "fault_injected", "error", 6)
      && Holds(line, 3, "fault_type", Text("task_crash"))
      && Holds(line, 4, "target_task", Text(line.event.target))
      && Holds(line, 5, "reason", Text("simulated_task_crash"))
  {
    OpeningMembers(line);
    CrashEntries(line);
    Detail(line, 3, FaultTypeField, Text(FaultName(TaskCrash)));
    Detail(line, 4, TargetTaskField, Text(line.event.target));
    Detail(line, 5, ReasonField, Text("simulated_task_crash"));
  }

  lemma TaskFailedEntries(line: Stamped)
    requires line.event.TaskFailed?
    ensures
      && Enters(line, 3, FaultTypeField, Text(FaultName(TaskCrash)))
      && Enters(line, 4, TaskField, Text(line.event.task))
      && Enters(line, 5, ReasonField, Text("simulated_task_crash"))
  {
  }

  lemma TaskFailedLine(line: Stamped)
    requires line.event.TaskFailed?
    ensures
      && Opens(line, "task_failed", "error", 6)
      && Holds(line, 3, "fault_type", Text("task_crash"))
      && Holds(line, 4, "task", Text(line.event.task))
      && Holds(line, 5, "reason", Text("simulated_task_crash"))
  {
    OpeningMembers(line);
    TaskFailedEntries(line);
    Detail(line, 3, FaultTypeField, Text(FaultName(TaskCrash)));
    Detail(line, 4, TaskField, Text(line.event.task));
    Detail(line, 5, ReasonField, Text("simulated_task_crash"));
  }

  lemma TaskSkippedEntries(line: Stamped)
    requires line.event.TaskSkipped?
    ensures
      && Enters(line, 3, FaultTypeField, Text(FaultName(TaskCrash)))
      && Enters(line, 4, TaskField, Text(line.event.task))
      && Enters(line, 5, ReasonField, Text("task_in_failed_state"))
  {
  }

  lemma TaskSkippedLine(line: Stamped)
    requires line.event.TaskSkipped?
    ensures
      && Opens(line, "task_skipped", "warning", 6)
      && Holds(line, 3, "fault_type", Text("task_crash"))
      && Holds(line, 4, "task", Text(line.event.task))
      && Holds(line, 5, "reason", Text("task_in_failed_state"))
  {
    OpeningMembers(line);
    TaskSkippedEntries(line);
    Detail(line, 3, FaultTypeField, Text(FaultName(TaskCrash)));
    Detail(line, 4, TaskField, Text(line.event.task));
    Detail(line, 5, ReasonField, Text("task_in_failed_state"));
  }

  /** An alert: the task's misses, its streak of them, and the recovery that follows. */
  lemma WatchdogTimeoutEntries(line: Stamped)
    requires line.event.WatchdogTimeout?
    ensures
      var e := line.event;
      && Enters(line, 3, TaskField, Text(e.task))
      && Enters(line, 4, MissCountField, Number(e.deadlineMissCount))
      && Enters(line, 5, ConsecutiveMissesField, Number(e.consecutiveMissCount))
      && Enters(line, 6, ReasonField, Text("consecutive_deadline_misses"))
  {
  }

  lemma WatchdogTimeoutLine(line: Stamped)
    requires line.event.WatchdogTimeout?
    ensures
      var e := line.event;
      && Opens(line, "watchdog_timeout", "error", 7)
      && Holds(line, 3, "task", Text(e.task))
      && Holds(line, 4, "deadline_miss_count", Number(e.deadlineMissCount))
      && Holds(line, 5, "consecutive_miss_count", Number(e.consecutiveMissCount))
      && Holds(line, 6, "reason", Text("consecutive_deadline_misses"))
  {
    var e := line.event;
    OpeningMembers(line);
    WatchdogTimeoutEntries(line);
    Detail(line, 3, TaskField, Text(e.task));
    Detail(line, 4, MissCountField, Number(e.deadlineMissCount));
    Detail(line, 5, ConsecutiveMissesField, Number(e.consecutiveMissCount));
    Detail(line, 6, ReasonField, Text("consecutive_deadline_misses"));
  }

  lemma TaskRecoveredEntries(line: Stamped)
    requires line.event.TaskRecovered?
    ensures
      && Enters(line, 3, TaskField, Text(line.event.task))
      && Enters(line, 4, RecoveryActionField, Text("simulated_task_reset"))
  {
  }

  lemma TaskRecoveredLine(line: Stamped)
    requires line.event.TaskRecovered?
    ensures
      && Opens(line, "task_recovered", "warning", 5)
      && Holds(line, 3, "task", Text(line.event.task))
      && Holds(line, 4, "recovery_action", Text("simulated_task_reset"))
  {
    OpeningMembers(line);
    TaskRecoveredEntries(line);
    Detail(line, 3, TaskField, Text(line.event.task));
    Detail(line, 4, RecoveryActionField, Text("simulated_task_reset"));
  }

  lemma RuntimeSummaryEntries(line: Stamped)
    requires line.event.RuntimeSummary?
    ensures
      && Enters(line, 3, TaskField, Text(line.event.task))
      && Enters(line, 4, RunCountField, Number(line.event.runCount))
      && Enters(line, 5, MissCountField, Number(line.event.deadlineMissCount))
  {
  }

  lemma RuntimeSummaryLine(line: Stamped)
    requires line.event.RuntimeSummary?
    ensures
      && Opens(line, "runtime_summary", "info", 6)
      && Holds(line, 3, "task", Text(line.event.task))
      && Holds(line, 4, "run_count", Number(line.event.runCount))
      && Holds(line, 5, "deadline_miss_count", Number(line.event.deadlineMissCount))
  {
    OpeningMembers(line);
    RuntimeSummaryEntries(line);
    Detail(line, 3, TaskField, Text(line.event.task));
    Detail(line, 4, RunCountField, Number(line.event.runCount));
    Detail(line, 5, MissCountField, Number(line.event.deadlineMissCount));
  }

  lemma ClosingLines(line: Stamped)
    requires line.event.SchedulerFinished? || line.event.RuntimeFinished?
    ensures Opens(line, if line.event.SchedulerFinished? then "scheduler_finished" else "runtime_finished", "info", 3)
  {
    OpeningMembers(line);
  }
}
