/** The words and sentences that the log and the reports are written in. */
module PrintedWords {
  import opened AnomalyFeatures
  import opened AnomalyReport
  import opened HealthAnalyzer
  import opened LogRecords
  import opened PlainText
  import opened ReportLines
  import opened ReportParser
  import opened ReportTexts
  import opened RuntimeConfig

  lemma CaptionsAndTitles()
    ensures CaptionText(EventsLoaded) == "Events loaded" && CaptionText(RuntimeStatus) == "Runtime status"
    ensures CaptionText(Simulation) == "Simulation" && CaptionText(SchedulerMode) == "Scheduler mode"
    ensures CaptionText(ConfiguredDuration) == "Configured duration"
    ensures CaptionText(ObservedDuration) == "Observed log duration"
    ensures HeadText(EventHead) == "Event counts" && HeadText(SeverityHead) == "Severity counts"
    ensures HeadText(TaskHead) == "Task summary" && HeadText(MessageHead) == "Message summary"
    ensures HeadText(CauseHead) == "Likely root causes" && HeadText(FaultHead) == "Fault summary"
    ensures HeadText(WatchdogHead) == "Watchdog summary" && HeadText(FailureHead) == "Task failure summary"
  {
  }

  lemma UnreadWords()
    ensures WordText(LogFile) == "Log file"
    ensures WordText(WatchdogTimeouts) == "watchdog_timeouts" && WordText(TaskRecoveries) == "task_recoveries"
    ensures WordText(TaskFailures) == "task_failures" && WordText(TaskSkips) == "task_skips"
    ensures WordText(TimeoutTasks) == "timeout_tasks" && WordText(RecoveredTasks) == "recovered_tasks"
    ensures WordText(FailedTasks) == "failed_tasks" && WordText(SkippedTasks) == "skipped_tasks"
    ensures WordText(WindowSize) == "Window size" && WordText(OverallClass) == "Overall classification"
    ensures WordText(AnomalyCount) == "Anomaly windows" && WordText(HighestScore) == "Highest anomaly score"
    ensures WordText(TopDrivers) == "Top anomaly drivers" && WordText(WindowSummary) == "Window summary"
  {
  }

  lemma FeatureNames()
    ensures FeatureName(TaskFailedCount) == "task_failed_count" && FeatureName(TaskSkippedCount) == "task_skipped_count"
    ensures FeatureName(TaskRecoveredCount) == "task_recovered_count"
    ensures FeatureName(WatchdogTimeoutCount) == "watchdog_timeout_count"
    ensures FeatureName(DeadlineMissedCount) == "deadline_missed_count"
    ensures FeatureName(FaultInjectedCount) == "fault_injected_count"
    ensures FeatureName(FaultInjectedDropCount) == "fault_injected_drop_count"
    ensures FeatureName(MessageDroppedCount) == "message_dropped_count"
    ensures FeatureName(QueueFullDropCount) == "queue_full_drop_count"
    ensures FeatureName(ErrorEventCount) == "error_event_count" && FeatureName(WarningEventCount) == "warning_event_count"
    ensures FeatureName(MaxTaskDurationMs) == "max_task_duration_ms"
    ensures FeatureName(AvgTaskDurationMs) == "avg_task_duration_ms"
  {
  }

  /** The sentences that name a task name it with the number of times. */
  lemma TaskSentences(task: string, times: nat)
    ensures
      var number := Digits(times);
      && CauseText(MissedDeadline(task, times)) == task + " missed its deadline " + number + " time(s)."
      && CauseText(Happened(OnTimeout, task, times)) ==
           "Watchdog timeout triggered for " + task + " " + number + " time(s)."
      && CauseText(Happened(OnRecovery, task, times)) == "Simulated recovery ran for " + task + " " + number + " time(s)."
      && CauseText(Happened(OnFailure, task, times)) ==
           task + (" failed due to" + " simulated task crash ") + number + " time(s)."
      && CauseText(Happened(OnSkip, task, times)) ==
           task + (" was skipped because it" + " remained in a failed state ") + number + " time(s)."
  {
  }

  lemma FaultSentences()
    ensures CauseText(FaultActive(SlowTask)) == "Slow-task" + " fault injection was active."
    ensures CauseText(FaultActive(CpuSpike)) == "CPU-spike" + " fault injection was active."
    ensures CauseText(FaultActive(DroppedMessages)) == "Dropped-message" + " fault injection was active."
    ensures CauseText(FaultActive(TaskCrash)) == "Task-crash" + " fault injection was active."
  {
  }

  lemma OtherSentences()
    ensures CauseText(QueuesFull) == "One or more task queues became full," + " causing queue_full message drops."
    ensures CauseText(IntentionalDrops) == "Fault injection intentionally dropped" + " messages before enqueue."
    ensures CauseText(NothingDetected) == "No faults, deadline misses, watchdog" + " events, or drops detected."
    ensures CauseText(NoSingleCause) == "Runtime showed warning signals, but" + " no single root cause dominated."
  {
  }
}
