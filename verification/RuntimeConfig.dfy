/** The configuration records, with the checks the loader makes on them. */
module RuntimeConfig {

  datatype Mode = RoundRobin | Priority | EarliestDeadlineFirst | UnsupportedMode(name: string)

  function ModeName(mode: Mode): string {
    match mode
    case RoundRobin => "round_robin"
    case Priority => "priority"
    case EarliestDeadlineFirst => "earliest_deadline_first"
    case UnsupportedMode(name) => name
  }

  datatype FaultKind = SlowTask | CpuSpike | DroppedMessages | TaskCrash | UnlistedFault(name: string)

  datatype TaskConfig = TaskConfig(
    name: string,
    periodMs: int,
    deadlineMs: int,
    priority: int,
    executionTimeMs: int,
    queueLimit: int)

  datatype FaultConfig = FaultConfig(
    enabled: bool,
    kind: FaultKind,
    targetTask: string,
    startAfterMs: int,
    extraExecutionTimeMs: int,
    dropProbabilityPercent: int)

  datatype WatchdogConfig = WatchdogConfig(
    enabled: bool,
    maxConsecutiveDeadlineMisses: int,
    recoveryEnabled: bool,
    recoveryCooldownMs: int)

  predicate ValidTask(task: TaskConfig) {
    && task.name != ""
    && task.periodMs > 0
    && task.deadlineMs > 0
    && task.executionTimeMs > 0
    && task.queueLimit > 0
  }

  predicate ValidFaults(faults: FaultConfig) {
    faults.enabled ==>
      && !faults.kind.UnlistedFault?
      && faults.targetTask != ""
      && faults.startAfterMs >= 0
      && (faults.kind.SlowTask? || faults.kind.CpuSpike? ==> faults.extraExecutionTimeMs > 0)
      && (faults.kind.DroppedMessages? ==> 0 <= faults.dropProbabilityPercent <= 100)
  }

  predicate ValidWatchdog(watchdog: WatchdogConfig) {
    watchdog.enabled ==>
      && watchdog.maxConsecutiveDeadlineMisses > 0
      && watchdog.recoveryCooldownMs >= 0
  }
}
