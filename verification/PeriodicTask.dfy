/** A periodic task: counters and the next release time. */
module PeriodicTask {
  import opened RuntimeConfig
  import opened SteadyClock

  /** The value a task object holds at one moment. */
  datatype TaskState = TaskState(config: TaskConfig, runCount: nat, deadlineMissCount: nat, nextRunTime: int) {

    predicate ShouldRun(now: int) {
      now >= nextRunTime
    }

    function AbsoluteDeadline(): int {
      nextRunTime + config.deadlineMs * TICKS_PER_MS
    }

    function TotalExecutionMs(extraMs: int): int {
      config.executionTimeMs + extraMs
    }

    /** Both tests count: started too late, or too long to fit its deadline. */
    predicate MissesDeadline(now: int, extraMs: int) {
      || ExceedsMs(now - nextRunTime, config.deadlineMs)
      || TotalExecutionMs(extraMs) > config.deadlineMs
    }

    function NextRelease(now: int): int {
      now + config.periodMs * TICKS_PER_MS
    }

    function AfterRun(now: int, extraMs: int): TaskState {
      this.(
        runCount := runCount + 1,
        deadlineMissCount := if MissesDeadline(now, extraMs) then deadlineMissCount + 1 else deadlineMissCount,
        nextRunTime := NextRelease(now))
    }

    function AfterSkip(now: int): TaskState {
      this.(nextRunTime := NextRelease(now))
    }
  }

  class Task {
    const config: TaskConfig
    var runCount: nat
    var deadlineMissCount: nat
    var nextRunTime: int

    constructor (config: TaskConfig, startTime: int)
      ensures State() == TaskState(config, 0, 0, startTime)
    {
      this.config := config;
      runCount := 0;
      deadlineMissCount := 0;
      nextRunTime := startTime;
    }

    function State(): TaskState
      reads this
    {
      TaskState(config, runCount, deadlineMissCount, nextRunTime)
    }

    /** The release time is counted from `now`, not from the previous release. */
    method Run(clock: Clock, now: int, extraMs: int)
      modifies this, clock
      ensures State() == old(State()).AfterRun(now, extraMs)
      ensures runCount == old(runCount) + 1 && nextRunTime == now + config.periodMs * TICKS_PER_MS
      ensures deadlineMissCount == old(deadlineMissCount) +
        if WholeMs(now - old(nextRunTime)) > config.deadlineMs || config.executionTimeMs + extraMs > config.deadlineMs then 1 else 0
      ensures old(clock.ticks) <= clock.ticks
      ensures clock.askedMs == old(clock.askedMs) +
        if old(State()).TotalExecutionMs(extraMs) > 0 then old(State()).TotalExecutionMs(extraMs) else 0
      ensures old(clock.ticks) + old(State()).TotalExecutionMs(extraMs) * TICKS_PER_MS <= clock.ticks
    {
      var latenessMs := WholeMs(now - nextRunTime);
      WholeMsMeaning(now - nextRunTime, config.deadlineMs);
      var totalExecutionMs := config.executionTimeMs + extraMs;
      var missedDeadline := latenessMs > config.deadlineMs || totalExecutionMs > config.deadlineMs;
      clock.SleepFor(totalExecutionMs);
      runCount := runCount + 1;
      if missedDeadline {
        deadlineMissCount := deadlineMissCount + 1;
      }
      nextRunTime := now + config.periodMs * TICKS_PER_MS;
    }

    method Skip(now: int)
      modifies this
      ensures State() == old(State()).AfterSkip(now)
      ensures nextRunTime == now + config.periodMs * TICKS_PER_MS
      ensures runCount == old(runCount) && deadlineMissCount == old(deadlineMissCount)
    {
      nextRunTime := now + config.periodMs * TICKS_PER_MS;
    }
  }
}
