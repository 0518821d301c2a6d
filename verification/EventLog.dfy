/** The structured event log the runtime writes. */
module EventLog {
  import opened MessageBus
  import opened RuntimeConfig
  import opened SteadyClock

  datatype DropReason = QueueFull | FaultInjectedDrop | UnlistedReason(name: string)

  datatype FaultDetail =
    | ExtraExecution(ms: int)
    | SimulatedCrash
    | LostMessage(source: string, content: Content, sequenceId: nat)

  datatype Event =
    | RuntimeStarted(simulationName: string, durationSeconds: int, modeName: string, taskCount: nat)
    | SchedulerStarted(modeName: string, durationSeconds: int)
    | TaskStarted(task: string, periodMs: int, deadlineMs: int, priority: int)
    | TaskCompleted(
        task: string,
        observedDurationMs: int,
        executionTimeMs: int,
        deadlineMs: int,
        deadlineMissed: bool,
        runCount: nat,
        deadlineMissCount: nat)
    | MessageSent(source: string, target: string, content: Content, sequenceId: nat, depth: nat, limit: int)
    | MessageReceived(source: string, target: string, content: Content, sequenceId: nat, remaining: nat)
    | MessageDropped(
        source: string,
        target: string,
        content: Content,
        sequenceId: nat,
        depth: nat,
        limit: int,
        reason: DropReason)
    | FaultInjected(kind: FaultKind, target: string, detail: FaultDetail)
    | TaskFailed(task: string)
    | TaskSkipped(task: string)
    | WatchdogTimeout(task: string, deadlineMissCount: nat, consecutiveMissCount: nat)
    | TaskRecovered(task: string)
    | SchedulerFinished
    | RuntimeSummary(task: string, runCount: nat, deadlineMissCount: nat)
    | RuntimeFinished

  /** The logged flag looks at the observed duration only, unlike the task's own miss counter. */
  function Completion(config: TaskConfig, observedMs: int, runCount: nat, deadlineMissCount: nat): Event {
    TaskCompleted(
      config.name,
      observedMs,
      config.executionTimeMs,
      config.deadlineMs,
      observedMs > config.deadlineMs,
      runCount,
      deadlineMissCount)
  }

  datatype Stamped = Stamped(timestampMs: int, event: Event)

  function Events(lines: seq<Stamped>): (events: seq<Event>)
    ensures |events| == |lines|
  {
    seq(|lines|, i requires 0 <= i < |lines| => lines[i].event)
  }

  ghost predicate TimeOrdered(lines: seq<Stamped>) {
    && (forall i | 0 <= i < |lines| :: 0 <= lines[i].timestampMs)
    && (forall i, j | 0 <= i < j < |lines| :: lines[i].timestampMs <= lines[j].timestampMs)
  }

  /** Appends events, each stamped with a fresh clock reading. */
  class Logger {
    const startTime: int
    var lines: seq<Stamped>
    ghost var events: seq<Event>
    ghost var latest: int

    ghost predicate Valid()
      reads this
    {
      && startTime <= latest
      && events == Events(lines)
      && TimeOrdered(lines)
      && (forall i | 0 <= i < |lines| :: lines[i].timestampMs <= WholeMs(latest - startTime))
    }

    constructor (clock: Clock)
      modifies clock`ticks
      ensures Valid() && lines == [] && events == []
      ensures old(clock.ticks) <= clock.ticks == latest
    {
      var now := clock.Now();
      startTime := now;
      lines := [];
      events := [];
      latest := now;
    }

    method Log(clock: Clock, event: Event)
      requires Valid() && latest <= clock.ticks
      modifies this, clock`ticks
      ensures Valid() && latest == clock.ticks
      ensures events == old(events) + [event]
      ensures old(clock.ticks) <= clock.ticks
    {
      var now := clock.Now();
      WholeMsMonotone(latest - startTime, now - startTime);
      lines := lines + [Stamped(WholeMs(now - startTime), event)];
      events := events + [event];
      latest := now;
    }
  }
}
