/** What each dispatch of a run does, in fields. */
module DispatchFacts {
  import opened Accounting
  import opened Common
  import opened Conservation
  import opened EventLog
  import opened Machine
  import opened MessageBus
  import opened PeriodicTask
  import opened RunFacts
  import opened RuntimeConfig
  import opened SteadyClock
  import opened Watchdog

  // ---------- failing and skipping ----------

  ghost predicate FailedBefore(history: seq<Entry>, x: nat) {
    exists e <- history :: e.task == x && e.outcome.Failed?
  }

  lemma FailedOneMore(history: seq<Entry>, e: Entry, x: nat)
    ensures FailedBefore(history + [e], x) <==> FailedBefore(history, x) || (e.task == x && e.outcome.Failed?)
  {
    assert forall d <- history :: d in history + [e];
    assert e in history + [e];
  }

  /** The failed set holds the names of the tasks with a failure in the history. */
  ghost predicate FailedNamed(s: State) {
    && DistinctNames(s.tasks)
    && forall x: nat | x < |s.tasks| :: s.tasks[x].config.name in s.failed <==> FailedBefore(s.history, x)
  }

  lemma FailedStep(p: Plan, s: State, i: nat, r: Readings)
    requires i < |s.tasks| && FailedNamed(s)
    ensures FailedNamed(Execute(p, s, i, r))
  {
    ExecuteFrame(p, s, i, r);
    var after, e := Execute(p, s, i, r), EntryOf(p, s, i, r);
    forall x: nat | x < |s.tasks|
      ensures after.tasks[x].config.name in after.failed <==> FailedBefore(after.history, x)
    {
      FailedOneMore(s.history, e, x);
      assert after.tasks[x].config == s.tasks[x].config;
      assert x != i ==> s.tasks[x].config.name != s.tasks[i].config.name;
    }
  }

  lemma {:induction false} FailedHolds(p: Plan, first: World, run: seq<Label>)
    requires Initial(p, first) && Legal(p, first, run)
    ensures FailedNamed(Reach(p, first, run).sys)
  {
    if run != [] {
      FailedHolds(p, first, run[..|run| - 1]);
      LastStep(p, first, run);
      var w, l := Reach(p, first, run[..|run| - 1]), run[|run| - 1];
      if l.Dispatch? {
        FailedStep(p, w.sys, w.pending[0], l.readings);
      }
    }
  }

  /** At every dispatch of every run: the task is skipped exactly if it has failed before; otherwise it fails exactly
      if faults are enabled, of the crash kind, aimed at it, and the crash test reads at least the starting time; and
      otherwise it runs. */
  lemma {:induction false} FailsExactly(p: Plan, first: World, run: seq<Label>, r: Readings)
    requires Initial(p, first) && Legal(p, first, run) && Enabled(p, Reach(p, first, run), Dispatch(r))
    ensures
      var w := Reach(p, first, run);
      var x := w.pending[0];
      var faults, outcome := p.faults, EntryOf(p, w.sys, x, r).outcome;
      && (outcome.Skipped? <==> exists e <- w.sys.history :: e.task == x && e.outcome.Failed?)
      && (!outcome.Skipped? ==>
            (outcome.Failed? <==>
              && faults.enabled && faults.kind == TaskCrash
              && faults.targetTask == w.sys.tasks[x].config.name && r.crash.ms >= faults.startAfterMs))
  {
    FailedHolds(p, first, run);
    ExecuteFrame(p, Reach(p, first, run).sys, Reach(p, first, run).pending[0], r);
  }

  // ---------- running ----------

  /** How long the run of a dispatch sleeps, by what its outcome tells. */
  function RunMs(task: TaskState, faults: FaultConfig, outcome: Outcome): int
    requires outcome.Ran?
  {
    task.config.executionTimeMs + if outcome.slowed || outcome.spiked then faults.extraExecutionTimeMs else 0
  }

  lemma {:induction false} SlowedInFields(p: Plan, s: State, i: nat, r: Readings)
    requires i < |s.tasks| && WillRun(p, s, i, r) && ValidFaults(p.faults)
    ensures
      var faults, task, outcome := p.faults, s.tasks[i], EntryOf(p, s, i, r).outcome;
      && outcome.Ran?
      && (outcome.slowed <==>
            && faults.enabled && faults.kind == SlowTask
            && faults.targetTask == task.config.name && r.fault.ms >= faults.startAfterMs)
      && (outcome.spiked <==>
            && faults.enabled && faults.kind == CpuSpike
            && faults.targetTask == task.config.name && r.fault.ms >= faults.startAfterMs)
      && task.TotalExecutionMs(ExtraMs(p, task.config.name, r.fault.ms)) == RunMs(task, faults, outcome)
  {
  }

  /** At every run of a task in every run of the scheduler: it is slowed, or spiked, exactly if faults are enabled, of
      that kind, aimed at it, and the fault test reads at least the starting time. Then it sleeps for exactly the extra
      time more; its counter rises exactly if it started more than its deadline late, in whole milliseconds, or
      sleeps for longer than its deadline. */
  lemma {:induction false} SlowsExactly(p: Plan, first: World, run: seq<Label>, r: Readings)
    requires Initial(p, first) && Legal(p, first, run) && Enabled(p, Reach(p, first, run), Dispatch(r))
    requires EntryOf(p, Reach(p, first, run).sys, Reach(p, first, run).pending[0], r).outcome.Ran?
    ensures
      var w := Reach(p, first, run);
      var x, after := w.pending[0], Step(p, w, Dispatch(r));
      var faults, task, outcome := p.faults, w.sys.tasks[x], EntryOf(p, w.sys, x, r).outcome;
      var onTime := faults.enabled && faults.targetTask == task.config.name && r.fault.ms >= faults.startAfterMs;
      var sleepMs := task.config.executionTimeMs + if outcome.slowed || outcome.spiked then faults.extraExecutionTimeMs else 0;
      && (outcome.slowed <==> onTime && faults.kind == SlowTask)
      && (outcome.spiked <==> onTime && faults.kind == CpuSpike)
      && after.sleptMs == w.sleptMs + sleepMs
      && after.time >= r.now + sleepMs * TICKS_PER_MS && r.observedMs >= sleepMs
      && (outcome.missed <==> WholeMs(r.now - task.nextRunTime) > task.config.deadlineMs || sleepMs > task.config.deadlineMs)
      && after.sys.tasks[x].runCount == task.runCount + 1
      && after.sys.tasks[x].deadlineMissCount == task.deadlineMissCount + (if outcome.missed then 1 else 0)
      && outcome.seen == Inspection(task.config.name, after.sys.tasks[x].deadlineMissCount, r.done.ms)
  {
    var w := Reach(p, first, run);
    var x := w.pending[0];
    ExecuteFrame(p, w.sys, x, r);
    SlowedInFields(p, w.sys, x, r);
    RunWrites(p, w.sys, x, r);
    WholeMsMeaning(r.now - w.sys.tasks[x].nextRunTime, w.sys.tasks[x].config.deadlineMs);
  }

  /** Every dispatch, whatever becomes of it, puts the task's next release one period after its start, and is made
      when the release has come and the run's time is not over. */
  lemma {:induction false} ReleasesByPeriod(p: Plan, first: World, run: seq<Label>, r: Readings)
    requires Initial(p, first) && Legal(p, first, run) && Enabled(p, Reach(p, first, run), Dispatch(r))
    ensures
      var w := Reach(p, first, run);
      var x, after := w.pending[0], Step(p, w, Dispatch(r));
      && w.sys.tasks[x].nextRunTime <= r.now < p.startTime + p.durationMs * TICKS_PER_MS
      && after.sys.tasks[x].nextRunTime == r.now + w.sys.tasks[x].config.periodMs * TICKS_PER_MS
      && (EntryOf(p, w.sys, x, r).outcome.Ran? ||
          (after.sys.tasks[x].runCount == w.sys.tasks[x].runCount &&
           after.sys.tasks[x].deadlineMissCount == w.sys.tasks[x].deadlineMissCount && after.sleptMs == w.sleptMs))
  {
    ShapeHolds(p, first, run);
    ExecuteFrame(p, Reach(p, first, run).sys, Reach(p, first, run).pending[0], r);
  }

  // ---------- messages ----------

  /** The queues are the tasks' own, with their limits. */
  ghost predicate QueuesOfTasks(s: State, tasks: seq<TaskState>) {
    && (forall x | 0 <= x < |tasks| ::
          tasks[x].config.name in s.queues && s.queues[tasks[x].config.name].limit == tasks[x].config.queueLimit)
    && (forall name <- s.queues :: Names(tasks, name))
  }

  lemma QueuesStayWithTasks(p: Plan, first: World, run: seq<Label>)
    requires Initial(p, first) && Legal(p, first, run)
    ensures QueuesOfTasks(Reach(p, first, run).sys, first.sys.tasks)
  {
    CappedHolds(p, first, run);
    var s := Reach(p, first, run).sys;
    forall x | 0 <= x < |first.sys.tasks|
      ensures first.sys.tasks[x].config.name in s.queues
      ensures s.queues[first.sys.tasks[x].config.name].limit == first.sys.tasks[x].config.queueLimit
    {
      assert first.sys.tasks[x].config.name in first.sys.queues;
    }
  }

  /** What becomes of a message, in the fields of the fault configuration and the queue. */
  lemma {:induction false} MessageInFields(p: Plan, s: State, i: nat, r: Readings)
    requires i < |s.tasks| && WillRun(p, s, i, r)
    ensures
      var faults, name, traffic := p.faults, s.tasks[i].config.name, EntryOf(p, s, i, r).outcome.traffic;
      var queues := s.queues;
      if name == CONTROL_TASK || name == NETWORK_TASK then
        var lost :=
          && faults.enabled && faults.kind == DroppedMessages
          && (faults.targetTask == name || faults.targetTask == LOGGER_TASK)
          && r.send.ms >= faults.startAfterMs && r.roll <= faults.dropProbabilityPercent;
        var room := LOGGER_TASK in queues && |queues[LOGGER_TASK].messages| < queues[LOGGER_TASK].limit;
        traffic == if lost then LostToFault(s.nextId) else if room then Accepted(s.nextId) else RefusedFull(s.nextId)
      else if name == LOGGER_TASK && LOGGER_TASK in queues && queues[LOGGER_TASK].messages != [] then
        traffic == Collected(queues[LOGGER_TASK].messages[0].sequenceId)
      else traffic == Quiet
  {
    SenderNamesDiffer();
  }

  /** At every run of a task in every run of the scheduler, a sender's message is lost to the fault exactly if faults
      are enabled, of the dropping kind, aimed at its source or its target, the drop test reads at least the starting
      time and the roll is within the probability. Other tasks lose nothing. */
  lemma {:induction false} LosesExactly(p: Plan, first: World, run: seq<Label>, r: Readings)
    requires Initial(p, first) && Legal(p, first, run) && Enabled(p, Reach(p, first, run), Dispatch(r))
    requires EntryOf(p, Reach(p, first, run).sys, Reach(p, first, run).pending[0], r).outcome.Ran?
    ensures
      var w := Reach(p, first, run);
      var faults, name := p.faults, w.sys.tasks[w.pending[0]].config.name;
      EntryOf(p, w.sys, w.pending[0], r).outcome.traffic.LostToFault? <==>
        && (name == CONTROL_TASK || name == NETWORK_TASK)
        && faults.enabled && faults.kind == DroppedMessages
        && (faults.targetTask == name || faults.targetTask == LOGGER_TASK)
        && r.send.ms >= faults.startAfterMs && r.roll <= faults.dropProbabilityPercent
  {
    var w := Reach(p, first, run);
    ExecuteFrame(p, w.sys, w.pending[0], r);
    MessageInFields(p, w.sys, w.pending[0], r);
  }

  /** A sender's message that is not lost is refused exactly if no task is called LoggerTask or that task's queue
      holds as many messages as its configured limit; otherwise it is accepted and stands last in the queue. Nothing
      else fills the queue. */
  lemma {:induction false} RefusesExactly(p: Plan, first: World, run: seq<Label>, r: Readings)
    requires Initial(p, first) && Legal(p, first, run) && Enabled(p, Reach(p, first, run), Dispatch(r))
    requires
      var w := Reach(p, first, run);
      var outcome, name := EntryOf(p, w.sys, w.pending[0], r).outcome, w.sys.tasks[w.pending[0]].config.name;
      outcome.Ran? && (name == CONTROL_TASK || name == NETWORK_TASK) && !outcome.traffic.LostToFault?
    ensures
      var w := Reach(p, first, run);
      var queues, traffic := w.sys.queues, EntryOf(p, w.sys, w.pending[0], r).outcome.traffic;
      && (LOGGER_TASK in queues <==> exists y :: 0 <= y < |first.sys.tasks| && first.sys.tasks[y].config.name == LOGGER_TASK)
      && (forall y | 0 <= y < |first.sys.tasks| && first.sys.tasks[y].config.name == LOGGER_TASK ::
            LOGGER_TASK in queues && |queues[LOGGER_TASK].messages| <= first.sys.tasks[y].config.queueLimit == queues[LOGGER_TASK].limit)
      && (traffic.RefusedFull? <==>
            LOGGER_TASK !in queues || |queues[LOGGER_TASK].messages| == queues[LOGGER_TASK].limit)
      && (traffic.Accepted? <==> !traffic.RefusedFull?)
  {
    var w := Reach(p, first, run);
    ExecuteFrame(p, w.sys, w.pending[0], r);
    MessageInFields(p, w.sys, w.pending[0], r);
    QueuesStayWithTasks(p, first, run);
    ConservedHolds(p, first, run);
    assert LOGGER_TASK in w.sys.queues ==> Names(first.sys.tasks, LOGGER_TASK);
  }

  lemma {:induction false} QueueInFields(p: Plan, s: State, i: nat, r: Readings)
    requires i < |s.tasks|
    ensures
      var name, queues := s.tasks[i].config.name, s.queues;
      var outcome, after := EntryOf(p, s, i, r).outcome, Execute(p, s, i, r).queues;
      if outcome.Ran? && outcome.traffic.Accepted? then
        && LOGGER_TASK in queues
        && after == queues[LOGGER_TASK := Queue(queues[LOGGER_TASK].limit, queues[LOGGER_TASK].messages +
            [Message(name, LOGGER_TASK, if name == CONTROL_TASK then ControlStatus else NetworkPacket, s.nextId)])]
      else if outcome.Ran? && outcome.traffic.Collected? then
        && LOGGER_TASK in queues && queues[LOGGER_TASK].messages != []
        && after == queues[LOGGER_TASK := Queue(queues[LOGGER_TASK].limit, queues[LOGGER_TASK].messages[1..])]
      else after == queues
  {
  }

  /** The queues change only by a dispatch that has a message accepted or collected: the first appends it, as the
      sender's own kind of message under the next id, the second takes the oldest. */
  lemma {:induction false} QueuesMoveExactly(p: Plan, first: World, run: seq<Label>, r: Readings)
    requires Initial(p, first) && Legal(p, first, run) && Enabled(p, Reach(p, first, run), Dispatch(r))
    ensures
      var w := Reach(p, first, run);
      var name, queues := w.sys.tasks[w.pending[0]].config.name, w.sys.queues;
      var outcome, after := EntryOf(p, w.sys, w.pending[0], r).outcome, Step(p, w, Dispatch(r)).sys.queues;
      if outcome.Ran? && outcome.traffic.Accepted? then
        && LOGGER_TASK in queues
        && after == queues[LOGGER_TASK := Queue(queues[LOGGER_TASK].limit, queues[LOGGER_TASK].messages +
            [Message(name, LOGGER_TASK, if name == CONTROL_TASK then ControlStatus else NetworkPacket, w.sys.nextId)])]
      else if outcome.Ran? && outcome.traffic.Collected? then
        && LOGGER_TASK in queues && queues[LOGGER_TASK].messages != []
        && outcome.traffic.id == queues[LOGGER_TASK].messages[0].sequenceId
        && after == queues[LOGGER_TASK := Queue(queues[LOGGER_TASK].limit, queues[LOGGER_TASK].messages[1..])]
      else after == queues
  {
    var w := Reach(p, first, run);
    QueueInFields(p, w.sys, w.pending[0], r);
    ExecuteFrame(p, w.sys, w.pending[0], r);
    if EntryOf(p, w.sys, w.pending[0], r).outcome.Ran? {
      MessageInFields(p, w.sys, w.pending[0], r);
    }
  }

  // ---------- records ----------

  /** The records of a run's own part: the fault that acted, with its extra time, then start and completion. */
  function OwnRecords(task: TaskState, ran: TaskState, faults: FaultConfig, outcome: Outcome, observedMs: int): seq<Event>
    requires outcome.Ran?
  {
    var config := task.config;
    (if outcome.slowed then [FaultInjected(SlowTask, config.name, ExtraExecution(faults.extraExecutionTimeMs))] else []) +
    (if outcome.spiked then [FaultInjected(CpuSpike, config.name, ExtraExecution(faults.extraExecutionTimeMs))] else []) +
    [TaskStarted(config.name, config.periodMs, config.deadlineMs, config.priority),
     TaskCompleted(config.name, observedMs, config.executionTimeMs, config.deadlineMs, observedMs > config.deadlineMs,
       ran.runCount, ran.deadlineMissCount)]
  }

  /** The records of an alert: the timeout with the task's counter and streak, and the recovery. */
  function AlertRecords(alert: Option<Alert>): seq<Event> {
    if alert.None? then []
    else
      [WatchdogTimeout(alert.value.task, alert.value.deadlineMissCount, alert.value.consecutiveMissCount)] +
      (if alert.value.recoveryPerformed then [TaskRecovered(alert.value.task)] else [])
  }

  /** The records of an exchange, by the queue of the logger task as it was. */
  function TrafficRecords(name: string, queue: Queue, nextId: nat, traffic: Traffic): seq<Event> {
    var content, depth := if name == CONTROL_TASK then ControlStatus else NetworkPacket, |queue.messages|;
    match traffic
    case Quiet => []
    case LostToFault(_) =>
      [FaultInjected(DroppedMessages, LOGGER_TASK, LostMessage(name, content, nextId)),
       MessageDropped(name, LOGGER_TASK, content, nextId, depth, queue.limit, FaultInjectedDrop)]
    case RefusedFull(_) => [MessageDropped(name, LOGGER_TASK, content, nextId, depth, queue.limit, QueueFull)]
    case Accepted(_) => [MessageSent(name, LOGGER_TASK, content, nextId, depth + 1, queue.limit)]
    case Collected(_) =>
      if queue.messages == [] then []
      else
        var m := queue.messages[0];
        [MessageReceived(m.source, m.target, m.content, m.sequenceId, depth - 1)]
  }

  /** The logger task's queue; no queue counts as one without places. */
  function LoggerQueue(queues: Queues): Queue {
    if LOGGER_TASK in queues then queues[LOGGER_TASK] else Queue(0, [])
  }

  lemma {:induction false} OwnPartInFields(p: Plan, s: State, i: nat, r: Readings)
    requires i < |s.tasks| && WillRun(p, s, i, r) && ValidFaults(p.faults)
    ensures RunPart(p, s, i, r) ==
      OwnRecords(s.tasks[i], Execute(p, s, i, r).tasks[i], p.faults, EntryOf(p, s, i, r).outcome, r.observedMs)
  {
    SlowedInFields(p, s, i, r);
    RunWrites(p, s, i, r);
  }

  lemma {:induction false} TrafficInFields(p: Plan, s: State, i: nat, r: Readings)
    requires i < |s.tasks| && WillRun(p, s, i, r)
    ensures ExchangeIn(p, s, i, r).events ==
      TrafficRecords(s.tasks[i].config.name, LoggerQueue(s.queues), s.nextId, EntryOf(p, s, i, r).outcome.traffic)
  {
    SenderNamesDiffer();
    RunWrites(p, s, i, r);
  }

  /** What each dispatch of every run adds to the log, field by field: of the task's configuration and counters, the
      fault's extra time, the alert, and the message with the depth and limit of its queue. */
  lemma {:induction false} WritesExactly(p: Plan, first: World, run: seq<Label>, r: Readings)
    requires Initial(p, first) && Legal(p, first, run) && Enabled(p, Reach(p, first, run), Dispatch(r))
    ensures
      var w := Reach(p, first, run);
      var x, after := w.pending[0], Step(p, w, Dispatch(r)).sys;
      var task, outcome := w.sys.tasks[x], EntryOf(p, w.sys, x, r).outcome;
      after.log == w.sys.log +
        match outcome
        case Skipped => [TaskSkipped(task.config.name)]
        case Failed => [FaultInjected(TaskCrash, task.config.name, SimulatedCrash), TaskFailed(task.config.name)]
        case Ran(_, _, _, _, alert, traffic) =>
          OwnRecords(task, after.tasks[x], p.faults, outcome, r.observedMs) + AlertRecords(alert) +
          TrafficRecords(task.config.name, LoggerQueue(w.sys.queues), w.sys.nextId, traffic)
  {
    var w := Reach(p, first, run);
    var x := w.pending[0];
    ExecuteFrame(p, w.sys, x, r);
    if WillRun(p, w.sys, x, r) {
      RunWrites(p, w.sys, x, r);
      OwnPartInFields(p, w.sys, x, r);
      TrafficInFields(p, w.sys, x, r);
      ConcatRegroup(w.sys.log, RunPart(p, w.sys, x, r), AlertEvents(AlertIn(p, w.sys, x, r)), ExchangeIn(p, w.sys, x, r).events);
    }
  }
}
