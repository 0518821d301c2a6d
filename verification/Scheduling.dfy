/** The scheduler object: its loops and its dispatch, each proved to be steps of the state machine. */
module Scheduling {
  import opened Common
  import opened EventLog
  import opened FaultInjector
  import opened Machine
  import opened MessageBus
  import opened PassOrder
  import opened PeriodicTask
  import opened RuntimeConfig
  import opened SteadyClock
  import opened Watchdog

  datatype RunError =
    | DurationNotPositive
    | NoTasks
    | ModeNotSupported(name: string)

  function Positive(ms: int): int {
    if ms > 0 then ms else 0
  }

  function DueSet(tasks: seq<TaskState>, now: int): set<nat> {
    set i: nat | i < |tasks| && tasks[i].ShouldRun(now)
  }

  class Scheduler {
    const mode: Mode
    const durationSeconds: int
    const tasks: seq<Task>
    const clock: Clock
    const logger: Logger
    const bus: Bus
    const injector: Injector
    const watchdog: Dog
    var startTime: int
    var nextId: nat
    var failed: set<string>

    // The run so far as a path of the state machine.
    ghost var plan: Plan
    ghost var first: World
    ghost var run: seq<Label>
    ghost var history: seq<Entry>
    ghost var states: seq<TaskState>
    ghost var at: World
    ghost var askedBefore: int

    constructor (mode: Mode, durationSeconds: int, tasks: seq<Task>, clock: Clock, logger: Logger,
        faults: FaultConfig, watchdogConfig: WatchdogConfig)
      requires forall i, j | 0 <= i < j < |tasks| :: tasks[i] != tasks[j]
      requires forall t <- tasks :: ValidTask(t.config)
      requires ValidFaults(faults) && logger.Valid() && logger.latest <= clock.ticks
      modifies clock`ticks
      ensures Valid() && InStep() && old(clock.ticks) <= clock.ticks
      ensures this.mode == mode && this.durationSeconds == durationSeconds && this.tasks == tasks
      ensures this.clock == clock && this.logger == logger
      ensures injector.config == faults && watchdog.config == watchdogConfig
      ensures fresh(bus) && fresh(watchdog)
      ensures bus.queues == map[] && watchdog.State() == Fresh && failed == {} && nextId == 1 && history == []
    {
      this.mode, this.durationSeconds, this.tasks := mode, durationSeconds, tasks;
      this.clock, this.logger := clock, logger;
      bus := new Bus();
      injector := new Injector(faults);
      watchdog := new Dog(watchdogConfig);
      var now := clock.Now();
      startTime := now;
      nextId, failed := 1, {};
      history, askedBefore, run := [], 0, [];
      plan := Plan(mode, durationSeconds * 1000, faults, watchdogConfig, now);
      states := seq(|tasks|, i requires 0 <= i < |tasks| reads set t | t in tasks => tasks[i].State());
    }

    ghost function Parts(): set<object> {
      {clock, logger, bus, watchdog} + (set t | t in tasks)
    }

    /** The recorded task values are those of the task objects. */
    ghost predicate InStep()
      reads this`states, set t | t in tasks
    {
      |states| == |tasks| && forall i | 0 <= i < |tasks| :: tasks[i].State() == states[i]
    }

    ghost function Sys(): State
      reads this, logger, bus, watchdog
    {
      State(states, bus.queues, watchdog.State(), failed, nextId, logger.events, history)
    }

    /** What construction fixes once and for all. */
    ghost predicate WellBuilt() {
      && (forall i, j | 0 <= i < j < |tasks| :: tasks[i] != tasks[j])
      && (forall t <- tasks :: ValidTask(t.config))
      && ValidFaults(injector.config)
      && this !in Parts()
    }

    ghost predicate Valid()
      reads this, clock, logger
    {
      && WellBuilt()
      && plan == Plan(mode, durationSeconds * 1000, injector.config, watchdog.config, startTime)
      && startTime <= clock.ticks
      && logger.Valid()
      && logger.latest <= clock.ticks
    }

    ghost function Now(time: int, pending: seq<nat>, over: bool, idle: bool): World
      reads this, clock, logger, bus, watchdog
    {
      World(Sys(), time, pending, over, idle, clock.askedMs - askedBefore)
    }

    /** The objects are in the state the recorded path leads to. */
    ghost predicate Synced()
      reads this, Parts()
    {
      && Valid() && InStep()
      && Legal(plan, first, run)
      && Reach(plan, first, run) == at == Now(at.time, at.pending, at.over, at.idle)
      && at.time <= clock.ticks
      && (at.over ==> plan.EndTime() <= clock.ticks)
    }

    method ElapsedMs() returns (ms: int)
      requires Valid()
      modifies clock`ticks
      ensures Valid() && old(clock.ticks) <= clock.ticks
      ensures plan.Elapsed(Reading(clock.ticks, ms))
    {
      var now := clock.Now();
      WholeMsMeaning(now - startTime, WholeMs(now - startTime));
      ms := WholeMs(now - startTime);
    }

    /** Give up this release of a task that is not run. */
    method LeaveOut(i: nat, now: int, ghost outcome: Outcome)
      requires WellBuilt() && InStep() && i < |tasks|
      modifies this`history, this`states, tasks[i]
      ensures InStep()
      ensures states == old(states)[i := old(states)[i].AfterSkip(now)]
      ensures history == old(history) + [Entry(i, now, old(states)[i].nextRunTime, outcome)]
    {
      history := history + [Entry(i, now, tasks[i].nextRunTime, outcome)];
      tasks[i].Skip(now);
      states := states[i := tasks[i].State()];
    }

    method HandleTaskCrashIfNeeded(i: nat, now: int) returns (handled: bool, ghost crash: Reading)
      requires Valid() && InStep() && i < |tasks|
      modifies this`failed, this`history, this`states, tasks[i], logger, clock`ticks
      ensures Valid() && InStep() && old(clock.ticks) <= crash.at <= clock.ticks && plan.Elapsed(crash)
      ensures handled <==>
        || old(WillSkip(Sys(), i))
        || (injector.config.enabled && injector.config.kind == TaskCrash &&
            injector.config.targetTask == tasks[i].config.name && crash.ms >= injector.config.startAfterMs)
      ensures Sys() ==
        if !handled then old(Sys())
        else if old(WillSkip(Sys(), i)) then SkipFailedTask(old(Sys()), i, now)
        else CrashTask(old(Sys()), i, now)
    {
      var timestampMs := ElapsedMs();
      crash := Reading(clock.ticks, timestampMs);
      var name := tasks[i].config.name;
      if name in failed {
        LeaveOut(i, now, Skipped);
        logger.Log(clock, TaskSkipped(name));
        return true, crash;
      }
      if !ShouldCrashTask(injector.config, name, timestampMs) {
        return false, crash;
      }
      failed := failed + {name};
      LeaveOut(i, now, Failed);
      ghost var log := logger.events;
      logger.Log(clock, FaultInjected(TaskCrash, name, SimulatedCrash));
      logger.Log(clock, TaskFailed(name));
      assert logger.events == log + [FaultInjected(TaskCrash, name, SimulatedCrash), TaskFailed(name)];
      return true, crash;
    }

    method SendMessageToLoggerTask(message: Message) returns (ghost send: Reading, roll: int)
      requires Valid() && message.sequenceId == nextId
      modifies this`nextId, bus, logger, clock`ticks
      ensures Valid() && old(clock.ticks) <= send.at <= clock.ticks && plan.Elapsed(send) && 1 <= roll <= 100
      ensures
        var x := SendExchange(injector.config, old(bus.queues), old(nextId), message, send.ms, roll);
        && bus.queues == x.queues
        && nextId == x.nextId
        && logger.events == old(logger.events) + x.events
    {
      ghost var log := logger.events;
      nextId := nextId + 1;
      var timestampMs := ElapsedMs();
      send := Reading(clock.ticks, timestampMs);
      var depthBefore, limit := Depth(bus.queues, message.target), Limit(bus.queues, message.target);
      var drop;
      drop, roll := injector.ShouldDropMessage(message, timestampMs);
      if drop {
        logger.Log(clock, FaultInjected(DroppedMessages, message.target,
          LostMessage(message.source, message.content, message.sequenceId)));
        logger.Log(clock, MessageDropped(message.source, message.target, message.content,
          message.sequenceId, depthBefore, limit, FaultInjectedDrop));
        assert logger.events == log +
          SendExchange(injector.config, bus.queues, old(nextId), message, timestampMs, roll).events;
        return;
      }
      var sent := bus.Send(message);
      var depth := Depth(bus.queues, message.target);
      if sent {
        logger.Log(clock, MessageSent(message.source, message.target, message.content,
          message.sequenceId, depth, limit));
      } else {
        logger.Log(clock, MessageDropped(message.source, message.target, message.content,
          message.sequenceId, depth, limit, QueueFull));
      }
    }

    method ReceiveMessageForTask(task: string)
      requires Valid()
      modifies bus, logger, clock`ticks
      ensures Valid() && old(clock.ticks) <= clock.ticks
      ensures
        var x := ReceiveExchange(old(bus.queues), nextId, task);
        bus.queues == x.queues && logger.events == old(logger.events) + x.events
    {
      var received := bus.Receive(task);
      if received.None? {
        return;
      }
      var m := received.value;
      var remaining := Depth(bus.queues, task);
      logger.Log(clock, MessageReceived(m.source, m.target, m.content, m.sequenceId, remaining));
    }

    method HandleTaskMessaging(task: string) returns (ghost send: Reading, roll: int)
      requires Valid()
      modifies this`nextId, bus, logger, clock`ticks
      ensures Valid() && old(clock.ticks) <= send.at <= clock.ticks && plan.Elapsed(send) && 1 <= roll <= 100
      ensures
        var x := Messaging(injector.config, old(bus.queues), old(nextId), task, send.ms, roll);
        && bus.queues == x.queues
        && nextId == x.nextId
        && logger.events == old(logger.events) + x.events
    {
      WholeMsMeaning(clock.ticks - startTime, WholeMs(clock.ticks - startTime));
      send, roll := Reading(clock.ticks, WholeMs(clock.ticks - startTime)), 1;
      if task == CONTROL_TASK {
        send, roll := SendMessageToLoggerTask(StatusMessage(task, nextId));
      } else if task == NETWORK_TASK {
        send, roll := SendMessageToLoggerTask(StatusMessage(task, nextId));
      } else if task == LOGGER_TASK {
        ReceiveMessageForTask(task);
      }
    }

    method InspectWatchdogForTask(i: nat, timestampMs: int)
      requires Valid() && i < |tasks|
      modifies watchdog, logger, clock`ticks
      ensures Valid() && old(clock.ticks) <= clock.ticks
      ensures
        var (watch, alert) := Inspect(watchdog.config, old(watchdog.State()),
          Inspection(tasks[i].config.name, tasks[i].deadlineMissCount, timestampMs));
        watchdog.State() == watch && logger.events == old(logger.events) + AlertEvents(alert)
    {
      var alert := watchdog.InspectTask(tasks[i], timestampMs);
      if alert.None? {
        return;
      }
      var a := alert.value;
      logger.Log(clock, WatchdogTimeout(a.task, a.deadlineMissCount, a.consecutiveMissCount));
      if a.recoveryPerformed {
        logger.Log(clock, TaskRecovered(a.task));
      }
    }

    method RecordFaults(name: string, slowMs: int, spikeMs: int)
      requires Valid()
      modifies logger, clock`ticks
      ensures Valid() && old(clock.ticks) <= clock.ticks
      ensures logger.events == old(logger.events) + FaultEvents(slowMs, spikeMs, name)
    {
      if slowMs > 0 {
        logger.Log(clock, FaultInjected(SlowTask, name, ExtraExecution(slowMs)));
      }
      if spikeMs > 0 {
        logger.Log(clock, FaultInjected(CpuSpike, name, ExtraExecution(spikeMs)));
      }
    }

    /** Run one task object; the others stay as they are. */
    method Perform(i: nat, now: int, extraMs: int) returns (observedMs: int)
      requires WellBuilt() && InStep() && i < |tasks|
      modifies this`states, tasks[i], clock
      ensures InStep()
      ensures states == old(states)[i := old(states)[i].AfterRun(now, extraMs)]
      ensures old(states)[i].TotalExecutionMs(extraMs) <= observedMs
      ensures old(clock.ticks) <= clock.ticks
      ensures clock.askedMs == old(clock.askedMs) + Positive(old(states)[i].TotalExecutionMs(extraMs))
      ensures old(clock.ticks) + old(states)[i].TotalExecutionMs(extraMs) * TICKS_PER_MS <= clock.ticks
    {
      var beforeRun := clock.Now();
      tasks[i].Run(clock, now, extraMs);
      var afterRun := clock.Now();
      observedMs := WholeMs(afterRun - beforeRun);
      if tasks[i].config.executionTimeMs + extraMs >= 0 {
        WholeMsAfterWaiting(0, afterRun - beforeRun, tasks[i].config.executionTimeMs + extraMs);
      }
      states := states[i := tasks[i].State()];
    }

    /** The part of a dispatch from the fault test to the completion record. */
    method RunAndRecord(i: nat, now: int) returns (ghost fault: Reading, observedMs: int)
      requires Valid() && InStep() && i < |tasks|
      modifies this`states, tasks[i], logger, clock
      ensures Valid() && InStep() && old(clock.ticks) <= fault.at <= clock.ticks && plan.Elapsed(fault)
      ensures
        var task := old(states)[i];
        var slowMs := SlowExtraMs(injector.config, task.config.name, fault.ms);
        var spikeMs := CpuSpikeExtraMs(injector.config, task.config.name, fault.ms);
        var ran := task.AfterRun(now, slowMs + spikeMs);
        && states == old(states)[i := ran]
        && logger.events == old(logger.events) + RunEvents(task, ran, slowMs, spikeMs, observedMs)
        && clock.askedMs == old(clock.askedMs) + Positive(task.TotalExecutionMs(slowMs + spikeMs))
        && task.TotalExecutionMs(slowMs + spikeMs) <= observedMs
        && old(clock.ticks) + task.TotalExecutionMs(slowMs + spikeMs) * TICKS_PER_MS <= clock.ticks
    {
      var timestampMs := ElapsedMs();
      fault := Reading(clock.ticks, timestampMs);
      var config := tasks[i].config;
      ghost var task, log := states[i], logger.events;
      var slowMs := SlowExtraMs(injector.config, config.name, timestampMs);
      var spikeMs := CpuSpikeExtraMs(injector.config, config.name, timestampMs);
      RecordFaults(config.name, slowMs, spikeMs);
      logger.Log(clock, TaskStarted(config.name, config.periodMs, config.deadlineMs, config.priority));
      observedMs := Perform(i, now, slowMs + spikeMs);
      assert tasks[i].State() == states[i];
      logger.Log(clock, Completion(config, observedMs, tasks[i].runCount, tasks[i].deadlineMissCount));
      assert logger.events ==
        log + RunEvents(task, task.AfterRun(now, slowMs + spikeMs), slowMs, spikeMs, observedMs);
    }

    /** The part of a dispatch after the completion record. */
    method InspectAndExchange(i: nat) returns (ghost done: Reading, ghost send: Reading, roll: int)
      requires Valid() && InStep() && i < |tasks|
      modifies this`nextId, logger, bus, watchdog, clock`ticks
      ensures Valid() && InStep() && old(clock.ticks) <= done.at <= send.at <= clock.ticks && 1 <= roll <= 100
      ensures plan.Elapsed(done) && plan.Elapsed(send)
      ensures
        var name := states[i].config.name;
        var (watch, alert) := Inspect(watchdog.config, old(watchdog.State()),
          Inspection(name, states[i].deadlineMissCount, done.ms));
        var x := Messaging(injector.config, old(bus.queues), old(nextId), name, send.ms, roll);
        && watchdog.State() == watch
        && bus.queues == x.queues
        && nextId == x.nextId
        && logger.events == old(logger.events) + AlertEvents(alert) + x.events
    {
      var timestampMs := ElapsedMs();
      done := Reading(clock.ticks, timestampMs);
      assert tasks[i].State() == states[i];
      InspectWatchdogForTask(i, timestampMs);
      send, roll := HandleTaskMessaging(tasks[i].config.name);
    }

    /** A dispatch that no crash intercepts. */
    method RunHealthyTask(i: nat, now: int, ghost crash: Reading) returns (ghost r: Readings)
      requires Valid() && InStep() && i < |tasks| && now <= crash.at <= clock.ticks
      modifies this`history, this`nextId, this`states, tasks[i], logger, bus, watchdog, clock
      ensures Valid() && InStep()
      ensures r.now == now && r.crash == crash && r.finish == clock.ticks
      ensures old(clock.ticks) <= r.fault.at <= r.done.at <= r.send.at <= clock.ticks && 1 <= r.roll <= 100
      ensures plan.Elapsed(r.fault) && plan.Elapsed(r.done) && plan.Elapsed(r.send)
      ensures
        var task := old(states)[i];
        var totalMs := task.TotalExecutionMs(ExtraMs(plan, task.config.name, r.fault.ms));
        && clock.askedMs == old(clock.askedMs) + Positive(totalMs) && totalMs <= r.observedMs
        && now + totalMs * TICKS_PER_MS <= clock.ticks
      ensures Sys() == RunTask(plan, old(Sys()), i, r)
    {
      ghost var before := Sys();
      ghost var fault, done, send;
      var observedMs, roll;
      fault, observedMs := RunAndRecord(i, now);
      done, send, roll := InspectAndExchange(i);
      r := Readings(now, crash, fault, observedMs, done, send, roll, clock.ticks);
      ghost var after := RunTask(plan, before, i, r);
      history := after.history;
      assert states == after.tasks && failed == after.failed;
      assert watchdog.State() == after.watch;
      assert bus.queues == after.queues && nextId == after.nextId;
      assert logger.events == after.log;
    }

    /** One dispatch. */
    method ExecuteTask(i: nat, now: int) returns (ghost r: Readings)
      requires Valid() && InStep() && i < |tasks| && now <= clock.ticks
      modifies this`failed, this`history, this`nextId, this`states, Parts()
      ensures Valid() && InStep() && old(clock.ticks) <= clock.ticks
      ensures r.now == now && r.finish == clock.ticks
      ensures Plausible(plan, old(Sys()), i, r)
      ensures clock.askedMs == old(clock.askedMs) + Positive(DispatchMs(plan, old(Sys()), i, r))
      ensures Sys() == Execute(plan, old(Sys()), i, r)
    {
      var handled;
      ghost var crash;
      handled, crash := HandleTaskCrashIfNeeded(i, now);
      if handled {
        r := Readings(now, crash, crash, 0, crash, crash, 1, clock.ticks);
      } else {
        r := RunHealthyTask(i, now, crash);
      }
    }

    /** Take one step of the state machine. */
    ghost method Record(l: Label, target: World)
      requires Legal(plan, first, run) && Enabled(plan, Reach(plan, first, run), l)
      requires Step(plan, Reach(plan, first, run), l) == target
      modifies this`run, this`at
      ensures Legal(plan, first, run) && Reach(plan, first, run) == target == at
    {
      Extend(plan, first, run, l);
      run, at := run + [l], target;
    }

    /** Dispatch a due task as a step of the state machine. */
    method DispatchTurn(i: nat, now: int)
      requires Synced() && at.pending != [] && at.pending[0] == i < |tasks|
      requires at.time <= now == clock.ticks < plan.EndTime() && states[i].ShouldRun(now) && !at.over
      modifies this`failed, this`history, this`nextId, this`states, Parts()
      modifies this`run, this`at
      ensures Synced() && !at.over && !at.idle && now <= clock.ticks && at.pending == old(at.pending)[1..]
      ensures clock.ticks == now ==> DueSet(states, now) == DueSet(old(states), now) - {i}
    {
      ghost var before := Sys();
      ghost var r := ExecuteTask(i, now);
      ghost var target := Now(clock.ticks, at.pending[1..], false, false);
      assert target == Step(plan, Reach(plan, first, run), Dispatch(r));
      assert tasks[i].State() == states[i];
      DispatchMakesProgress(plan, before, i, r);
      Record(Dispatch(r), target);
    }

    /** Give task `i` its turn in the current pass: stop at the end of time, dispatch it if it is due.
        When the clock stands still over the turn, the task is not due afterwards. */
    method TakeTurn(i: nat, end: int) returns (stop: bool, ran: bool)
      requires Synced() && !at.over && at.pending != [] && at.pending[0] == i < |tasks| && end == plan.EndTime()
      modifies this`failed, this`history, this`nextId, this`states, Parts()
      modifies this`run, this`at
      ensures Synced() && at.over == stop && old(clock.ticks) <= clock.ticks
      ensures at.pending == if stop then [] else old(at.pending)[1..]
      ensures at.idle == (old(at.idle) && !ran)
      ensures !stop && old(states[i].ShouldRun(clock.ticks)) ==> ran
      ensures !stop && clock.ticks == old(clock.ticks) ==>
        DueSet(states, clock.ticks) == DueSet(old(states), clock.ticks) - {i}
      ensures ran && clock.ticks == old(clock.ticks) ==> i in DueSet(old(states), clock.ticks)
      ensures stop ==> end <= clock.ticks && !ran
    {
      var now := clock.Now();
      if now >= end {
        Record(EndOfTime(now), Now(now, [], true, at.idle));
        return true, false;
      }
      assert tasks[i].State() == states[i];
      if !tasks[i].State().ShouldRun(now) {
        Record(NotDue(now), Now(now, at.pending[1..], false, at.idle));
        return false, false;
      }
      DispatchTurn(i, now);
      return false, true;
    }

    /** Begin the recorded path in the present state. */
    ghost method BeginPath()
      requires Valid() && InStep()
      modifies this`first, this`run, this`at, this`askedBefore
      ensures Synced() && !at.over && !at.idle && at.pending == []
      ensures first == World(Sys(), clock.ticks, [], false, false, 0)
    {
      askedBefore := clock.askedMs;
      first, run := Now(clock.ticks, [], false, false), [];
      at := first;
    }

    /** The start of a scheduler loop. */
    method StartClock() returns (end: int)
      requires Valid() && InStep()
      modifies this`startTime, this`plan, this`first, this`run, clock`ticks
      modifies this`at, this`askedBefore
      ensures Synced() && !at.over && !at.idle && at.pending == [] && end == plan.EndTime()
      ensures old(clock.ticks) <= plan.startTime == clock.ticks
      ensures first == World(old(Sys()), plan.startTime, [], false, false, 0)
    {
      var now := clock.Now();
      startTime := now;
      plan := plan.(startTime := now);
      BeginPath();
      end := startTime + durationSeconds * 1000 * TICKS_PER_MS;
    }

    /** Open a pass at `now`, after the loop guard read `guard`. */
    ghost method OpenPass(guard: int, now: int)
      requires Synced() && !at.over && !at.idle && at.pending == []
      requires at.time <= guard < plan.EndTime() && guard <= now <= clock.ticks
      modifies this`run, this`at
      ensures Synced() && !at.over && at.idle && at.pending == Turns(mode, states, now) && at.time == now
    {
      Record(BeginPass(guard, now), Now(now, Turns(mode, states, now), false, true));
    }

    /** A pass that dispatched nothing sleeps for a millisecond. */
    method TakeRest()
      requires Synced() && at.pending == [] && at.idle
      modifies this`run, this`at, clock
      ensures Synced() && at.pending == [] && !at.idle && at.over == old(at.over)
      ensures old(clock.ticks) < clock.ticks
    {
      clock.SleepFor(1);
      Record(Rest, Now(at.time + TICKS_PER_MS, [], at.over, false));
    }

    /** The turns of a round-robin cycle. */
    method GiveAllTurns(guard: int, end: int) returns (ranTask: bool)
      requires Synced() && !at.over && at.idle && at.pending == Turns(mode, states, guard) && mode.RoundRobin?
      requires guard == clock.ticks < end == plan.EndTime()
      modifies this`failed, this`history, this`nextId, this`states, Parts()
      modifies this`run, this`at
      ensures Synced() && at.pending == [] && guard <= clock.ticks && at.idle == !ranTask
      ensures ranTask && clock.ticks == guard ==> DueSet(states, guard) < old(DueSet(states, guard))
    {
      ghost var due, turns := DueSet(states, guard), at.pending;
      ranTask := false;
      for i := 0 to |tasks|
        invariant Synced() && !at.over && guard <= clock.ticks && at.pending == turns[i..] && at.idle == !ranTask
        invariant clock.ticks == guard ==> DueSet(states, guard) <= due
        invariant ranTask && clock.ticks == guard ==> DueSet(states, guard) < due
      {
        var stop, ran := TakeTurn(i, end);
        if stop {
          break;
        }
        ranTask := ranTask || ran;
      }
    }

    /** One cycle over all tasks in configuration order. */
    method RoundRobinCycle(guard: int, end: int)
      requires Synced() && at.pending == [] && !at.over && !at.idle && mode.RoundRobin?
      requires guard == clock.ticks < end == plan.EndTime()
      modifies this`failed, this`history, this`nextId, this`states, Parts()
      modifies this`run, this`at
      ensures Synced() && at.pending == [] && guard <= clock.ticks && (!at.over ==> !at.idle)
      ensures clock.ticks == guard ==> DueSet(states, guard) < old(DueSet(states, guard))
    {
      OpenPass(guard, guard);
      var ranTaskThisCycle := GiveAllTurns(guard, end);
      if !ranTaskThisCycle {
        TakeRest();
      }
    }

    method RoundRobinUntil(end: int)
      requires Synced() && at.pending == [] && !at.over && !at.idle && mode.RoundRobin? && end == plan.EndTime()
      modifies this`failed, this`history, this`nextId, this`states, Parts()
      modifies this`run, this`at
      ensures Synced() && at.pending == [] && end <= clock.ticks
    {
      var guard := clock.Now();
      while guard < end
        invariant Synced() && at.pending == [] && guard == clock.ticks
        invariant !at.over ==> !at.idle
        decreases end - guard, DueSet(states, guard)
      {
        RoundRobinCycle(guard, end);
        guard := clock.Now();
      }
    }

    method RunRoundRobin()
      requires Valid() && InStep() && history == [] && mode.RoundRobin?
      modifies this, Parts()
      ensures Synced() && at.pending == [] && plan.EndTime() <= clock.ticks
      ensures old(clock.ticks) <= plan.startTime && first == World(old(Sys()), plan.startTime, [], false, false, 0)
    {
      var end := StartClock();
      RoundRobinUntil(end);
    }

    /** Give the turns of a snapshot pass until they are used up or time ends. */
    method ServeTurns(turns: seq<nat>, now: int, end: int)
      requires Synced() && !at.over && at.idle && at.pending == turns && turns != [] && Indices(states, turns)
      requires states[turns[0]].ShouldRun(now)
      requires now == clock.ticks && end == plan.EndTime()
      modifies this`failed, this`history, this`nextId, this`states, Parts()
      modifies this`run, this`at
      ensures Synced() && at.pending == [] && now <= clock.ticks
      ensures clock.ticks == now && !at.over ==> DueSet(states, now) <= old(DueSet(states, now)) - {turns[0]}
      ensures !at.over ==> !at.idle
    {
      ghost var due := DueSet(states, now);
      for k := 0 to |turns|
        invariant Synced() && !at.over && now <= clock.ticks && at.pending == turns[k..] && at.idle == (k == 0)
        invariant k == 0 ==> clock.ticks == now && states[turns[0]].ShouldRun(now)
        invariant clock.ticks == now ==> DueSet(states, now) <= if k == 0 then due else due - {turns[0]}
      {
        var stop, _ := TakeTurn(turns[k], end);
        if stop {
          return;
        }
      }
    }

    /** One pass over the tasks due at a snapshot, in the order of the mode. A task released meanwhile
        waits for the next pass. */
    method SnapshotPass(guard: int, end: int)
      requires Synced() && at.pending == [] && !at.over && !at.idle && !mode.RoundRobin?
      requires guard == clock.ticks < end == plan.EndTime()
      modifies this`failed, this`history, this`nextId, this`states, Parts()
      modifies this`run, this`at
      ensures Synced() && at.pending == [] && guard <= clock.ticks && (!at.over ==> !at.idle)
      ensures clock.ticks == guard ==> DueSet(states, guard) < old(DueSet(states, guard))
    {
      var now := clock.Now();
      var turns := SortedDueTasks(now);
      OpenPass(guard, now);
      if turns == [] {
        TakeRest();
      } else {
        ghost var due := DueSet(states, now);
        assert turns[0] in due;
        ServeTurns(turns, now, end);
      }
    }

    /** The loop of the priority mode and of the earliest-deadline-first mode. */
    method SnapshotPassesUntil(end: int)
      requires Synced() && at.pending == [] && !at.over && !at.idle && !mode.RoundRobin? && end == plan.EndTime()
      modifies this`failed, this`history, this`nextId, this`states, Parts()
      modifies this`run, this`at
      ensures Synced() && at.pending == [] && end <= clock.ticks
    {
      var guard := clock.Now();
      while guard < end
        invariant Synced() && at.pending == [] && guard == clock.ticks
        invariant !at.over ==> !at.idle
        decreases end - guard, DueSet(states, guard)
      {
        SnapshotPass(guard, end);
        guard := clock.Now();
      }
    }

    method RunSnapshotPasses()
      requires Valid() && InStep() && history == [] && !mode.RoundRobin?
      modifies this, Parts()
      ensures Synced() && at.pending == [] && plan.EndTime() <= clock.ticks
      ensures old(clock.ticks) <= plan.startTime && first == World(old(Sys()), plan.startTime, [], false, false, 0)
    {
      var end := StartClock();
      SnapshotPassesUntil(end);
    }

    function TaskValues(): seq<TaskState>
      reads set t | t in tasks
    {
      seq(|tasks|, i requires 0 <= i < |tasks| reads set t | t in tasks => tasks[i].State())
    }

    method SortedDueTasks(now: int) returns (turns: seq<nat>)
      requires InStep() && !mode.RoundRobin?
      ensures turns == Turns(mode, states, now) && Indices(states, turns)
      ensures turns != [] ==> states[turns[0]].ShouldRun(now)
    {
      var values := TaskValues();
      assert values == states;
      var due := [];
      for i := 0 to |tasks|
        invariant due == DueTasks(values[..i], now)
      {
        assert values[..i + 1][..i] == values[..i];
        if tasks[i].State().ShouldRun(now) {
          due := due + [i];
        }
      }
      assert values[..|tasks|] == values;
      turns := InOrder(mode, values, due);
      if turns != [] {
        assert turns[0] in multiset(due);
      }
    }

    method InitializeMessageQueues() returns (result: Result<(), BusError>)
      requires Valid() && InStep() && bus.queues == map[] && DistinctNames(states)
      modifies bus
      ensures Valid() && InStep()
      ensures result.Ok? && Registered(bus.queues, states)
    {
      for i := 0 to |tasks|
        invariant Valid() && InStep() && Registered(bus.queues, states[..i])
      {
        assert tasks[i].State() == states[i];
        ghost var queues := bus.queues;
        result := bus.RegisterTaskQueue(tasks[i].config.name, tasks[i].config.queueLimit);
        if result.Err? {
          return;
        }
        RegisterOneMore(queues, states, i);
      }
      assert states[..|tasks|] == states;
      return Ok(());
    }

    method PrintSummary()
      requires Valid() && InStep()
      modifies logger, clock`ticks
      ensures Valid() && InStep() && logger.events == old(logger.events) + Summaries(states)
      ensures old(clock.ticks) <= clock.ticks
    {
      for i := 0 to |tasks|
        invariant Valid() && InStep() && logger.events == old(logger.events) + Summaries(states[..i])
        invariant old(clock.ticks) <= clock.ticks
      {
        assert tasks[i].State() == states[i];
        assert states[..i + 1][..i] == states[..i];
        logger.Log(clock, RuntimeSummary(tasks[i].config.name, tasks[i].runCount, tasks[i].deadlineMissCount));
      }
      assert states[..|tasks|] == states;
    }

    method RunMode()
      requires Valid() && InStep() && history == [] && !mode.UnsupportedMode?
      modifies this, Parts()
      ensures Synced() && at.pending == [] && plan.EndTime() <= clock.ticks
      ensures old(clock.ticks) <= plan.startTime && first == World(old(Sys()), plan.startTime, [], false, false, 0)
    {
      if mode.RoundRobin? {
        RunRoundRobin();
      } else {
        RunSnapshotPasses();
      }
    }

    /** The objects are as construction left them. */
    ghost predicate Unused()
      reads this, Parts()
    {
      && Valid() && InStep() && ValidWatchdog(watchdog.config)
      && Unstarted(states, clock.ticks) && Header(logger.events) && history == []
      && bus.queues == map[] && watchdog.State() == Fresh && failed == {} && nextId == 1
    }

    /** The recorded path is a whole run from a proper start, and the log is what the path wrote, closed
        by the final records. */
    ghost predicate Finished()
      reads this, Parts()
    {
      && Valid() && InStep()
      && Initial(plan, first)
      && Legal(plan, first, run)
      && (var last := Reach(plan, first, run);
          && last.pending == []
          && last.sys.tasks == states
          && plan.EndTime() <= clock.ticks
          && logger.events == last.sys.log + [SchedulerFinished] + Summaries(states))
    }

    /** Register the queues and write the opening record. */
    method Open() returns (ghost start: State)
      requires Unused() && tasks != []
      modifies bus, logger, clock`ticks
      ensures Valid() && InStep() && old(clock.ticks) <= clock.ticks && start == Sys()
      ensures forall p: Plan, t | ValidPlan(p) && p.startTime == t && clock.ticks <= t ::
        Initial(p, World(start, t, [], false, false, 0))
    {
      var _ := InitializeMessageQueues();
      assert Registered(bus.queues, states);
      ghost var header := logger.events;
      logger.Log(clock, SchedulerStarted(ModeName(mode), durationSeconds));
      assert Header(header + [SchedulerStarted(ModeName(mode), durationSeconds)]);
      start := Sys();
    }

    /** Write the closing records. */
    method Close()
      requires Synced() && at.pending == [] && plan.EndTime() <= clock.ticks && Initial(plan, first)
      modifies logger, clock`ticks
      ensures Finished()
    {
      logger.Log(clock, SchedulerFinished);
      PrintSummary();
    }

    method Run() returns (result: Result<(), RunError>)
      requires Unused()
      modifies this, Parts()
      ensures result ==
        if durationSeconds <= 0 then Err(DurationNotPositive)
        else if tasks == [] then Err(NoTasks)
        else if mode.UnsupportedMode? then Err(ModeNotSupported(mode.name))
        else Ok(())
      ensures result.Ok? ==> Finished()
    {
      if durationSeconds <= 0 {
        return Err(DurationNotPositive);
      }
      if tasks == [] {
        return Err(NoTasks);
      }
      ghost var start := Open();
      if mode.UnsupportedMode? {
        return Err(ModeNotSupported(mode.name));
      }
      RunMode();
      Close();
      return Ok(());
    }
  }

  /** A dispatch either waits out an execution time or puts the task's next release later. */
  lemma DispatchMakesProgress(p: Plan, s: State, i: nat, r: Readings)
    requires i < |s.tasks| && ValidTask(s.tasks[i].config) && ValidFaults(p.faults)
    requires Plausible(p, s, i, r)
    ensures r.finish == r.now ==> DueSet(Execute(p, s, i, r).tasks, r.now) == DueSet(s.tasks, r.now) - {i}
  {
    assert !WillRun(p, s, i, r) || r.now < r.finish;
  }

  lemma RegisterOneMore(queues: Queues, tasks: seq<TaskState>, i: nat)
    requires i < |tasks| && DistinctNames(tasks) && Registered(queues, tasks[..i])
    ensures Registered(queues[tasks[i].config.name := Queue(tasks[i].config.queueLimit, [])], tasks[..i + 1])
  {
    var after := queues[tasks[i].config.name := Queue(tasks[i].config.queueLimit, [])];
    forall name <- after ensures Names(tasks[..i + 1], name) {
      if name == tasks[i].config.name {
        assert tasks[..i + 1][i].config.name == name;
      } else {
        var k :| 0 <= k < i && tasks[..i][k].config.name == name;
        assert tasks[..i + 1][k].config.name == name;
      }
    }
  }
}
