/** The scheduler as a state machine on values. */
module Machine {
  import opened Common
  import opened EventLog
  import opened FaultInjector
  import opened MessageBus
  import opened PassOrder
  import opened PeriodicTask
  import opened RuntimeConfig
  import opened SteadyClock
  import opened Watchdog

  /** A clock reading, with the milliseconds since the start that the code derives from it. */
  datatype Reading = Reading(at: int, ms: int)

  /** What stays fixed during a run. */
  datatype Plan = Plan(
    mode: Mode,
    durationMs: int,
    faults: FaultConfig,
    watchdog: WatchdogConfig,
    startTime: int)
  {
    function EndTime(): int {
      startTime + durationMs * TICKS_PER_MS
    }

    /** A reading of the elapsed milliseconds taken at a moment of the run. */
    predicate Elapsed(reading: Reading) {
      ReadsAs(reading.at - startTime, reading.ms)
    }
  }

  /** What became of the message a run of a task sends or collects. */
  datatype Traffic =
    | Quiet
    | Accepted(id: nat)
    | RefusedFull(id: nat)
    | LostToFault(id: nat)
    | Collected(id: nat)

  datatype Outcome =
    | Skipped
    | Failed
    | Ran(slowed: bool, spiked: bool, missed: bool, seen: Inspection, alert: Option<Alert>, traffic: Traffic)

  /** One dispatch: which task, when, and the release it answered. */
  datatype Entry = Entry(task: nat, now: int, release: int, outcome: Outcome)

  datatype State = State(
    tasks: seq<TaskState>,
    queues: Queues,
    watch: WatchState,
    failed: set<string>,
    nextId: nat,
    log: seq<Event>,
    history: seq<Entry>)

  /** The clock readings and the random draw of one dispatch. */
  datatype Readings = Readings(
    now: int,
    crash: Reading,
    fault: Reading,
    observedMs: int,
    done: Reading,
    send: Reading,
    roll: int,
    finish: int)

  // ---------- one dispatch ----------

  function FaultEvents(slowMs: int, spikeMs: int, task: string): seq<Event> {
    (if slowMs > 0 then [FaultInjected(SlowTask, task, ExtraExecution(slowMs))] else []) +
    (if spikeMs > 0 then [FaultInjected(CpuSpike, task, ExtraExecution(spikeMs))] else [])
  }

  function RunEvents(task: TaskState, ran: TaskState, slowMs: int, spikeMs: int, observedMs: int): seq<Event> {
    FaultEvents(slowMs, spikeMs, task.config.name) +
    [TaskStarted(task.config.name, task.config.periodMs, task.config.deadlineMs, task.config.priority),
     Completion(task.config, observedMs, ran.runCount, ran.deadlineMissCount)]
  }

  function AlertEvents(alert: Option<Alert>): seq<Event> {
    match alert
    case None => []
    case Some(a) =>
      [WatchdogTimeout(a.task, a.deadlineMissCount, a.consecutiveMissCount)] +
      (if a.recoveryPerformed then [TaskRecovered(a.task)] else [])
  }

  datatype Exchange = Exchange(queues: Queues, nextId: nat, events: seq<Event>, traffic: Traffic)

  function StatusMessage(task: string, id: nat): Message {
    if task == CONTROL_TASK then
      Message(task, LOGGER_TASK, ControlStatus, id)
    else
      Message(task, LOGGER_TASK, NetworkPacket, id)
  }

  predicate Sends(task: string) {
    task == CONTROL_TASK || task == NETWORK_TASK
  }

  /** The drop test comes before the queue; a dropped or refused message still uses up its id. */
  function SendExchange(faults: FaultConfig, queues: Queues, nextId: nat, m: Message, sendMs: int, roll: int): Exchange {
    var depth, limit := Depth(queues, m.target), Limit(queues, m.target);
    if ShouldDrop(faults, m, sendMs, roll) then
      Exchange(
        queues,
        nextId + 1,
        [FaultInjected(DroppedMessages, m.target, LostMessage(m.source, m.content, m.sequenceId)),
         MessageDropped(m.source, m.target, m.content, m.sequenceId, depth, limit, FaultInjectedDrop)],
        LostToFault(m.sequenceId))
    else if HasRoom(queues, m.target) then
      var after := Sent(queues, m);
      Exchange(
        after,
        nextId + 1,
        [MessageSent(m.source, m.target, m.content, m.sequenceId, Depth(after, m.target), limit)],
        Accepted(m.sequenceId))
    else
      Exchange(
        queues,
        nextId + 1,
        [MessageDropped(m.source, m.target, m.content, m.sequenceId, depth, limit, QueueFull)],
        RefusedFull(m.sequenceId))
  }

  function ReceiveExchange(queues: Queues, nextId: nat, task: string): Exchange {
    match Head(queues, task)
    case None => Exchange(queues, nextId, [], Quiet)
    case Some(m) =>
      var after := Received(queues, task);
      Exchange(
        after,
        nextId,
        [MessageReceived(m.source, m.target, m.content, m.sequenceId, Depth(after, task))],
        Collected(m.sequenceId))
  }

  function Messaging(faults: FaultConfig, queues: Queues, nextId: nat, task: string, sendMs: int, roll: int): Exchange {
    if Sends(task) then
      SendExchange(faults, queues, nextId, StatusMessage(task, nextId), sendMs, roll)
    else if task == LOGGER_TASK then
      ReceiveExchange(queues, nextId, task)
    else
      Exchange(queues, nextId, [], Quiet)
  }

  function SkipFailedTask(s: State, i: nat, now: int): State
    requires i < |s.tasks|
  {
    var task := s.tasks[i];
    State(
      s.tasks[i := task.AfterSkip(now)],
      s.queues,
      s.watch,
      s.failed,
      s.nextId,
      s.log + [TaskSkipped(task.config.name)],
      s.history + [Entry(i, now, task.nextRunTime, Skipped)])
  }

  function CrashTask(s: State, i: nat, now: int): State
    requires i < |s.tasks|
  {
    var task := s.tasks[i];
    State(
      s.tasks[i := task.AfterSkip(now)],
      s.queues,
      s.watch,
      s.failed + {task.config.name},
      s.nextId,
      s.log + [FaultInjected(TaskCrash, task.config.name, SimulatedCrash), TaskFailed(task.config.name)],
      s.history + [Entry(i, now, task.nextRunTime, Failed)])
  }

  function ExtraMs(p: Plan, task: string, faultMs: int): int {
    SlowExtraMs(p.faults, task, faultMs) + CpuSpikeExtraMs(p.faults, task, faultMs)
  }

  function RunTask(p: Plan, s: State, i: nat, r: Readings): State
    requires i < |s.tasks|
  {
    var task := s.tasks[i];
    var name := task.config.name;
    var slowMs, spikeMs := SlowExtraMs(p.faults, name, r.fault.ms), CpuSpikeExtraMs(p.faults, name, r.fault.ms);
    var ran := task.AfterRun(r.now, slowMs + spikeMs);
    var seen := Inspection(name, ran.deadlineMissCount, r.done.ms);
    var (watch, alert) := Inspect(p.watchdog, s.watch, seen);
    var x := Messaging(p.faults, s.queues, s.nextId, name, r.send.ms, r.roll);
    State(
      s.tasks[i := ran],
      x.queues,
      watch,
      s.failed,
      x.nextId,
      s.log + RunEvents(task, ran, slowMs, spikeMs, r.observedMs) + AlertEvents(alert) + x.events,
      s.history + [Entry(i, r.now, task.nextRunTime,
        Ran(slowMs > 0, spikeMs > 0, task.MissesDeadline(r.now, slowMs + spikeMs), seen, alert, x.traffic))])
  }

  predicate WillSkip(s: State, i: nat)
    requires i < |s.tasks|
  {
    s.tasks[i].config.name in s.failed
  }

  predicate WillCrash(p: Plan, s: State, i: nat, r: Readings)
    requires i < |s.tasks|
  {
    !WillSkip(s, i) && ShouldCrashTask(p.faults, s.tasks[i].config.name, r.crash.ms)
  }

  predicate WillRun(p: Plan, s: State, i: nat, r: Readings)
    requires i < |s.tasks|
  {
    !WillSkip(s, i) && !WillCrash(p, s, i, r)
  }

  function Execute(p: Plan, s: State, i: nat, r: Readings): State
    requires i < |s.tasks|
  {
    if WillSkip(s, i) then SkipFailedTask(s, i, r.now)
    else if WillCrash(p, s, i, r) then CrashTask(s, i, r.now)
    else RunTask(p, s, i, r)
  }

  /** Readings a monotonic clock can give: they do not go back, and a run sleeps through its execution time. */
  predicate Plausible(p: Plan, s: State, i: nat, r: Readings)
    requires i < |s.tasks|
  {
    && r.now <= r.crash.at <= r.fault.at <= r.done.at <= r.send.at <= r.finish
    && p.Elapsed(r.crash) && p.Elapsed(r.fault) && p.Elapsed(r.done) && p.Elapsed(r.send)
    && 1 <= r.roll <= 100
    && (WillRun(p, s, i, r) ==>
      var totalMs := s.tasks[i].TotalExecutionMs(ExtraMs(p, s.tasks[i].config.name, r.fault.ms));
      totalMs <= r.observedMs && r.now + totalMs * TICKS_PER_MS <= r.finish)
  }

  /** How long a dispatch sleeps. */
  function DispatchMs(p: Plan, s: State, i: nat, r: Readings): int
    requires i < |s.tasks|
  {
    if WillRun(p, s, i, r)
    then s.tasks[i].TotalExecutionMs(ExtraMs(p, s.tasks[i].config.name, r.fault.ms))
    else 0
  }

  // ---------- passes ----------

  /** `time` is the latest clock reading, or the least the clock can show after a rest, `pending` the turns the current pass still has to give,
      `idle` whether the current pass has neither dispatched a task nor rested yet, and `sleptMs` the
      sleep asked for since the start. */
  datatype World = World(sys: State, time: int, pending: seq<nat>, over: bool, idle: bool, sleptMs: int)

  datatype Label =
    | BeginPass(guard: int, now: int)
    | Rest
    | EndOfTime(reading: int)
    | NotDue(reading: int)
    | Dispatch(readings: Readings)

  /** The turns of a pass that starts at `now`: all tasks in round robin, otherwise the due ones in order. */
  function Turns(mode: Mode, tasks: seq<TaskState>, now: int): (turns: seq<nat>)
    ensures forall k | 0 <= k < |turns| :: turns[k] < |tasks|
  {
    if mode.RoundRobin? then seq(|tasks|, i requires 0 <= i < |tasks| => i)
    else InOrder(mode, tasks, DueTasks(tasks, now))
  }

  predicate Enabled(p: Plan, w: World, l: Label) {
    && (w.over ==> l.Rest?)
    && (match l
        case Rest => w.pending == [] && w.idle
        case BeginPass(guard, now) => w.pending == [] && !w.idle && w.time <= guard < p.EndTime() && guard <= now
        case EndOfTime(t) => w.pending != [] && w.time <= t && p.EndTime() <= t
        case NotDue(t) =>
          && w.pending != [] && w.pending[0] < |w.sys.tasks|
          && w.time <= t < p.EndTime()
          && !w.sys.tasks[w.pending[0]].ShouldRun(t)
        case Dispatch(r) =>
          && w.pending != [] && w.pending[0] < |w.sys.tasks|
          && w.time <= r.now < p.EndTime()
          && w.sys.tasks[w.pending[0]].ShouldRun(r.now)
          && Plausible(p, w.sys, w.pending[0], r))
  }

  function Step(p: Plan, w: World, l: Label): World
    requires Enabled(p, w, l)
  {
    match l
    case BeginPass(guard, now) => w.(time := now, pending := Turns(p.mode, w.sys.tasks, now), idle := true)
    case Rest => w.(time := w.time + TICKS_PER_MS, idle := false, sleptMs := w.sleptMs + 1)
    case EndOfTime(t) => w.(time := t, pending := [], over := true)
    case NotDue(t) => w.(time := t, pending := w.pending[1..])
    case Dispatch(r) =>
      World(Execute(p, w.sys, w.pending[0], r), r.finish, w.pending[1..], false, false,
        w.sleptMs + DispatchMs(p, w.sys, w.pending[0], r))
  }

  // ---------- runs ----------

  ghost predicate Legal(p: Plan, first: World, run: seq<Label>)
    decreases |run|, 0
  {
    run == [] ||
    var init := run[..|run| - 1];
    Legal(p, first, init) && Enabled(p, Reach(p, first, init), run[|run| - 1])
  }

  ghost function Reach(p: Plan, first: World, run: seq<Label>): World
    requires Legal(p, first, run)
    decreases |run|, 1
  {
    if run == [] then first
    else Step(p, Reach(p, first, run[..|run| - 1]), run[|run| - 1])
  }

  lemma Extend(p: Plan, first: World, run: seq<Label>, l: Label)
    requires Legal(p, first, run) && Enabled(p, Reach(p, first, run), l)
    ensures Legal(p, first, run + [l])
    ensures Reach(p, first, run + [l]) == Step(p, Reach(p, first, run), l)
  {
    assert (run + [l])[..|run|] == run;
  }

  predicate DistinctNames(tasks: seq<TaskState>) {
    forall i, j | 0 <= i < j < |tasks| :: tasks[i].config.name != tasks[j].config.name
  }

  predicate ValidPlan(p: Plan) {
    ValidFaults(p.faults) && ValidWatchdog(p.watchdog) && p.durationMs > 0
  }

  predicate Unstarted(tasks: seq<TaskState>, startTime: int) {
    && DistinctNames(tasks)
    && forall i | 0 <= i < |tasks| ::
      && ValidTask(tasks[i].config)
      && tasks[i].runCount == 0
      && tasks[i].deadlineMissCount == 0
      && tasks[i].nextRunTime <= startTime
  }

  ghost predicate Names(tasks: seq<TaskState>, name: string) {
    exists i :: 0 <= i < |tasks| && tasks[i].config.name == name
  }

  ghost predicate Registered(queues: Queues, tasks: seq<TaskState>) {
    && (forall i | 0 <= i < |tasks| ::
      tasks[i].config.name in queues && queues[tasks[i].config.name] == Queue(tasks[i].config.queueLimit, []))
    && (forall name <- queues :: Names(tasks, name))
  }

  predicate Header(log: seq<Event>) {
    forall e <- log :: e.RuntimeStarted? || e.SchedulerStarted?
  }

  /** The world in which a scheduler loop starts. */
  ghost predicate Initial(p: Plan, w: World) {
    && ValidPlan(p)
    && w.sys.tasks != []
    && Unstarted(w.sys.tasks, p.startTime)
    && Registered(w.sys.queues, w.sys.tasks)
    && w.sys.watch == Fresh
    && w.sys.failed == {}
    && w.sys.nextId == 1
    && Header(w.sys.log)
    && w.sys.history == []
    && w.time == p.startTime
    && w.pending == []
    && !w.over
    && !w.idle
    && w.sleptMs == 0
  }

  function Summaries(tasks: seq<TaskState>): seq<Event> {
    if tasks == [] then []
    else
      var last := tasks[|tasks| - 1];
      Summaries(tasks[..|tasks| - 1]) + [RuntimeSummary(last.config.name, last.runCount, last.deadlineMissCount)]
  }
}
