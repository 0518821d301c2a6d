/** The log of a run tells what was dispatched. */
module RunTrace {
  import opened Common
  import opened EventLog
  import opened FaultInjector
  import opened Machine
  import opened MessageBus
  import opened PeriodicTask
  import opened RunFacts
  import opened RuntimeConfig
  import opened Watchdog

  /** What a record tells, with the details left out. */
  datatype Deed =
    | DeedRun(task: string)
    | DeedFault(kind: FaultKind)
    | DeedFailure(task: string)
    | DeedSkip(task: string)
    | DeedTimeout(task: string)
    | DeedRecovery(task: string)
    | DeedSent
    | DeedReceived
    | DeedDrop(reason: DropReason)

  function DeedOf(e: Event): Option<Deed> {
    match e
    case TaskCompleted(task, _, _, _, _, _, _) => Some(DeedRun(task))
    case FaultInjected(kind, _, _) => Some(DeedFault(kind))
    case TaskFailed(task) => Some(DeedFailure(task))
    case TaskSkipped(task) => Some(DeedSkip(task))
    case WatchdogTimeout(task, _, _) => Some(DeedTimeout(task))
    case TaskRecovered(task) => Some(DeedRecovery(task))
    case MessageSent(_, _, _, _, _, _) => Some(DeedSent)
    case MessageReceived(_, _, _, _, _) => Some(DeedReceived)
    case MessageDropped(_, _, _, _, _, _, reason) => Some(DeedDrop(reason))
    case _ => None
  }

  /** The deeds a log tells of. */
  function Trace(log: seq<Event>): seq<Deed> {
    if log == [] then []
    else
      var earlier, deed := Trace(log[..|log| - 1]), DeedOf(log[|log| - 1]);
      if deed.Some? then earlier + [deed.value] else earlier
  }

  lemma {:induction false} TraceConcat(a: seq<Event>, b: seq<Event>)
    ensures Trace(a + b) == Trace(a) + Trace(b)
  {
    if b == [] {
      assert a + b == a;
    } else {
      assert (a + b)[..|a + b| - 1] == a + b[..|b| - 1];
      TraceConcat(a, b[..|b| - 1]);
    }
  }

  lemma TraceOfOne(e: Event)
    ensures Trace([e]) == if DeedOf(e).Some? then [DeedOf(e).value] else []
  {
    assert [e][..0] == [];
  }

  lemma TraceOfTwo(e: Event, f: Event)
    ensures Trace([e, f]) == Trace([e]) + Trace([f])
  {
    TraceConcat([e], [f]);
    assert [e] + [f] == [e, f];
  }

  // ---------- the deeds of a dispatch ----------

  function FaultDeeds(slowed: bool, spiked: bool): seq<Deed> {
    (if slowed then [DeedFault(SlowTask)] else []) + (if spiked then [DeedFault(CpuSpike)] else [])
  }

  function AlertDeeds(alert: Option<Alert>): seq<Deed> {
    match alert
    case None => []
    case Some(a) =>
      if a.recoveryPerformed then [DeedTimeout(a.task), DeedRecovery(a.task)] else [DeedTimeout(a.task)]
  }

  function TrafficDeeds(traffic: Traffic): seq<Deed> {
    match traffic
    case Quiet => []
    case Accepted(_) => [DeedSent]
    case RefusedFull(_) => [DeedDrop(QueueFull)]
    case LostToFault(_) => [DeedFault(DroppedMessages), DeedDrop(FaultInjectedDrop)]
    case Collected(_) => [DeedReceived]
  }

  function EntryDeeds(name: string, outcome: Outcome): seq<Deed> {
    match outcome
    case Skipped => [DeedSkip(name)]
    case Failed => [DeedFault(TaskCrash), DeedFailure(name)]
    case Ran(slowed, spiked, _, _, alert, traffic) =>
      FaultDeeds(slowed, spiked) + [DeedRun(name)] + AlertDeeds(alert) + TrafficDeeds(traffic)
  }

  function NameAt(tasks: seq<TaskState>, i: nat): string {
    if i < |tasks| then tasks[i].config.name else ""
  }

  /** The deeds of a history of dispatches, where `tasks` gives the names. */
  function Told(tasks: seq<TaskState>, history: seq<Entry>): seq<Deed> {
    if history == [] then []
    else
      var last := history[|history| - 1];
      Told(tasks, history[..|history| - 1]) + EntryDeeds(NameAt(tasks, last.task), last.outcome)
  }

  lemma FaultPart(slowMs: int, spikeMs: int, name: string)
    ensures Trace(FaultEvents(slowMs, spikeMs, name)) == FaultDeeds(slowMs > 0, spikeMs > 0)
  {
    var slow := if slowMs > 0 then [FaultInjected(SlowTask, name, ExtraExecution(slowMs))] else [];
    var spike := if spikeMs > 0 then [FaultInjected(CpuSpike, name, ExtraExecution(spikeMs))] else [];
    TraceConcat(slow, spike);
    TraceOfOne(FaultInjected(SlowTask, name, ExtraExecution(slowMs)));
    TraceOfOne(FaultInjected(CpuSpike, name, ExtraExecution(spikeMs)));
  }

  lemma RunPartTrace(task: TaskState, ran: TaskState, slowMs: int, spikeMs: int, observedMs: int)
    ensures Trace(RunEvents(task, ran, slowMs, spikeMs, observedMs)) ==
      FaultDeeds(slowMs > 0, spikeMs > 0) + [DeedRun(task.config.name)]
  {
    var name := task.config.name;
    var started := TaskStarted(name, task.config.periodMs, task.config.deadlineMs, task.config.priority);
    var completed := Completion(task.config, observedMs, ran.runCount, ran.deadlineMissCount);
    FaultPart(slowMs, spikeMs, name);
    TraceConcat(FaultEvents(slowMs, spikeMs, name), [started, completed]);
    TraceOfTwo(started, completed);
    TraceOfOne(started);
    TraceOfOne(completed);
  }

  lemma AlertPart(alert: Option<Alert>)
    ensures Trace(AlertEvents(alert)) == AlertDeeds(alert)
  {
    if alert.Some? {
      var a := alert.value;
      var timeout := WatchdogTimeout(a.task, a.deadlineMissCount, a.consecutiveMissCount);
      TraceOfOne(timeout);
      TraceOfOne(TaskRecovered(a.task));
      TraceConcat([timeout], if a.recoveryPerformed then [TaskRecovered(a.task)] else []);
    }
  }

  lemma ExchangePart(faults: FaultConfig, queues: Queues, nextId: nat, task: string, ms: int, roll: int)
    ensures
      var x := Messaging(faults, queues, nextId, task, ms, roll);
      Trace(x.events) == TrafficDeeds(x.traffic)
  {
    var x := Messaging(faults, queues, nextId, task, ms, roll);
    if x.traffic.LostToFault? {
      TraceOfTwo(x.events[0], x.events[1]);
      TraceOfOne(x.events[0]);
      TraceOfOne(x.events[1]);
      assert x.events == [x.events[0], x.events[1]];
    } else if x.events != [] {
      TraceOfOne(x.events[0]);
      assert x.events == [x.events[0]];
    }
  }

  ghost predicate Faithful(tasks: seq<TaskState>, s: State) {
    Trace(s.log) == Told(tasks, s.history)
  }

  lemma RunTraceStep(p: Plan, s: State, i: nat, r: Readings)
    requires i < |s.tasks| && WillRun(p, s, i, r)
    ensures Trace(Execute(p, s, i, r).log) ==
      Trace(s.log) + EntryDeeds(s.tasks[i].config.name, EntryOf(p, s, i, r).outcome)
  {
    var name := s.tasks[i].config.name;
    var slowMs, spikeMs := SlowExtraMs(p.faults, name, r.fault.ms), CpuSpikeExtraMs(p.faults, name, r.fault.ms);
    var run, alert, x := RunPart(p, s, i, r), AlertEvents(AlertIn(p, s, i, r)), ExchangeIn(p, s, i, r);
    RunWrites(p, s, i, r);
    RunPartTrace(s.tasks[i], s.tasks[i].AfterRun(r.now, slowMs + spikeMs), slowMs, spikeMs, r.observedMs);
    AlertPart(AlertIn(p, s, i, r));
    ExchangePart(p.faults, s.queues, s.nextId, name, r.send.ms, r.roll);
    FourTraces(s.log, run, alert, x.events);
    var outcome := EntryOf(p, s, i, r).outcome;
    assert outcome.slowed == (slowMs > 0) && outcome.spiked == (spikeMs > 0);
    ConcatRegroup(Trace(s.log), FaultDeeds(slowMs > 0, spikeMs > 0) + [DeedRun(name)],
      AlertDeeds(outcome.alert), TrafficDeeds(outcome.traffic));
  }

  lemma FourTraces(a: seq<Event>, b: seq<Event>, c: seq<Event>, d: seq<Event>)
    ensures Trace(a + b + c + d) == Trace(a) + Trace(b) + Trace(c) + Trace(d)
  {
    TraceConcat(a + b + c, d);
    TraceConcat(a + b, c);
    TraceConcat(a, b);
  }

  lemma SkipTrace(log: seq<Event>, name: string)
    ensures Trace(log + [TaskSkipped(name)]) == Trace(log) + EntryDeeds(name, Skipped)
  {
    TraceConcat(log, [TaskSkipped(name)]);
    TraceOfOne(TaskSkipped(name));
  }

  lemma CrashTrace(log: seq<Event>, name: string)
    ensures Trace(log + [FaultInjected(TaskCrash, name, SimulatedCrash), TaskFailed(name)]) ==
      Trace(log) + EntryDeeds(name, Failed)
  {
    var fault, failure := FaultInjected(TaskCrash, name, SimulatedCrash), TaskFailed(name);
    TraceConcat(log, [fault, failure]);
    TraceOfTwo(fault, failure);
    TraceOfOne(fault);
    TraceOfOne(failure);
  }

  lemma OtherTraceStep(p: Plan, s: State, i: nat, r: Readings)
    requires i < |s.tasks| && !WillRun(p, s, i, r)
    ensures Trace(Execute(p, s, i, r).log) ==
      Trace(s.log) + EntryDeeds(s.tasks[i].config.name, EntryOf(p, s, i, r).outcome)
  {
    if WillSkip(s, i) {
      SkipTrace(s.log, s.tasks[i].config.name);
    } else {
      CrashTrace(s.log, s.tasks[i].config.name);
    }
  }

  lemma ToldOneMore(tasks: seq<TaskState>, history: seq<Entry>, e: Entry)
    ensures Told(tasks, history + [e]) == Told(tasks, history) + EntryDeeds(NameAt(tasks, e.task), e.outcome)
  {
    assert (history + [e])[..|history|] == history;
  }

  lemma FaithfulStep(p: Plan, tasks: seq<TaskState>, s: State, i: nat, r: Readings)
    requires i < |s.tasks| && Faithful(tasks, s) && NameAt(tasks, i) == s.tasks[i].config.name
    ensures Faithful(tasks, Execute(p, s, i, r))
  {
    ExecuteFrame(p, s, i, r);
    ToldOneMore(tasks, s.history, EntryOf(p, s, i, r));
    if WillRun(p, s, i, r) {
      RunTraceStep(p, s, i, r);
    } else {
      OtherTraceStep(p, s, i, r);
    }
  }

  lemma {:induction false} HeaderHasNoTrace(log: seq<Event>)
    requires Header(log)
    ensures Trace(log) == []
  {
    if log != [] {
      HeaderHasNoTrace(log[..|log| - 1]);
      assert log[|log| - 1] in log;
    }
  }

  /** At every moment of a run, the log tells of exactly the deeds of the dispatches so far, in order. */
  lemma {:induction false} LogTellsTheRun(p: Plan, first: World, run: seq<Label>)
    requires Initial(p, first) && Legal(p, first, run)
    ensures
      var s := Reach(p, first, run).sys;
      Trace(s.log) == Told(first.sys.tasks, s.history)
  {
    if run == [] {
      HeaderHasNoTrace(first.sys.log);
    } else {
      LogTellsTheRun(p, first, run[..|run| - 1]);
      ShapeHolds(p, first, run[..|run| - 1]);
      LastStep(p, first, run);
      var w, l := Reach(p, first, run[..|run| - 1]), run[|run| - 1];
      if l.Dispatch? {
        FaithfulStep(p, first.sys.tasks, w.sys, w.pending[0], l.readings);
      }
    }
  }

  /** A dispatch in which this was done. */
  predicate DidIn(tasks: seq<TaskState>, e: Entry, d: Deed) {
    d in EntryDeeds(NameAt(tasks, e.task), e.outcome)
  }

  ghost predicate DidEver(tasks: seq<TaskState>, history: seq<Entry>, d: Deed) {
    exists e <- history :: DidIn(tasks, e, d)
  }

  lemma DidOneMore(tasks: seq<TaskState>, init: seq<Entry>, last: Entry, d: Deed)
    ensures DidEver(tasks, init + [last], d) <==> DidEver(tasks, init, d) || DidIn(tasks, last, d)
  {
    assert forall e <- init :: e in init + [last];
    assert last in init + [last];
  }

  lemma ToldHasOneMore(tasks: seq<TaskState>, init: seq<Entry>, last: Entry, d: Deed)
    ensures d in Told(tasks, init + [last]) <==> d in Told(tasks, init) || DidIn(tasks, last, d)
  {
    ToldOneMore(tasks, init, last);
    InConcat(Told(tasks, init), EntryDeeds(NameAt(tasks, last.task), last.outcome), d);
  }

  lemma {:induction false} ToldHas(tasks: seq<TaskState>, history: seq<Entry>, d: Deed)
    ensures d in Told(tasks, history) <==> DidEver(tasks, history, d)
  {
    if history != [] {
      var init, last := history[..|history| - 1], history[|history| - 1];
      assert history == init + [last];
      ToldHas(tasks, init, d);
      DidOneMore(tasks, init, last, d);
      ToldHasOneMore(tasks, init, last, d);
    }
  }

  lemma InConcat<T>(a: seq<T>, b: seq<T>, x: T)
    ensures x in a + b <==> x in a || x in b
  {
  }
}
