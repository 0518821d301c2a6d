/** Dispatches, what becomes of them, and crashes. */
module Accounting {
  import opened Conservation
  import opened EventLog
  import opened Machine
  import opened MessageBus
  import opened PeriodicTask
  import opened RunFacts
  import opened RuntimeConfig
  import opened SteadyClock

  datatype Tally = Tally(runs: nat, failures: nat, skips: nat) {
    function Dispatches(): nat {
      runs + failures + skips
    }
  }

  /** What became of the dispatches of task `x`. */
  function TallyOf(history: seq<Entry>, x: nat): Tally {
    if history == [] then Tally(0, 0, 0)
    else
      var t, last := TallyOf(history[..|history| - 1], x), history[|history| - 1];
      if last.task != x then t
      else match last.outcome
        case Skipped => t.(skips := t.skips + 1)
        case Failed => t.(failures := t.failures + 1)
        case Ran(_, _, _, _, _, _) => t.(runs := t.runs + 1)
  }

  /** The length of `d` periods. */
  function Span(d: nat, period: int): int {
    if d == 0 then 0 else Span(d - 1, period) + period
  }

  lemma {:induction false} SpanInTicks(d: nat, periodMs: int)
    ensures Span(d, periodMs * TICKS_PER_MS) == Span(d, periodMs) * TICKS_PER_MS
  {
    if d > 0 {
      SpanInTicks(d - 1, periodMs);
    }
  }

  /** How many periods it takes to cover a duration, the last one perhaps cut short. */
  function PeriodsIn(durationMs: int, periodMs: int): nat
    requires periodMs > 0
    decreases if durationMs > 0 then durationMs else 0
  {
    if durationMs <= 0 then 0 else PeriodsIn(durationMs - periodMs, periodMs) + 1
  }

  /** That is the quotient rounded up: the least count whose span covers the duration. */
  lemma {:induction false} PeriodsInCovers(durationMs: int, periodMs: int)
    requires periodMs > 0
    ensures durationMs <= Span(PeriodsIn(durationMs, periodMs), periodMs)
    ensures durationMs > 0 ==> Span(PeriodsIn(durationMs, periodMs) - 1, periodMs) < durationMs
    decreases if durationMs > 0 then durationMs else 0
  {
    if durationMs > 0 {
      PeriodsInCovers(durationMs - periodMs, periodMs);
    }
  }

  lemma {:induction false} StartsFit(d: nat, durationMs: int, periodMs: int)
    requires periodMs > 0 && (d > 0 ==> Span(d - 1, periodMs) < durationMs)
    ensures d <= PeriodsIn(durationMs, periodMs)
  {
    if d > 0 {
      SpanIsMonotone(d - 1, periodMs);
      if d > 1 {
        StartsFit(d - 1, durationMs - periodMs, periodMs);
      }
    }
  }

  lemma {:induction false} SpanIsMonotone(d: nat, period: int)
    requires period > 0
    ensures Span(d, period) >= 0
  {
    if d > 0 {
      SpanIsMonotone(d - 1, period);
    }
  }

  /** The tally of one task, against its run counter and the failed set. */
  ghost predicate Accounted(p: Plan, s: State, x: nat) {
    && x < |s.tasks|
    && var task, t := s.tasks[x], TallyOf(s.history, x);
    && task.runCount == t.runs
    && t.failures == (if task.config.name in s.failed then 1 else 0)
    && (task.config.name in s.failed ==>
          p.faults.enabled && p.faults.kind.TaskCrash? && p.faults.targetTask == task.config.name)
    && (t.skips > 0 ==> task.config.name in s.failed)
  }

  /** Dispatches of one task start at least a period apart, and before the end of the run. */
  ghost predicate OnSchedule(p: Plan, s: State, x: nat) {
    && x < |s.tasks|
    && var task, d := s.tasks[x], TallyOf(s.history, x).Dispatches();
    d > 0 ==>
      && p.startTime + Span(d, task.config.periodMs * TICKS_PER_MS) <= task.nextRunTime
      && task.nextRunTime - task.config.periodMs * TICKS_PER_MS < p.EndTime()
  }

  ghost predicate AllAccounted(p: Plan, s: State) {
    && DistinctNames(s.tasks)
    && forall x | 0 <= x < |s.tasks| :: Accounted(p, s, x) && OnSchedule(p, s, x)
  }

  lemma TallyStep(p: Plan, s: State, i: nat, r: Readings, x: nat)
    requires i < |s.tasks|
    ensures
      var t, t' := TallyOf(s.history, x), TallyOf(Execute(p, s, i, r).history, x);
      t' ==
        if x != i then t
        else if WillSkip(s, i) then t.(skips := t.skips + 1)
        else if WillCrash(p, s, i, r) then t.(failures := t.failures + 1)
        else t.(runs := t.runs + 1)
  {
    ExecuteFrame(p, s, i, r);
    var after := Execute(p, s, i, r);
    assert after.history[..|after.history| - 1] == s.history;
  }

  lemma AccountedAfter(p: Plan, s: State, i: nat, r: Readings, x: nat)
    requires i < |s.tasks| && Accounted(p, s, x)
    requires x != i ==> s.tasks[x].config.name != s.tasks[i].config.name
    ensures Accounted(p, Execute(p, s, i, r), x)
  {
    ExecuteFrame(p, s, i, r);
    TallyStep(p, s, i, r, x);
  }

  lemma OnScheduleAfter(p: Plan, s: State, i: nat, r: Readings, x: nat)
    requires i < |s.tasks| && OnSchedule(p, s, x)
    requires p.startTime <= r.now < p.EndTime() && s.tasks[i].ShouldRun(r.now)
    ensures OnSchedule(p, Execute(p, s, i, r), x)
  {
    ExecuteFrame(p, s, i, r);
    TallyStep(p, s, i, r, x);
  }

  lemma AccountedStep(p: Plan, s: State, i: nat, r: Readings)
    requires i < |s.tasks| && AllAccounted(p, s)
    requires p.startTime <= r.now < p.EndTime() && s.tasks[i].ShouldRun(r.now)
    ensures AllAccounted(p, Execute(p, s, i, r))
  {
    ExecuteFrame(p, s, i, r);
    forall x: nat | x < |s.tasks|
      ensures Accounted(p, Execute(p, s, i, r), x) && OnSchedule(p, Execute(p, s, i, r), x)
    {
      AccountedAfter(p, s, i, r, x);
      OnScheduleAfter(p, s, i, r, x);
    }
  }

  lemma {:induction false} AccountedHolds(p: Plan, first: World, run: seq<Label>)
    requires Initial(p, first) && Legal(p, first, run)
    ensures AllAccounted(p, Reach(p, first, run).sys)
  {
    if run != [] {
      AccountedHolds(p, first, run[..|run| - 1]);
      ShapeHolds(p, first, run[..|run| - 1]);
      LastStep(p, first, run);
      var w, l := Reach(p, first, run[..|run| - 1]), run[|run| - 1];
      if l.Dispatch? {
        AccountedStep(p, w.sys, w.pending[0], l.readings);
      }
    }
  }

  lemma {:induction false} DispatchesFit(p: Plan, s: State, x: nat)
    requires x < |s.tasks| && OnSchedule(p, s, x) && s.tasks[x].config.periodMs > 0
    ensures TallyOf(s.history, x).Dispatches() <= PeriodsIn(p.durationMs, s.tasks[x].config.periodMs)
  {
    var d, periodMs := TallyOf(s.history, x).Dispatches(), s.tasks[x].config.periodMs;
    if d > 0 {
      SpanInTicks(d - 1, periodMs);
    }
    StartsFit(d, p.durationMs, periodMs);
  }

  /** Every dispatch of a task is a run, its one failure, or a later skip; there are at most as many as
      whole periods fit, rounded up, into the run; and only the target of an enabled crash fault fails. */
  lemma DispatchesAreAccounted(p: Plan, first: World, run: seq<Label>, x: nat)
    requires Initial(p, first) && Legal(p, first, run) && x < |first.sys.tasks|
    ensures x < |Reach(p, first, run).sys.tasks|
    ensures DispatchLimits(p, Reach(p, first, run).sys, x, first.sys.tasks[x].config)
  {
    AccountedHolds(p, first, run);
    ShapeHolds(p, first, run);
    LimitsFromAccounts(p, Reach(p, first, run).sys, x);
  }

  ghost predicate DispatchLimits(p: Plan, s: State, x: nat, config: TaskConfig)
    requires x < |s.tasks| && config.periodMs > 0
  {
    var t := TallyOf(s.history, x);
    && s.tasks[x].runCount == t.runs
    && t.runs + t.failures + t.skips <= PeriodsIn(p.durationMs, config.periodMs)
    && t.failures <= 1
    && (t.failures == 1 <==> config.name in s.failed)
    && (t.failures == 0 ==> t.skips == 0)
    && (t.failures == 1 ==>
          p.faults.enabled && p.faults.kind.TaskCrash? && p.faults.targetTask == config.name)
  }

  lemma LimitsFromAccounts(p: Plan, s: State, x: nat)
    requires x < |s.tasks| && s.tasks[x].config.periodMs > 0 && AllAccounted(p, s)
    ensures DispatchLimits(p, s, x, s.tasks[x].config)
  {
    assert Accounted(p, s, x) && OnSchedule(p, s, x);
    DispatchesFit(p, s, x);
  }

  // ---------- after a crash ----------

  /** A record of a message that `name` sent, tried to send, or collected. */
  predicate TalkOf(e: Event, name: string) {
    match e
    case MessageSent(source, _, _, _, _, _) => source == name
    case MessageDropped(source, _, _, _, _, _, _) => source == name
    case MessageReceived(_, target, _, _, _) => target == name
    case _ => false
  }

  predicate Silent(log: seq<Event>, name: string) {
    forall e <- log :: !TalkOf(e, name)
  }

  /** After its failure a task no longer runs, and no message of its own is written. */
  ghost predicate Frozen(before: State, after: State, x: nat)
    requires x < |before.tasks|
  {
    && |after.tasks| == |before.tasks|
    && before.log <= after.log
    && before.failed <= after.failed
    && after.tasks[x].config == before.tasks[x].config
    && after.tasks[x].runCount == before.tasks[x].runCount
    && after.tasks[x].deadlineMissCount == before.tasks[x].deadlineMissCount
    && Silent(after.log[|before.log|..], before.tasks[x].config.name)
  }

  lemma MailIsForTheLogger(faults: FaultConfig, queues: Queues, nextId: nat, task: string, ms: int, roll: int, name: string)
    requires name != task && OrderlyQueues(queues)
    requires HasMail(queues, LOGGER_TASK) ==> queues[LOGGER_TASK].messages[0].target == LOGGER_TASK
    ensures Silent(Messaging(faults, queues, nextId, task, ms, roll).events, name)
  {
  }

  /** Queued mail is addressed to the task it waits for. */
  ghost predicate Addressed(queues: Queues) {
    forall name <- queues :: forall m <- queues[name].messages :: m.target == name
  }

  lemma AddressedStep(p: Plan, s: State, i: nat, r: Readings)
    requires i < |s.tasks| && Addressed(s.queues)
    ensures Addressed(Execute(p, s, i, r).queues)
  {
  }

  lemma {:induction false} AddressedHolds(p: Plan, first: World, run: seq<Label>)
    requires Initial(p, first) && Legal(p, first, run)
    ensures Addressed(Reach(p, first, run).sys.queues)
  {
    if run == [] {
      forall name <- first.sys.queues ensures first.sys.queues[name].messages == [] {
        var i :| 0 <= i < |first.sys.tasks| && first.sys.tasks[i].config.name == name;
      }
    } else {
      AddressedHolds(p, first, run[..|run| - 1]);
      ShapeHolds(p, first, run[..|run| - 1]);
      LastStep(p, first, run);
      var w, l := Reach(p, first, run[..|run| - 1]), run[|run| - 1];
      if l.Dispatch? {
        AddressedStep(p, w.sys, w.pending[0], l.readings);
      }
    }
  }

  lemma DispatchIsSilentForFailed(p: Plan, s: State, i: nat, r: Readings, x: nat)
    requires i < |s.tasks| && x < |s.tasks| && DistinctNames(s.tasks) && s.tasks[x].config.name in s.failed
    requires Addressed(s.queues) && OrderlyQueues(s.queues)
    ensures Frozen(s, Execute(p, s, i, r), x)
  {
    ExecuteFrame(p, s, i, r);
    if WillRun(p, s, i, r) {
      assert s.tasks[i].config.name != s.tasks[x].config.name;
      RunIsSilentForOthers(p, s, i, r, s.tasks[x].config.name);
    }
  }

  lemma RunIsSilentForOthers(p: Plan, s: State, i: nat, r: Readings, name: string)
    requires i < |s.tasks| && WillRun(p, s, i, r) && s.tasks[i].config.name != name
    requires Addressed(s.queues) && OrderlyQueues(s.queues)
    ensures s.log <= Execute(p, s, i, r).log && Silent(Execute(p, s, i, r).log[|s.log|..], name)
  {
    var after := Execute(p, s, i, r);
    MailIsForTheLogger(p.faults, s.queues, s.nextId, s.tasks[i].config.name, r.send.ms, r.roll, name);
    RunLogSplits(p, s, i, r);
    assert after.log[|s.log|..] == EarlyPart(p, s, i, r) + ExchangeIn(p, s, i, r).events;
  }

  /** Once a task has failed it stays failed: its counters do not move and it sends and collects nothing. */
  lemma {:induction false} FailedTasksStayFrozen(p: Plan, first: World, early: seq<Label>, more: seq<Label>, x: nat)
    requires Initial(p, first) && Legal(p, first, early) && Legal(p, first, early + more)
    requires x < |Reach(p, first, early).sys.tasks|
    requires Reach(p, first, early).sys.tasks[x].config.name in Reach(p, first, early).sys.failed
    ensures Frozen(Reach(p, first, early).sys, Reach(p, first, early + more).sys, x)
  {
    var before := Reach(p, first, early).sys;
    if more == [] {
      assert early + more == early;
    } else {
      var run := early + more;
      var init := early + more[..|more| - 1];
      assert run[..|run| - 1] == init;
      FailedTasksStayFrozen(p, first, early, more[..|more| - 1], x);
      var w, l := Reach(p, first, init), run[|run| - 1];
      if l.Dispatch? {
        AddressedHolds(p, first, init);
        ConservedHolds(p, first, init);
        AccountedHolds(p, first, init);
        ShapeHolds(p, first, init);
        DispatchIsSilentForFailed(p, w.sys, w.pending[0], l.readings, x);
        var after := Reach(p, first, run).sys;
        SilenceExtends(before.log, w.sys.log, after.log, before.tasks[x].config.name);
      }
    }
  }

  lemma SilenceExtends(a: seq<Event>, b: seq<Event>, c: seq<Event>, name: string)
    requires a <= b <= c && Silent(b[|a|..], name) && Silent(c[|b|..], name)
    ensures a <= c && Silent(c[|a|..], name)
  {
    assert c[|a|..] == b[|a|..] + c[|b|..];
  }

  // ---------- capacity ----------

  ghost predicate SameLimits(first: Queues, queues: Queues) {
    queues.Keys == first.Keys && forall name <- queues :: queues[name].limit == first[name].limit
  }

  ghost predicate Capped(first: State, s: State) {
    SameLimits(first.queues, s.queues) && |LedgerOf(s.log).received| <= RunsOf(s.tasks, LOGGER_TASK)
  }

  lemma LimitsStay(p: Plan, first: Queues, s: State, i: nat, r: Readings)
    requires i < |s.tasks| && SameLimits(first, s.queues)
    ensures SameLimits(first, Execute(p, s, i, r).queues)
  {
  }

  lemma ReceivedStep(p: Plan, s: State, i: nat, r: Readings)
    requires i < |s.tasks| && |LedgerOf(s.log).received| <= RunsOf(s.tasks, LOGGER_TASK)
    ensures |LedgerOf(Execute(p, s, i, r).log).received| <= RunsOf(Execute(p, s, i, r).tasks, LOGGER_TASK)
  {
    SenderNamesDiffer();
    var after := Execute(p, s, i, r);
    var name := s.tasks[i].config.name;
    RunsOfUpdate(s.tasks, i, after.tasks[i], LOGGER_TASK);
    assert after.tasks == s.tasks[i := after.tasks[i]];
    if WillRun(p, s, i, r) {
      RunLogSplits(p, s, i, r);
      LedgerIgnores(s.log, EarlyPart(p, s, i, r));
      var early := s.log + EarlyPart(p, s, i, r);
      if Sends(name) {
        SendBooks(p.faults, s.queues, s.nextId, early, StatusMessage(name, s.nextId), r.send.ms, r.roll);
      } else {
        ReceivesAtMostOne(s.queues, s.nextId, early, name);
        LedgerIgnores(early, []);
      }
    } else {
      LedgerIgnores(s.log, after.log[|s.log|..]);
    }
  }

  lemma CappedStep(p: Plan, first: State, s: State, i: nat, r: Readings)
    requires i < |s.tasks| && Capped(first, s)
    ensures Capped(first, Execute(p, s, i, r))
  {
    LimitsStay(p, first.queues, s, i, r);
    ReceivedStep(p, s, i, r);
  }

  lemma CappedAtStart(p: Plan, w: World)
    requires Initial(p, w)
    ensures Capped(w.sys, w.sys)
  {
    LedgerIgnores([], w.sys.log);
    assert [] + w.sys.log == w.sys.log;
  }

  lemma ReceivesAtMostOne(queues: Queues, nextId: nat, log: seq<Event>, name: string)
    ensures |LedgerOf(log + ReceiveExchange(queues, nextId, name).events).received| <= |LedgerOf(log).received| + 1
  {
    var events := ReceiveExchange(queues, nextId, name).events;
    if events == [] {
      LedgerIgnores(log, []);
    } else {
      assert events[..0] == [];
      LedgerBooksLast(log, events);
    }
  }

  lemma {:induction false} CappedHolds(p: Plan, first: World, run: seq<Label>)
    requires Initial(p, first) && Legal(p, first, run)
    ensures Capped(first.sys, Reach(p, first, run).sys)
  {
    if run == [] {
      CappedAtStart(p, first);
    } else {
      CappedHolds(p, first, run[..|run| - 1]);
      ShapeHolds(p, first, run[..|run| - 1]);
      LastStep(p, first, run);
      var w, l := Reach(p, first, run[..|run| - 1]), run[|run| - 1];
      if l.Dispatch? {
        CappedStep(p, first.sys, w.sys, w.pending[0], l.readings);
      }
    }
  }

  lemma {:induction false} RunsOfOneTask(tasks: seq<TaskState>, x: nat)
    requires DistinctNames(tasks) && x < |tasks|
    ensures RunsOf(tasks, tasks[x].config.name) == tasks[x].runCount
  {
    var n := |tasks| - 1;
    if x == n {
      RunsOfAbsent(tasks[..n], tasks[x].config.name);
    } else {
      assert tasks[..n][x] == tasks[x];
      RunsOfOneTask(tasks[..n], x);
    }
  }

  lemma {:induction false} RunsOfAbsent(tasks: seq<TaskState>, name: string)
    requires forall i | 0 <= i < |tasks| :: tasks[i].config.name != name
    ensures RunsOf(tasks, name) == 0
  {
    if tasks != [] {
      RunsOfAbsent(tasks[..|tasks| - 1], name);
    }
  }

  lemma MessageIdsLength(messages: seq<Message>)
    ensures |MessageIds(messages)| == |messages|
  {
  }

  /** In any mode, the messages accepted during a run are no more than the logger task can collect in
      its dispatches plus what its queue still holds. */
  lemma AcceptedMessagesAreBounded(p: Plan, first: World, run: seq<Label>, x: nat)
    requires Initial(p, first) && Legal(p, first, run)
    requires x < |first.sys.tasks| && first.sys.tasks[x].config.name == LOGGER_TASK
    ensures
      var config := first.sys.tasks[x].config;
      |LedgerOf(Reach(p, first, run).sys.log).sent| <= PeriodsIn(p.durationMs, config.periodMs) + config.queueLimit
  {
    var s := Reach(p, first, run).sys;
    CappedHolds(p, first, run);
    ConservedHolds(p, first, run);
    AccountedHolds(p, first, run);
    ShapeHolds(p, first, run);
    DispatchesAreAccounted(p, first, run, x);
    RunsOfOneTask(s.tasks, x);
    MessageIdsLength(s.queues[LOGGER_TASK].messages);
  }
}
