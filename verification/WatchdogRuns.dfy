/** The watchdog's alerts and their budget inside whole runs. */
module WatchdogRuns {
  import opened Common
  import opened EventLog
  import opened Machine
  import opened RunFacts
  import opened RuntimeConfig
  import opened SteadyClock
  import opened Watchdog
  import opened WatchdogHistory

  /** The inspections made during a run: one after each completed run of a task. */
  function Inspections(history: seq<Entry>): seq<Inspection> {
    if history == [] then []
    else
      var earlier, last := Inspections(history[..|history| - 1]), history[|history| - 1];
      if last.outcome.Ran? then earlier + [last.outcome.seen] else earlier
  }

  function OwnInspections(s: State, name: string): seq<Inspection> {
    Own(Inspections(s.history), name)
  }

  /** What a dispatch adds to the inspections. */
  lemma InspectionsAfter(p: Plan, s: State, i: nat, r: Readings)
    requires i < |s.tasks|
    ensures Inspections(Execute(p, s, i, r).history) ==
      if WillRun(p, s, i, r) then Inspections(s.history) + [SeenIn(p, s, i, r)] else Inspections(s.history)
  {
    ExecuteFrame(p, s, i, r);
    var after := Execute(p, s, i, r);
    assert after.history[..|after.history| - 1] == s.history;
    if WillRun(p, s, i, r) {
      RunWrites(p, s, i, r);
    }
  }

  // ---------- alerts ----------

  ghost predicate AnsweredAt(config: WatchdogConfig, history: seq<Entry>, k: nat) {
    k < |history| && history[k].outcome.Ran? ==>
      var seen := Inspections(history[..k + 1]);
      seen != [] && history[k].outcome.alert == AnswerTo(config, seen)
  }

  /** The maps are those the inspections built, and each recorded alert is the watchdog's answer. */
  ghost predicate Watched(p: Plan, s: State) {
    && s.watch == StateAfter(p.watchdog, Inspections(s.history))
    && forall k: nat :: AnsweredAt(p.watchdog, s.history, k)
  }

  lemma MapsAfter(p: Plan, s: State, i: nat, r: Readings)
    requires i < |s.tasks| && s.watch == StateAfter(p.watchdog, Inspections(s.history))
    ensures
      var after := Execute(p, s, i, r);
      after.watch == StateAfter(p.watchdog, Inspections(after.history))
    ensures WillRun(p, s, i, r) ==>
      AlertIn(p, s, i, r) == AnswerTo(p.watchdog, Inspections(s.history) + [SeenIn(p, s, i, r)])
  {
    InspectionsAfter(p, s, i, r);
    if WillRun(p, s, i, r) {
      RunWrites(p, s, i, r);
      var seen := Inspections(s.history);
      assert (seen + [SeenIn(p, s, i, r)])[..|seen|] == seen;
    }
  }

  lemma AnswersAfter(p: Plan, s: State, i: nat, r: Readings, k: nat)
    requires i < |s.tasks| && Watched(p, s)
    ensures AnsweredAt(p.watchdog, Execute(p, s, i, r).history, k)
  {
    ExecuteFrame(p, s, i, r);
    var after := Execute(p, s, i, r);
    if k < |s.history| {
      assert AnsweredAt(p.watchdog, s.history, k);
      assert after.history[..k + 1] == s.history[..k + 1];
    } else if k == |s.history| && WillRun(p, s, i, r) {
      RunWrites(p, s, i, r);
      InspectionsAfter(p, s, i, r);
      MapsAfter(p, s, i, r);
      assert after.history[..k + 1] == after.history;
    }
  }

  lemma WatchedStep(p: Plan, s: State, i: nat, r: Readings)
    requires i < |s.tasks| && Watched(p, s)
    ensures Watched(p, Execute(p, s, i, r))
  {
    MapsAfter(p, s, i, r);
    forall k: nat ensures AnsweredAt(p.watchdog, Execute(p, s, i, r).history, k) {
      AnswersAfter(p, s, i, r, k);
    }
  }

  lemma {:induction false} WatchedHolds(p: Plan, first: World, run: seq<Label>)
    requires Initial(p, first) && Legal(p, first, run)
    ensures Watched(p, Reach(p, first, run).sys)
  {
    if run != [] {
      WatchedHolds(p, first, run[..|run| - 1]);
      LastStep(p, first, run);
      var w, l := Reach(p, first, run[..|run| - 1]), run[|run| - 1];
      if l.Dispatch? {
        WatchedStep(p, w.sys, w.pending[0], l.readings);
      }
    }
  }

  lemma AlertIsOwn(config: WatchdogConfig, history: seq<Entry>, k: nat)
    requires ValidWatchdog(config) && AnsweredAt(config, history, k)
    requires k < |history| && history[k].outcome.Ran?
    ensures
      var seen := history[k].outcome.seen;
      var own := Own(Inspections(history[..k + 1]), seen.task);
      history[k].outcome.alert ==
        if Alarm(config, own)
        then Some(Alert(seen.task, seen.misses, Streak(config, own), config.recoveryEnabled))
        else None
  {
    var upTo := history[..k + 1];
    assert upTo[|upTo| - 1] == history[k];
    AnswersFollowOwnHistory(config, Inspections(upTo));
  }

  /** The alert raised after any run of a task is decided by that task's own inspections up to then,
      whatever the other tasks did in between. */
  lemma AlertsFollowOwnRuns(p: Plan, first: World, run: seq<Label>, k: nat)
    requires Initial(p, first) && Legal(p, first, run)
    requires k < |Reach(p, first, run).sys.history| && Reach(p, first, run).sys.history[k].outcome.Ran?
    ensures
      var history := Reach(p, first, run).sys.history;
      var seen := history[k].outcome.seen;
      var own := Own(Inspections(history[..k + 1]), seen.task);
      history[k].outcome.alert ==
        if Alarm(p.watchdog, own)
        then Some(Alert(seen.task, seen.misses, Streak(p.watchdog, own), p.watchdog.recoveryEnabled))
        else None
  {
    WatchedHolds(p, first, run);
    AlertIsOwn(p.watchdog, Reach(p, first, run).sys.history, k);
  }

  // ---------- the budget ----------

  function Timeouts(log: seq<Event>, name: string): nat {
    if log == [] then 0
    else
      var last := log[|log| - 1];
      Timeouts(log[..|log| - 1], name) + (if last.WatchdogTimeout? && last.task == name then 1 else 0)
  }

  function Recoveries(log: seq<Event>, name: string): nat {
    if log == [] then 0
    else
      var last := log[|log| - 1];
      Recoveries(log[..|log| - 1], name) + (if last.TaskRecovered? && last.task == name then 1 else 0)
  }

  predicate AboutAlerts(e: Event) {
    e.WatchdogTimeout? || e.TaskRecovered?
  }

  lemma {:induction false} AlertCountsConcat(a: seq<Event>, b: seq<Event>, name: string)
    ensures Timeouts(a + b, name) == Timeouts(a, name) + Timeouts(b, name)
    ensures Recoveries(a + b, name) == Recoveries(a, name) + Recoveries(b, name)
  {
    if b == [] {
      assert a + b == a;
    } else {
      assert (a + b)[..|a + b| - 1] == a + b[..|b| - 1];
      AlertCountsConcat(a, b[..|b| - 1], name);
    }
  }

  lemma {:induction false} NoAlertCounts(log: seq<Event>, name: string)
    requires forall e <- log :: !AboutAlerts(e)
    ensures Timeouts(log, name) == 0 && Recoveries(log, name) == 0
  {
    if log != [] {
      NoAlertCounts(log[..|log| - 1], name);
      assert !AboutAlerts(log[|log| - 1]);
    }
  }

  lemma AlertEventCounts(alert: Option<Alert>, name: string)
    ensures Timeouts(AlertEvents(alert), name) == if alert.Some? && alert.value.task == name then 1 else 0
    ensures Recoveries(AlertEvents(alert), name) ==
      if alert.Some? && alert.value.task == name && alert.value.recoveryPerformed then 1 else 0
  {
    if alert.Some? {
      var a := alert.value;
      var timeout := [WatchdogTimeout(a.task, a.deadlineMissCount, a.consecutiveMissCount)];
      var recovery := if a.recoveryPerformed then [TaskRecovered(a.task)] else [];
      AlertCountsConcat(timeout, recovery, name);
      assert timeout[..0] == [];
      assert a.recoveryPerformed ==> recovery[..0] == [];
    }
  }

  lemma OnlyAlertsCount(log: seq<Event>, events: seq<Event>, alert: seq<Event>, x: seq<Event>, name: string)
    requires forall e <- events :: !AboutAlerts(e)
    requires forall e <- x :: !AboutAlerts(e)
    ensures Timeouts(log + events + alert + x, name) == Timeouts(log, name) + Timeouts(alert, name)
    ensures Recoveries(log + events + alert + x, name) == Recoveries(log, name) + Recoveries(alert, name)
  {
    AlertCountsConcat(log + events + alert, x, name);
    AlertCountsConcat(log + events, alert, name);
    AlertCountsConcat(log, events, name);
    NoAlertCounts(events, name);
    NoAlertCounts(x, name);
  }

  lemma OtherPartsHaveNoAlerts(p: Plan, s: State, i: nat, r: Readings)
    requires i < |s.tasks|
    ensures forall e <- RunPart(p, s, i, r) :: !AboutAlerts(e)
    ensures forall e <- ExchangeIn(p, s, i, r).events :: !AboutAlerts(e)
  {
  }

  /** The records of a run other than its alert. */
  lemma RunLogAlertCounts(p: Plan, s: State, i: nat, r: Readings, name: string)
    requires i < |s.tasks| && WillRun(p, s, i, r)
    ensures
      var log, alert := Execute(p, s, i, r).log, AlertEvents(AlertIn(p, s, i, r));
      && Timeouts(log, name) == Timeouts(s.log, name) + Timeouts(alert, name)
      && Recoveries(log, name) == Recoveries(s.log, name) + Recoveries(alert, name)
  {
    RunWrites(p, s, i, r);
    OtherPartsHaveNoAlerts(p, s, i, r);
    OnlyAlertsCount(s.log, RunPart(p, s, i, r), AlertEvents(AlertIn(p, s, i, r)), ExchangeIn(p, s, i, r).events, name);
  }

  lemma OtherLogAlertCounts(p: Plan, s: State, i: nat, r: Readings, name: string)
    requires i < |s.tasks| && !WillRun(p, s, i, r)
    ensures Timeouts(Execute(p, s, i, r).log, name) == Timeouts(s.log, name)
    ensures Recoveries(Execute(p, s, i, r).log, name) == Recoveries(s.log, name)
  {
    var after := Execute(p, s, i, r).log;
    AlertCountsConcat(s.log, after[|s.log|..], name);
    NoAlertCounts(after[|s.log|..], name);
    SplitAt(after, |s.log|);
  }

  /** Task `x` has been inspected after each of its runs, in time order, with its own miss counter. */
  ghost predicate Kept(p: Plan, w: World, x: nat) {
    && x < |w.sys.tasks|
    && (var own := OwnInspections(w.sys, w.sys.tasks[x].config.name);
        && Chronological(own)
        && (own != [] ==>
              && own[|own| - 1].misses == w.sys.tasks[x].deadlineMissCount
              && own[|own| - 1].timestampMs * TICKS_PER_MS <= w.time - p.startTime))
  }

  lemma OwnAppend(history: seq<Inspection>, last: Inspection, name: string)
    ensures Own(history + [last], name) ==
      if last.task == name then Own(history, name) + [last] else Own(history, name)
  {
    assert (history + [last])[..|history|] == history;
  }

  lemma ChronologicalAppend(own: seq<Inspection>, last: Inspection)
    requires Chronological(own) && 0 <= last.timestampMs
    requires own != [] ==>
      own[|own| - 1].misses <= last.misses && own[|own| - 1].timestampMs <= last.timestampMs
    ensures Chronological(own + [last])
  {
  }

  /** What a dispatch adds to a task's own inspections. */
  lemma OwnAfter(p: Plan, s: State, i: nat, r: Readings, x: nat)
    requires i < |s.tasks| && x < |s.tasks| && DistinctNames(s.tasks)
    ensures
      var name := s.tasks[x].config.name;
      OwnInspections(Execute(p, s, i, r), name) ==
        if x == i && WillRun(p, s, i, r) then OwnInspections(s, name) + [SeenIn(p, s, i, r)]
        else OwnInspections(s, name)
  {
    InspectionsAfter(p, s, i, r);
    if WillRun(p, s, i, r) {
      OwnAppend(Inspections(s.history), SeenIn(p, s, i, r), s.tasks[x].config.name);
    }
  }

  lemma LaterReading(p: Plan, w: World, r: Readings, earlierMs: int)
    requires Enabled(p, w, Dispatch(r)) && p.startTime <= w.time
    requires earlierMs * TICKS_PER_MS <= w.time - p.startTime
    ensures 0 <= r.done.ms && earlierMs <= r.done.ms && r.done.ms * TICKS_PER_MS <= r.finish - p.startTime
  {
  }

  /** What a run leaves for the task that made it. */
  lemma RunLeaves(p: Plan, s: State, i: nat, r: Readings)
    requires i < |s.tasks| && DistinctNames(s.tasks) && WillRun(p, s, i, r)
    ensures
      var after, seen := Execute(p, s, i, r), SeenIn(p, s, i, r);
      && i < |after.tasks| && after.tasks[i].config == s.tasks[i].config
      && after.tasks[i].deadlineMissCount == seen.misses && s.tasks[i].deadlineMissCount <= seen.misses
      && seen.timestampMs == r.done.ms
      && OwnInspections(after, s.tasks[i].config.name) == OwnInspections(s, s.tasks[i].config.name) + [seen]
  {
    ExecuteFrame(p, s, i, r);
    RunWrites(p, s, i, r);
    OwnAfter(p, s, i, r, i);
  }

  lemma KeptRun(p: Plan, w: World, r: Readings)
    requires Enabled(p, w, Dispatch(r)) && p.startTime <= w.time && DistinctNames(w.sys.tasks)
    requires Kept(p, w, w.pending[0]) && WillRun(p, w.sys, w.pending[0], r)
    ensures Kept(p, Step(p, w, Dispatch(r)), w.pending[0])
  {
    var i := w.pending[0];
    var own := OwnInspections(w.sys, w.sys.tasks[i].config.name);
    RunLeaves(p, w.sys, i, r);
    LaterReading(p, w, r, if own == [] then 0 else own[|own| - 1].timestampMs);
    ChronologicalAppend(own, SeenIn(p, w.sys, i, r));
    LastOf(own, SeenIn(p, w.sys, i, r));
  }

  lemma LastOf<T>(front: seq<T>, last: T)
    ensures front + [last] != [] && (front + [last])[|front + [last]| - 1] == last
  {
  }

  lemma KeptDispatch(p: Plan, w: World, r: Readings, x: nat)
    requires Enabled(p, w, Dispatch(r)) && p.startTime <= w.time && Kept(p, w, x) && DistinctNames(w.sys.tasks)
    ensures Kept(p, Step(p, w, Dispatch(r)), x)
  {
    if x == w.pending[0] && WillRun(p, w.sys, x, r) {
      KeptRun(p, w, r);
    } else {
      ExecuteFrame(p, w.sys, w.pending[0], r);
      OwnAfter(p, w.sys, w.pending[0], r, x);
    }
  }

  lemma {:induction false} KeptHolds(p: Plan, first: World, run: seq<Label>, x: nat)
    requires Initial(p, first) && Legal(p, first, run) && x < |first.sys.tasks|
    ensures Kept(p, Reach(p, first, run), x)
  {
    if run != [] {
      var init := run[..|run| - 1];
      KeptHolds(p, first, init, x);
      ShapeHolds(p, first, init);
      LastStep(p, first, run);
      NamesStayDistinct(p, first, init);
      var w, l := Reach(p, first, init), run[|run| - 1];
      ShapeStep(p, first, w, l);
      if l.Dispatch? {
        KeptDispatch(p, w, l.readings, x);
      }
    }
  }

  /** The log shows exactly the alerts of the task's own history, and with recovery on each one's recovery. */
  ghost predicate Shown(p: Plan, s: State, x: nat) {
    && x < |s.tasks|
    && (var name := s.tasks[x].config.name;
        && Timeouts(s.log, name) == Alarms(p.watchdog, OwnInspections(s, name))
        && Recoveries(s.log, name) == if p.watchdog.recoveryEnabled then Timeouts(s.log, name) else 0)
  }

  lemma AlertOfOwn(p: Plan, s: State, i: nat, r: Readings)
    requires i < |s.tasks| && Watched(p, s) && ValidWatchdog(p.watchdog) && WillRun(p, s, i, r)
    ensures
      var name, alert := s.tasks[i].config.name, AlertIn(p, s, i, r);
      && (alert.Some? <==> Alarm(p.watchdog, OwnInspections(s, name) + [SeenIn(p, s, i, r)]))
      && (alert.Some? ==> alert.value.task == name && alert.value.recoveryPerformed == p.watchdog.recoveryEnabled)
  {
    var seen := Inspections(s.history) + [SeenIn(p, s, i, r)];
    MapsAfter(p, s, i, r);
    OwnAppend(Inspections(s.history), SeenIn(p, s, i, r), s.tasks[i].config.name);
    AnswersFollowOwnHistory(p.watchdog, seen);
  }

  lemma AlarmsAppend(config: WatchdogConfig, own: seq<Inspection>, last: Inspection)
    ensures Alarms(config, own + [last]) == Alarms(config, own) + if Alarm(config, own + [last]) then 1 else 0
  {
    assert (own + [last])[..|own|] == own;
  }

  lemma ShownDispatch(p: Plan, s: State, i: nat, r: Readings, x: nat)
    requires i < |s.tasks| && Watched(p, s) && ValidWatchdog(p.watchdog) && DistinctNames(s.tasks) && Shown(p, s, x)
    ensures Shown(p, Execute(p, s, i, r), x)
  {
    var name := s.tasks[x].config.name;
    ExecuteFrame(p, s, i, r);
    OwnAfter(p, s, i, r, x);
    if WillRun(p, s, i, r) {
      RunLogAlertCounts(p, s, i, r, name);
      AlertOfOwn(p, s, i, r);
      AlertEventCounts(AlertIn(p, s, i, r), name);
      AlarmsAppend(p.watchdog, OwnInspections(s, name), SeenIn(p, s, i, r));
    } else {
      OtherLogAlertCounts(p, s, i, r, name);
    }
  }

  lemma {:induction false} ShownHolds(p: Plan, first: World, run: seq<Label>, x: nat)
    requires Initial(p, first) && Legal(p, first, run) && x < |first.sys.tasks|
    ensures Shown(p, Reach(p, first, run).sys, x)
  {
    if run == [] {
      NoAlertCounts(first.sys.log, first.sys.tasks[x].config.name);
    } else {
      var init := run[..|run| - 1];
      ShownHolds(p, first, init, x);
      WatchedHolds(p, first, init);
      NamesStayDistinct(p, first, init);
      LastStep(p, first, run);
      var w, l := Reach(p, first, init), run[|run| - 1];
      if l.Dispatch? {
        ShownDispatch(p, w.sys, w.pending[0], l.readings, x);
      }
    }
  }

  ghost predicate WithinBudget(config: WatchdogConfig, alerts: nat, misses: nat, elapsedTicks: int) {
    && alerts * config.maxConsecutiveDeadlineMisses <= misses
    && (alerts > 0 ==> ((alerts - 1) * config.recoveryCooldownMs) * TICKS_PER_MS <= elapsedTicks)
  }

  lemma OwnBudget(p: Plan, w: World, x: nat)
    requires ValidWatchdog(p.watchdog) && p.watchdog.enabled && p.watchdog.recoveryEnabled && Kept(p, w, x)
    ensures WithinBudget(p.watchdog, Alarms(p.watchdog, OwnInspections(w.sys, w.sys.tasks[x].config.name)),
      w.sys.tasks[x].deadlineMissCount, w.time - p.startTime)
  {
    var own := OwnInspections(w.sys, w.sys.tasks[x].config.name);
    if own != [] {
      AlertsUseUpMisses(p.watchdog, own);
      AlertsWaitForCooldowns(p.watchdog, own);
    }
  }

  /** With recovery enabled, the watchdog timeouts logged for a task, times the threshold, never exceed
      its deadline misses; all but one of them wait out a cooldown; and each has its recovery. */
  lemma AlertsStayInBudget(p: Plan, first: World, run: seq<Label>, x: nat)
    requires Initial(p, first) && Legal(p, first, run) && x < |first.sys.tasks|
    requires p.watchdog.enabled && p.watchdog.recoveryEnabled
    ensures
      var w := Reach(p, first, run);
      var name := first.sys.tasks[x].config.name;
      && x < |w.sys.tasks|
      && WithinBudget(p.watchdog, Timeouts(w.sys.log, name), w.sys.tasks[x].deadlineMissCount, w.time - p.startTime)
      && Recoveries(w.sys.log, name) == Timeouts(w.sys.log, name)
  {
    ShownHolds(p, first, run, x);
    KeptHolds(p, first, run, x);
    ShapeHolds(p, first, run);
    OwnBudget(p, Reach(p, first, run), x);
  }
}
