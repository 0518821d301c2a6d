/** All tasks share one thread. */
module ProcessorTime {
  import opened Fairness
  import opened Machine
  import opened PassOrder
  import opened PeriodicTask
  import opened RunFacts
  import opened RuntimeConfig
  import opened RunTexts
  import opened SteadyClock

  /** The configured execution times of all runs, without what faults add. */
  function WorkMs(tasks: seq<TaskState>, history: seq<Entry>): int {
    if history == [] then 0
    else
      var earlier, last := WorkMs(tasks, history[..|history| - 1]), history[|history| - 1];
      if last.outcome.Ran? && last.task < |tasks| then earlier + tasks[last.task].config.executionTimeMs else earlier
  }

  lemma WorkOneMore(tasks: seq<TaskState>, history: seq<Entry>, e: Entry)
    ensures WorkMs(tasks, history + [e]) ==
      WorkMs(tasks, history) + if e.outcome.Ran? && e.task < |tasks| then tasks[e.task].config.executionTimeMs else 0
  {
    assert (history + [e])[..|history|] == history;
  }

  /** The sleep asked for has passed, and the work done was slept through; all runs but the last fit the duration. */
  ghost predicate WorkFits(p: Plan, tasks: seq<TaskState>, w: World) {
    && w.sleptMs * TICKS_PER_MS <= w.time - p.startTime
    && WorkMs(tasks, w.sys.history) <= w.sleptMs
    && (w.sys.history != [] ==> WorkMs(tasks, w.sys.history[..|w.sys.history| - 1]) < p.durationMs)
  }

  lemma DispatchFits(p: Plan, tasks: seq<TaskState>, w: World, r: Readings)
    requires WorkFits(p, tasks, w) && Enabled(p, w, Dispatch(r)) && ValidFaults(p.faults)
    requires
      var i := w.pending[0];
      i < |tasks| && tasks[i].config == w.sys.tasks[i].config && ValidTask(tasks[i].config)
    ensures WorkFits(p, tasks, Step(p, w, Dispatch(r)))
  {
    var i := w.pending[0];
    ExecuteFrame(p, w.sys, i, r);
    ExtraIsNatural(p.faults, w.sys.tasks[i].config.name, r.fault.ms);
    WorkOneMore(tasks, w.sys.history, EntryOf(p, w.sys, i, r));
    var after := Execute(p, w.sys, i, r);
    assert after.history[..|after.history| - 1] == w.sys.history;
  }

  lemma WorkStep(p: Plan, first: World, w: World, l: Label)
    requires Initial(p, first) && Shape(p, first, w) && WorkFits(p, first.sys.tasks, w) && Enabled(p, w, l)
    ensures WorkFits(p, first.sys.tasks, Step(p, w, l))
  {
    if l.Dispatch? {
      assert w.sys.tasks[w.pending[0]].config == first.sys.tasks[w.pending[0]].config;
      DispatchFits(p, first.sys.tasks, w, l.readings);
    }
  }

  /** At every moment of every run the sleep asked for by runs and rests has really passed, the runs' execution
      times are part of it, and those of all runs but the last add up to less than the configured duration: the
      tasks never use more than one processor. */
  lemma {:induction false} WorkFitsTheDuration(p: Plan, first: World, run: seq<Label>)
    requires Initial(p, first) && Legal(p, first, run)
    ensures WorkFits(p, first.sys.tasks, Reach(p, first, run))
  {
    if run != [] {
      WorkFitsTheDuration(p, first, run[..|run| - 1]);
      ShapeHolds(p, first, run[..|run| - 1]);
      WorkStep(p, first, Reach(p, first, run[..|run| - 1]), run[|run| - 1]);
    }
  }

  // ---------- rests ----------

  /** A snapshot pass that gives no turn found nothing due. */
  ghost predicate IdleMeansNothingDue(w: World) {
    w.idle && w.pending == [] && !w.over ==> forall x | 0 <= x < |w.sys.tasks| :: !w.sys.tasks[x].ShouldRun(w.time)
  }

  lemma IdleStep(p: Plan, w: World, l: Label)
    requires !p.mode.RoundRobin? && Enabled(p, w, l) && PendingDue(w)
    ensures IdleMeansNothingDue(Step(p, w, l))
  {
    match l
    case BeginPass(_, now) => TurnsAreDistinctDueTasks(p.mode, w.sys.tasks, now);
    case NotDue(_) => assert false;
    case _ =>
  }

  /** In the priority and deadline modes the scheduler rests only when no task is due. */
  lemma RestsOnlyWhenNothingIsDue(p: Plan, first: World, run: seq<Label>, x: nat)
    requires Initial(p, first) && Legal(p, first, run) && !p.mode.RoundRobin?
    requires Enabled(p, Reach(p, first, run), Rest) && !Reach(p, first, run).over
    requires x < |Reach(p, first, run).sys.tasks|
    ensures !Reach(p, first, run).sys.tasks[x].ShouldRun(Reach(p, first, run).time)
  {
    if run != [] {
      FairHolds(p, first, run[..|run| - 1]);
      IdleStep(p, Reach(p, first, run[..|run| - 1]), run[|run| - 1]);
    }
  }
}
