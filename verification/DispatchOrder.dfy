/** What a snapshot pass serves, and in which order. */
module DispatchOrder {
  import opened Common
  import opened Fairness
  import opened Machine
  import opened PassOrder
  import opened PeriodicTask
  import opened RunFacts
  import opened RuntimeConfig
  import opened SteadyClock

  /** A dispatch does not disturb the order of the turns behind it: their keys stay as they were. */
  lemma {:induction false} OrderStep(p: Plan, w: World, l: Label)
    requires !p.mode.RoundRobin? && Enabled(p, w, l)
    requires InStrictOrder(p.mode, w.sys.tasks, w.pending)
    ensures InStrictOrder(p.mode, Step(p, w, l).sys.tasks, Step(p, w, l).pending)
  {
    match l
    case BeginPass(_, now) => TurnsAreDistinctDueTasks(p.mode, w.sys.tasks, now);
    case Dispatch(r) =>
      ExecuteFrame(p, w.sys, w.pending[0], r);
      StrictOrderHasNoRepeats(p.mode, w.sys.tasks, w.pending);
    case _ =>
  }

  lemma {:induction false} PendingInOrder(p: Plan, first: World, run: seq<Label>)
    requires Initial(p, first) && Legal(p, first, run) && !p.mode.RoundRobin?
    ensures InStrictOrder(p.mode, Reach(p, first, run).sys.tasks, Reach(p, first, run).pending)
  {
    if run != [] {
      PendingInOrder(p, first, run[..|run| - 1]);
      OrderStep(p, Reach(p, first, run[..|run| - 1]), run[|run| - 1]);
    }
  }

  /** What the comparison and its ties come to. */
  lemma {:induction false} PrecedesByKeys(mode: Mode, tasks: seq<TaskState>, i: nat, j: nat)
    requires i < |tasks| && j < |tasks| && Precedes(mode, tasks, i, j)
    ensures
      var a, b := tasks[i], tasks[j];
      if mode.EarliestDeadlineFirst? then
        var due, dueOther := a.nextRunTime + a.config.deadlineMs * TICKS_PER_MS, b.nextRunTime + b.config.deadlineMs * TICKS_PER_MS;
        || due < dueOther
        || (due == dueOther &&
            (a.config.priority < b.config.priority || (a.config.priority == b.config.priority && i < j)))
      else
        a.config.priority < b.config.priority || (a.config.priority == b.config.priority && i < j)
  {
  }

  /** Whenever a task is dispatched in a priority or deadline pass, it comes before every task still
      waiting in that pass, by the keys both have at that moment: the absolute deadline (release time plus relative
      deadline) in the deadline mode, and the priority number; ties go to configuration order. */
  lemma {:induction false} DispatchesTheLeast(p: Plan, first: World, run: seq<Label>, r: Readings)
    requires Initial(p, first) && Legal(p, first, run) && !p.mode.RoundRobin?
    requires Enabled(p, Reach(p, first, run), Dispatch(r))
    ensures
      var w := Reach(p, first, run);
      && Indices(w.sys.tasks, w.pending)
      && forall k | 0 < k < |w.pending| ::
        var a, b := w.sys.tasks[w.pending[0]], w.sys.tasks[w.pending[k]];
        if p.mode.EarliestDeadlineFirst? then
          var due, dueOther := a.nextRunTime + a.config.deadlineMs * TICKS_PER_MS, b.nextRunTime + b.config.deadlineMs * TICKS_PER_MS;
          || due < dueOther
          || (due == dueOther &&
              (a.config.priority < b.config.priority ||
               (a.config.priority == b.config.priority && w.pending[0] < w.pending[k])))
        else
          || a.config.priority < b.config.priority
          || (a.config.priority == b.config.priority && w.pending[0] < w.pending[k])
  {
    PendingInOrder(p, first, run);
    var w := Reach(p, first, run);
    forall k | 0 < k < |w.pending| ensures Precedes(p.mode, w.sys.tasks, w.pending[0], w.pending[k]) {
      PrecedesByKeys(p.mode, w.sys.tasks, w.pending[0], w.pending[k]);
    }
  }

  /** A pass lists exactly the tasks whose release has come at its snapshot, each once: in the deadline mode by
      release time plus relative deadline, then priority number, then configuration order; in the priority mode by
      priority number, then configuration order. */
  lemma {:induction false} PassIsByKeys(mode: Mode, tasks: seq<TaskState>, now: int)
    requires !mode.RoundRobin?
    ensures
      var turns := Turns(mode, tasks, now);
      && (forall i: nat :: i in turns <==> i < |tasks| && tasks[i].nextRunTime <= now)
      && (forall j, k | 0 <= j < k < |turns| :: turns[j] != turns[k])
    ensures
      var turns := Turns(mode, tasks, now);
      forall j, k | 0 <= j < k < |turns| ::
        var a, b := tasks[turns[j]], tasks[turns[k]];
        if mode.EarliestDeadlineFirst? then
          var due, dueOther := a.nextRunTime + a.config.deadlineMs * TICKS_PER_MS, b.nextRunTime + b.config.deadlineMs * TICKS_PER_MS;
          || due < dueOther
          || (due == dueOther &&
              (a.config.priority < b.config.priority ||
               (a.config.priority == b.config.priority && turns[j] < turns[k])))
        else
          || a.config.priority < b.config.priority
          || (a.config.priority == b.config.priority && turns[j] < turns[k])
  {
    TurnsAreDistinctDueTasks(mode, tasks, now);
    var turns := Turns(mode, tasks, now);
    forall j, k | 0 <= j < k < |turns| ensures Precedes(mode, tasks, turns[j], turns[k]) {
      PrecedesByKeys(mode, tasks, turns[j], turns[k]);
    }
  }

  /** The tasks dispatched after the first `n` entries, in order. */
  function ServedSince(history: seq<Entry>, n: nat): seq<nat> {
    if |history| <= n then []
    else ServedSince(history[..|history| - 1], n) + [history[|history| - 1].task]
  }

  /** In a pass that started after `n` dispatches: what was served, followed by what is pending, is the pass. */
  ghost predicate WithinPass(turns: seq<nat>, n: nat, w: World) {
    && n <= |w.sys.history|
    && if w.over then ServedSince(w.sys.history, n) <= turns else ServedSince(w.sys.history, n) + w.pending == turns
  }

  lemma {:induction false} WithinPassStep(p: Plan, turns: seq<nat>, n: nat, w: World, l: Label)
    requires Fair(p, w) && !p.mode.RoundRobin? && Enabled(p, w, l)
    requires l.Dispatch? || l.EndOfTime? || l.NotDue?
    requires WithinPass(turns, n, w)
    ensures WithinPass(turns, n, Step(p, w, l))
  {
    match l
    case Dispatch(r) =>
      ExecuteFrame(p, w.sys, w.pending[0], r);
      var after := Step(p, w, l);
      assert after.sys.history[..|after.sys.history| - 1] == w.sys.history;
      SplitAt(w.pending, 1);
      ConcatAssociative(ServedSince(w.sys.history, n), [w.pending[0]], after.pending);
    case EndOfTime(_) =>
    case NotDue(_) => assert false;
  }

  lemma AllButTheLast<T>(front: seq<T>, rest: seq<T>)
    requires rest != []
    ensures front + rest != [] && (front + rest)[|front + rest| - 1] == rest[|rest| - 1]
    ensures (front + rest)[..|front + rest| - 1] == front + rest[..|rest| - 1]
  {
  }

  /** At its snapshot a pass has all its turns before it. */
  lemma {:induction false} PassBegins(p: Plan, first: World, before: seq<Label>, guard: int, now: int)
    requires Legal(p, first, before) && Legal(p, first, before + [BeginPass(guard, now)])
    ensures
      var start, begun := Reach(p, first, before), Reach(p, first, before + [BeginPass(guard, now)]);
      && begun.pending == Turns(p.mode, start.sys.tasks, now) && begun.sys == start.sys && !begun.over
      && ServedSince(begun.sys.history, |start.sys.history|) == []
  {
    AllButTheLast(before, [BeginPass(guard, now)]);
    assert before + [BeginPass(guard, now)][..0] == before;
  }

  /** A pass that is not cut off by the end of time dispatches exactly the tasks due at its snapshot,
      each once, in order; one that is cut off dispatches a prefix of them. */
  lemma {:induction false} PassServesItsSnapshot(p: Plan, first: World, before: seq<Label>, guard: int, now: int,
      rest: seq<Label>)
    requires Initial(p, first) && !p.mode.RoundRobin?
    requires Legal(p, first, before) && Legal(p, first, before + [BeginPass(guard, now)] + rest)
    requires forall l <- rest :: l.Dispatch? || l.EndOfTime? || l.NotDue?
    ensures
      var start, end := Reach(p, first, before), Reach(p, first, before + [BeginPass(guard, now)] + rest);
      WithinPass(Turns(p.mode, start.sys.tasks, now), |start.sys.history|, end)
  {
    var begin, start := before + [BeginPass(guard, now)], Reach(p, first, before);
    if rest == [] {
      assert begin + rest == begin;
      PassBegins(p, first, before, guard, now);
    } else {
      var earlier, last := rest[..|rest| - 1], rest[|rest| - 1];
      AllButTheLast(begin, rest);
      assert last in rest && forall l <- earlier :: l in rest;
      PassServesItsSnapshot(p, first, before, guard, now, earlier);
      FairHolds(p, first, begin + earlier);
      WithinPassStep(p, Turns(p.mode, start.sys.tasks, now), |start.sys.history|, Reach(p, first, begin + earlier), last);
    }
  }

  // ---------- round robin ----------

  /** The numbers from `i` up to `n`. */
  function Upward(i: nat, n: nat): (turns: seq<nat>)
    requires i <= n
    ensures |turns| == n - i && forall k | 0 <= k < n - i :: turns[k] == i + k
  {
    seq(n - i, k requires 0 <= k < n - i => i + k)
  }

  /** The tasks whose turns of a cycle were dispatches, where label `k` is the turn of task `k`. */
  function DispatchedIn(turns: seq<Label>): seq<nat> {
    if turns == [] then []
    else
      var n := |turns| - 1;
      if turns[n].Dispatch? then DispatchedIn(turns[..n]) + [n] else DispatchedIn(turns[..n])
  }

  /** The reading on which a turn was decided. */
  function TurnReading(l: Label): int
    requires l.Dispatch? || l.NotDue?
  {
    if l.Dispatch? then l.readings.now else l.reading
  }

  predicate IsTurn(l: Label) {
    l.Dispatch? || l.NotDue?
  }

  /** How a cycle stands after these turns: task `k` had the `k`-th of them, and was dispatched exactly if its
      release had come at the reading of that turn. */
  ghost predicate CycleStands(start: World, turns: seq<Label>, w: World) {
    var n := |start.sys.tasks|;
    && |turns| <= n && |w.sys.tasks| == n && w.pending == Upward(|turns|, n) && !w.over
    && (forall k | |turns| <= k < n :: w.sys.tasks[k] == start.sys.tasks[k])
    && |start.sys.history| <= |w.sys.history|
    && ServedSince(w.sys.history, |start.sys.history|) == DispatchedIn(turns)
    && (forall k | 0 <= k < |turns| :: IsTurn(turns[k]) &&
          (turns[k].Dispatch? <==> start.sys.tasks[k].nextRunTime <= TurnReading(turns[k])))
  }

  lemma UpwardTail(i: nat, n: nat)
    requires i < n
    ensures Upward(i, n) != [] && Upward(i, n)[0] == i && Upward(i, n)[1..] == Upward(i + 1, n)
  {
  }

  lemma ServedOneMore(history: seq<Entry>, e: Entry, n: nat)
    requires n <= |history|
    ensures ServedSince(history + [e], n) == ServedSince(history, n) + [e.task]
  {
    assert (history + [e])[..|history|] == history;
  }

  lemma {:induction false} CycleTurn(p: Plan, start: World, turns: seq<Label>, w: World, l: Label)
    requires CycleStands(start, turns, w) && Enabled(p, w, l) && IsTurn(l)
    ensures CycleStands(start, turns + [l], Step(p, w, l))
  {
    var n, i := |start.sys.tasks|, |turns|;
    assert |w.pending| == n - i;
    UpwardTail(i, n);
    assert (turns + [l])[..i] == turns;
    if l.Dispatch? {
      ExecuteFrame(p, w.sys, i, l.readings);
      ServedOneMore(w.sys.history, EntryOf(p, w.sys, i, l.readings), |start.sys.history|);
    }
  }

  /** In every round-robin cycle of every run the turns go in configuration order: the k-th turn is task k's, which
      is dispatched exactly if its release has come at the reading of that turn, and the tasks still to come are the
      rest in order. Only the end of time cuts a cycle off. */
  lemma {:induction false} CycleGivesTurnsInOrder(p: Plan, first: World, before: seq<Label>, guard: int, now: int,
      turns: seq<Label>)
    requires p.mode.RoundRobin? && forall l <- turns :: IsTurn(l)
    requires Legal(p, first, before) && Legal(p, first, before + [BeginPass(guard, now)] + turns)
    ensures CycleStands(Reach(p, first, before), turns, Reach(p, first, before + [BeginPass(guard, now)] + turns))
  {
    var begin := before + [BeginPass(guard, now)];
    if turns == [] {
      assert begin + turns == begin;
      PassBegins(p, first, before, guard, now);
      assert Turns(p.mode, Reach(p, first, before).sys.tasks, now) == Upward(0, |Reach(p, first, before).sys.tasks|);
    } else {
      var earlier, last := turns[..|turns| - 1], turns[|turns| - 1];
      AllButTheLast(begin, turns);
      assert last in turns && turns == earlier + [last] && forall l <- earlier :: l in turns;
      CycleGivesTurnsInOrder(p, first, before, guard, now, earlier);
      CycleTurn(p, Reach(p, first, before), earlier, Reach(p, first, begin + earlier), last);
    }
  }
}
