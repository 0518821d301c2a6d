/** Facts that the whole-run theorems share. */
module RunFacts {
  import opened Common
  import opened EventLog
  import opened FaultInjector
  import opened Machine
  import opened PassOrder
  import opened Watchdog

  /** The entry a dispatch adds to the history. */
  function EntryOf(p: Plan, s: State, i: nat, r: Readings): Entry
    requires i < |s.tasks|
  {
    var after := Execute(p, s, i, r).history;
    after[|after| - 1]
  }

  /** A dispatch touches one task, puts its next release one period after `now`, and adds one entry. */
  lemma ExecuteFrame(p: Plan, s: State, i: nat, r: Readings)
    requires i < |s.tasks|
    ensures
      var after := Execute(p, s, i, r);
      && |after.tasks| == |s.tasks|
      && (forall j | 0 <= j < |s.tasks| && j != i :: after.tasks[j] == s.tasks[j])
      && after.tasks[i].config == s.tasks[i].config
      && after.tasks[i].nextRunTime == s.tasks[i].NextRelease(r.now)
      && after.history == s.history + [EntryOf(p, s, i, r)]
    ensures
      var e := EntryOf(p, s, i, r);
      && e.task == i && e.now == r.now && e.release == s.tasks[i].nextRunTime
      && (e.outcome.Skipped? <==> WillSkip(s, i))
      && (e.outcome.Failed? <==> WillCrash(p, s, i, r))
      && (e.outcome.Ran? <==> WillRun(p, s, i, r))
  {
  }

  // ---------- the three parts of what a run writes ----------

  /** The inspection a run of task `i` ends with. */
  function SeenIn(p: Plan, s: State, i: nat, r: Readings): Inspection
    requires i < |s.tasks|
  {
    var name := s.tasks[i].config.name;
    Inspection(name, s.tasks[i].AfterRun(r.now, ExtraMs(p, name, r.fault.ms)).deadlineMissCount, r.done.ms)
  }

  /** The watchdog's answer to it. */
  function AlertIn(p: Plan, s: State, i: nat, r: Readings): Option<Alert>
    requires i < |s.tasks|
  {
    Inspect(p.watchdog, s.watch, SeenIn(p, s, i, r)).1
  }

  function ExchangeIn(p: Plan, s: State, i: nat, r: Readings): Exchange
    requires i < |s.tasks|
  {
    Messaging(p.faults, s.queues, s.nextId, s.tasks[i].config.name, r.send.ms, r.roll)
  }

  function RunPart(p: Plan, s: State, i: nat, r: Readings): seq<Event>
    requires i < |s.tasks|
  {
    var task := s.tasks[i];
    var slowMs := SlowExtraMs(p.faults, task.config.name, r.fault.ms);
    var spikeMs := CpuSpikeExtraMs(p.faults, task.config.name, r.fault.ms);
    RunEvents(task, task.AfterRun(r.now, slowMs + spikeMs), slowMs, spikeMs, r.observedMs)
  }

  lemma RunWrites(p: Plan, s: State, i: nat, r: Readings)
    requires i < |s.tasks| && WillRun(p, s, i, r)
    ensures
      var after, e := Execute(p, s, i, r), EntryOf(p, s, i, r);
      && after.log == s.log + RunPart(p, s, i, r) + AlertEvents(AlertIn(p, s, i, r)) + ExchangeIn(p, s, i, r).events
      && after.watch == Inspect(p.watchdog, s.watch, SeenIn(p, s, i, r)).0
      && after.queues == ExchangeIn(p, s, i, r).queues
      && after.nextId == ExchangeIn(p, s, i, r).nextId
      && e.outcome.Ran? && e.outcome.seen == SeenIn(p, s, i, r) && e.outcome.alert == AlertIn(p, s, i, r)
      && e.outcome.traffic == ExchangeIn(p, s, i, r).traffic
      && after.tasks[i] == s.tasks[i].AfterRun(r.now, ExtraMs(p, s.tasks[i].config.name, r.fault.ms))
  {
  }

  /** Only a dispatch changes the system; what it changes is decided by `Execute`. */
  lemma LastStep(p: Plan, first: World, run: seq<Label>)
    requires Legal(p, first, run) && run != []
    ensures
      var w, l := Reach(p, first, run[..|run| - 1]), run[|run| - 1];
      && Enabled(p, w, l)
      && (l.Dispatch? ==>
            && w.pending != [] && w.pending[0] < |w.sys.tasks|
            && Reach(p, first, run).sys == Execute(p, w.sys, w.pending[0], l.readings))
      && (!l.Dispatch? ==> Reach(p, first, run).sys == w.sys)
  {
  }

  /** Configurations never change, pending turns are task indices, time does not run backwards. */
  ghost predicate Shape(p: Plan, first: World, w: World) {
    && |w.sys.tasks| == |first.sys.tasks|
    && (forall i | 0 <= i < |w.sys.tasks| :: w.sys.tasks[i].config == first.sys.tasks[i].config)
    && Indices(w.sys.tasks, w.pending)
    && p.startTime <= w.time
    && (forall e <- w.sys.history :: e.task < |w.sys.tasks|)
  }

  lemma ShapeStep(p: Plan, first: World, w: World, l: Label)
    requires Shape(p, first, w) && Enabled(p, w, l)
    ensures Shape(p, first, Step(p, w, l)) && w.time <= Step(p, w, l).time
  {
    if l.Dispatch? {
      ExecuteFrame(p, w.sys, w.pending[0], l.readings);
    }
  }

  lemma {:induction false} ShapeHolds(p: Plan, first: World, run: seq<Label>)
    requires Initial(p, first) && Legal(p, first, run)
    ensures Shape(p, first, Reach(p, first, run))
  {
    if run != [] {
      ShapeHolds(p, first, run[..|run| - 1]);
      ShapeStep(p, first, Reach(p, first, run[..|run| - 1]), run[|run| - 1]);
    }
  }

  lemma NamesStayDistinct(p: Plan, first: World, run: seq<Label>)
    requires Initial(p, first) && Legal(p, first, run)
    ensures DistinctNames(Reach(p, first, run).sys.tasks)
  {
    ShapeHolds(p, first, run);
  }

  /** Distinct numbers below `n`, one of them missing, are fewer than `n`. */
  lemma DistinctBelow(turns: seq<nat>, n: nat)
    requires forall k | 0 <= k < |turns| :: turns[k] < n
    requires forall j, k | 0 <= j < k < |turns| :: turns[j] != turns[k]
    ensures |turns| <= n
    ensures forall x: nat | x < n && x !in turns :: |turns| < n
  {
    var elements := set k | 0 <= k < |turns| :: turns[k];
    DistinctSize(turns);
    BelowSize(n);
    SubsetSize(elements, Below(n));
    forall x: nat | x < n && x !in turns ensures |turns| < n {
      SubsetSize(elements, Below(n) - {x});
    }
  }

  function Below(n: nat): (below: set<nat>)
    ensures forall x: nat :: x in below <==> x < n
  {
    if n == 0 then {} else Below(n - 1) + {n - 1}
  }

  lemma {:induction false} BelowSize(n: nat)
    ensures |Below(n)| == n
  {
    if n > 0 {
      BelowSize(n - 1);
    }
  }

  lemma {:induction false} DistinctSize(turns: seq<nat>)
    requires forall j, k | 0 <= j < k < |turns| :: turns[j] != turns[k]
    ensures |set k | 0 <= k < |turns| :: turns[k]| == |turns|
  {
    if turns != [] {
      var n := |turns| - 1;
      var front := set k | 0 <= k < n :: turns[..n][k];
      DistinctSize(turns[..n]);
      assert (set k | 0 <= k < |turns| :: turns[k]) == front + {turns[n]};
    }
  }

  lemma {:induction false} SubsetSize(a: set<nat>, b: set<nat>)
    requires a <= b
    ensures |a| <= |b|
  {
    if a != {} {
      var x :| x in a;
      SubsetSize(a - {x}, b - {x});
    }
  }
}
