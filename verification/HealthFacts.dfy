/** What the health report says about any log. */
module HealthFacts {
  import opened EventLog
  import opened HealthAnalyzer
  import opened LogRecords
  import opened RuntimeConfig
  import opened TextOrder

  lemma {:induction false} KindsHave(records: seq<Record>, kind: Kind)
    ensures kind in Kinds(records) <==> exists r <- records :: r.kind == kind
    ensures TasksOf(records, kind) != [] <==> exists r <- records :: r.kind == kind
  {
    if records != [] {
      var init, last := records[..|records| - 1], records[|records| - 1];
      KindsHave(init, kind);
      assert records == init + [last];
    }
  }

  lemma {:induction false} FaultTypesHave(records: seq<Record>, fault: FaultKind)
    ensures fault in FaultTypes(records) <==> exists r <- records :: r.kind.OnFault? && r.faultType == fault
  {
    if records != [] {
      var init, last := records[..|records| - 1], records[|records| - 1];
      FaultTypesHave(init, fault);
      assert records == init + [last];
    }
  }

  lemma {:induction false} DropReasonsHave(records: seq<Record>, reason: DropReason)
    ensures reason in DropReasons(records) <==> exists r <- records :: r.kind.OnDropped? && r.reason == reason
  {
    if records != [] {
      var init, last := records[..|records| - 1], records[|records| - 1];
      DropReasonsHave(init, reason);
      assert records == init + [last];
    }
  }

  lemma {:induction false} MentionedMeans(records: seq<Record>, task: string)
    ensures task in Mentioned(records) <==> exists r <- records :: Speaks(r) && r.task == task
  {
    if records != [] {
      var init, last := records[..|records| - 1], records[|records| - 1];
      MentionedMeans(init, task);
      assert records == init + [last];
    }
  }

  // ---------- the sum of misses ----------

  lemma {:induction false} TotalIsZero(metrics: map<string, Metrics>)
    ensures TotalMisses(metrics) == 0 <==> forall task <- metrics :: metrics[task].misses == 0
    decreases |metrics|
  {
    if metrics != map[] {
      var task :| task in metrics && TotalMisses(metrics) == metrics[task].misses + TotalMisses(metrics - {task});
      TotalIsZero(metrics - {task});
      if forall t <- metrics - {task} :: (metrics - {task})[t].misses == 0 {
        assert forall t <- metrics :: t != task ==> t in metrics - {task};
      }
    }
  }

  /** Misses can only add up. */
  lemma {:induction false} TotalGrows(small: map<string, Metrics>, large: map<string, Metrics>)
    requires forall task <- small :: task in large && small[task].misses <= large[task].misses
    ensures TotalMisses(small) <= TotalMisses(large)
    decreases |small|
  {
    if small != map[] {
      var task :| task in small;
      TotalMissesTake(small, task);
      TotalMissesTake(large, task);
      TotalGrows(small - {task}, large - {task});
    }
  }

  predicate ShowsMiss(r: Record) {
    Speaks(r) && r.deadlineMissCount > 0
  }

  lemma MissesComeFromRecords(records: seq<Record>)
    ensures TotalMisses(MetricsOf(records)) > 0 <==> exists r <- records :: ShowsMiss(r)
  {
    var metrics := MetricsOf(records);
    TotalIsZero(metrics);
    if task :| task in metrics && metrics[task].misses > 0 {
      GatheredReports(records, task);
      var r :| r in records && Speaks(r) && r.task == task && r.deadlineMissCount == metrics[task].misses;
      assert ShowsMiss(r);
    }
    if r :| r in records && ShowsMiss(r) {
      MentionedMeans(records, r.task);
      GatheredReports(records, r.task);
      assert metrics[r.task].misses > 0;
    }
  }

  // ---------- the verdict of any log ----------

  /** A record that speaks of trouble whatever else the log says. */
  predicate Severe(r: Record) {
    r.kind.OnFailure? || r.kind.OnSkip? || r.kind.OnTimeout? || r.kind.OnRecovery?
  }

  predicate Quiet(r: Record) {
    !Severe(r) && !r.kind.OnFault? && !r.kind.OnDropped? && !ShowsMiss(r)
  }

  lemma SevereTestsMean(records: seq<Record>)
    ensures (exists r <- records :: Severe(r)) <==>
      var events := Counted(Kinds(records));
      At(events, OnFailure) > 0 || At(events, OnSkip) > 0 || At(events, OnTimeout) > 0 || At(events, OnRecovery) > 0
  {
    KindsHave(records, OnFailure);
    KindsHave(records, OnSkip);
    KindsHave(records, OnTimeout);
    KindsHave(records, OnRecovery);
  }

  /** The tests of the verdict, each as a statement about records. */
  lemma TestsMean(records: seq<Record>)
    ensures FindingsOf(records).Health() ==
      var misses := TotalMisses(MetricsOf(records));
      if (exists r <- records :: Severe(r)) || misses >= 3 then UNSTABLE
      else if misses > 0 && exists r <- records :: r.kind.OnFault? && r.faultType.SlowTask? then UNSTABLE
      else if (exists r <- records :: r.kind.OnFault?) || misses > 0 then WARNING
      else if exists r <- records :: r.kind.OnDropped? then WARNING
      else NORMAL
  {
    SevereTestsMean(records);
    KindsHave(records, OnFault);
    FaultTypesHave(records, SlowTask);
    DropsMean(records);
  }

  lemma DropsMean(records: seq<Record>)
    ensures Counted(DropReasons(records)) != map[] <==> exists r <- records :: r.kind.OnDropped?
  {
    var drops := Counted(DropReasons(records));
    if reason :| reason in drops {
      DropReasonsHave(records, reason);
    }
    if r :| r in records && r.kind.OnDropped? {
      DropReasonsHave(records, r.reason);
      assert r.reason in drops;
    }
  }

  /** A log is called normal exactly when every record in it is quiet. */
  lemma NormalExactly(records: seq<Record>)
    ensures FindingsOf(records).Health().NORMAL? <==> forall r <- records :: Quiet(r)
  {
    TestsMean(records);
    MissesComeFromRecords(records);
  }

  /** A log is called unstable exactly when it has a severe record, or its tasks' miss counters add up to
      three, or any miss goes with a slow-task fault. */
  lemma UnstableExactly(records: seq<Record>)
    ensures
      var misses := TotalMisses(MetricsOf(records));
      FindingsOf(records).Health().UNSTABLE? <==>
        || (exists r <- records :: Severe(r))
        || misses >= 3
        || (misses > 0 && exists r <- records :: r.kind.OnFault? && r.faultType.SlowTask?)
  {
    TestsMean(records);
  }

  lemma {:induction false} MetricsGrow(records: seq<Record>, more: seq<Record>)
    ensures Mentioned(records) <= Mentioned(records + more)
    ensures forall task :: Gathered(records, task).misses <= Gathered(records + more, task).misses
  {
    if more == [] {
      assert records + more == records;
    } else {
      MetricsGrow(records, more[..|more| - 1]);
      assert (records + more)[..|records + more| - 1] == records + more[..|more| - 1];
    }
  }

  /** More records never make the verdict milder. */
  lemma VerdictNeverImproves(records: seq<Record>, more: seq<Record>)
    ensures Rank(FindingsOf(records).Health()) <= Rank(FindingsOf(records + more).Health())
  {
    MetricsGrow(records, more);
    TotalGrows(MetricsOf(records), MetricsOf(records + more));
    assert forall r <- records :: r in records + more;
    UnstableExactly(records);
    UnstableExactly(records + more);
    NormalExactly(records);
    NormalExactly(records + more);
  }

  // ---------- the root causes of any log ----------

  lemma {:induction false} MissCausesHave(names: seq<string>, metrics: map<string, Metrics>, c: Cause)
    ensures c in MissCauses(names, metrics) <==>
      c.MissedDeadline? && c.task in names && c.times == MissesFor(metrics, c.task) && c.times > 0
  {
    if names != [] {
      MissCausesHave(names[..|names| - 1], metrics, c);
      assert names == names[..|names| - 1] + [names[|names| - 1]];
    }
  }

  lemma {:induction false} TaskCausesHave(kind: Kind, names: seq<string>, counter: Counter<string>, c: Cause)
    ensures c in TaskCauses(kind, names, counter) <==>
      c.Happened? && c.kind == kind && c.task in names && c.times == At(counter, c.task)
  {
    if names != [] {
      TaskCausesHave(kind, names[..|names| - 1], counter, c);
      assert names == names[..|names| - 1] + [names[|names| - 1]];
    }
  }

  /** When the findings support a cause that names its trouble. */
  predicate Backs(f: Findings, c: Cause) {
    match c
    case MissedDeadline(task, times) => times > 0 && times == MissesFor(f.metrics, task)
    case FaultActive(fault) => !fault.UnlistedFault? && At(f.faults, fault) > 0
    case QueuesFull => At(f.drops, QueueFull) > 0
    case IntentionalDrops => At(f.drops, FaultInjectedDrop) > 0
    case Happened(kind, task, times) => task in TroubleOf(f, kind) && times == TroubleOf(f, kind)[task]
    case _ => false
  }

  lemma FaultCausesHave(faults: Counter<FaultKind>, c: Cause)
    ensures c in FaultCauses(faults) <==> c.FaultActive? && !c.fault.UnlistedFault? && At(faults, c.fault) > 0
  {
  }

  lemma DropCausesHave(drops: Counter<DropReason>, c: Cause)
    ensures c in DropCauses(drops) <==>
      (c.QueuesFull? && At(drops, QueueFull) > 0) || (c.IntentionalDrops? && At(drops, FaultInjectedDrop) > 0)
  {
  }

  lemma EarlyCausesHave(f: Findings, c: Cause)
    ensures c in EarlyCauses(f) <==> !c.Happened? && Backs(f, c)
  {
    MissCausesHave(Sorted(f.metrics.Keys), f.metrics, c);
    FaultCausesHave(f.faults, c);
    DropCausesHave(f.drops, c);
  }

  lemma InOneOf<T>(a: seq<T>, b: seq<T>, c: seq<T>, d: seq<T>, e: seq<T>, x: T)
    ensures x in a + b + c + d + e <==> x in a || x in b || x in c || x in d || x in e
  {
  }

  lemma ListedHave(f: Findings, kind: Kind, c: Cause)
    ensures c in Listed(f, kind) <==> c.Happened? && c.kind == kind && Backs(f, c)
  {
    TaskCausesHave(kind, Sorted(TroubleOf(f, kind).Keys), TroubleOf(f, kind), c);
  }

  lemma OnlyTroubleIsBacked(f: Findings, c: Cause)
    requires c.Happened? && Backs(f, c)
    ensures c.kind in [OnTimeout, OnRecovery, OnFailure, OnSkip]
  {
  }

  lemma InNamedCauses(f: Findings, c: Cause)
    ensures c in NamedCauses(f) <==>
      || c in EarlyCauses(f) || c in Listed(f, OnTimeout) || c in Listed(f, OnRecovery)
      || c in Listed(f, OnFailure) || c in Listed(f, OnSkip)
  {
    InOneOf(EarlyCauses(f), Listed(f, OnTimeout), Listed(f, OnRecovery), Listed(f, OnFailure), Listed(f, OnSkip), c);
  }

  /** The named causes are exactly those that the findings back. */
  lemma NamedCausesHave(f: Findings, c: Cause)
    ensures c in NamedCauses(f) <==> Backs(f, c)
  {
    InNamedCauses(f, c);
    EarlyCausesHave(f, c);
    if c.Happened? {
      ListedHave(f, c.kind, c);
      if Backs(f, c) {
        OnlyTroubleIsBacked(f, c);
      }
    }
    forall kind ensures c in Listed(f, kind) ==> c.Happened? && Backs(f, c) {
      ListedHave(f, kind, c);
    }
  }

  /** A report lists the named causes; only when there are none does a stand-in sentence appear. */
  lemma CausesExactly(f: Findings, c: Cause)
    ensures c in RootCauses(f) <==>
      match c
      case NothingDetected => f.Health().NORMAL? && NamedCauses(f) == []
      case NoSingleCause => !f.Health().NORMAL? && NamedCauses(f) == []
      case _ => Backs(f, c)
  {
    NamedCausesHave(f, c);
  }

  /** Named trouble: anything that a root cause has a sentence for. */
  predicate Unnamed(r: Record) {
    (r.kind.OnFault? && r.faultType.UnlistedFault?) || (r.kind.OnDropped? && r.reason.UnlistedReason?)
  }

  predicate Named(r: Record) {
    !Quiet(r) && !Unnamed(r)
  }

  lemma NamedRecordsGiveCauses(records: seq<Record>, r: Record)
    requires r in records && Named(r)
    ensures NamedCauses(FindingsOf(records)) != []
  {
    var f := FindingsOf(records);
    var c :| Backs(f, c) by {
      if Severe(r) {
        TasksOfHave(records, r.kind, r.task);
        assert Backs(f, Happened(r.kind, r.task, TroubleOf(f, r.kind)[r.task]));
      } else if r.kind.OnFault? {
        FaultTypesHave(records, r.faultType);
        assert Backs(f, FaultActive(r.faultType));
      } else if r.kind.OnDropped? {
        DropReasonsHave(records, r.reason);
        assert Backs(f, if r.reason.QueueFull? then QueuesFull else IntentionalDrops);
      } else {
        MentionedMeans(records, r.task);
        GatheredReports(records, r.task);
        assert Backs(f, MissedDeadline(r.task, MissesFor(f.metrics, r.task)));
      }
    }
    NamedCausesHave(f, c);
  }

  lemma {:induction false} TasksOfHave(records: seq<Record>, kind: Kind, task: string)
    ensures task in TasksOf(records, kind) <==> exists r <- records :: r.kind == kind && r.task == task
  {
    if records != [] {
      var init, last := records[..|records| - 1], records[|records| - 1];
      TasksOfHave(init, kind, task);
      assert records == init + [last];
    }
  }

  lemma CausesComeFromRecords(records: seq<Record>, c: Cause) returns (r: Record)
    requires Backs(FindingsOf(records), c)
    ensures r in records && Named(r)
  {
    if c.MissedDeadline? {
      GatheredReports(records, c.task);
      r :| r in records && Speaks(r) && r.task == c.task && r.deadlineMissCount == c.times;
    } else if c.FaultActive? {
      FaultTypesHave(records, c.fault);
      r :| r in records && r.kind.OnFault? && r.faultType == c.fault;
    } else if c.Happened? {
      TasksOfHave(records, c.kind, c.task);
      r :| r in records && r.kind == c.kind && r.task == c.task;
    } else {
      var reason := if c.QueuesFull? then QueueFull else FaultInjectedDrop;
      DropReasonsHave(records, reason);
      r :| r in records && r.kind.OnDropped? && r.reason == reason;
    }
  }

  /** The report falls back to "no single root cause" exactly on logs whose only trouble is of a fault type
      or drop reason it has no sentence for; it says that nothing was detected exactly on quiet logs. */
  lemma FallbackExactly(records: seq<Record>)
    ensures
      var causes := ReportOf(records).causes;
      && (NoSingleCause in causes <==>
            (exists r <- records :: Unnamed(r)) && forall r <- records :: Quiet(r) || Unnamed(r))
      && (NothingDetected in causes <==> forall r <- records :: Quiet(r))
  {
    var f := FindingsOf(records);
    CausesExactly(f, NoSingleCause);
    CausesExactly(f, NothingDetected);
    NormalExactly(records);
    if NamedCauses(f) != [] {
      NamedCausesHave(f, NamedCauses(f)[0]);
      var r := CausesComeFromRecords(records, NamedCauses(f)[0]);
    }
    if r :| r in records && Named(r) {
      NamedRecordsGiveCauses(records, r);
    }
  }
}
