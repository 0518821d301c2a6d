/** The texts and numbers in the log of a run: which they can be, and exactly when the log's file can be loaded
    again. */
module RunTexts {
  import opened Common
  import opened EventLog
  import opened FaultInjector
  import opened JsonText
  import opened LogFields
  import opened LogFile
  import opened LogRecords
  import opened Machine
  import opened MessageBus
  import opened PeriodicTask
  import opened PlainText
  import opened ReportWords
  import opened RunFacts
  import opened RuntimeConfig
  import opened SteadyClock
  import opened TruthfulMetrics
  import opened Watchdog

  // ---------- what a run writes ----------

  function TaskNames(tasks: seq<TaskState>): set<string> {
    set x | 0 <= x < |tasks| :: tasks[x].config.name
  }

  lemma NamesStay(p: Plan, first: World, run: seq<Label>)
    requires Initial(p, first) && Legal(p, first, run)
    ensures TaskNames(Reach(p, first, run).sys.tasks) == TaskNames(first.sys.tasks)
  {
    ShapeHolds(p, first, run);
    SameNames(Reach(p, first, run).sys.tasks, first.sys.tasks);
  }

  lemma SameNames(a: seq<TaskState>, b: seq<TaskState>)
    requires |a| == |b| && forall x | 0 <= x < |a| :: a[x].config == b[x].config
    ensures TaskNames(a) == TaskNames(b)
  {
    forall name ensures name in TaskNames(a) <==> name in TaskNames(b) {
      if name in TaskNames(a) {
        var x :| 0 <= x < |a| && a[x].config.name == name;
        assert b[x].config.name in TaskNames(b);
      }
      if name in TaskNames(b) {
        var x :| 0 <= x < |b| && b[x].config.name == name;
        assert a[x].config.name in TaskNames(a);
      }
    }
  }

  /** The task an event is about. */
  function TaskIn(e: Event): Option<string> {
    match e
    case TaskStarted(task, _, _, _) => Some(task)
    case TaskCompleted(task, _, _, _, _, _, _) => Some(task)
    case TaskFailed(task) => Some(task)
    case TaskSkipped(task) => Some(task)
    case WatchdogTimeout(task, _, _) => Some(task)
    case TaskRecovered(task) => Some(task)
    case RuntimeSummary(task, _, _) => Some(task)
    case _ => None
  }

  predicate OnBus(name: string) {
    name == CONTROL_TASK || name == NETWORK_TASK || name == LOGGER_TASK
  }

  predicate BetweenTasks(source: string, target: string) {
    OnBus(source) && OnBus(target)
  }

  /** An event that names only these tasks and the fixed ends of messages. */
  predicate Tame(e: Event, names: set<string>) {
    && ListedEvent(e)
    && !e.RuntimeStarted? && !e.SchedulerStarted?
    && (TaskIn(e).Some? ==> TaskIn(e).value in names)
    && (e.TaskCompleted? ==> 0 <= e.observedDurationMs)
    && match e
       case MessageSent(source, target, _, _, _, _) => BetweenTasks(source, target)
       case MessageReceived(source, target, _, _, _) => BetweenTasks(source, target)
       case MessageDropped(source, target, _, _, _, _, _) => BetweenTasks(source, target)
       case FaultInjected(_, target, LostMessage(source, _, _)) => BetweenTasks(source, target)
       case FaultInjected(_, target, _) => target in names
       case _ => true
  }

  ghost predicate AllTame(events: seq<Event>, names: set<string>) {
    forall e <- events :: Tame(e, names)
  }

  ghost predicate TameQueues(queues: Queues) {
    forall task <- queues :: forall m <- queues[task].messages :: BetweenTasks(m.source, m.target)
  }

  ghost predicate CountersInLog(s: State) {
    forall x | 0 <= x < |s.tasks| :: s.tasks[x].deadlineMissCount <= s.tasks[x].runCount <= |s.log|
  }

  /** The log is its header, followed by tame events only. */
  ghost predicate TameBehind(log: seq<Event>, header: seq<Event>, names: set<string>) {
    header <= log && AllTame(log[|header|..], names)
  }

  lemma ExtraIsNatural(faults: FaultConfig, task: string, ms: int)
    requires ValidFaults(faults)
    ensures 0 <= SlowExtraMs(faults, task, ms) && 0 <= CpuSpikeExtraMs(faults, task, ms)
  {
  }

  lemma RunPartIsTame(p: Plan, s: State, i: nat, r: Readings, names: set<string>)
    requires i < |s.tasks| && WillRun(p, s, i, r) && Plausible(p, s, i, r) && ValidFaults(p.faults)
    requires s.tasks[i].config.name in names && ValidTask(s.tasks[i].config)
    ensures AllTame(RunPart(p, s, i, r), names)
  {
    ExtraIsNatural(p.faults, s.tasks[i].config.name, r.fault.ms);
  }

  lemma AlertIsTame(p: Plan, s: State, i: nat, r: Readings, names: set<string>)
    requires i < |s.tasks| && s.tasks[i].config.name in names
    ensures AllTame(AlertEvents(AlertIn(p, s, i, r)), names)
  {
  }

  lemma ExchangeIsTame(faults: FaultConfig, queues: Queues, nextId: nat, task: string, ms: int, roll: int, names: set<string>)
    requires TameQueues(queues)
    ensures
      var x := Messaging(faults, queues, nextId, task, ms, roll);
      AllTame(x.events, names) && TameQueues(x.queues)
  {
  }

  lemma TameFour(a: seq<Event>, b: seq<Event>, c: seq<Event>, d: seq<Event>, header: seq<Event>, names: set<string>)
    requires TameBehind(a, header, names) && AllTame(b, names) && AllTame(c, names) && AllTame(d, names)
    ensures TameBehind(a + b + c + d, header, names)
  {
    TameMore(a, b, header, names);
    TameMore(a + b, c, header, names);
    TameMore(a + b + c, d, header, names);
  }

  lemma TameMore(log: seq<Event>, more: seq<Event>, header: seq<Event>, names: set<string>)
    requires TameBehind(log, header, names) && AllTame(more, names)
    ensures TameBehind(log + more, header, names)
  {
    assert (log + more)[|header|..] == log[|header|..] + more;
  }

  lemma TameStep(p: Plan, s: State, i: nat, r: Readings, header: seq<Event>, names: set<string>)
    requires i < |s.tasks| && Plausible(p, s, i, r) && ValidFaults(p.faults)
    requires s.tasks[i].config.name in names && ValidTask(s.tasks[i].config)
    requires TameBehind(s.log, header, names) && TameQueues(s.queues)
    ensures TameBehind(Execute(p, s, i, r).log, header, names) && TameQueues(Execute(p, s, i, r).queues)
  {
    if WillRun(p, s, i, r) {
      RunWrites(p, s, i, r);
      RunPartIsTame(p, s, i, r, names);
      AlertIsTame(p, s, i, r, names);
      ExchangeIsTame(p.faults, s.queues, s.nextId, s.tasks[i].config.name, r.send.ms, r.roll, names);
      TameFour(s.log, RunPart(p, s, i, r), AlertEvents(AlertIn(p, s, i, r)), ExchangeIn(p, s, i, r).events, header, names);
    } else {
      OtherTameStep(p, s, i, r, header, names);
    }
  }

  lemma OtherTameStep(p: Plan, s: State, i: nat, r: Readings, header: seq<Event>, names: set<string>)
    requires i < |s.tasks| && !WillRun(p, s, i, r) && s.tasks[i].config.name in names
    requires TameBehind(s.log, header, names)
    ensures TameBehind(Execute(p, s, i, r).log, header, names) && Execute(p, s, i, r).queues == s.queues
  {
    var name := s.tasks[i].config.name;
    TameMore(s.log, if WillSkip(s, i) then [TaskSkipped(name)] else [FaultInjected(TaskCrash, name, SimulatedCrash), TaskFailed(name)],
      header, names);
  }

  lemma CountersStep(p: Plan, s: State, i: nat, r: Readings)
    requires i < |s.tasks| && CountersInLog(s)
    ensures CountersInLog(Execute(p, s, i, r)) && |s.log| < |Execute(p, s, i, r).log|
  {
    ExecuteFrame(p, s, i, r);
    if WillRun(p, s, i, r) {
      RunWrites(p, s, i, r);
      assert |RunPart(p, s, i, r)| >= 2;
    }
  }

  /** At every moment of a run the log names only the run's own tasks and the fixed ends of messages, with fault
      kinds and drop reasons known to the analyzers; no counter exceeds the length of the log. */
  lemma {:induction false} LogIsTame(p: Plan, first: World, run: seq<Label>)
    requires Initial(p, first) && Legal(p, first, run)
    ensures
      var s := Reach(p, first, run).sys;
      && TameBehind(s.log, first.sys.log, TaskNames(first.sys.tasks))
      && TameQueues(s.queues)
      && CountersInLog(s)
  {
    if run != [] {
      LogIsTame(p, first, run[..|run| - 1]);
      ShapeHolds(p, first, run[..|run| - 1]);
      LastStep(p, first, run);
      var w, l := Reach(p, first, run[..|run| - 1]), run[|run| - 1];
      if l.Dispatch? {
        var i := w.pending[0];
        assert w.sys.tasks[i].config == first.sys.tasks[i].config;
        TameStep(p, w.sys, i, l.readings, first.sys.log, TaskNames(first.sys.tasks));
        CountersStep(p, w.sys, i, l.readings);
      }
    }
  }

  lemma {:induction false} SummariesAreTame(tasks: seq<TaskState>, names: set<string>)
    requires forall x | 0 <= x < |tasks| :: tasks[x].config.name in names
    ensures AllTame(Summaries(tasks), names)
  {
    if tasks != [] {
      SummariesAreTame(tasks[..|tasks| - 1], names);
    }
  }

  /** The same of the complete log. */
  lemma CompleteLogIsTame(p: Plan, first: World, run: seq<Label>)
    requires Initial(p, first) && Legal(p, first, run)
    ensures TameBehind(CompleteLog(Reach(p, first, run).sys), first.sys.log, TaskNames(first.sys.tasks))
  {
    var s, names := Reach(p, first, run).sys, TaskNames(first.sys.tasks);
    LogIsTame(p, first, run);
    NamesStay(p, first, run);
    SummariesAreTame(s.tasks, names);
    TameFour(s.log, [SchedulerFinished], Summaries(s.tasks), [RuntimeFinished], first.sys.log, names);
  }

  lemma TameOrHeader(log: seq<Event>, header: seq<Event>, names: set<string>, e: Event)
    requires TameBehind(log, header, names) && e in log
    ensures e in header || Tame(e, names)
  {
    SplitAt(log, |header|);
  }

  // ---------- what can be loaded ----------

  lemma KeyCharsEncode(s: string)
    requires KeyChars(s)
    ensures Encodable(s)
  {
  }

  predicate EncodableEntry(entry: LogFields.Entry) {
    EncodableValue(entry.value)
  }

  predicate SaysStart(f: Field) {
    || f.TimestampField? || f.EventTypeField? || f.SeverityField? || f.TaskField?
    || f.SimulationNameField? || f.DurationSecondsField? || f.SchedulerModeField? || f.TaskCountField?
  }

  predicate SaysTask(f: Field) {
    f.PeriodField? || f.DeadlineField? || f.PriorityField? || f.ReasonField? || f.FaultTypeField?
  }

  predicate SaysMessage(f: Field) {
    || f.SourceTaskField? || f.TargetTaskField? || f.MessageTypeField? || f.SequenceIdField?
    || f.QueueDepthField? || f.QueueLimitField? || f.RemainingDepthField?
  }

  lemma StartFieldChars(f: Field)
    requires SaysStart(f)
    ensures KeyChars(FieldText(f))
  {
  }

  lemma TaskFieldChars(f: Field)
    requires SaysTask(f)
    ensures KeyChars(FieldText(f))
  {
  }

  lemma MessageFieldChars(f: Field)
    requires SaysMessage(f)
    ensures KeyChars(FieldText(f))
  {
  }

  lemma KeyCharsConcat(a: string, b: string)
    requires KeyChars(a) && KeyChars(b)
    ensures KeyChars(a + b)
  {
  }

  lemma ConfiguredFieldChars()
    ensures KeyChars(FieldText(ConfiguredTimeField))
  {
    assert KeyChars("configured_execution");
    assert KeyChars("_time_ms");
    KeyCharsConcat("configured_execution", "_time_ms");
  }

  lemma OtherFieldChars(f: Field)
    requires !f.ConfiguredTimeField?
    requires !SaysStart(f) && !SaysTask(f) && !SaysMessage(f)
    ensures KeyChars(FieldText(f))
  {
  }

  lemma FieldTextsEncode(f: Field)
    ensures Encodable(FieldText(f))
  {
    if SaysStart(f) {
      StartFieldChars(f);
    } else if SaysTask(f) {
      TaskFieldChars(f);
    } else if SaysMessage(f) {
      MessageFieldChars(f);
    } else if f.ConfiguredTimeField? {
      ConfiguredFieldChars();
    } else {
      OtherFieldChars(f);
    }
    KeyCharsEncode(FieldText(f));
  }

  lemma OneMoreMember(init: seq<Member>, last: Member)
    ensures EncodableRecord(init + [last]) <==> EncodableRecord(init) && EncodableMember(last)
  {
    assert forall member <- init :: member in init + [last];
    assert last in init + [last];
  }

  ghost predicate EncodableEntries(entries: seq<LogFields.Entry>) {
    forall entry <- entries :: EncodableEntry(entry)
  }

  lemma OneMoreEntry(init: seq<LogFields.Entry>, last: LogFields.Entry)
    ensures EncodableEntries(init + [last]) <==> EncodableEntries(init) && EncodableEntry(last)
  {
    assert forall entry <- init :: entry in init + [last];
    assert last in init + [last];
  }

  lemma EncodeOneMore(members: seq<Member>, m: Member, init: seq<LogFields.Entry>, last: LogFields.Entry)
    requires EncodableRecord(members) <==> EncodableEntries(init)
    requires Encodable(m.name) && m.value == last.value
    ensures EncodableRecord(members + [m]) <==> EncodableEntries(init + [last])
  {
    OneMoreEntry(init, last);
    OneMoreMember(members, m);
  }

  lemma {:induction false} NamedByEncode(entries: seq<LogFields.Entry>, text: Field -> string)
    requires forall f: Field :: Encodable(text(f))
    ensures EncodableRecord(NamedBy(entries, text)) <==> EncodableEntries(entries)
  {
    if entries != [] {
      var init, last := entries[..|entries| - 1], entries[|entries| - 1];
      NamedByEncode(init, text);
      EncodeOneMore(NamedBy(init, text), Member(text(last.field), last.value), init, last);
      assert entries == init + [last];
    }
  }

  lemma NamedEncode(entries: seq<LogFields.Entry>)
    ensures EncodableRecord(Named(entries)) <==> EncodableEntries(entries)
  {
    forall f: Field ensures Encodable(FieldText(f)) {
      FieldTextsEncode(f);
    }
    NamedByEncode(entries, FieldText);
  }

  predicate IsEarlyKind(kind: Kind) {
    || kind.OnRuntimeStart? || kind.OnSchedulerStart? || kind.OnTaskStart? || kind.OnCompletion? || kind.OnSent?
    || kind.OnReceived? || kind.OnDropped?
  }

  lemma EarlyKindChars(kind: Kind)
    requires IsEarlyKind(kind)
    ensures KeyChars(KindName(kind))
  {
  }

  lemma LateKindChars(kind: Kind)
    requires !IsEarlyKind(kind) && !kind.OnOther?
    ensures KeyChars(KindName(kind))
  {
  }

  lemma KindChars(kind: Kind)
    requires !kind.OnOther?
    ensures KeyChars(KindName(kind))
  {
    if IsEarlyKind(kind) {
      EarlyKindChars(kind);
    } else {
      LateKindChars(kind);
    }
  }

  lemma LevelChars(level: Level)
    requires !level.OtherLevel?
    ensures KeyChars(LevelName(level))
  {
  }

  lemma FaultChars(fault: FaultKind)
    requires !fault.UnlistedFault?
    ensures KeyChars(FaultName(fault))
  {
  }

  lemma ReasonChars(reason: DropReason)
    requires !reason.UnlistedReason?
    ensures KeyChars(ReasonName(reason))
  {
  }

  lemma ContentChars(content: Content)
    ensures KeyChars(ContentName(content))
  {
  }

  lemma BusChars(name: string)
    requires OnBus(name)
    ensures KeyChars(name)
  {
  }

  lemma CrashTextsEncode()
    ensures Encodable("simulated_task_crash") && Encodable("task_in_failed_state")
  {
    assert KeyChars("simulated_task_crash");
    assert KeyChars("task_in_failed_state");
  }

  lemma AlertTextsEncode()
    ensures Encodable("consecutive_deadline_misses") && Encodable("simulated_task_reset")
  {
    assert KeyChars("consecutive_deadline_misses");
    assert KeyChars("simulated_task_reset");
  }

  ghost predicate AllEncodable(names: set<string>) {
    forall name <- names :: Encodable(name)
  }

  predicate EncodableStart(e: Event) {
    match e
    case RuntimeStarted(name, _, mode, _) => Encodable(name) && Encodable(mode)
    case SchedulerStarted(mode, _) => Encodable(mode)
    case _ => true
  }

  lemma LeadEncodes(line: Stamped)
    ensures EncodableEntries(Lead(line.timestampMs, Read(line).kind, Read(line).level))
  {
    ReadIsListed(line);
    KindChars(Read(line).kind);
    KeyCharsEncode(KindName(Read(line).kind));
    LevelChars(Read(line).level);
    KeyCharsEncode(LevelName(Read(line).level));
  }

  lemma MessageEncodes(source: string, target: string, content: Content)
    requires BetweenTasks(source, target)
    ensures Encodable(source) && Encodable(target) && Encodable(ContentName(content))
  {
    BusChars(source);
    KeyCharsEncode(source);
    BusChars(target);
    KeyCharsEncode(target);
    ContentChars(content);
    KeyCharsEncode(ContentName(content));
  }

  lemma FaultEncodes(fault: FaultKind)
    requires !fault.UnlistedFault?
    ensures Encodable(FaultName(fault))
  {
    FaultChars(fault);
    KeyCharsEncode(FaultName(fault));
  }

  lemma ReasonEncodes(reason: DropReason)
    requires !reason.UnlistedReason?
    ensures Encodable(ReasonName(reason))
  {
    ReasonChars(reason);
    KeyCharsEncode(ReasonName(reason));
  }

  predicate OfMessage(e: Event) {
    e.MessageSent? || e.MessageReceived? || e.MessageDropped?
  }

  lemma MessageDetailsEncode(e: Event, names: set<string>)
    requires Tame(e, names) && OfMessage(e)
    ensures EncodableEntries(Details(e))
  {
    MessageEncodes(e.source, e.target, e.content);
    if e.MessageDropped? {
      ReasonEncodes(e.reason);
    }
  }

  lemma FaultDetailsEncode(e: Event, names: set<string>)
    requires Tame(e, names) && AllEncodable(names) && e.FaultInjected?
    ensures EncodableEntries(Details(e))
  {
    FaultEncodes(e.kind);
    match e.detail
    case ExtraExecution(_) =>
    case SimulatedCrash => CrashTextsEncode();
    case LostMessage(source, content, _) =>
      MessageEncodes(source, e.target, content);
      ReasonEncodes(FaultInjectedDrop);
  }

  lemma TaskDetailsEncode(e: Event, names: set<string>)
    requires Tame(e, names) && AllEncodable(names) && !e.FaultInjected? && !OfMessage(e)
    ensures EncodableEntries(Details(e))
  {
    CrashTextsEncode();
    AlertTextsEncode();
    FaultEncodes(TaskCrash);
  }

  lemma DetailsEncode(e: Event, names: set<string>)
    requires Tame(e, names) && AllEncodable(names)
    ensures EncodableEntries(Details(e))
  {
    if OfMessage(e) {
      MessageDetailsEncode(e, names);
    } else if e.FaultInjected? {
      FaultDetailsEncode(e, names);
    } else {
      TaskDetailsEncode(e, names);
    }
  }

  lemma StartEncodes(e: Event)
    requires (e.RuntimeStarted? || e.SchedulerStarted?) && EncodableStart(e)
    ensures EncodableEntries(Details(e))
  {
  }

  lemma LineEncodes(line: Stamped, header: seq<Event>, names: set<string>)
    requires line.event in header || Tame(line.event, names)
    requires Header(header) && (forall e <- header :: EncodableStart(e)) && forall name <- names :: Encodable(name)
    ensures ListedEvent(line.event) && EncodableRecord(FieldsOf(line).members)
  {
    LeadEncodes(line);
    if line.event in header {
      StartEncodes(line.event);
    } else {
      DetailsEncode(line.event, names);
    }
    NamedEncode(EntriesOf(line));
  }

  lemma {:induction false} FieldsOfLines(lines: seq<Stamped>, line: Stamped)
    requires line in lines
    ensures FieldsOf(line) in AllFields(lines)
  {
    var init, last := lines[..|lines| - 1], lines[|lines| - 1];
    if line != last {
      assert lines == init + [last];
      FieldsOfLines(init, line);
    }
  }

  /** The log of a run can be loaded exactly if every task's name can be encoded, given that the texts of its
      header can. */
  lemma LoadableExactly(p: Plan, first: World, run: seq<Label>, lines: seq<Stamped>)
    requires Initial(p, first) && Legal(p, first, run) && Writes(lines, Reach(p, first, run).sys)
    requires forall e <- first.sys.log :: EncodableStart(e)
    ensures Loaded(LinesOf(FileText(AllFields(lines))), 1).Ok? <==> AllEncodable(TaskNames(first.sys.tasks))
    ensures AllEncodable(TaskNames(first.sys.tasks)) ==> Loadable(lines)
  {
    if AllEncodable(TaskNames(first.sys.tasks)) {
      CompleteLogIsTame(p, first, run);
      forall line <- lines ensures ListedEvent(line.event) && EncodableRecord(FieldsOf(line).members) {
        EventOfLine(lines, line);
        TameOrHeader(Events(lines), first.sys.log, TaskNames(first.sys.tasks), line.event);
        LineEncodes(line, first.sys.log, TaskNames(first.sys.tasks));
      }
      FileTellsTheRecords(lines);
    } else {
      var s := Reach(p, first, run).sys;
      NamesStay(p, first, run);
      FileRoundTrip(AllFields(lines));
      var x :| 0 <= x < |s.tasks| && !Encodable(s.tasks[x].config.name);
      SummaryIsRaw(lines, s, x);
    }
  }

  lemma EventOfLine(lines: seq<Stamped>, line: Stamped)
    requires line in lines
    ensures line.event in Events(lines)
  {
    var i :| 0 <= i < |lines| && lines[i] == line;
    assert Events(lines)[i] == line.event;
  }

  /** A task's name that cannot be encoded spoils its closing record. */
  lemma RawSummary(line: Stamped)
    requires line.event.RuntimeSummary? && !Encodable(line.event.task)
    ensures !EncodableRecord(FieldsOf(line).members)
  {
    NamedEncode(EntriesOf(line));
    assert Details(line.event)[0] in EntriesOf(line) && !EncodableEntry(Details(line.event)[0]);
  }

  lemma SummaryIsRaw(lines: seq<Stamped>, s: State, x: nat)
    requires Writes(lines, s) && x < |s.tasks| && !Encodable(s.tasks[x].config.name)
    ensures exists record <- AllFields(lines) :: !EncodableRecord(record.members)
  {
    var t := s.tasks[x];
    var e := RuntimeSummary(t.config.name, t.runCount, t.deadlineMissCount);
    SummariesHave(s.tasks, e);
    assert Sums(s.tasks[x], e);
    InCompleteLog(s, e);
    var line := LineOfEvent(lines, e);
    RawSummary(line);
    FieldsOfLines(lines, line);
  }
}
