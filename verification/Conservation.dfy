/** Every message id ends up in exactly one place. */
module Conservation {
  import opened Common
  import opened EventLog
  import opened Machine
  import opened MessageBus
  import opened PeriodicTask
  import opened RunFacts
  import opened RuntimeConfig

  /** The ids of the messages that met each fate, in log order. */
  datatype Ledger = Ledger(sent: seq<nat>, received: seq<nat>, refused: seq<nat>, lost: seq<nat>)

  function Book(l: Ledger, e: Event): Ledger {
    match e
    case MessageSent(_, _, _, id, _, _) => l.(sent := l.sent + [id])
    case MessageReceived(_, _, _, id, _) => l.(received := l.received + [id])
    case MessageDropped(_, _, _, id, _, _, QueueFull) => l.(refused := l.refused + [id])
    case MessageDropped(_, _, _, id, _, _, FaultInjectedDrop) => l.(lost := l.lost + [id])
    case _ => l
  }

  function LedgerOf(log: seq<Event>): Ledger {
    if log == [] then Ledger([], [], [], []) else Book(LedgerOf(log[..|log| - 1]), log[|log| - 1])
  }

  predicate AboutMessage(e: Event) {
    e.MessageSent? || e.MessageReceived? || e.MessageDropped?
  }

  lemma {:induction false} LedgerIgnores(log: seq<Event>, more: seq<Event>)
    requires forall e <- more :: !AboutMessage(e)
    ensures LedgerOf(log + more) == LedgerOf(log)
  {
    if more == [] {
      assert log + more == log;
    } else {
      assert (log + more)[..|log + more| - 1] == log + more[..|more| - 1];
      LedgerIgnores(log, more[..|more| - 1]);
      assert !AboutMessage(more[|more| - 1]);
    }
  }

  lemma LedgerBooksLast(log: seq<Event>, more: seq<Event>)
    requires more != [] && forall e <- more[..|more| - 1] :: !AboutMessage(e)
    ensures LedgerOf(log + more) == Book(LedgerOf(log), more[|more| - 1])
  {
    assert (log + more)[..|log + more| - 1] == log + more[..|more| - 1];
    LedgerIgnores(log, more[..|more| - 1]);
  }

  function MessageIds(messages: seq<Message>): seq<nat> {
    if messages == [] then [] else MessageIds(messages[..|messages| - 1]) + [messages[|messages| - 1].sequenceId]
  }

  lemma {:induction false} MessageIdsSplit(m: Message, rest: seq<Message>)
    ensures MessageIds([m] + rest) == [m.sequenceId] + MessageIds(rest)
  {
    if rest == [] {
      assert [m] + rest == [m];
      assert [m][..0] == [];
    } else {
      var init, last := rest[..|rest| - 1], rest[|rest| - 1];
      assert ([m] + rest)[..|rest|] == [m] + init;
      MessageIdsSplit(m, init);
      ConcatAssociative([m.sequenceId], MessageIds(init), [last.sequenceId]);
    }
  }

  function QueuedIds(queues: Queues): seq<nat> {
    if LOGGER_TASK in queues then MessageIds(queues[LOGGER_TASK].messages) else []
  }

  /** How often an id occurs. */
  function Times(ids: seq<nat>, id: nat): nat {
    if ids == [] then 0
    else Times(ids[..|ids| - 1], id) + (if ids[|ids| - 1] == id then 1 else 0)
  }

  lemma TimesExtended(ids: seq<nat>, last: nat, id: nat)
    ensures Times(ids + [last], id) == Times(ids, id) + if last == id then 1 else 0
  {
    assert (ids + [last])[..|ids|] == ids;
  }

  lemma {:induction false} TimesConcat(a: seq<nat>, b: seq<nat>, id: nat)
    ensures Times(a + b, id) == Times(a, id) + Times(b, id)
  {
    if b == [] {
      assert a + b == a;
    } else {
      assert (a + b)[..|a + b| - 1] == a + b[..|b| - 1];
      TimesConcat(a, b[..|b| - 1], id);
    }
  }

  function RunsOf(tasks: seq<TaskState>, name: string): nat {
    if tasks == [] then 0
    else
      var last := tasks[|tasks| - 1];
      RunsOf(tasks[..|tasks| - 1], name) + (if last.config.name == name then last.runCount else 0)
  }

  lemma {:induction false} RunsOfUpdate(tasks: seq<TaskState>, i: nat, t: TaskState, name: string)
    requires i < |tasks| && t.config == tasks[i].config
    ensures RunsOf(tasks[i := t], name) ==
      RunsOf(tasks, name) + if t.config.name == name then t.runCount - tasks[i].runCount else 0
  {
    var n := |tasks| - 1;
    if i < n {
      assert tasks[i := t][..n] == tasks[..n][i := t];
      RunsOfUpdate(tasks[..n], i, t, name);
    } else {
      assert tasks[i := t][..n] == tasks[..n];
    }
  }

  /** The ids 1..n, each in exactly one of the three fates of a sent message. */
  ghost predicate Partitioned(sent: seq<nat>, refused: seq<nat>, lost: seq<nat>, n: int) {
    forall id: nat :: Times(sent, id) + Times(refused, id) + Times(lost, id) == if 1 <= id <= n then 1 else 0
  }

  /** Only the logger task has mail, and no queue holds more than its limit. */
  ghost predicate OrderlyQueues(queues: Queues) {
    WithinLimits(queues) && forall name <- queues :: name != LOGGER_TASK ==> queues[name].messages == []
  }

  /** What is known about messages when these are the queues, the next id and the ledger. */
  ghost predicate Balanced(queues: Queues, nextId: nat, l: Ledger) {
    && nextId > 0
    && OrderlyQueues(queues)
    && l.sent == l.received + QueuedIds(queues)
    && Partitioned(l.sent, l.refused, l.lost, nextId - 1)
  }

  lemma PartitionGrows(l: Ledger, n: nat)
    requires Partitioned(l.sent, l.refused, l.lost, n)
    ensures Partitioned(l.sent + [n + 1], l.refused, l.lost, n + 1)
    ensures Partitioned(l.sent, l.refused + [n + 1], l.lost, n + 1)
    ensures Partitioned(l.sent, l.refused, l.lost + [n + 1], n + 1)
  {
    forall id: nat
      ensures Times(l.sent + [n + 1], id) == Times(l.sent, id) + if n + 1 == id then 1 else 0
      ensures Times(l.refused + [n + 1], id) == Times(l.refused, id) + if n + 1 == id then 1 else 0
      ensures Times(l.lost + [n + 1], id) == Times(l.lost, id) + if n + 1 == id then 1 else 0
    {
      TimesExtended(l.sent, n + 1, id);
      TimesExtended(l.refused, n + 1, id);
      TimesExtended(l.lost, n + 1, id);
    }
  }

  lemma QueuesAfterSend(queues: Queues, m: Message)
    requires OrderlyQueues(queues) && m.target == LOGGER_TASK
    ensures OrderlyQueues(Sent(queues, m))
    ensures QueuedIds(Sent(queues, m)) ==
      if HasRoom(queues, LOGGER_TASK) then QueuedIds(queues) + [m.sequenceId] else QueuedIds(queues)
  {
    if HasRoom(queues, LOGGER_TASK) {
      var q := queues[LOGGER_TASK].messages;
      assert (q + [m])[..|q|] == q;
    }
  }

  lemma QueuesAfterReceive(queues: Queues)
    requires OrderlyQueues(queues) && HasMail(queues, LOGGER_TASK)
    ensures OrderlyQueues(Received(queues, LOGGER_TASK))
    ensures QueuedIds(queues) ==
      [queues[LOGGER_TASK].messages[0].sequenceId] + QueuedIds(Received(queues, LOGGER_TASK))
  {
    var q := queues[LOGGER_TASK].messages;
    assert q == [q[0]] + q[1..];
    MessageIdsSplit(q[0], q[1..]);
  }

  lemma SendBooks(faults: FaultConfig, queues: Queues, nextId: nat, log: seq<Event>, m: Message, ms: int, roll: int)
    requires m.sequenceId == nextId
    ensures
      var x := SendExchange(faults, queues, nextId, m, ms, roll);
      var l := LedgerOf(log);
      LedgerOf(log + x.events) ==
        match x.traffic
        case Accepted(_) => l.(sent := l.sent + [nextId])
        case RefusedFull(_) => l.(refused := l.refused + [nextId])
        case _ => l.(lost := l.lost + [nextId])
  {
    var x := SendExchange(faults, queues, nextId, m, ms, roll);
    if x.traffic.LostToFault? {
      assert x.events[..1] == [x.events[0]];
    } else {
      assert x.events[..0] == [];
    }
    LedgerBooksLast(log, x.events);
  }

  /** One more id, in any of the three fates, keeps the books balanced. */
  lemma BooksBalance(queues: Queues, nextId: nat, l: Ledger)
    requires Balanced(queues, nextId, l)
    ensures l.sent + [nextId] == l.received + (QueuedIds(queues) + [nextId])
    ensures Partitioned(l.sent + [nextId], l.refused, l.lost, nextId)
    ensures Partitioned(l.sent, l.refused + [nextId], l.lost, nextId)
    ensures Partitioned(l.sent, l.refused, l.lost + [nextId], nextId)
  {
    PartitionGrows(l, nextId - 1);
    ConcatAssociative(l.received, QueuedIds(queues), [nextId]);
  }

  lemma SendBalanced(faults: FaultConfig, queues: Queues, nextId: nat, log: seq<Event>, m: Message, ms: int, roll: int)
    requires Balanced(queues, nextId, LedgerOf(log)) && m.sequenceId == nextId && m.target == LOGGER_TASK
    ensures
      var x := SendExchange(faults, queues, nextId, m, ms, roll);
      Balanced(x.queues, x.nextId, LedgerOf(log + x.events))
  {
    SendBooks(faults, queues, nextId, log, m, ms, roll);
    QueuesAfterSend(queues, m);
    BooksBalance(queues, nextId, LedgerOf(log));
  }

  lemma ReceiveBalanced(queues: Queues, nextId: nat, log: seq<Event>)
    requires Balanced(queues, nextId, LedgerOf(log))
    ensures
      var x := ReceiveExchange(queues, nextId, LOGGER_TASK);
      Balanced(x.queues, x.nextId, LedgerOf(log + x.events))
  {
    var x := ReceiveExchange(queues, nextId, LOGGER_TASK);
    if HasMail(queues, LOGGER_TASK) {
      LedgerBooksLast(log, x.events);
      QueuesAfterReceive(queues);
      ConcatAssociative(LedgerOf(log).received, [queues[LOGGER_TASK].messages[0].sequenceId], QueuedIds(x.queues));
    } else {
      LedgerIgnores(log, []);
    }
  }

  lemma MessagingBalanced(faults: FaultConfig, queues: Queues, nextId: nat, log: seq<Event>, task: string, ms: int, roll: int)
    requires Balanced(queues, nextId, LedgerOf(log))
    ensures
      var x := Messaging(faults, queues, nextId, task, ms, roll);
      && Balanced(x.queues, x.nextId, LedgerOf(log + x.events))
      && x.nextId == nextId + if Sends(task) then 1 else 0
  {
    if Sends(task) {
      SendBalanced(faults, queues, nextId, log, StatusMessage(task, nextId), ms, roll);
    } else if task == LOGGER_TASK {
      ReceiveBalanced(queues, nextId, log);
    } else {
      LedgerIgnores(log, []);
    }
  }

  ghost predicate Conserved(s: State) {
    && Balanced(s.queues, s.nextId, LedgerOf(s.log))
    && s.nextId - 1 == RunsOf(s.tasks, CONTROL_TASK) + RunsOf(s.tasks, NETWORK_TASK)
  }

  lemma SenderNamesDiffer()
    ensures CONTROL_TASK != NETWORK_TASK && CONTROL_TASK != LOGGER_TASK && NETWORK_TASK != LOGGER_TASK
  {
    assert CONTROL_TASK[0] != NETWORK_TASK[0];
  }

  /** What a run writes before it exchanges messages. */
  function EarlyPart(p: Plan, s: State, i: nat, r: Readings): (part: seq<Event>)
    requires i < |s.tasks|
    ensures forall e <- part :: !AboutMessage(e)
  {
    RunPart(p, s, i, r) + AlertEvents(AlertIn(p, s, i, r))
  }

  lemma RunLogSplits(p: Plan, s: State, i: nat, r: Readings)
    requires i < |s.tasks| && WillRun(p, s, i, r)
    ensures Execute(p, s, i, r).log == s.log + EarlyPart(p, s, i, r) + ExchangeIn(p, s, i, r).events
  {
    RunWrites(p, s, i, r);
    ConcatAssociative(s.log, RunPart(p, s, i, r), AlertEvents(AlertIn(p, s, i, r)));
  }

  predicate SendsNow(p: Plan, s: State, i: nat, r: Readings)
    requires i < |s.tasks|
  {
    WillRun(p, s, i, r) && Sends(s.tasks[i].config.name)
  }

  lemma SenderRunsStep(p: Plan, s: State, i: nat, r: Readings)
    requires i < |s.tasks|
    ensures
      var after := Execute(p, s, i, r).tasks;
      RunsOf(after, CONTROL_TASK) + RunsOf(after, NETWORK_TASK) ==
        RunsOf(s.tasks, CONTROL_TASK) + RunsOf(s.tasks, NETWORK_TASK) + if SendsNow(p, s, i, r) then 1 else 0
  {
    SenderNamesDiffer();
    var after := Execute(p, s, i, r).tasks;
    RunsOfUpdate(s.tasks, i, after[i], CONTROL_TASK);
    RunsOfUpdate(s.tasks, i, after[i], NETWORK_TASK);
    assert after == s.tasks[i := after[i]];
  }

  lemma BooksStep(p: Plan, s: State, i: nat, r: Readings)
    requires i < |s.tasks| && Balanced(s.queues, s.nextId, LedgerOf(s.log))
    ensures
      var after := Execute(p, s, i, r);
      && Balanced(after.queues, after.nextId, LedgerOf(after.log))
      && after.nextId == s.nextId + if SendsNow(p, s, i, r) then 1 else 0
  {
    if WillRun(p, s, i, r) {
      var early := EarlyPart(p, s, i, r);
      LedgerIgnores(s.log, early);
      MessagingBalanced(p.faults, s.queues, s.nextId, s.log + early, s.tasks[i].config.name, r.send.ms, r.roll);
      RunLogSplits(p, s, i, r);
    } else {
      LedgerIgnores(s.log, Execute(p, s, i, r).log[|s.log|..]);
    }
  }

  lemma ConservedStep(p: Plan, s: State, i: nat, r: Readings)
    requires i < |s.tasks| && Conserved(s)
    ensures Conserved(Execute(p, s, i, r))
  {
    SenderRunsStep(p, s, i, r);
    BooksStep(p, s, i, r);
  }

  lemma ConservedAtStart(p: Plan, w: World)
    requires Initial(p, w)
    ensures Conserved(w.sys)
  {
    LedgerIgnores([], w.sys.log);
    assert [] + w.sys.log == w.sys.log;
    NoRuns(w.sys.tasks, CONTROL_TASK);
    NoRuns(w.sys.tasks, NETWORK_TASK);
    forall name <- w.sys.queues ensures w.sys.queues[name].messages == [] && w.sys.queues[name].limit >= 0 {
      var i :| 0 <= i < |w.sys.tasks| && w.sys.tasks[i].config.name == name;
    }
  }

  lemma {:induction false} NoRuns(tasks: seq<TaskState>, name: string)
    requires forall i | 0 <= i < |tasks| :: tasks[i].runCount == 0
    ensures RunsOf(tasks, name) == 0
  {
    if tasks != [] {
      NoRuns(tasks[..|tasks| - 1], name);
    }
  }

  lemma {:induction false} ConservedHolds(p: Plan, first: World, run: seq<Label>)
    requires Initial(p, first) && Legal(p, first, run)
    ensures Conserved(Reach(p, first, run).sys)
  {
    if run == [] {
      ConservedAtStart(p, first);
    } else {
      ConservedHolds(p, first, run[..|run| - 1]);
      ShapeHolds(p, first, run[..|run| - 1]);
      LastStep(p, first, run);
      var w, l := Reach(p, first, run[..|run| - 1]), run[|run| - 1];
      if l.Dispatch? {
        ConservedStep(p, w.sys, w.pending[0], l.readings);
      }
    }
  }

  /** How often an id is received, queued, refused or lost. */
  function Places(l: Ledger, queued: seq<nat>, id: nat): nat {
    Times(l.received, id) + Times(queued, id) + Times(l.refused, id) + Times(l.lost, id)
  }

  lemma ConservedMeans(s: State)
    requires Conserved(s)
    ensures forall id: nat :: Places(LedgerOf(s.log), QueuedIds(s.queues), id) == if 1 <= id < s.nextId then 1 else 0
  {
    var l, queued := LedgerOf(s.log), QueuedIds(s.queues);
    forall id: nat ensures Places(l, queued, id) == if 1 <= id < s.nextId then 1 else 0 {
      TimesConcat(l.received, queued, id);
    }
  }

  /** At every moment the ids 1..N handed out so far, one per completed run of a sending task, split
      exactly into received, queued, refused by a full queue and lost to the fault; what was received
      is the oldest part of what was accepted; and no queue exceeds its limit. */
  lemma MessagesAreConserved(p: Plan, first: World, run: seq<Label>)
    requires Initial(p, first) && Legal(p, first, run)
    ensures
      var s := Reach(p, first, run).sys;
      var l := LedgerOf(s.log);
      && s.nextId == 1 + RunsOf(s.tasks, CONTROL_TASK) + RunsOf(s.tasks, NETWORK_TASK)
      && l.sent == l.received + QueuedIds(s.queues)
      && (forall name <- s.queues :: |s.queues[name].messages| <= s.queues[name].limit)
      && (forall id: nat :: Places(l, QueuedIds(s.queues), id) == if 1 <= id < s.nextId then 1 else 0)
  {
    ConservedHolds(p, first, run);
    ConservedMeans(Reach(p, first, run).sys);
  }
}
