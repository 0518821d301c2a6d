/** The watchdog's alerts, said by a task's own history alone. */
module WatchdogHistory {
  import opened Common
  import opened RuntimeConfig
  import opened Watchdog

  /** The inspections of one task, in order. */
  function Own(history: seq<Inspection>, task: string): (own: seq<Inspection>)
    ensures forall i | 0 <= i < |own| :: own[i].task == task && own[i] in history
  {
    if history == [] then []
    else
      var earlier, last := Own(history[..|history| - 1], task), history[|history| - 1];
      if last.task == task then earlier + [last] else earlier
  }

  function StateAfter(config: WatchdogConfig, history: seq<Inspection>): WatchState {
    if history == [] then Fresh
    else Inspect(config, StateAfter(config, history[..|history| - 1]), history[|history| - 1]).0
  }

  /** What the watchdog answered to the last inspection of `history`. */
  function AnswerTo(config: WatchdogConfig, history: seq<Inspection>): Option<Alert>
    requires history != []
  {
    Inspect(config, StateAfter(config, history[..|history| - 1]), history[|history| - 1]).1
  }

  predicate NewMiss(own: seq<Inspection>, k: nat)
    requires k < |own|
  {
    k > 0 && own[k].misses > own[k - 1].misses
  }

  /** Whether the last of a task's own inspections raises an alert: the last `threshold` inspections
      each saw a new miss, none of them but the last was itself answered by a recovery, and the
      cooldown of the latest recovery has passed. The first inspection is only a baseline. */
  ghost predicate Alarm(config: WatchdogConfig, own: seq<Inspection>)
    decreases |own|, 0
  {
    var n, threshold := |own|, config.maxConsecutiveDeadlineMisses;
    && config.enabled
    && 0 < threshold < n
    && (forall k | n - threshold <= k < n :: NewMiss(own, k))
    && (config.recoveryEnabled ==> forall k | n - threshold < k < n :: !Alarm(config, own[..k]))
    && own[n - 1].timestampMs >= RecoveryAllowedFrom(config, own[..n - 1])
  }

  /** The end of the cooldown of the latest recovery in a task's own inspections. */
  ghost function RecoveryAllowedFrom(config: WatchdogConfig, own: seq<Inspection>): int
    decreases |own|, 1
  {
    if own == [] || !config.recoveryEnabled then 0
    else if Alarm(config, own) then own[|own| - 1].timestampMs + config.recoveryCooldownMs
    else RecoveryAllowedFrom(config, own[..|own| - 1])
  }

  /** The streak the watchdog compares with its threshold at the last own inspection. */
  ghost function Streak(config: WatchdogConfig, own: seq<Inspection>): nat
    decreases |own|, 0
  {
    if own == [] || !NewMiss(own, |own| - 1) then 0 else Carried(config, own[..|own| - 1]) + 1
  }

  /** The streak carried to the next inspection: a recovery clears it. */
  ghost function Carried(config: WatchdogConfig, own: seq<Inspection>): nat
    decreases |own|, 1
  {
    if config.recoveryEnabled && Alarm(config, own) then 0 else Streak(config, own)
  }

  /** The counter reaches `k` exactly when the last `k` inspections all saw new misses with no recovery between. */
  lemma {:induction false} StreakReaches(config: WatchdogConfig, own: seq<Inspection>, k: nat)
    requires k > 0
    ensures Streak(config, own) >= k <==>
      && k < |own|
      && (forall j | |own| - k <= j < |own| :: NewMiss(own, j))
      && (config.recoveryEnabled ==> forall j | |own| - k < j < |own| :: !Alarm(config, own[..j]))
  {
    if own != [] && k > 1 {
      var n, init := |own|, own[..|own| - 1];
      StreakReaches(config, init, k - 1);
      assert forall j | 0 <= j < n :: init[..j] == own[..j];
      assert forall j | 0 <= j < n - 1 :: NewMiss(init, j) == NewMiss(own, j);
      if Streak(config, own) >= k {
        assert NewMiss(own, n - 1);
        assert Streak(config, init) >= k - 1;
        assert own[..n - 1] == init;
      }
    }
  }

  /** The three maps, read at one task, hold exactly what that task's own inspections say. */
  ghost predicate Agrees(config: WatchdogConfig, state: WatchState, own: seq<Inspection>, task: string) {
    && (task in state.lastMisses <==> own != [])
    && (own != [] ==> state.lastMisses[task] == own[|own| - 1].misses)
    && Lookup(state.streaks, task, 0) == Carried(config, own)
    && Lookup(state.nextRecoveryAllowedMs, task, 0) == RecoveryAllowedFrom(config, own)
  }

  /** One inspection keeps the agreement for every task, and is answered as the own history says. */
  lemma InspectAgrees(config: WatchdogConfig, state: WatchState, own: seq<Inspection>, now: Inspection)
    requires config.enabled && ValidWatchdog(config)
    requires Agrees(config, state, own, now.task)
    ensures Agrees(config, Inspect(config, state, now).0, own + [now], now.task)
    ensures Inspect(config, state, now).1 ==
      if Alarm(config, own + [now])
      then Some(Alert(now.task, now.misses, Streak(config, own + [now]), config.recoveryEnabled))
      else None
  {
    var next := own + [now];
    assert next[..|next| - 1] == own;
    StreakReaches(config, next, config.maxConsecutiveDeadlineMisses);
    assert Streak(config, next) ==
      if now.misses > Lookup(state.lastMisses, now.task, now.misses) then Lookup(state.streaks, now.task, 0) + 1 else 0;
    assert Alarm(config, next) <==>
      Streak(config, next) >= config.maxConsecutiveDeadlineMisses && now.timestampMs >= RecoveryAllowedFrom(config, own);
  }

  /** An inspection of another task changes nothing in what the maps say of this one. */
  lemma {:induction false} MapsFollowHistory(config: WatchdogConfig, history: seq<Inspection>, task: string)
    requires config.enabled && ValidWatchdog(config)
    ensures Agrees(config, StateAfter(config, history), Own(history, task), task)
  {
    if history != [] {
      var init, last := history[..|history| - 1], history[|history| - 1];
      MapsFollowHistory(config, init, task);
      if last.task == task {
        InspectAgrees(config, StateAfter(config, init), Own(init, task), last);
      }
    }
  }

  /** Whatever the interleaving with other tasks, the answer to an inspection is decided by the
      inspected task's own history. */
  lemma AnswersFollowOwnHistory(config: WatchdogConfig, history: seq<Inspection>)
    requires ValidWatchdog(config) && history != []
    ensures
      var last := history[|history| - 1];
      var own := Own(history, last.task);
      AnswerTo(config, history) ==
        if Alarm(config, own)
        then Some(Alert(last.task, last.misses, Streak(config, own), config.recoveryEnabled))
        else None
  {
    if config.enabled {
      var init, last := history[..|history| - 1], history[|history| - 1];
      MapsFollowHistory(config, init, last.task);
      InspectAgrees(config, StateAfter(config, init), Own(init, last.task), last);
    }
  }

  /** How many of a task's own inspections raised an alert. */
  ghost function Alarms(config: WatchdogConfig, own: seq<Inspection>): nat {
    if own == [] then 0 else Alarms(config, own[..|own| - 1]) + (if Alarm(config, own) then 1 else 0)
  }

  /** Miss counters of one task never fall, and it is inspected at non-decreasing, non-negative times. */
  ghost predicate Chronological(own: seq<Inspection>) {
    && (forall i | 0 <= i < |own| :: 0 <= own[i].timestampMs)
    && (forall i, j | 0 <= i < j < |own| :: own[i].misses <= own[j].misses && own[i].timestampMs <= own[j].timestampMs)
  }

  lemma ChronologicalPrefix(own: seq<Inspection>)
    requires Chronological(own) && own != []
    ensures Chronological(own[..|own| - 1])
  {
  }

  /** Each alert uses up a threshold of misses counted after the baseline. */
  lemma {:induction false} AlertsUseUpMisses(config: WatchdogConfig, own: seq<Inspection>)
    requires config.enabled && config.recoveryEnabled && ValidWatchdog(config)
    requires Chronological(own) && own != []
    ensures Alarms(config, own) * config.maxConsecutiveDeadlineMisses + Carried(config, own)
      <= own[|own| - 1].misses - own[0].misses
  {
    var init, threshold := own[..|own| - 1], config.maxConsecutiveDeadlineMisses;
    StreakReaches(config, own, threshold);
    if init != [] {
      ChronologicalPrefix(own);
      AlertsUseUpMisses(config, init);
      assert own[|own| - 2].misses <= own[|own| - 1].misses;
      assert Alarms(config, init) * threshold + threshold == (Alarms(config, init) + 1) * threshold;
    }
  }

  /** Each alert but the first waits for a whole cooldown. */
  lemma {:induction false} AlertsWaitForCooldowns(config: WatchdogConfig, own: seq<Inspection>)
    requires config.enabled && config.recoveryEnabled && ValidWatchdog(config)
    requires Chronological(own) && own != []
    ensures Alarms(config, own) * config.recoveryCooldownMs <= RecoveryAllowedFrom(config, own)
    ensures Alarms(config, own) > 0 ==>
      (Alarms(config, own) - 1) * config.recoveryCooldownMs <= own[|own| - 1].timestampMs
  {
    var init, cooldown := own[..|own| - 1], config.recoveryCooldownMs;
    var last := own[|own| - 1];
    if init == [] {
      assert !Alarm(config, own);
      assert Alarms(config, init) == 0;
    } else {
      ChronologicalPrefix(own);
      AlertsWaitForCooldowns(config, init);
      assert own[|own| - 2].timestampMs <= last.timestampMs;
      assert Alarms(config, init) * cooldown + cooldown == (Alarms(config, init) + 1) * cooldown;
    }
  }
}
