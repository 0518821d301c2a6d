/** The watchdog: per-task miss streaks, baselines and cooldowns kept in three maps. */
module Watchdog {
  import opened Common
  import opened PeriodicTask
  import opened RuntimeConfig

  datatype Alert = Alert(task: string, deadlineMissCount: nat, consecutiveMissCount: nat, recoveryPerformed: bool)

  datatype WatchState = WatchState(
    lastMisses: map<string, nat>,
    streaks: map<string, nat>,
    nextRecoveryAllowedMs: map<string, int>)

  /** One call of the watchdog: a task with its miss counter at a moment. */
  datatype Inspection = Inspection(task: string, misses: nat, timestampMs: int)

  const Fresh: WatchState := WatchState(map[], map[], map[])

  function Lookup<V>(entries: map<string, V>, key: string, default: V): V {
    if key in entries then entries[key] else default
  }

  function Inspect(config: WatchdogConfig, state: WatchState, now: Inspection): (WatchState, Option<Alert>)
  {
    if !config.enabled then
      (state, None)
    else
      var previous := Lookup(state.lastMisses, now.task, now.misses);
      var lastMisses := state.lastMisses[now.task := now.misses];
      var streak := if now.misses > previous then Lookup(state.streaks, now.task, 0) + 1 else 0;
      var counted := WatchState(lastMisses, state.streaks[now.task := streak], state.nextRecoveryAllowedMs);
      if streak < config.maxConsecutiveDeadlineMisses then
        (counted, None)
      else if now.timestampMs < Lookup(state.nextRecoveryAllowedMs, now.task, 0) then
        (counted, None)
      else if config.recoveryEnabled then
        (WatchState(
          lastMisses,
          state.streaks[now.task := 0],
          state.nextRecoveryAllowedMs[now.task := now.timestampMs + config.recoveryCooldownMs]),
         Some(Alert(now.task, now.misses, streak, true)))
      else
        (counted, Some(Alert(now.task, now.misses, streak, false)))
  }

  class Dog {
    const config: WatchdogConfig
    var lastMisses: map<string, nat>
    var streaks: map<string, nat>
    var nextRecoveryAllowedMs: map<string, int>

    constructor (config: WatchdogConfig)
      ensures this.config == config && State() == Fresh
    {
      this.config := config;
      lastMisses, streaks, nextRecoveryAllowedMs := map[], map[], map[];
    }

    function State(): WatchState
      reads this
    {
      WatchState(lastMisses, streaks, nextRecoveryAllowedMs)
    }

    method InspectTask(task: Task, timestampMs: int) returns (alert: Option<Alert>)
      modifies this
      ensures (State(), alert) ==
        Inspect(config, old(State()), Inspection(task.config.name, task.deadlineMissCount, timestampMs))
    {
      if !config.enabled {
        return None;
      }
      var name := task.config.name;
      var current := task.deadlineMissCount;
      var previous := if name in lastMisses then lastMisses[name] else current;
      lastMisses := lastMisses[name := current];
      if current > previous {
        streaks := streaks[name := Lookup(streaks, name, 0) + 1];
      } else {
        streaks := streaks[name := 0];
      }
      var consecutiveMisses := streaks[name];
      if consecutiveMisses < config.maxConsecutiveDeadlineMisses {
        return None;
      }
      var nextAllowed := if name in nextRecoveryAllowedMs then nextRecoveryAllowedMs[name] else 0;
      if timestampMs < nextAllowed {
        return None;
      }
      var recoveryPerformed := false;
      if config.recoveryEnabled {
        recoveryPerformed := true;
        nextRecoveryAllowedMs := nextRecoveryAllowedMs[name := timestampMs + config.recoveryCooldownMs];
        streaks := streaks[name := 0];
        assert streaks == old(streaks)[name := 0];
      }
      return Some(Alert(name, current, consecutiveMisses, recoveryPerformed));
    }
  }
}
