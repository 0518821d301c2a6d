/** When the configured fault acts; there is at most one. */
module FaultInjector {
  import opened MessageBus
  import opened RuntimeConfig

  predicate HasStarted(faults: FaultConfig, timestampMs: int) {
    timestampMs >= faults.startAfterMs
  }

  predicate Targets(faults: FaultConfig, kind: FaultKind, task: string, timestampMs: int) {
    faults.enabled && faults.kind == kind && faults.targetTask == task && HasStarted(faults, timestampMs)
  }

  predicate ShouldSlowTask(faults: FaultConfig, task: string, timestampMs: int) {
    Targets(faults, SlowTask, task, timestampMs)
  }

  predicate ShouldCpuSpikeTask(faults: FaultConfig, task: string, timestampMs: int) {
    Targets(faults, CpuSpike, task, timestampMs)
  }

  predicate ShouldCrashTask(faults: FaultConfig, task: string, timestampMs: int) {
    Targets(faults, TaskCrash, task, timestampMs)
  }

  function SlowExtraMs(faults: FaultConfig, task: string, timestampMs: int): int {
    if ShouldSlowTask(faults, task, timestampMs) then faults.extraExecutionTimeMs else 0
  }

  function CpuSpikeExtraMs(faults: FaultConfig, task: string, timestampMs: int): int {
    if ShouldCpuSpikeTask(faults, task, timestampMs) then faults.extraExecutionTimeMs else 0
  }

  predicate MayDrop(faults: FaultConfig, message: Message, timestampMs: int) {
    && faults.enabled
    && faults.kind.DroppedMessages?
    && HasStarted(faults, timestampMs)
    && (faults.targetTask == message.target || faults.targetTask == message.source)
  }

  /** `roll` is the uniform draw from 1 to 100; it only matters strictly between the two certainties. */
  predicate ShouldDrop(faults: FaultConfig, message: Message, timestampMs: int, roll: int) {
    MayDrop(faults, message, timestampMs) && roll <= faults.dropProbabilityPercent
  }

  /** A fault acts on its target from its starting time on and never before; so once it acts on a task it acts at every
      later time, and only the configured kind ever acts. */
  lemma FaultsArePermanent(faults: FaultConfig, kind: FaultKind, other: FaultKind, task: string, early: int, late: int)
    requires early <= late
    ensures Targets(faults, kind, task, early) <==>
      faults.enabled && faults.kind == kind && faults.targetTask == task && early >= faults.startAfterMs
    ensures Targets(faults, kind, task, early) ==> Targets(faults, kind, task, late)
    ensures Targets(faults, kind, task, early) && Targets(faults, other, task, late) ==> kind == other
  {
  }

  class Injector {
    const config: FaultConfig

    constructor (config: FaultConfig)
      ensures this.config == config
    {
      this.config := config;
    }

    method ShouldDropMessage(message: Message, timestampMs: int) returns (drop: bool, roll: int)
      ensures 1 <= roll <= 100
      ensures drop <==> ShouldDrop(config, message, timestampMs, roll)
      ensures drop <==>
        && config.enabled && config.kind == DroppedMessages && timestampMs >= config.startAfterMs
        && (config.targetTask == message.target || config.targetTask == message.source)
        && roll <= config.dropProbabilityPercent
    {
      roll := 1;
      if !config.enabled || !config.kind.DroppedMessages? || !HasStarted(config, timestampMs) {
        return false, roll;
      }
      var targetMatches := config.targetTask == message.target || config.targetTask == message.source;
      if !targetMatches {
        return false, roll;
      }
      if config.dropProbabilityPercent <= 0 {
        return false, roll;
      }
      if config.dropProbabilityPercent >= 100 {
        return true, roll;
      }
      var draw: int :| 1 <= draw <= 100;
      return draw <= config.dropProbabilityPercent, draw;
    }
  }
}
