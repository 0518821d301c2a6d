/** One check of the monthly costs. */
module CostAlerts {
  import opened Common

  datatype Settings = Settings(start: real, increment: real)

  predicate ValidSettings(settings: Settings) {
    settings.start > 0.0 && settings.increment > 0.0
  }

  /** What the previous successful check stored; the threshold may be missing from the stored record. */
  datatype Stored = Stored(month: nat, lastThreshold: Option<real>)

  datatype Alert = Alert(month: nat, threshold: real)

  /** One check: `sendable` says how many messages go out before one fails, if one does, and `storable` whether
      the new state can be stored. */
  datatype Check = Check(month: nat, cost: real, sendable: Option<nat>, storable: bool)

  datatype State = State(stored: Option<Stored>, sent: seq<Alert>)

  datatype CheckError = SendFailed | StoreFailed

  // ---------- thresholds ----------

  /** The measure of a climb: how many increments still fit below the limit. */
  function Gap(threshold: real, increment: real, limit: real): real
    requires increment > 0.0
  {
    (limit - threshold) / increment
  }

  lemma GapShrinks(threshold: real, increment: real, limit: real)
    requires increment > 0.0 && threshold <= limit
    ensures Gap(threshold, increment, limit) >= 0.0
    ensures Gap(threshold + increment, increment, limit) == Gap(threshold, increment, limit) - 1.0
  {
    assert limit - (threshold + increment) == (limit - threshold) - increment;
    SubtractQuotients(limit - threshold, increment);
  }

  lemma SubtractQuotients(a: real, b: real)
    requires b > 0.0
    ensures (a - b) / b == a / b - 1.0
  {
    var q, r := a / b, (a - b) / b;
    var d := q - 1.0 - r;
    assert d * b == q * b - b - r * b == 0.0;
    if d > 0.0 {
      PositiveProduct(d, b);
    } else if d < 0.0 {
      PositiveProduct(-d, b);
    }
  }

  lemma PositiveProduct(a: real, b: real)
    requires a > 0.0 && b > 0.0
    ensures a * b > 0.0
  {
  }

  /** The thresholds from `first` on, one increment apart, up to the limit. */
  function Ladder(first: real, increment: real, limit: real): seq<real>
    requires increment > 0.0
    decreases if first <= limit then Gap(first, increment, limit) + 1.0 else 0.0
  {
    if first > limit then []
    else
      GapShrinks(first, increment, limit);
      [first] + Ladder(first + increment, increment, limit)
  }

  function Above(thresholds: seq<real>, last: real): seq<real> {
    if thresholds == [] then []
    else if thresholds[0] > last then [thresholds[0]] + Above(thresholds[1..], last)
    else Above(thresholds[1..], last)
  }

  /** The threshold reached after `n` steps; before the first step, one increment below it. */
  function Climb(first: real, increment: real, n: nat): real
    decreases n
  {
    if n == 0 then first - increment else Climb(first + increment, increment, n - 1)
  }

  lemma {:induction false} ClimbRises(first: real, increment: real, n: nat)
    requires increment > 0.0
    ensures Climb(first, increment, n) >= first - increment
    ensures n > 0 ==> Climb(first, increment, n) >= first
    decreases n
  {
    if n > 0 {
      ClimbRises(first + increment, increment, n - 1);
    }
  }

  lemma ClimbOneMore(first: real, increment: real, n: nat)
    ensures Climb(first, increment, n + 1) == Climb(first + increment, increment, n)
    ensures Climb(first, increment, 1) == first
  {
    assert Climb(first, increment, 1) == Climb(first + increment, increment, 0);
  }

  lemma {:induction false} AllAbove(first: real, increment: real, limit: real, last: real)
    requires increment > 0.0 && last < first
    ensures Above(Ladder(first, increment, limit), last) == Ladder(first, increment, limit)
    decreases |Ladder(first, increment, limit)|
  {
    if first <= limit {
      AllAbove(first + increment, increment, limit, last);
    }
  }

  lemma AboveSkips(t: real, rest: seq<real>, last: real)
    requires t <= last
    ensures Above([t] + rest, last) == Above(rest, last)
  {
    assert ([t] + rest)[1..] == rest;
  }

  /** Of the thresholds up to `high`, those above the last one up to `low` are the ones beyond it. */
  lemma {:induction false} AboveTheLast(first: real, increment: real, low: real, high: real)
    requires increment > 0.0
    ensures
      var done, all := Ladder(first, increment, low), Ladder(first, increment, high);
      var beyond := Above(all, Climb(first, increment, |done|));
      && (low <= high ==> done + beyond == all)
      && (high <= low ==> beyond == [])
    decreases |Ladder(first, increment, low)|
  {
    var n := |Ladder(first, increment, low)|;
    if first > low {
      AllAbove(first, increment, high, first - increment);
    } else {
      AboveTheLast(first + increment, increment, low, high);
      ClimbRises(first, increment, n);
      ClimbOneMore(first, increment, n - 1);
      assert n == 1 + |Ladder(first + increment, increment, low)|;
      if first <= high {
        AboveSkips(first, Ladder(first + increment, increment, high), Climb(first, increment, n));
      }
    }
  }

  lemma {:induction false} LadderIsClimb(first: real, increment: real, limit: real, i: nat)
    requires increment > 0.0 && i < |Ladder(first, increment, limit)|
    ensures Ladder(first, increment, limit)[i] == Climb(first, increment, i + 1) <= limit
    decreases i
  {
    ClimbOneMore(first, increment, i);
    if i > 0 {
      LadderIsClimb(first + increment, increment, limit, i - 1);
    }
  }

  lemma {:induction false} LadderHas(first: real, increment: real, limit: real, n: nat)
    requires increment > 0.0 && n > 0 && Climb(first, increment, n) <= limit
    ensures n <= |Ladder(first, increment, limit)|
    decreases n
  {
    ClimbRises(first, increment, n);
    ClimbOneMore(first, increment, n - 1);
    if n > 1 {
      LadderHas(first + increment, increment, limit, n - 1);
    }
  }

  lemma {:induction false} ClimbAscends(first: real, increment: real, m: nat, n: nat)
    requires increment > 0.0 && m < n
    ensures Climb(first, increment, m) < Climb(first, increment, n)
    decreases n
  {
    ClimbOneMore(first, increment, n - 1);
    ClimbRises(first + increment, increment, n - 1);
    if m > 0 {
      ClimbOneMore(first, increment, m - 1);
      ClimbAscends(first + increment, increment, m - 1, n - 1);
    }
  }

  predicate Ascends(thresholds: seq<real>) {
    forall i, j | 0 <= i < j < |thresholds| :: thresholds[i] < thresholds[j]
  }

  /** Exactly the thresholds that some number of steps reaches and that do not exceed the limit, ascending. */
  lemma LadderMeans(first: real, increment: real, limit: real)
    requires increment > 0.0
    ensures
      var all := Ladder(first, increment, limit);
      && (forall i | 0 <= i < |all| :: all[i] == Climb(first, increment, i + 1) <= limit)
      && (forall n: nat | n > 0 && Climb(first, increment, n) <= limit :: Climb(first, increment, n) in all)
      && Ascends(all)
  {
    var all := Ladder(first, increment, limit);
    forall i | 0 <= i < |all| ensures all[i] == Climb(first, increment, i + 1) <= limit {
      LadderIsClimb(first, increment, limit, i);
    }
    forall n: nat | n > 0 && Climb(first, increment, n) <= limit ensures Climb(first, increment, n) in all {
      LadderHas(first, increment, limit, n);
      assert all[n - 1] == Climb(first, increment, n);
    }
    forall i, j | 0 <= i < j < |all| ensures all[i] < all[j] {
      ClimbAscends(first, increment, i + 1, j + 1);
    }
  }

  // ---------- one check ----------

  function LastThreshold(settings: Settings, stored: Option<Stored>, month: nat): real {
    if stored.Some? && stored.value.month == month && stored.value.lastThreshold.Some? then
      stored.value.lastThreshold.value
    else
      settings.start - settings.increment
  }

  function Alerts(month: nat, thresholds: seq<real>): (alerts: seq<Alert>)
    ensures |alerts| == |thresholds|
    ensures forall k | 0 <= k < |thresholds| :: alerts[k] == Alert(month, thresholds[k])
  {
    if thresholds == [] then []
    else Alerts(month, thresholds[..|thresholds| - 1]) + [Alert(month, thresholds[|thresholds| - 1])]
  }

  function Crossed(settings: Settings, stored: Option<Stored>, check: Check): seq<real>
    requires ValidSettings(settings)
  {
    Above(Ladder(settings.start, settings.increment, check.cost), LastThreshold(settings, stored, check.month))
  }

  predicate SendFails(settings: Settings, stored: Option<Stored>, check: Check)
    requires ValidSettings(settings)
  {
    check.sendable.Some? && check.sendable.value < |Crossed(settings, stored, check)|
  }

  /** The new state is stored after the last message. */
  predicate Fails(settings: Settings, stored: Option<Stored>, check: Check)
    requires ValidSettings(settings)
  {
    SendFails(settings, stored, check) || !check.storable
  }

  /** The thresholds whose messages go out. */
  function Out(settings: Settings, stored: Option<Stored>, check: Check): seq<real>
    requires ValidSettings(settings)
  {
    var crossed := Crossed(settings, stored, check);
    if SendFails(settings, stored, check) then crossed[..check.sendable.value] else crossed
  }

  /** A failed check leaves what was stored; the messages before the failure are out. */
  function AfterCheck(settings: Settings, s: State, check: Check): State
    requires ValidSettings(settings)
  {
    var crossed := Crossed(settings, s.stored, check);
    var last := if crossed == [] then LastThreshold(settings, s.stored, check.month) else crossed[|crossed| - 1];
    State(
      if Fails(settings, s.stored, check) then s.stored else Some(Stored(check.month, Some(last))),
      s.sent + Alerts(check.month, Out(settings, s.stored, check)))
  }

  lemma {:induction false} ClimbIsLinear(first: real, increment: real, n: nat)
    ensures Climb(first, increment, n) == first + (n as real - 1.0) * increment
    decreases n
  {
    if n > 0 {
      ClimbIsLinear(first + increment, increment, n - 1);
      OneStepMore(first, increment, n as real - 2.0);
    }
  }

  lemma OneStepMore(first: real, increment: real, k: real)
    ensures first + increment + k * increment == first + (k + 1.0) * increment
  {
  }

  lemma {:induction false} AboveHas(thresholds: seq<real>, last: real, t: real)
    ensures t in Above(thresholds, last) <==> t in thresholds && t > last
  {
    if thresholds != [] {
      AboveHas(thresholds[1..], last, t);
      assert thresholds == [thresholds[0]] + thresholds[1..];
    }
  }

  lemma {:induction false} AboveAscends(thresholds: seq<real>, last: real)
    requires Ascends(thresholds)
    ensures Ascends(Above(thresholds, last))
  {
    if thresholds != [] {
      AboveAscends(thresholds[1..], last);
      var above := Above(thresholds[1..], last);
      forall j | 0 <= j < |above| ensures thresholds[0] < above[j] {
        AboveHas(thresholds[1..], last, above[j]);
        assert above[j] in thresholds[1..];
      }
    }
  }

  /** The starting amount and a number of increments. */
  function Rung(settings: Settings, n: nat): real {
    settings.start + n as real * settings.increment
  }

  lemma RungIsClimb(settings: Settings, n: nat)
    ensures Climb(settings.start, settings.increment, n + 1) == Rung(settings, n)
  {
    ClimbIsLinear(settings.start, settings.increment, n + 1);
    assert (n + 1) as real - 1.0 == n as real;
  }

  lemma LadderHasRungs(settings: Settings, limit: real, t: real)
    requires ValidSettings(settings)
    ensures t in Ladder(settings.start, settings.increment, limit) <==> t <= limit && exists n: nat :: t == Rung(settings, n)
  {
    var start, increment := settings.start, settings.increment;
    var all := Ladder(start, increment, limit);
    LadderMeans(start, increment, limit);
    if t in all {
      var i: nat :| i < |all| && all[i] == t;
      RungIsClimb(settings, i);
    }
    if n: nat :| t == Rung(settings, n) && t <= limit {
      RungIsClimb(settings, n);
      assert Climb(start, increment, n + 1) in all;
    }
  }

  /** The amount that a check's thresholds must exceed: the one stored for the same month, or else, and also when
      that record has none, one increment below the start. */
  ghost predicate IsLast(settings: Settings, stored: Option<Stored>, month: nat, last: real) {
    if stored.Some? && stored.value.month == month && stored.value.lastThreshold.Some?
    then stored.value.lastThreshold == Some(last)
    else last == settings.start - settings.increment
  }

  /** A check crosses exactly the thresholds that the cost reaches and that lie above the
      last one. */
  lemma CrossedExactly(settings: Settings, stored: Option<Stored>, check: Check, last: real, t: real)
    requires ValidSettings(settings) && IsLast(settings, stored, check.month, last)
    ensures t in Crossed(settings, stored, check) <==> last < t <= check.cost && exists n: nat :: t == Rung(settings, n)
  {
    LadderHasRungs(settings, check.cost, t);
    AboveHas(Ladder(settings.start, settings.increment, check.cost), last, t);
  }

  lemma CrossedInOrder(settings: Settings, stored: Option<Stored>, check: Check)
    requires ValidSettings(settings)
    ensures Ascends(Crossed(settings, stored, check))
  {
    LadderMeans(settings.start, settings.increment, check.cost);
    AboveAscends(Ladder(settings.start, settings.increment, check.cost), LastThreshold(settings, stored, check.month));
  }

  class CostMonitor {
    const settings: Settings
    var stored: Option<Stored>
    var sent: seq<Alert>

    constructor (settings: Settings, stored: Option<Stored>)
      ensures this.settings == settings && Now() == State(stored, [])
    {
      this.settings := settings;
      this.stored := stored;
      sent := [];
    }

    function Now(): State
      reads this
    {
      State(stored, sent)
    }

    method FindCrossed(last: real, cost: real) returns (crossed: seq<real>)
      requires ValidSettings(settings)
      ensures crossed == Above(Ladder(settings.start, settings.increment, cost), last)
    {
      crossed := [];
      var threshold := settings.start;
      while threshold <= cost
        invariant crossed + Above(Ladder(threshold, settings.increment, cost), last) ==
          Above(Ladder(settings.start, settings.increment, cost), last)
        decreases |Ladder(threshold, settings.increment, cost)|
      {
        if threshold > last {
          crossed := crossed + [threshold];
        }
        threshold := threshold + settings.increment;
      }
    }

    /** Send one message per threshold; stop at the first that fails. */
    method SendAlerts(check: Check, crossed: seq<real>) returns (ok: bool)
      modifies this`sent
      ensures ok <==> !(check.sendable.Some? && check.sendable.value < |crossed|)
      ensures sent == old(sent) + Alerts(check.month, if ok then crossed else crossed[..check.sendable.value])
    {
      for i := 0 to |crossed|
        invariant check.sendable.Some? ==> i <= check.sendable.value
        invariant sent == old(sent) + Alerts(check.month, crossed[..i])
      {
        if check.sendable == Some(i) {
          return false;
        }
        assert crossed[..i + 1][..i] == crossed[..i];
        sent := sent + [Alert(check.month, crossed[i])];
      }
      assert crossed[..|crossed|] == crossed;
      return true;
    }

    method CheckCosts(check: Check) returns (result: Result<seq<real>, CheckError>)
      requires ValidSettings(settings)
      modifies this
      ensures Now() == AfterCheck(settings, old(Now()), check)
      ensures result ==
        if old(SendFails(settings, stored, check)) then Err(SendFailed)
        else if !check.storable then Err(StoreFailed)
        else Ok(Crossed(settings, old(stored), check))
      ensures
        var crossed := Crossed(settings, old(stored), check);
        var out := if check.sendable.Some? && check.sendable.value < |crossed| then check.sendable.value else |crossed|;
        && |sent| == |old(sent)| + out
        && sent[..|old(sent)|] == old(sent)
        && (forall k | 0 <= k < out :: sent[|old(sent)| + k] == Alert(check.month, crossed[k]))
        && (out < |crossed| || !check.storable <==> result.Err?)
        && (result.Err? ==> stored == old(stored))
        && (result.Ok? && crossed != [] ==> stored == Some(Stored(check.month, Some(crossed[|crossed| - 1]))))
        && (result.Ok? && crossed == [] ==>
              && stored.Some? && stored.value.month == check.month && stored.value.lastThreshold.Some?
              && IsLast(settings, old(stored), check.month, stored.value.lastThreshold.value))
    {
      var last := settings.start - settings.increment;
      if stored.Some? && stored.value.month == check.month && stored.value.lastThreshold.Some? {
        last := stored.value.lastThreshold.value;
      }
      var crossed := FindCrossed(last, check.cost);
      var ok := SendAlerts(check, crossed);
      if !ok {
        return Err(SendFailed);
      }
      if crossed != [] {
        last := crossed[|crossed| - 1];
      }
      if !check.storable {
        return Err(StoreFailed);
      }
      stored := Some(Stored(check.month, Some(last)));
      return Ok(crossed);
    }
  }
}
