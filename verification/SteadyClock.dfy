/** The monotonic clock every component reads, in nanosecond ticks. */
module SteadyClock {

  const TICKS_PER_MS: int := 1_000_000

  /** Conversion of a tick difference to whole milliseconds, truncating toward zero. */
  function WholeMs(ticks: int): int {
    if ticks >= 0 then ticks / TICKS_PER_MS else -((-ticks) / TICKS_PER_MS)
  }

  /** `ms` is the truncated reading of a non-negative difference. */
  predicate ReadsAs(ticks: int, ms: int) {
    ms * TICKS_PER_MS <= ticks < ms * TICKS_PER_MS + TICKS_PER_MS
  }

  /** The truncated difference exceeds `ms`. */
  predicate ExceedsMs(ticks: int, ms: int) {
    if ms >= 0 then ticks >= ms * TICKS_PER_MS + TICKS_PER_MS else ticks > ms * TICKS_PER_MS
  }

  /** The two predicates say, without division, what the truncating conversion says. */
  lemma WholeMsMeaning(ticks: int, ms: int)
    ensures ticks >= 0 ==> (ReadsAs(ticks, ms) <==> WholeMs(ticks) == ms)
    ensures ExceedsMs(ticks, ms) <==> WholeMs(ticks) > ms
  {
  }

  lemma WholeMsMonotone(a: int, b: int)
    requires a <= b
    ensures WholeMs(a) <= WholeMs(b)
  {
  }

  /** Waiting for `ms` milliseconds moves the truncated reading by at least `ms`. */
  lemma WholeMsAfterWaiting(a: int, b: int, ms: int)
    requires 0 <= a && 0 <= ms && a + ms * TICKS_PER_MS <= b
    ensures WholeMs(a) + ms <= WholeMs(b)
  {
    assert (a + ms * TICKS_PER_MS) / TICKS_PER_MS == a / TICKS_PER_MS + ms;
  }

  /** Time passes by an unknown, possibly zero, amount between any two readings. */
  class Clock {
    var ticks: int
    ghost var askedMs: int  // the sleep asked for so far

    constructor ()
    {
      ticks := 0;
      askedMs := 0;
    }

    method Now() returns (t: int)
      modifies this`ticks
      ensures old(ticks) <= t == ticks
    {
      var elapsed: int :| 0 <= elapsed;
      ticks := ticks + elapsed;
      t := ticks;
    }

    /** A sleep lasts at least as long as asked; a non-positive request does not wait. */
    method SleepFor(ms: int)
      modifies this
      ensures old(ticks) <= ticks
      ensures old(ticks) + ms * TICKS_PER_MS <= ticks
      ensures askedMs == old(askedMs) + if ms > 0 then ms else 0
    {
      var overshoot: int :| 0 <= overshoot;
      ticks := ticks + (if ms > 0 then ms * TICKS_PER_MS else 0) + overshoot;
      askedMs := askedMs + if ms > 0 then ms else 0;
    }
  }
}
