/** Cost alerts over any sequence of checks. */
module CostMonths {
  import opened Common
  import opened CostAlerts

  function After(settings: Settings, first: State, checks: seq<Check>): State
    requires ValidSettings(settings)
  {
    if checks == [] then first
    else AfterCheck(settings, After(settings, first, checks[..|checks| - 1]), checks[|checks| - 1])
  }

  /** The thresholds announced in a month, in order. */
  function Announced(sent: seq<Alert>, month: nat): seq<real> {
    if sent == [] then []
    else
      var earlier, last := Announced(sent[..|sent| - 1], month), sent[|sent| - 1];
      if last.month == month then earlier + [last.threshold] else earlier
  }

  /** The highest cost observed in a month, or a cost below every threshold. */
  function Highest(settings: Settings, checks: seq<Check>, month: nat): real {
    if checks == [] then settings.start - settings.increment
    else
      var earlier, last := Highest(settings, checks[..|checks| - 1], month), checks[|checks| - 1];
      if last.month == month && last.cost > earlier then last.cost else earlier
  }

  /** The same over the checks that did not fail. */
  function HighestDone(settings: Settings, first: State, checks: seq<Check>, month: nat): real
    requires ValidSettings(settings)
  {
    if checks == [] then settings.start - settings.increment
    else
      var init, last := checks[..|checks| - 1], checks[|checks| - 1];
      var earlier := HighestDone(settings, first, init, month);
      if last.month == month && last.cost > earlier && !Fails(settings, After(settings, first, init).stored, last)
      then last.cost else earlier
  }

  function Thresholds(settings: Settings, cost: real): seq<real>
    requires ValidSettings(settings)
  {
    Ladder(settings.start, settings.increment, cost)
  }

  /** The checks of one month follow each other. Dates that never go back give this. */
  ghost predicate MonthByMonth(checks: seq<Check>) {
    forall i, j, k | 0 <= i <= j <= k < |checks| ::
      checks[i].month == checks[k].month ==> checks[j].month == checks[i].month
  }

  lemma NonDecreasingIsMonthByMonth(checks: seq<Check>)
    requires forall i, j | 0 <= i <= j < |checks| :: checks[i].month <= checks[j].month
    ensures MonthByMonth(checks)
  {
    forall i, j, k | 0 <= i <= j <= k < |checks| && checks[i].month == checks[k].month
      ensures checks[j].month == checks[i].month
    {
      assert checks[i].month <= checks[j].month <= checks[k].month;
    }
  }

  /** Nothing is announced yet, and what is stored is about a month without checks. */
  predicate Unannounced(first: State, checks: seq<Check>) {
    && first.sent == []
    && forall check <- checks :: first.stored.Some? ==> first.stored.value.month != check.month
  }

  predicate AllDelivered(checks: seq<Check>) {
    forall check <- checks :: check.sendable.None? && check.storable
  }

  // ---------- what one check adds ----------

  lemma AnnouncedOneMore(sent: seq<Alert>, alert: Alert, other: nat)
    ensures Announced(sent + [alert], other) ==
      if alert.month == other then Announced(sent, other) + [alert.threshold] else Announced(sent, other)
  {
    assert (sent + [alert])[..|sent|] == sent;
  }

  lemma {:induction false} AnnouncedConcat(sent: seq<Alert>, month: nat, thresholds: seq<real>, other: nat)
    ensures Announced(sent + Alerts(month, thresholds), other) ==
      if month == other then Announced(sent, other) + thresholds else Announced(sent, other)
  {
    if thresholds == [] {
      assert sent + Alerts(month, thresholds) == sent;
      assert Announced(sent, other) + thresholds == Announced(sent, other);
    } else {
      var n := |thresholds| - 1;
      var init, last := thresholds[..n], thresholds[n];
      AnnouncedConcat(sent, month, init, other);
      AnnouncedOneMore(sent + Alerts(month, init), Alert(month, last), other);
      ConcatAssociative(sent, Alerts(month, init), [Alert(month, last)]);
      ConcatAssociative(Announced(sent, other), init, [last]);
      assert init + [last] == thresholds;
    }
  }

  /** The stored threshold is the last one up to `cost`. */
  ghost predicate StoredUpTo(settings: Settings, s: State, month: nat, cost: real)
    requires ValidSettings(settings)
  {
    LastThreshold(settings, s.stored, month) ==
      Climb(settings.start, settings.increment, |Thresholds(settings, cost)|)
  }

  lemma CrossedIsBeyond(settings: Settings, s: State, check: Check, done: real)
    requires ValidSettings(settings) && StoredUpTo(settings, s, check.month, done)
    ensures
      var crossed := Crossed(settings, s.stored, check);
      && (done <= check.cost ==> Thresholds(settings, done) + crossed == Thresholds(settings, check.cost))
      && (check.cost <= done ==> crossed == [])
  {
    AboveTheLast(settings.start, settings.increment, done, check.cost);
  }

  /** A check that does not fail stores the last threshold up to the higher of the two costs. */
  lemma StoredAfter(settings: Settings, s: State, check: Check, done: real)
    requires ValidSettings(settings) && StoredUpTo(settings, s, check.month, done)
    requires !Fails(settings, s.stored, check)
    ensures StoredUpTo(settings, AfterCheck(settings, s, check), check.month,
      if check.cost > done then check.cost else done)
  {
    CrossedIsBeyond(settings, s, check, done);
    var crossed, all := Crossed(settings, s.stored, check), Thresholds(settings, check.cost);
    if all != [] {
      LadderIsClimb(settings.start, settings.increment, check.cost, |all| - 1);
    }
    if crossed != [] {
      assert all[|all| - 1] == crossed[|crossed| - 1];
    } else if check.cost > done {
      assert Thresholds(settings, done) == all;
    }
  }

  // ---------- no check fails ----------

  ghost predicate UpToDate(settings: Settings, s: State, checks: seq<Check>)
    requires ValidSettings(settings)
  {
    && (forall month: nat :: Announced(s.sent, month) == Thresholds(settings, Highest(settings, checks, month)))
    && (checks != [] ==>
          var month := checks[|checks| - 1].month;
          && s.stored.Some? && s.stored.value.month == month
          && StoredUpTo(settings, s, month, Highest(settings, checks, month)))
  }

  /** Before the first check of a month, nothing of it is stored or announced. */
  lemma {:induction false} NoCheckYet(settings: Settings, checks: seq<Check>, month: nat)
    requires forall check <- checks :: check.month != month
    ensures Highest(settings, checks, month) == settings.start - settings.increment
  {
    if checks != [] {
      NoCheckYet(settings, checks[..|checks| - 1], month);
      assert checks[|checks| - 1] in checks;
    }
  }

  lemma EarlierMonths(checks: seq<Check>)
    requires checks != [] && MonthByMonth(checks)
    ensures
      var init, last := checks[..|checks| - 1], checks[|checks| - 1];
      && MonthByMonth(init)
      && ((init != [] && init[|init| - 1].month == last.month) || forall check <- init :: check.month != last.month)
  {
    var init, last := checks[..|checks| - 1], checks[|checks| - 1];
    if check :| check in init && check.month == last.month {
      var i :| 0 <= i < |init| && init[i] == check;
      assert checks[i].month == checks[|checks| - 1].month ==> checks[|checks| - 2].month == checks[i].month;
    }
  }

  lemma StoredBefore(settings: Settings, first: State, checks: seq<Check>)
    requires ValidSettings(settings) && checks != [] && MonthByMonth(checks) && Unannounced(first, checks)
    requires UpToDate(settings, After(settings, first, checks[..|checks| - 1]), checks[..|checks| - 1])
    ensures
      var init, last := checks[..|checks| - 1], checks[|checks| - 1];
      StoredUpTo(settings, After(settings, first, init), last.month, Highest(settings, init, last.month))
  {
    var init, last := checks[..|checks| - 1], checks[|checks| - 1];
    EarlierMonths(checks);
    assert last in checks;
    if forall check <- init :: check.month != last.month {
      NoCheckYet(settings, init, last.month);
      assert init != [] ==> init[|init| - 1] in init;
    }
  }

  lemma UpToDateStep(settings: Settings, s: State, init: seq<Check>, last: Check)
    requires ValidSettings(settings) && UpToDate(settings, s, init) && last.sendable.None? && last.storable
    requires StoredUpTo(settings, s, last.month, Highest(settings, init, last.month))
    ensures UpToDate(settings, AfterCheck(settings, s, last), init + [last])
  {
    var done := Highest(settings, init, last.month);
    var after := AfterCheck(settings, s, last);
    assert (init + [last])[..|init|] == init;
    CrossedIsBeyond(settings, s, last, done);
    StoredAfter(settings, s, last, done);
    forall month: nat
      ensures Announced(after.sent, month) == Thresholds(settings, Highest(settings, init + [last], month))
    {
      AnnouncedConcat(s.sent, last.month, Crossed(settings, s.stored, last), month);
    }
  }

  /** When no check fails, the thresholds announced in a month are exactly those up to the highest
      cost observed in it, each once and in ascending order, even if costs fall in between. */
  lemma {:induction false} AnnouncedExactlyOnce(settings: Settings, first: State, checks: seq<Check>)
    requires ValidSettings(settings) && MonthByMonth(checks) && Unannounced(first, checks) && AllDelivered(checks)
    ensures UpToDate(settings, After(settings, first, checks), checks)
  {
    if checks == [] {
      assert Ladder(settings.start, settings.increment, settings.start - settings.increment) == [];
    } else {
      var init, last := checks[..|checks| - 1], checks[|checks| - 1];
      assert checks == init + [last];
      EarlierMonths(checks);
      AnnouncedExactlyOnce(settings, first, init);
      StoredBefore(settings, first, checks);
      UpToDateStep(settings, After(settings, first, init), init, last);
    }
  }

  // ---------- checks that fail ----------

  /** Everything due is announced, and nothing else, whatever failed. */
  ghost predicate Covered(settings: Settings, first: State, checks: seq<Check>)
    requires ValidSettings(settings)
  {
    var s := After(settings, first, checks);
    && (forall month: nat, t <- Thresholds(settings, HighestDone(settings, first, checks, month)) ::
          t in Announced(s.sent, month))
    && (forall month: nat, t <- Announced(s.sent, month) ::
          t in Thresholds(settings, Highest(settings, checks, month)))
  }

  /** What is stored, seen from the month of the next check. */
  ghost predicate StoredRight(settings: Settings, first: State, checks: seq<Check>)
    requires ValidSettings(settings)
  {
    var s := After(settings, first, checks);
    && (s.stored.Some? ==> s.stored == first.stored || exists check <- checks :: s.stored.value.month == check.month)
    && (checks != [] ==>
          var month := checks[|checks| - 1].month;
          StoredUpTo(settings, s, month, HighestDone(settings, first, checks, month)))
  }

  lemma {:induction false} NoneDoneYet(settings: Settings, first: State, checks: seq<Check>, month: nat)
    requires ValidSettings(settings) && forall check <- checks :: check.month != month
    ensures HighestDone(settings, first, checks, month) == settings.start - settings.increment
  {
    if checks != [] {
      NoneDoneYet(settings, first, checks[..|checks| - 1], month);
      assert checks[|checks| - 1] in checks;
    }
  }

  lemma StoredForNext(settings: Settings, first: State, checks: seq<Check>)
    requires ValidSettings(settings) && checks != [] && MonthByMonth(checks) && Unannounced(first, checks)
    requires StoredRight(settings, first, checks[..|checks| - 1])
    ensures
      var init, last := checks[..|checks| - 1], checks[|checks| - 1];
      StoredUpTo(settings, After(settings, first, init), last.month, HighestDone(settings, first, init, last.month))
  {
    var init, last := checks[..|checks| - 1], checks[|checks| - 1];
    EarlierMonths(checks);
    assert last in checks;
    if forall check <- init :: check.month != last.month {
      NoneDoneYet(settings, first, init, last.month);
    }
  }

  lemma StoredRightStep(settings: Settings, first: State, checks: seq<Check>)
    requires ValidSettings(settings) && checks != [] && MonthByMonth(checks) && Unannounced(first, checks)
    requires StoredRight(settings, first, checks[..|checks| - 1])
    ensures StoredRight(settings, first, checks)
  {
    var init, last := checks[..|checks| - 1], checks[|checks| - 1];
    var s := After(settings, first, init);
    StoredForNext(settings, first, checks);
    assert last in checks && forall check <- init :: check in checks;
    if !Fails(settings, s.stored, last) {
      StoredAfter(settings, s, last, HighestDone(settings, first, init, last.month));
    }
  }

  lemma {:induction false} AboveIsPart(thresholds: seq<real>, last: real)
    ensures forall t <- Above(thresholds, last) :: t in thresholds
  {
    if thresholds != [] {
      AboveIsPart(thresholds[1..], last);
      assert thresholds == [thresholds[0]] + thresholds[1..];
    }
  }

  lemma ThresholdsGrow(settings: Settings, low: real, high: real)
    requires ValidSettings(settings) && low <= high
    ensures forall t <- Thresholds(settings, low) :: t in Thresholds(settings, high)
  {
    AboveTheLast(settings.start, settings.increment, low, high);
  }

  lemma CoveredStep(settings: Settings, first: State, checks: seq<Check>, month: nat)
    requires ValidSettings(settings) && checks != []
    requires Covered(settings, first, checks[..|checks| - 1])
    requires
      var init, last := checks[..|checks| - 1], checks[|checks| - 1];
      StoredUpTo(settings, After(settings, first, init), last.month, HighestDone(settings, first, init, last.month))
    ensures
      var announced := Announced(After(settings, first, checks).sent, month);
      && (forall t <- Thresholds(settings, HighestDone(settings, first, checks, month)) :: t in announced)
      && (forall t <- announced :: t in Thresholds(settings, Highest(settings, checks, month)))
  {
    var init, last := checks[..|checks| - 1], checks[|checks| - 1];
    var s := After(settings, first, init);
    var crossed, out := Crossed(settings, s.stored, last), Out(settings, s.stored, last);
    AnnouncedConcat(s.sent, last.month, out, month);
    if month == last.month {
      CrossedIsBeyond(settings, s, last, HighestDone(settings, first, init, month));
      AboveIsPart(Thresholds(settings, last.cost), LastThreshold(settings, s.stored, month));
      var most := Highest(settings, checks, month);
      ThresholdsGrow(settings, last.cost, most);
      ThresholdsGrow(settings, Highest(settings, init, month), most);
      assert forall t <- out :: t in crossed;
    }
  }

  /** Even when checks fail: every threshold up to the highest cost of a month's completed checks has been
      announced in that month, and none above the highest cost observed in it. */
  lemma {:induction false} FailuresAreMadeUp(settings: Settings, first: State, checks: seq<Check>)
    requires ValidSettings(settings) && MonthByMonth(checks) && Unannounced(first, checks)
    ensures Covered(settings, first, checks) && StoredRight(settings, first, checks)
  {
    if checks == [] {
      assert Thresholds(settings, settings.start - settings.increment) == [];
    } else {
      var init, last := checks[..|checks| - 1], checks[|checks| - 1];
      EarlierMonths(checks);
      FailuresAreMadeUp(settings, first, init);
      StoredForNext(settings, first, checks);
      StoredRightStep(settings, first, checks);
      forall month: nat
        ensures forall t <- Thresholds(settings, HighestDone(settings, first, checks, month)) ::
          t in Announced(After(settings, first, checks).sent, month)
        ensures forall t <- Announced(After(settings, first, checks).sent, month) ::
          t in Thresholds(settings, Highest(settings, checks, month))
      {
        CoveredStep(settings, first, checks, month);
      }
    }
  }

  // ---------- thresholds announced twice ----------

  /** The thresholds that check `i` announces. */
  function SentAt(settings: Settings, first: State, checks: seq<Check>, i: nat): seq<real>
    requires ValidSettings(settings) && i < |checks|
  {
    Out(settings, After(settings, first, checks[..i]).stored, checks[i])
  }

  predicate FailsAt(settings: Settings, first: State, checks: seq<Check>, i: nat)
    requires ValidSettings(settings) && i < |checks|
  {
    Fails(settings, After(settings, first, checks[..i]).stored, checks[i])
  }

  /** A check of the month that announces something. */
  predicate Speaks(settings: Settings, first: State, checks: seq<Check>, month: nat, i: nat)
    requires ValidSettings(settings)
  {
    i < |checks| && checks[i].month == month && SentAt(settings, first, checks, i) != []
  }

  /** A check of the month that announces something and then fails. */
  predicate Trips(settings: Settings, first: State, checks: seq<Check>, month: nat, i: nat)
    requires ValidSettings(settings)
  {
    Speaks(settings, first, checks, month, i) && FailsAt(settings, first, checks, i)
  }

  ghost predicate Tripped(settings: Settings, first: State, checks: seq<Check>, month: nat)
    requires ValidSettings(settings)
  {
    exists i: nat :: Trips(settings, first, checks, month, i)
  }

  /** After a check that announced something and failed, another one of the month announces something. */
  ghost predicate SpeaksAgain(settings: Settings, first: State, checks: seq<Check>, month: nat)
    requires ValidSettings(settings)
  {
    exists i: nat, j: nat :: i < j && Trips(settings, first, checks, month, i) && Speaks(settings, first, checks, month, j)
  }

  predicate Repeats(thresholds: seq<real>) {
    exists i, j | 0 <= i < j < |thresholds| :: thresholds[i] == thresholds[j]
  }

  lemma EarlierChecks(settings: Settings, first: State, init: seq<Check>, last: Check, month: nat, i: nat)
    requires ValidSettings(settings) && i < |init|
    ensures Speaks(settings, first, init + [last], month, i) <==> Speaks(settings, first, init, month, i)
    ensures Trips(settings, first, init + [last], month, i) <==> Trips(settings, first, init, month, i)
  {
    assert (init + [last])[..i] == init[..i];
  }

  lemma LastCheck(settings: Settings, first: State, init: seq<Check>, last: Check, month: nat)
    requires ValidSettings(settings)
    ensures
      var stored := After(settings, first, init).stored;
      && (Speaks(settings, first, init + [last], month, |init|) <==>
            last.month == month && Out(settings, stored, last) != [])
      && (Trips(settings, first, init + [last], month, |init|) <==>
            last.month == month && Out(settings, stored, last) != [] && Fails(settings, stored, last))
  {
    assert (init + [last])[..|init|] == init;
  }

  lemma TrippedOneMore(settings: Settings, first: State, init: seq<Check>, last: Check, month: nat)
    requires ValidSettings(settings)
    ensures Tripped(settings, first, init + [last], month) <==>
      Tripped(settings, first, init, month) || Trips(settings, first, init + [last], month, |init|)
  {
    if i: nat :| Trips(settings, first, init + [last], month, i) && i < |init| {
      EarlierChecks(settings, first, init, last, month, i);
    }
    if i: nat :| Trips(settings, first, init, month, i) {
      EarlierChecks(settings, first, init, last, month, i);
    }
  }

  lemma AgainOneMore(settings: Settings, first: State, init: seq<Check>, last: Check, month: nat)
    requires ValidSettings(settings)
    ensures SpeaksAgain(settings, first, init + [last], month) <==>
      || SpeaksAgain(settings, first, init, month)
      || (Tripped(settings, first, init, month) && Speaks(settings, first, init + [last], month, |init|))
  {
    var checks := init + [last];
    if i: nat, j: nat :| i < j && Trips(settings, first, checks, month, i) && Speaks(settings, first, checks, month, j) {
      EarlierChecks(settings, first, init, last, month, i);
      if j < |init| {
        EarlierChecks(settings, first, init, last, month, j);
      }
    }
    if i: nat, j: nat :| i < j && Trips(settings, first, init, month, i) && Speaks(settings, first, init, month, j) {
      EarlierChecks(settings, first, init, last, month, i);
      EarlierChecks(settings, first, init, last, month, j);
    }
    if Tripped(settings, first, init, month) && Speaks(settings, first, checks, month, |init|) {
      var i: nat :| Trips(settings, first, init, month, i);
      EarlierChecks(settings, first, init, last, month, i);
    }
  }

  /** How a month stands while it lasts: `announced` so far, `last` stored. */
  ghost predicate Standing(settings: Settings, tripped: bool, again: bool, announced: seq<real>, last: real) {
    && (!tripped ==> Ascends(announced) && !again && forall t <- announced :: t <= last)
    && (tripped && !again ==> Ascends(announced) && last + settings.increment in announced)
    && (again ==> Repeats(announced))
  }

  lemma RepeatsGrow(a: seq<real>, b: seq<real>)
    requires Repeats(a)
    ensures Repeats(a + b)
  {
    var i, j :| 0 <= i < j < |a| && a[i] == a[j];
    assert (a + b)[i] == (a + b)[j];
  }

  lemma RepeatedFirst(a: seq<real>, b: seq<real>)
    requires b != [] && b[0] in a
    ensures Repeats(a + b)
  {
    var i :| 0 <= i < |a| && a[i] == b[0];
    assert (a + b)[i] == (a + b)[|a|];
  }

  /** What a check finds crossed: ascending, and if anything, one increment above the stored threshold first. */
  lemma CrossedAscends(settings: Settings, s: State, check: Check, done: real)
    requires ValidSettings(settings) && StoredUpTo(settings, s, check.month, done)
    ensures
      var crossed, last := Crossed(settings, s.stored, check), LastThreshold(settings, s.stored, check.month);
      && Ascends(crossed)
      && (crossed != [] ==> crossed[0] == last + settings.increment)
  {
    var crossed := Crossed(settings, s.stored, check);
    var n, all := |Thresholds(settings, done)|, Thresholds(settings, check.cost);
    CrossedIsBeyond(settings, s, check, done);
    if crossed != [] {
      LadderMeans(settings.start, settings.increment, check.cost);
      assert crossed == all[n..];
      AscendsFrom(all, n);
      ClimbByIncrement(settings.start, settings.increment, n);
      assert crossed[0] == all[n];
    }
  }

  lemma AscendsFrom(thresholds: seq<real>, n: nat)
    requires Ascends(thresholds) && n <= |thresholds|
    ensures Ascends(thresholds[n..]) && Ascends(thresholds[..n])
  {
  }

  lemma AscendsJoin(a: seq<real>, b: seq<real>, between: real)
    requires Ascends(a) && Ascends(b) && (forall t <- a :: t <= between) && (b != [] ==> between < b[0])
    ensures Ascends(a + b)
    ensures b != [] ==> forall t <- a + b :: t <= b[|b| - 1]
  {
    forall i, j | 0 <= i < j < |a + b| ensures (a + b)[i] < (a + b)[j] {
      if i < |a| <= j {
        assert a[i] in a && b[0] <= b[j - |a|];
      }
    }
  }

  lemma OutIsFront(settings: Settings, s: State, check: Check)
    requires ValidSettings(settings) && Ascends(Crossed(settings, s.stored, check))
    ensures
      var out, crossed := Out(settings, s.stored, check), Crossed(settings, s.stored, check);
      && Ascends(out)
      && (out != [] ==> crossed != [] && out[0] == crossed[0])
      && (!Fails(settings, s.stored, check) ==> out == crossed)
  {
    if SendFails(settings, s.stored, check) {
      AscendsFrom(Crossed(settings, s.stored, check), check.sendable.value);
    }
  }

  lemma {:induction false} ClimbByIncrement(first: real, increment: real, n: nat)
    ensures Climb(first, increment, n + 1) == Climb(first, increment, n) + increment
    decreases n
  {
    ClimbOneMore(first, increment, n);
    if n > 0 {
      ClimbOneMore(first, increment, n - 1);
      ClimbByIncrement(first + increment, increment, n - 1);
    }
  }

  /** A check of the month moves its standing on. */
  lemma StandingStep(
    settings: Settings, s: State, check: Check, done: real, tripped: bool, again: bool, announced: seq<real>)
    requires ValidSettings(settings) && StoredUpTo(settings, s, check.month, done)
    requires Standing(settings, tripped, again, announced, LastThreshold(settings, s.stored, check.month))
    ensures
      var out := Out(settings, s.stored, check);
      Standing(settings,
        tripped || (out != [] && Fails(settings, s.stored, check)),
        again || (tripped && out != []),
        announced + out,
        LastThreshold(settings, AfterCheck(settings, s, check).stored, check.month))
  {
    var out := Out(settings, s.stored, check);
    var last := LastThreshold(settings, s.stored, check.month);
    CrossedAscends(settings, s, check, done);
    OutIsFront(settings, s, check);
    if out == [] {
      assert announced + out == announced;
    } else if again {
      RepeatsGrow(announced, out);
    } else if tripped {
      RepeatedFirst(announced, out);
    } else {
      AscendsJoin(announced, out, last);
      assert out[0] in announced + out;
    }
  }

  lemma AscendingHasNoRepeat(thresholds: seq<real>)
    requires Ascends(thresholds)
    ensures !Repeats(thresholds)
  {
  }

  lemma {:induction false} NothingSpoken(settings: Settings, first: State, checks: seq<Check>, month: nat)
    requires ValidSettings(settings) && first.sent == [] && forall check <- checks :: check.month != month
    ensures Announced(After(settings, first, checks).sent, month) == []
    ensures !Tripped(settings, first, checks, month) && !SpeaksAgain(settings, first, checks, month)
  {
    if checks != [] {
      var init, last := checks[..|checks| - 1], checks[|checks| - 1];
      assert last in checks && forall check <- init :: check in checks;
      NothingSpoken(settings, first, init, month);
      AnnouncedConcat(After(settings, first, init).sent, last.month, Out(settings, After(settings, first, init).stored, last), month);
    }
  }

  /** The standing of the month of the last check, and exactly which months have repeats. */
  ghost predicate RepeatsKnown(settings: Settings, first: State, checks: seq<Check>)
    requires ValidSettings(settings)
  {
    var s := After(settings, first, checks);
    && (forall month: nat :: Repeats(Announced(s.sent, month)) <==> SpeaksAgain(settings, first, checks, month))
    && (checks != [] ==> StandsAt(settings, first, checks, checks[|checks| - 1].month))
  }

  ghost predicate StandsAt(settings: Settings, first: State, checks: seq<Check>, month: nat)
    requires ValidSettings(settings)
  {
    var s := After(settings, first, checks);
    Standing(settings, Tripped(settings, first, checks, month), SpeaksAgain(settings, first, checks, month),
      Announced(s.sent, month), LastThreshold(settings, s.stored, month))
  }

  lemma StandsBefore(settings: Settings, first: State, init: seq<Check>, last: Check)
    requires ValidSettings(settings) && MonthByMonth(init + [last]) && Unannounced(first, init + [last])
    requires RepeatsKnown(settings, first, init)
    ensures StandsAt(settings, first, init, last.month)
  {
    var checks := init + [last];
    EarlierMonths(checks);
    assert checks[..|checks| - 1] == init;
    if forall check <- init :: check.month != last.month {
      NothingSpoken(settings, first, init, last.month);
    }
  }

  lemma StandsAfter(settings: Settings, first: State, init: seq<Check>, last: Check)
    requires ValidSettings(settings) && StandsAt(settings, first, init, last.month)
    requires StoredUpTo(settings, After(settings, first, init), last.month, HighestDone(settings, first, init, last.month))
    ensures StandsAt(settings, first, init + [last], last.month)
  {
    var s, month := After(settings, first, init), last.month;
    assert (init + [last])[..|init|] == init;
    LastCheck(settings, first, init, last, month);
    TrippedOneMore(settings, first, init, last, month);
    AgainOneMore(settings, first, init, last, month);
    AnnouncedConcat(s.sent, month, Out(settings, s.stored, last), month);
    StandingStep(settings, s, last, HighestDone(settings, first, init, month),
      Tripped(settings, first, init, month), SpeaksAgain(settings, first, init, month), Announced(s.sent, month));
  }

  lemma OtherMonthStays(settings: Settings, first: State, init: seq<Check>, last: Check, month: nat)
    requires ValidSettings(settings) && month != last.month
    ensures SpeaksAgain(settings, first, init + [last], month) <==> SpeaksAgain(settings, first, init, month)
    ensures Announced(After(settings, first, init + [last]).sent, month) == Announced(After(settings, first, init).sent, month)
  {
    var s := After(settings, first, init);
    assert (init + [last])[..|init|] == init;
    LastCheck(settings, first, init, last, month);
    AgainOneMore(settings, first, init, last, month);
    AnnouncedConcat(s.sent, last.month, Out(settings, s.stored, last), month);
  }

  lemma StandingDecides(settings: Settings, tripped: bool, again: bool, announced: seq<real>, last: real)
    requires Standing(settings, tripped, again, announced, last)
    ensures Repeats(announced) <==> again
  {
    if !again {
      AscendingHasNoRepeat(announced);
    }
  }

  /** A threshold is announced twice in a month exactly if some check of the month announced something and then
      failed, in a message or in storing its state, and a later check of the month announced something. */
  lemma {:induction false} RepeatsExactly(settings: Settings, first: State, checks: seq<Check>)
    requires ValidSettings(settings) && MonthByMonth(checks) && Unannounced(first, checks)
    ensures RepeatsKnown(settings, first, checks)
  {
    if checks == [] {
      assert forall month: nat :: !SpeaksAgain(settings, first, checks, month);
    } else {
      var init, last := checks[..|checks| - 1], checks[|checks| - 1];
      assert checks == init + [last];
      EarlierMonths(checks);
      RepeatsExactly(settings, first, init);
      FailuresAreMadeUp(settings, first, init);
      StoredForNext(settings, first, checks);
      StandsBefore(settings, first, init, last);
      StandsAfter(settings, first, init, last);
      forall month: nat
        ensures Repeats(Announced(After(settings, first, checks).sent, month)) <==> SpeaksAgain(settings, first, checks, month)
      {
        if month == last.month {
          StandingDecides(settings, Tripped(settings, first, checks, month), SpeaksAgain(settings, first, checks, month),
            Announced(After(settings, first, checks).sent, month), LastThreshold(settings, After(settings, first, checks).stored, month));
        } else {
          OtherMonthStays(settings, first, init, last, month);
        }
      }
    }
  }
}
