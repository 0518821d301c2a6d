/** Splitting a log into time windows of equal length. */
module AnomalyWindows {
  import opened Common
  import opened LogRecords

  datatype Window = Window(startMs: int, endMs: int, records: seq<Record>)

  datatype WindowError = WindowNotPositive

  /** Missing and negative time stamps count as zero. */
  function StampOf(r: Record): nat {
    if r.timestampMs.Some? && r.timestampMs.value > 0 then r.timestampMs.value else 0
  }

  /** Which window a time falls into: the quotient rounded down. */
  function IndexOf(stamp: nat, windowMs: int): nat
    requires windowMs > 0
  {
    if stamp < windowMs then 0 else 1 + IndexOf(stamp - windowMs, windowMs)
  }

  lemma {:induction false} IndexIsQuotient(stamp: nat, windowMs: int)
    requires windowMs > 0
    ensures IndexOf(stamp, windowMs) == stamp / windowMs
  {
    if stamp >= windowMs {
      IndexIsQuotient(stamp - windowMs, windowMs);
      OneQuotientMore(stamp - windowMs, windowMs);
    }
  }

  lemma OneQuotientMore(a: nat, d: int)
    requires d > 0
    ensures (a + d) / d == a / d + 1
  {
    var q, r, q' := a / d, a % d, (a + d) / d;
    var k := q' - q - 1;
    assert d * k == r - (a + d) % d by {
      assert a == d * q + r;
      assert a + d == d * q' + (a + d) % d;
      assert d * k == d * q' - d * q - d;
    }
    if k > 0 {
      TimesAtLeast(d, k);
    } else if k < 0 {
      TimesAtLeast(d, -k);
    }
  }

  lemma {:induction false} TimesAtLeast(d: int, k: int)
    requires d > 0 && k > 0
    ensures d * k >= d
    ensures d * (-k) <= -d
    decreases k
  {
    if k > 1 {
      TimesAtLeast(d, k - 1);
      assert d * k == d * (k - 1) + d;
    }
    assert d * (-k) == -(d * k);
  }

  lemma {:induction false} IndexGrows(a: nat, b: nat, windowMs: int)
    requires windowMs > 0 && a <= b
    ensures IndexOf(a, windowMs) <= IndexOf(b, windowMs)
  {
    if a >= windowMs {
      IndexGrows(a - windowMs, b - windowMs, windowMs);
    }
  }

  function Start(k: nat, windowMs: int): int {
    if k == 0 then 0 else Start(k - 1, windowMs) + windowMs
  }

  lemma {:induction false} StartIsProduct(k: nat, windowMs: int)
    ensures Start(k, windowMs) == k * windowMs
  {
    if k > 0 {
      StartIsProduct(k - 1, windowMs);
    }
  }

  lemma {:induction false} StartShifts(k: nat, windowMs: int)
    ensures Start(k + 1, windowMs) == windowMs + Start(k, windowMs)
  {
    if k > 0 {
      StartShifts(k - 1, windowMs);
    }
  }

  /** The window of a time contains it. */
  lemma {:induction false} IndexIsWithin(stamp: nat, windowMs: int)
    requires windowMs > 0
    ensures
      var k := IndexOf(stamp, windowMs);
      Start(k, windowMs) <= stamp <= Start(k + 1, windowMs) - 1
  {
    if stamp >= windowMs {
      IndexIsWithin(stamp - windowMs, windowMs);
      StartShifts(IndexOf(stamp - windowMs, windowMs), windowMs);
      StartShifts(IndexOf(stamp, windowMs), windowMs);
    }
  }

  function Home(r: Record, windowMs: int): nat
    requires windowMs > 0
  {
    IndexOf(StampOf(r), windowMs)
  }

  /** The records of window `k`, in log order. */
  function InWindow(records: seq<Record>, windowMs: int, k: nat): seq<Record>
    requires windowMs > 0
  {
    if records == [] then []
    else
      var earlier, last := InWindow(records[..|records| - 1], windowMs, k), records[|records| - 1];
      if Home(last, windowMs) == k then earlier + [last] else earlier
  }

  predicate NoStamps(records: seq<Record>) {
    forall r <- records :: r.timestampMs.None?
  }

  function LatestStamp(records: seq<Record>): nat {
    if records == [] then 0
    else
      var earlier, last := LatestStamp(records[..|records| - 1]), StampOf(records[|records| - 1]);
      if last > earlier then last else earlier
  }

  function WindowCount(records: seq<Record>, windowMs: int): nat
    requires windowMs > 0
  {
    IndexOf(LatestStamp(records), windowMs) + 1
  }

  function FirstWindows(records: seq<Record>, windowMs: int, n: nat): (windows: seq<Window>)
    requires windowMs > 0
    ensures |windows| == n
    ensures forall k | 0 <= k < n :: windows[k] == WindowAt(records, windowMs, k)
  {
    if n == 0 then []
    else FirstWindows(records, windowMs, n - 1) + [WindowAt(records, windowMs, n - 1)]
  }

  function WindowAt(records: seq<Record>, windowMs: int, k: nat): Window
    requires windowMs > 0
  {
    Window(Start(k, windowMs), Start(k + 1, windowMs) - 1, InWindow(records, windowMs, k))
  }

  /** A log without any time stamp becomes one window, whose end bound is one larger than usual. */
  function Windows(records: seq<Record>, windowMs: int): Result<seq<Window>, WindowError> {
    if windowMs <= 0 then Err(WindowNotPositive)
    else if NoStamps(records) then Ok([Window(0, windowMs, records)])
    else Ok(FirstWindows(records, windowMs, WindowCount(records, windowMs)))
  }

  lemma {:induction false} StampsAreBelowLatest(records: seq<Record>, r: Record)
    requires r in records
    ensures StampOf(r) <= LatestStamp(records)
  {
    var init := records[..|records| - 1];
    assert records == init + [records[|records| - 1]];
    if r in init {
      StampsAreBelowLatest(init, r);
    }
  }

  method LatestTimestamp(records: seq<Record>) returns (any: bool, latest: nat)
    ensures any <==> !NoStamps(records)
    ensures latest == LatestStamp(records)
  {
    any, latest := false, 0;
    for i := 0 to |records|
      invariant any <==> !NoStamps(records[..i])
      invariant latest == LatestStamp(records[..i])
    {
      assert records[..i + 1][..i] == records[..i];
      assert records[..i + 1] == records[..i] + [records[i]];
      if records[i].timestampMs.Some? {
        any := true;
      }
      if StampOf(records[i]) > latest {
        latest := StampOf(records[i]);
      }
    }
    assert records[..|records|] == records;
  }

  method FillBuckets(records: seq<Record>, windowMs: int, count: nat) returns (filled: seq<seq<Record>>)
    requires windowMs > 0 && count == WindowCount(records, windowMs)
    ensures |filled| == count
    ensures forall k | 0 <= k < count :: filled[k] == InWindow(records, windowMs, k)
  {
    var buckets := new seq<Record>[count](_ => []);
    for i := 0 to |records|
      invariant forall k | 0 <= k < count :: buckets[k] == InWindow(records[..i], windowMs, k)
    {
      assert records[..i + 1][..i] == records[..i];
      var stamp := StampOf(records[i]);
      StampsAreBelowLatest(records, records[i]);
      IndexGrows(stamp, LatestStamp(records), windowMs);
      IndexIsQuotient(stamp, windowMs);
      var index := if stamp / windowMs < count - 1 then stamp / windowMs else count - 1;
      buckets[index] := buckets[index] + [records[i]];
    }
    assert records[..|records|] == records;
    return buckets[..];
  }

  method SplitIntoWindows(records: seq<Record>, windowMs: int) returns (result: Result<seq<Window>, WindowError>)
    ensures result == Windows(records, windowMs)
  {
    if windowMs <= 0 {
      return Err(WindowNotPositive);
    }
    var any, latest := LatestTimestamp(records);
    if !any {
      return Ok([Window(0, windowMs, records)]);
    }
    IndexIsQuotient(latest, windowMs);
    var count := latest / windowMs + 1;
    var buckets := FillBuckets(records, windowMs, count);
    var windows: seq<Window> := [];
    for k := 0 to count
      invariant windows == FirstWindows(records, windowMs, k)
    {
      StartIsProduct(k, windowMs);
      StartIsProduct(k + 1, windowMs);
      windows := windows + [Window(k * windowMs, (k + 1) * windowMs - 1, buckets[k])];
    }
    return Ok(windows);
  }

  // ---------- the windows partition the log ----------

  function Flatten(windows: seq<Window>): seq<Record> {
    if windows == [] then [] else Flatten(windows[..|windows| - 1]) + windows[|windows| - 1].records
  }

  lemma {:induction false} InWindowHolds(records: seq<Record>, windowMs: int, k: nat, r: Record)
    requires windowMs > 0
    ensures Occurrences(InWindow(records, windowMs, k), r) ==
      if Home(r, windowMs) == k then Occurrences(records, r) else 0
  {
    if records != [] {
      InWindowHolds(records[..|records| - 1], windowMs, k, r);
      var earlier, last := InWindow(records[..|records| - 1], windowMs, k), records[|records| - 1];
      assert (earlier + [last])[..|earlier|] == earlier;
    }
  }

  /** The records of the first `n` windows, one window after another. */
  function Joined(records: seq<Record>, windowMs: int, n: nat): seq<Record>
    requires windowMs > 0
  {
    if n == 0 then [] else Joined(records, windowMs, n - 1) + InWindow(records, windowMs, n - 1)
  }

  lemma FlattenOneMore(windows: seq<Window>, w: Window)
    ensures Flatten(windows + [w]) == Flatten(windows) + w.records
  {
    assert (windows + [w])[..|windows|] == windows;
  }

  lemma {:induction false} FlattenIsJoined(records: seq<Record>, windowMs: int, n: nat)
    requires windowMs > 0
    ensures Flatten(FirstWindows(records, windowMs, n)) == Joined(records, windowMs, n)
  {
    if n > 0 {
      FlattenIsJoined(records, windowMs, n - 1);
      FlattenOneMore(FirstWindows(records, windowMs, n - 1), WindowAt(records, windowMs, n - 1));
    }
  }

  lemma JoinedOneMore(records: seq<Record>, windowMs: int, n: nat, r: Record)
    requires windowMs > 0
    ensures Occurrences(Joined(records, windowMs, n + 1), r) ==
      Occurrences(Joined(records, windowMs, n), r) + Occurrences(InWindow(records, windowMs, n), r)
  {
    OccurrencesConcat(Joined(records, windowMs, n), InWindow(records, windowMs, n), r);
  }

  lemma {:induction false} JoinedHolds(records: seq<Record>, windowMs: int, n: nat, r: Record)
    requires windowMs > 0
    ensures Occurrences(Joined(records, windowMs, n), r) == if Home(r, windowMs) < n then Occurrences(records, r) else 0
  {
    if n > 0 {
      JoinedOneMore(records, windowMs, n - 1, r);
      JoinedHolds(records, windowMs, n - 1, r);
      InWindowHolds(records, windowMs, n - 1, r);
    }
  }

  lemma {:induction false} OccurrencesMean<K>(keys: seq<K>, key: K)
    ensures Occurrences(keys, key) > 0 <==> key in keys
  {
    if keys != [] {
      OccurrencesMean(keys[..|keys| - 1], key);
      assert keys == keys[..|keys| - 1] + [keys[|keys| - 1]];
    }
  }

  lemma MembersOfWindow(records: seq<Record>, windowMs: int, k: nat, r: Record)
    requires windowMs > 0
    ensures r in InWindow(records, windowMs, k) <==> r in records && Home(r, windowMs) == k
  {
    InWindowHolds(records, windowMs, k, r);
    OccurrencesMean(records, r);
    OccurrencesMean(InWindow(records, windowMs, k), r);
  }

  /** A record lands in this window and in no other. */
  ghost predicate OnlyIn(windows: seq<Window>, r: Record, k: nat) {
    k < |windows| && forall j | 0 <= j < |windows| :: r in windows[j].records <==> j == k
  }

  lemma HomeIsCounted(records: seq<Record>, windowMs: int, r: Record)
    requires windowMs > 0 && r in records
    ensures Home(r, windowMs) < WindowCount(records, windowMs)
  {
    StampsAreBelowLatest(records, r);
    IndexGrows(StampOf(r), LatestStamp(records), windowMs);
  }

  lemma OnlyInHome(records: seq<Record>, windowMs: int, r: Record)
    requires windowMs > 0 && r in records
    ensures OnlyIn(FirstWindows(records, windowMs, WindowCount(records, windowMs)), r, Home(r, windowMs))
  {
    HomeIsCounted(records, windowMs, r);
    forall k: nat ensures r in InWindow(records, windowMs, k) <==> k == Home(r, windowMs) {
      MembersOfWindow(records, windowMs, k, r);
    }
  }

  /** The windows together hold each record as often as the log does. */
  lemma WindowsKeepEveryRecord(records: seq<Record>, windowMs: int, r: Record)
    requires windowMs > 0
    ensures Occurrences(Flatten(Windows(records, windowMs).value), r) == Occurrences(records, r)
  {
    if NoStamps(records) {
      FlattenOne(Window(0, windowMs, records));
    } else {
      var n := WindowCount(records, windowMs);
      FlattenIsJoined(records, windowMs, n);
      JoinedHolds(records, windowMs, n, r);
      OccurrencesMean(records, r);
      if r in records {
        HomeIsCounted(records, windowMs, r);
      }
    }
  }

  lemma FlattenOne(w: Window)
    ensures Flatten([w]) == w.records
  {
    assert [w][..0] == [];
  }

  /** Every record of the log lands in exactly one window, one whose bounds contain its time. */
  lemma WindowsPartition(records: seq<Record>, windowMs: int, r: Record) returns (k: nat)
    requires windowMs > 0 && r in records
    ensures
      var windows := Windows(records, windowMs).value;
      OnlyIn(windows, r, k) && windows[k].startMs <= StampOf(r) <= windows[k].endMs
  {
    if NoStamps(records) {
      k := 0;
    } else {
      k := Home(r, windowMs);
      OnlyInHome(records, windowMs, r);
      IndexIsWithin(StampOf(r), windowMs);
    }
  }

  ghost predicate InTimeOrder(records: seq<Record>) {
    forall i, j | 0 <= i < j < |records| :: StampOf(records[i]) <= StampOf(records[j])
  }

  lemma {:induction false} LaterWindowsAreEmpty(records: seq<Record>, windowMs: int, k: nat)
    requires windowMs > 0 && forall r <- records :: Home(r, windowMs) < k
    ensures InWindow(records, windowMs, k) == []
  {
    if records != [] {
      assert records[|records| - 1] in records;
      LaterWindowsAreEmpty(records[..|records| - 1], windowMs, k);
    }
  }

  lemma LastIsLatest(records: seq<Record>, windowMs: int)
    requires windowMs > 0 && records != [] && InTimeOrder(records)
    ensures forall r <- records :: Home(r, windowMs) <= Home(records[|records| - 1], windowMs)
  {
    var last := records[|records| - 1];
    forall r <- records ensures Home(r, windowMs) <= Home(last, windowMs) {
      var i :| 0 <= i < |records| && records[i] == r;
      assert StampOf(r) <= StampOf(last);
      IndexGrows(StampOf(r), StampOf(last), windowMs);
    }
  }

  /** One more record at the end of the log comes last in the windows too. */
  lemma {:induction false} JoinedGrows(init: seq<Record>, last: Record, windowMs: int, n: nat)
    requires windowMs > 0 && forall r <- init :: Home(r, windowMs) <= Home(last, windowMs)
    ensures Joined(init + [last], windowMs, n) ==
      if Home(last, windowMs) < n then Joined(init, windowMs, n) + [last] else Joined(init, windowMs, n)
  {
    if n > 0 {
      JoinedGrows(init, last, windowMs, n - 1);
      assert (init + [last])[..|init|] == init;
      if Home(last, windowMs) < n - 1 {
        LaterWindowsAreEmpty(init, windowMs, n - 1);
      } else if Home(last, windowMs) == n - 1 {
        ConcatAssociative(Joined(init, windowMs, n - 1), InWindow(init, windowMs, n - 1), [last]);
      }
    }
  }

  lemma {:induction false} JoinedIsLog(records: seq<Record>, windowMs: int, n: nat)
    requires windowMs > 0 && InTimeOrder(records)
    requires forall r <- records :: Home(r, windowMs) < n
    ensures Joined(records, windowMs, n) == records
  {
    if records == [] {
      NothingJoined(windowMs, n);
    } else {
      var init, last := records[..|records| - 1], records[|records| - 1];
      JoinedIsLog(init, windowMs, n);
      assert last in records && records == init + [last];
      LastIsLatest(records, windowMs);
      JoinedGrows(init, last, windowMs, n);
    }
  }

  lemma {:induction false} NothingJoined(windowMs: int, n: nat)
    requires windowMs > 0
    ensures Joined([], windowMs, n) == []
  {
    if n > 0 {
      NothingJoined(windowMs, n - 1);
    }
  }

  /** The windows of a log in time order, put one after another, are the log. */
  lemma WindowsKeepOrder(records: seq<Record>, windowMs: int)
    requires windowMs > 0 && InTimeOrder(records)
    ensures Flatten(Windows(records, windowMs).value) == records
  {
    if NoStamps(records) {
      FlattenOne(Window(0, windowMs, records));
    } else {
      forall r <- records ensures Home(r, windowMs) < WindowCount(records, windowMs) {
        HomeIsCounted(records, windowMs, r);
      }
      FlattenIsJoined(records, windowMs, WindowCount(records, windowMs));
      JoinedIsLog(records, windowMs, WindowCount(records, windowMs));
    }
  }
}
