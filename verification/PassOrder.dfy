/** Due tasks and the order they are served in. */
module PassOrder {
  import opened PeriodicTask
  import opened RuntimeConfig

  /** The comparison given to the stable sort; smaller priority numbers come first. */
  predicate SortsBefore(mode: Mode, a: TaskState, b: TaskState) {
    if mode.EarliestDeadlineFirst? && a.AbsoluteDeadline() != b.AbsoluteDeadline() then
      a.AbsoluteDeadline() < b.AbsoluteDeadline()
    else
      a.config.priority < b.config.priority
  }

  /** The total order a stable sort of configuration order amounts to. */
  predicate Precedes(mode: Mode, tasks: seq<TaskState>, i: nat, j: nat)
    requires i < |tasks| && j < |tasks|
  {
    SortsBefore(mode, tasks[i], tasks[j]) || (!SortsBefore(mode, tasks[j], tasks[i]) && i < j)
  }

  predicate Indices(tasks: seq<TaskState>, turns: seq<nat>) {
    forall k | 0 <= k < |turns| :: turns[k] < |tasks|
  }

  ghost predicate InStrictOrder(mode: Mode, tasks: seq<TaskState>, turns: seq<nat>) {
    && Indices(tasks, turns)
    && forall j, k | 0 <= j < k < |turns| :: Precedes(mode, tasks, turns[j], turns[k])
  }

  /** The tasks due at `now`, in configuration order. */
  function DueTasks(tasks: seq<TaskState>, now: int): (due: seq<nat>)
    ensures Indices(tasks, due)
    ensures forall i: nat :: i in due <==> i < |tasks| && tasks[i].ShouldRun(now)
    ensures forall j, k | 0 <= j < k < |due| :: due[j] < due[k]
  {
    if tasks == [] then []
    else
      var n := |tasks| - 1;
      var rest := DueTasks(tasks[..n], now);
      assert forall i | 0 <= i < n :: tasks[..n][i] == tasks[i];
      if tasks[n].ShouldRun(now) then rest + [n] else rest
  }

  /** Put `x` behind every element that does not sort after it. */
  function InsertStably(mode: Mode, tasks: seq<TaskState>, sorted: seq<nat>, x: nat): (r: seq<nat>)
    requires Indices(tasks, sorted) && x < |tasks|
    ensures Indices(tasks, r)
    ensures multiset(r) == multiset(sorted) + multiset{x}
  {
    if sorted == [] then [x]
    else
      var n := |sorted| - 1;
      assert sorted == sorted[..n] + [sorted[n]];
      if SortsBefore(mode, tasks[x], tasks[sorted[n]]) then
        InsertStably(mode, tasks, sorted[..n], x) + [sorted[n]]
      else
        sorted + [x]
  }

  /** The stable sort of `turns`. */
  function InOrder(mode: Mode, tasks: seq<TaskState>, turns: seq<nat>): (r: seq<nat>)
    requires Indices(tasks, turns)
    ensures Indices(tasks, r)
    ensures multiset(r) == multiset(turns)
  {
    if turns == [] then []
    else
      var n := |turns| - 1;
      assert turns == turns[..n] + [turns[n]];
      InsertStably(mode, tasks, InOrder(mode, tasks, turns[..n]), turns[n])
  }

  lemma PrecedesIsTotalOrder(mode: Mode, tasks: seq<TaskState>, i: nat, j: nat, k: nat)
    requires i < |tasks| && j < |tasks| && k < |tasks|
    ensures !Precedes(mode, tasks, i, i)
    ensures i != j ==> (Precedes(mode, tasks, i, j) <==> !Precedes(mode, tasks, j, i))
    ensures Precedes(mode, tasks, i, j) && Precedes(mode, tasks, j, k) ==> Precedes(mode, tasks, i, k)
  {
  }

  lemma ExtendOrder(mode: Mode, tasks: seq<TaskState>, front: seq<nat>, last: nat)
    requires InStrictOrder(mode, tasks, front) && last < |tasks|
    requires forall j | 0 <= j < |front| :: Precedes(mode, tasks, front[j], last)
    ensures InStrictOrder(mode, tasks, front + [last])
  {
  }

  lemma InsertedElements(mode: Mode, tasks: seq<TaskState>, sorted: seq<nat>, x: nat, k: nat)
    requires Indices(tasks, sorted) && x < |tasks|
    requires k < |InsertStably(mode, tasks, sorted, x)|
    ensures InsertStably(mode, tasks, sorted, x)[k] in sorted + [x]
  {
    assert InsertStably(mode, tasks, sorted, x)[k] in multiset(InsertStably(mode, tasks, sorted, x));
  }

  lemma {:induction false} InsertKeepsOrder(mode: Mode, tasks: seq<TaskState>, sorted: seq<nat>, x: nat)
    requires InStrictOrder(mode, tasks, sorted) && x < |tasks|
    requires forall k | 0 <= k < |sorted| :: sorted[k] < x
    ensures InStrictOrder(mode, tasks, InsertStably(mode, tasks, sorted, x))
  {
    if sorted != [] {
      var n := |sorted| - 1;
      var last := sorted[n];
      if SortsBefore(mode, tasks[x], tasks[last]) {
        var front := InsertStably(mode, tasks, sorted[..n], x);
        InsertKeepsOrder(mode, tasks, sorted[..n], x);
        forall j | 0 <= j < |front| ensures Precedes(mode, tasks, front[j], last) {
          InsertedElements(mode, tasks, sorted[..n], x, j);
        }
        ExtendOrder(mode, tasks, front, last);
      } else {
        forall j | 0 <= j < |sorted| ensures Precedes(mode, tasks, sorted[j], x) {
          PrecedesIsTotalOrder(mode, tasks, sorted[j], last, x);
        }
        ExtendOrder(mode, tasks, sorted, x);
      }
    }
  }

  /** Sorting turns listed in configuration order yields strict order by (key, configuration index). */
  lemma {:induction false} SortedInStrictOrder(mode: Mode, tasks: seq<TaskState>, turns: seq<nat>)
    requires Indices(tasks, turns)
    requires forall j, k | 0 <= j < k < |turns| :: turns[j] < turns[k]
    ensures InStrictOrder(mode, tasks, InOrder(mode, tasks, turns))
  {
    if turns != [] {
      var n := |turns| - 1;
      var front := InOrder(mode, tasks, turns[..n]);
      SortedInStrictOrder(mode, tasks, turns[..n]);
      forall k | 0 <= k < |front| ensures front[k] < turns[n] {
        assert front[k] in multiset(turns[..n]);
      }
      InsertKeepsOrder(mode, tasks, front, turns[n]);
    }
  }

  /** Only one arrangement of the same turns is in strict order. */
  lemma {:induction false} StrictOrderIsUnique(mode: Mode, tasks: seq<TaskState>, a: seq<nat>, b: seq<nat>)
    requires InStrictOrder(mode, tasks, a) && InStrictOrder(mode, tasks, b)
    requires multiset(a) == multiset(b)
    ensures a == b
  {
    assert |a| == |multiset(a)| == |multiset(b)| == |b|;
    if a != [] {
      FirstIsLeast(mode, tasks, a, b);
      FirstIsLeast(mode, tasks, b, a);
      PrecedesIsTotalOrder(mode, tasks, a[0], b[0], a[0]);
      assert a == [a[0]] + a[1..] && b == [b[0]] + b[1..];
      assert multiset(a[1..]) == multiset(a) - multiset{a[0]};
      assert multiset(b[1..]) == multiset(b) - multiset{b[0]};
      StrictOrderIsUnique(mode, tasks, a[1..], b[1..]);
    }
  }

  lemma FirstIsLeast(mode: Mode, tasks: seq<TaskState>, a: seq<nat>, b: seq<nat>)
    requires InStrictOrder(mode, tasks, a) && multiset(a) == multiset(b)
    requires a != [] && b != [] && Indices(tasks, b)
    ensures b[0] == a[0] || Precedes(mode, tasks, a[0], b[0])
  {
    assert b[0] in multiset(a);
    var k :| 0 <= k < |a| && a[k] == b[0];
  }

  /** A turn appears at most once in a strictly ordered pass. */
  lemma StrictOrderHasNoRepeats(mode: Mode, tasks: seq<TaskState>, turns: seq<nat>)
    requires InStrictOrder(mode, tasks, turns)
    ensures forall j, k | 0 <= j < k < |turns| :: turns[j] != turns[k]
  {
    forall j, k | 0 <= j < k < |turns| ensures turns[j] != turns[k] {
      PrecedesIsTotalOrder(mode, tasks, turns[j], turns[k], turns[k]);
    }
  }
}
