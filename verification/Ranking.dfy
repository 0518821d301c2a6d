/** Stable sorting by descending weight. */
module Ranking {

  /** Heavier first; equal weights keep their positions. */
  predicate Ahead(weights: seq<real>, i: nat, j: nat)
    requires i < |weights| && j < |weights|
  {
    weights[i] > weights[j] || (weights[i] == weights[j] && i < j)
  }

  predicate Positions(weights: seq<real>, order: seq<nat>) {
    forall k | 0 <= k < |order| :: order[k] < |weights|
  }

  ghost predicate Descending(weights: seq<real>, order: seq<nat>) {
    && Positions(weights, order)
    && forall j, k | 0 <= j < k < |order| :: Ahead(weights, order[j], order[k])
  }

  /** Put `x` behind everything that is not lighter. */
  function InsertByWeight(weights: seq<real>, order: seq<nat>, x: nat): (r: seq<nat>)
    requires Positions(weights, order) && x < |weights|
    ensures Positions(weights, r) && |r| == |order| + 1
    ensures forall i :: i in r <==> i == x || i in order
  {
    if order == [] then [x]
    else
      var n := |order| - 1;
      assert order == order[..n] + [order[n]];
      if weights[x] > weights[order[n]] then InsertByWeight(weights, order[..n], x) + [order[n]]
      else order + [x]
  }

  lemma {:induction false} InsertKeepsDescending(weights: seq<real>, order: seq<nat>, x: nat)
    requires Descending(weights, order) && x < |weights|
    requires forall i <- order :: i < x
    ensures Descending(weights, InsertByWeight(weights, order, x))
  {
    if order != [] {
      var n := |order| - 1;
      assert order == order[..n] + [order[n]];
      assert forall i <- order[..n] :: i in order;
      if weights[x] > weights[order[n]] {
        InsertKeepsDescending(weights, order[..n], x);
        var front := InsertByWeight(weights, order[..n], x);
        forall j | 0 <= j < |front| ensures Ahead(weights, front[j], order[n]) {
          assert front[j] in front;
          if front[j] != x {
            assert front[j] in order[..n];
          }
        }
      } else {
        forall j | 0 <= j <= n ensures Ahead(weights, order[j], x) {
          assert order[j] in order;
        }
      }
    }
  }

  /** The positions of the first `n` weights, heaviest first. */
  function Ranked(weights: seq<real>, n: nat): (order: seq<nat>)
    requires n <= |weights|
    ensures Positions(weights, order) && |order| == n
    ensures forall i: nat :: i in order <==> i < n
  {
    if n == 0 then [] else InsertByWeight(weights, Ranked(weights, n - 1), n - 1)
  }

  lemma {:induction false} RankedIsDescending(weights: seq<real>, n: nat)
    requires n <= |weights|
    ensures Descending(weights, Ranked(weights, n))
  {
    if n > 0 {
      RankedIsDescending(weights, n - 1);
      InsertKeepsDescending(weights, Ranked(weights, n - 1), n - 1);
    }
  }

  /** What the first `limit` places hold: they are in order, and ahead of everything left out. */
  lemma TopPlaces(weights: seq<real>, limit: nat)
    ensures
      var order := Ranked(weights, |weights|);
      var top := order[..if |order| < limit then |order| else limit];
      && Descending(weights, top)
      && (forall i: nat, k | i < |weights| && i !in top && 0 <= k < |top| :: Ahead(weights, top[k], i))
  {
    var order := Ranked(weights, |weights|);
    var top := order[..if |order| < limit then |order| else limit];
    RankedIsDescending(weights, |weights|);
    assert forall j | 0 <= j < |top| :: order[j] in top;
    forall i: nat, k | i < |weights| && i !in top && 0 <= k < |top| ensures Ahead(weights, top[k], i) {
      assert i in order;
      var j :| 0 <= j < |order| && order[j] == i;
    }
  }

  /** The items at these places. */
  function PickedAt<T>(items: seq<T>, places: seq<nat>): (picked: seq<T>)
    requires forall k | 0 <= k < |places| :: places[k] < |items|
    ensures |picked| == |places|
    ensures forall k | 0 <= k < |places| :: picked[k] == items[places[k]]
  {
    seq(|places|, k requires 0 <= k < |places| => items[places[k]])
  }
}
