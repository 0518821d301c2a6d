/** Scoring and classifying a window by its features. */
module AnomalyScore {
  import opened AnomalyFeatures
  import opened HealthAnalyzer
  import opened Ranking

  datatype Rule = Rule(feature: Feature, weight: real, saturation: real)

  const RULES: RuleTable := [
    Rule(TaskFailedCount, 0.45, 1.0),
    Rule(TaskSkippedCount, 0.30, 3.0),
    Rule(WatchdogTimeoutCount, 0.35, 1.0),
    Rule(TaskRecoveredCount, 0.25, 1.0),
    Rule(DeadlineMissedCount, 0.25, 3.0),
    Rule(FaultInjectedCount, 0.20, 10.0),
    Rule(FaultInjectedDropCount, 0.18, 5.0),
    Rule(MessageDroppedCount, 0.15, 25.0),
    Rule(QueueFullDropCount, 0.12, 25.0),
    Rule(ErrorEventCount, 0.25, 1.0),
    Rule(WarningEventCount, 0.08, 25.0),
    Rule(MaxTaskDurationMs, 0.18, 100.0),
    Rule(AvgTaskDurationMs, 0.10, 60.0)]

  predicate ValidRules(rules: seq<Rule>) {
    forall i | 0 <= i < |rules| :: rules[i].weight > 0.0 && rules[i].saturation > 0.0
  }

  type RuleTable = rules: seq<Rule> | ValidRules(rules) witness []

  /** A feature that is missing counts as zero. */
  function Value(features: Features, f: Feature): real {
    if f in features then features[f] else 0.0
  }

  /** What a rule adds to the score: nothing for a value that is not positive, at most its weight. */
  function Share(rule: Rule, features: Features): real
    requires rule.saturation > 0.0
  {
    var value := Value(features, rule.feature);
    if value <= 0.0 then 0.0
    else
      var normalized := value / rule.saturation;
      rule.weight * (if normalized < 1.0 then normalized else 1.0)
  }

  lemma ShareRange(rule: Rule, features: Features)
    requires rule.saturation > 0.0 && rule.weight > 0.0
    ensures 0.0 <= Share(rule, features) <= rule.weight
    ensures Share(rule, features) > 0.0 <==> Value(features, rule.feature) > 0.0
  {
    var value := Value(features, rule.feature);
    if value > 0.0 {
      var normalized := value / rule.saturation;
      PositiveQuotient(value, rule.saturation);
      if normalized < 1.0 {
        ScaledBelow(rule.weight, normalized);
        assert 0.0 < rule.weight * normalized <= rule.weight;
        assert Share(rule, features) == rule.weight * normalized;
      } else {
        assert rule.weight * 1.0 == rule.weight;
        assert Share(rule, features) == rule.weight * 1.0;
      }
    } else {
      assert Share(rule, features) == 0.0;
    }
  }

  lemma PositiveQuotient(a: real, b: real)
    requires a > 0.0 && b > 0.0
    ensures a / b > 0.0
  {
  }

  lemma ScaledBelow(w: real, x: real)
    requires w > 0.0 && 0.0 < x <= 1.0
    ensures 0.0 < w * x <= w
  {
    ScaledOrder(w, x, 1.0);
  }

  lemma ScaledOrder(w: real, x: real, y: real)
    requires w > 0.0 && x <= y
    ensures w * x <= w * y
  {
    assert w * (y - x) >= 0.0;
  }

  lemma QuotientOrder(a: real, b: real, d: real)
    requires d > 0.0 && a <= b
    ensures a / d <= b / d
  {
  }

  /** No feature is lower in `b` than in `a`. */
  ghost predicate NoLower(a: Features, b: Features) {
    forall f: Feature :: Value(a, f) <= Value(b, f)
  }

  lemma ShareGrows(rule: Rule, a: Features, b: Features)
    requires rule.saturation > 0.0 && rule.weight > 0.0 && NoLower(a, b)
    ensures Share(rule, a) <= Share(rule, b)
  {
    var x, y := Value(a, rule.feature), Value(b, rule.feature);
    assert x <= y;
    ShareRange(rule, a);
    ShareRange(rule, b);
    if x > 0.0 {
      QuotientOrder(x, y, rule.saturation);
      var u, v := x / rule.saturation, y / rule.saturation;
      ScaledOrder(rule.weight, if u < 1.0 then u else 1.0, if v < 1.0 then v else 1.0);
    }
  }

  function SumShares(rules: seq<Rule>, features: Features): real
    requires ValidRules(rules)
  {
    if rules == [] then 0.0
    else SumShares(rules[..|rules| - 1], features) + Share(rules[|rules| - 1], features)
  }

  function ScoreOf(rules: seq<Rule>, features: Features): real
    requires ValidRules(rules)
  {
    var raw := SumShares(rules, features);
    if raw < 1.0 then raw else 1.0
  }

  lemma {:induction false} SumSharesGrows(rules: seq<Rule>, a: Features, b: Features)
    requires ValidRules(rules) && NoLower(a, b)
    ensures 0.0 <= SumShares(rules, a) <= SumShares(rules, b)
  {
    if rules != [] {
      SumSharesGrows(rules[..|rules| - 1], a, b);
      ShareGrows(rules[|rules| - 1], a, b);
      ShareRange(rules[|rules| - 1], a);
    }
  }

  /** The score stays between zero and one, and raising features never lowers it. */
  lemma ScoreIsMonotone(rules: seq<Rule>, a: Features, b: Features)
    requires ValidRules(rules) && NoLower(a, b)
    ensures 0.0 <= ScoreOf(rules, a) <= ScoreOf(rules, b) <= 1.0
  {
    SumSharesGrows(rules, a, b);
  }

  // ---------- the drivers ----------

  datatype Contribution = Contribution(feature: Feature, amount: real)

  function ContributionsOf(rules: seq<Rule>, features: Features): seq<Contribution>
    requires ValidRules(rules)
  {
    if rules == [] then []
    else
      var earlier, last := ContributionsOf(rules[..|rules| - 1], features), rules[|rules| - 1];
      if Share(last, features) > 0.0 then earlier + [Contribution(last.feature, Share(last, features))] else earlier
  }

  function Amounts(contributions: seq<Contribution>): (amounts: seq<real>)
    ensures |amounts| == |contributions|
  {
    seq(|contributions|, i requires 0 <= i < |contributions| => contributions[i].amount)
  }

  function Picked(contributions: seq<Contribution>, order: seq<nat>): (features: seq<Feature>)
    requires forall k | 0 <= k < |order| :: order[k] < |contributions|
    ensures |features| == |order|
  {
    seq(|order|, k requires 0 <= k < |order| => contributions[order[k]].feature)
  }

  /** The features of the four largest contributions; equal ones keep their order. */
  function TopDrivers(contributions: seq<Contribution>): seq<Feature> {
    var order := Ranked(Amounts(contributions), |contributions|);
    Picked(contributions, order[..if |order| < 4 then |order| else 4])
  }

  function DriversOf(rules: seq<Rule>, features: Features): seq<Feature>
    requires ValidRules(rules)
  {
    TopDrivers(ContributionsOf(rules, features))
  }

  method ScoreFeatures(features: Features) returns (score: real, drivers: seq<Feature>)
    ensures score == ScoreOf(RULES, features) && drivers == DriversOf(RULES, features)
  {
    score, drivers := ApplyRules(RULES, features);
  }

  method ApplyRules(rules: seq<Rule>, features: Features) returns (score: real, drivers: seq<Feature>)
    requires ValidRules(rules)
    ensures score == ScoreOf(rules, features) && drivers == DriversOf(rules, features)
  {
    var contributions: seq<Contribution> := [];
    var raw := 0.0;
    for i := 0 to |rules|
      invariant contributions == ContributionsOf(rules[..i], features)
      invariant raw == SumShares(rules[..i], features)
    {
      assert rules[..i + 1][..i] == rules[..i] && rules[..i + 1][i] == rules[i];
      var rule := rules[i];
      ShareRange(rule, features);
      var value := Value(features, rule.feature);
      if value <= 0.0 {
        continue;
      }
      var normalized := value / rule.saturation;
      var contribution := rule.weight * (if normalized < 1.0 then normalized else 1.0);
      assert contribution == Share(rule, features);
      if contribution > 0.0 {
        contributions := contributions + [Contribution(rule.feature, contribution)];
        raw := raw + contribution;
      }
    }
    assert rules[..|rules|] == rules;
    score := if raw < 1.0 then raw else 1.0;
    drivers := TopDrivers(contributions);
  }

  /** The positions of the rules that contribute. */
  function Contributing(rules: seq<Rule>, features: Features): (at: seq<nat>)
    requires ValidRules(rules)
    ensures forall k | 0 <= k < |at| :: at[k] < |rules|
  {
    if rules == [] then []
    else
      var n := |rules| - 1;
      var earlier := Contributing(rules[..n], features);
      if Share(rules[n], features) > 0.0 then earlier + [n] else earlier
  }

  lemma {:induction false} ContributionsArePlaced(rules: seq<Rule>, features: Features)
    requires ValidRules(rules)
    ensures
      var at, contributions := Contributing(rules, features), ContributionsOf(rules, features);
      && |at| == |contributions|
      && (forall k | 0 <= k < |at| ::
            contributions[k] == Contribution(rules[at[k]].feature, Share(rules[at[k]], features)))
      && (forall j, k | 0 <= j < k < |at| :: at[j] < at[k])
      && (forall i: nat :: i in at <==> i < |rules| && Share(rules[i], features) > 0.0)
  {
    if rules != [] {
      ContributionsArePlaced(rules[..|rules| - 1], features);
    }
  }

  /** One rule outranks another: it adds more, or as much and stands earlier in the table. */
  predicate Outranks(rules: seq<Rule>, features: Features, i: nat, j: nat)
    requires ValidRules(rules) && i < |rules| && j < |rules|
  {
    var a, b := Share(rules[i], features), Share(rules[j], features);
    a > b || (a == b && i < j)
  }

  /** The drivers are the features of these rules. */
  ghost predicate DriverRules(rules: seq<Rule>, drivers: seq<Feature>, at: seq<nat>) {
    && |at| == |drivers|
    && forall k | 0 <= k < |at| :: at[k] < |rules| && drivers[k] == rules[at[k]].feature
  }

  /** A contribution that is ahead of another belongs to a rule that outranks the other's. */
  lemma AheadOutranks(rules: seq<Rule>, features: Features, p: nat, q: nat)
    requires ValidRules(rules)
    requires p < |ContributionsOf(rules, features)| && q < |ContributionsOf(rules, features)|
    requires Ahead(Amounts(ContributionsOf(rules, features)), p, q)
    ensures
      var at := Contributing(rules, features);
      p < |at| && q < |at| && Outranks(rules, features, at[p], at[q])
  {
    ContributionsArePlaced(rules, features);
  }

  /** The places that `DriversOf` takes. */
  function TopOf(rules: seq<Rule>, features: Features): (top: seq<nat>)
    requires ValidRules(rules)
    ensures forall k | 0 <= k < |top| :: top[k] < |ContributionsOf(rules, features)|
    ensures DriversOf(rules, features) == Picked(ContributionsOf(rules, features), top)
  {
    var contributions := ContributionsOf(rules, features);
    var order := Ranked(Amounts(contributions), |contributions|);
    order[..if |order| < 4 then |order| else 4]
  }

  lemma TopIsInOrder(rules: seq<Rule>, features: Features)
    requires ValidRules(rules)
    ensures
      var amounts, top := Amounts(ContributionsOf(rules, features)), TopOf(rules, features);
      && (forall j, k | 0 <= j < k < |top| :: Ahead(amounts, top[j], top[k]))
      && (forall i: nat, k | i < |amounts| && i !in top && 0 <= k < |top| :: Ahead(amounts, top[k], i))
      && |top| == if |amounts| < 4 then |amounts| else 4
  {
    TopPlaces(Amounts(ContributionsOf(rules, features)), 4);
  }

  /** The top drivers are up to four of the contributing rules, each outranking the next, and all of them
      outranking every contributing rule left out. */
  lemma DriversAreLargest(rules: seq<Rule>, features: Features) returns (at: seq<nat>)
    requires ValidRules(rules)
    ensures DriverRules(rules, DriversOf(rules, features), at)
    ensures |at| == if |Contributing(rules, features)| < 4 then |Contributing(rules, features)| else 4
    ensures forall i <- at :: Share(rules[i], features) > 0.0
    ensures forall j, k | 0 <= j < k < |at| :: Outranks(rules, features, at[j], at[k])
    ensures forall i: nat, k | i < |rules| && Share(rules[i], features) > 0.0 && i !in at && 0 <= k < |at| ::
      Outranks(rules, features, at[k], i)
  {
    var placed, top := Contributing(rules, features), TopOf(rules, features);
    ContributionsArePlaced(rules, features);
    TopIsInOrder(rules, features);
    at := PickedAt(placed, top);
    forall i <- at ensures Share(rules[i], features) > 0.0 {
      assert i in placed;
    }
    forall j, k | 0 <= j < k < |at| ensures Outranks(rules, features, at[j], at[k]) {
      AheadOutranks(rules, features, top[j], top[k]);
    }
    forall i: nat, k | i < |rules| && Share(rules[i], features) > 0.0 && i !in at && 0 <= k < |at|
      ensures Outranks(rules, features, at[k], i)
    {
      LeftOutIsBehind(rules, features, i, k);
    }
  }

  lemma LeftOutIsBehind(rules: seq<Rule>, features: Features, i: nat, k: nat)
    requires ValidRules(rules) && i < |rules| && Share(rules[i], features) > 0.0 && k < |TopOf(rules, features)|
    requires |Contributing(rules, features)| == |ContributionsOf(rules, features)|
    requires i !in PickedAt(Contributing(rules, features), TopOf(rules, features))
    ensures Outranks(rules, features, Contributing(rules, features)[TopOf(rules, features)[k]], i)
  {
    var placed, top := Contributing(rules, features), TopOf(rules, features);
    ContributionsArePlaced(rules, features);
    TopIsInOrder(rules, features);
    var p: nat :| p < |placed| && placed[p] == i;
    assert forall q | 0 <= q < |top| :: PickedAt(placed, top)[q] in PickedAt(placed, top);
    assert p !in top;
    AheadOutranks(rules, features, top[k], p);
  }

  // ---------- classification ----------

  function Classify(score: real, features: Features): Health {
    if Value(features, TaskFailedCount) > 0.0 then UNSTABLE
    else if Value(features, TaskSkippedCount) >= 3.0 then UNSTABLE
    else if Value(features, WatchdogTimeoutCount) > 0.0 then UNSTABLE
    else if Value(features, TaskRecoveredCount) > 0.0 then UNSTABLE
    else if Value(features, DeadlineMissedCount) >= 3.0 then UNSTABLE
    else if score >= 0.70 then UNSTABLE
    else if score >= 0.25 then WARNING
    else NORMAL
  }

  /** Raising features never makes the class milder. */
  lemma ClassIsMonotone(rules: seq<Rule>, a: Features, b: Features)
    requires ValidRules(rules) && NoLower(a, b)
    ensures Rank(Classify(ScoreOf(rules, a), a)) <= Rank(Classify(ScoreOf(rules, b), b))
  {
    ScoreIsMonotone(rules, a, b);
    assert forall f: Feature :: Value(a, f) <= Value(b, f);
  }
}
