/** The final results screen: the best round, the accuracy against the
    maximum possible score, and the performance tier it earns. */
module FinalResults {
  import opened Basics
  import opened GameTypes

  /** The most a single round can score. */
  const MaxRoundScore: nat := 5000

  datatype Tier = KeepLearning | Good | Great | Excellent | Legendary

  /** The tiers in ascending order. */
  function Rank(t: Tier): nat {
    match t
    case KeepLearning => 0
    case Good => 1
    case Great => 2
    case Excellent => 3
    case Legendary => 4
  }

  function Title(t: Tier): string {
    match t
    case Legendary => "Legendary"
    case Excellent => "Excellent"
    case Great => "Great"
    case Good => "Good"
    case KeepLearning => "Keep Learning"
  }

  function Message(t: Tier): string {
    match t
    case Legendary => "You're a geography master!"
    case Excellent => "Impressive knowledge of the world!"
    case Great => "You know your way around!"
    case Good => "Nice effort, keep exploring!"
    case KeepLearning => "Every explorer starts somewhere!"
  }

  /** `getPerformanceLevel`: the first threshold reached, from the top. Each
      tier holds exactly on its half-open band, so every percentage has a
      tier and the thresholds themselves belong to the higher one. */
  function PerformanceLevel(percentage: real): (t: Tier)
    ensures t == Legendary <==> percentage >= 90.0
    ensures t == Excellent <==> 75.0 <= percentage < 90.0
    ensures t == Great <==> 60.0 <= percentage < 75.0
    ensures t == Good <==> 40.0 <= percentage < 60.0
    ensures t == KeepLearning <==> percentage < 40.0
  {
    if percentage >= 90.0 then Legendary
    else if percentage >= 75.0 then Excellent
    else if percentage >= 60.0 then Great
    else if percentage >= 40.0 then Good
    else KeepLearning
  }

  /** A higher percentage never earns a lower tier. */
  lemma PerformanceIsMonotone(p: real, q: real)
    requires p <= q
    ensures Rank(PerformanceLevel(p)) <= Rank(PerformanceLevel(q))
  {
  }

  /** The `reduce` callback folded from position `i` on: a later round
      replaces the best only with a strictly higher score. */
  function ReduceBest(rs: seq<RoundResult>, best: RoundResult, i: nat): RoundResult
    decreases |rs| - i
  {
    if i >= |rs| then best
    else ReduceBest(rs, if rs[i].score > best.score then rs[i] else best, i + 1)
  }

  /** Position `k` holds a highest score, and the first one among ties. */
  ghost predicate IsEarliestBest(rs: seq<RoundResult>, k: int) {
    0 <= k < |rs| &&
    (forall j :: 0 <= j < |rs| ==> rs[j].score <= rs[k].score) &&
    (forall j :: 0 <= j < k ==> rs[j].score < rs[k].score)
  }

  /** `results.reduce(...)` without an initial value: on an empty list it
      throws, which is `None` here. */
  function BestRound(rs: seq<RoundResult>): (r: Option<RoundResult>)
    ensures r.None? <==> rs == []
  {
    if rs == [] then None else Some(ReduceBest(rs, rs[0], 1))
  }

  /** The fold keeps, as its accumulator, the earliest best of the prefix
      it has seen. */
  lemma {:induction false} ReduceBestIsEarliestBest(rs: seq<RoundResult>, k: nat, i: nat) returns (m: nat)
    requires k < i <= |rs|
    requires forall j :: 0 <= j < i ==> rs[j].score <= rs[k].score
    requires forall j :: 0 <= j < k ==> rs[j].score < rs[k].score
    ensures IsEarliestBest(rs, m) && ReduceBest(rs, rs[k], i) == rs[m]
    decreases |rs| - i
  {
    if i == |rs| {
      m := k;
    } else if rs[i].score > rs[k].score {
      assert ReduceBest(rs, rs[k], i) == ReduceBest(rs, rs[i], i + 1);
      m := ReduceBestIsEarliestBest(rs, i, i + 1);
    } else {
      assert ReduceBest(rs, rs[k], i) == ReduceBest(rs, rs[k], i + 1);
      m := ReduceBestIsEarliestBest(rs, k, i + 1);
    }
  }

  /** The best round scores at least every round, and on ties it is the
      earliest of them. */
  lemma BestRoundIsEarliestBest(rs: seq<RoundResult>)
    requires rs != []
    ensures exists m :: IsEarliestBest(rs, m) && BestRound(rs) == Some(rs[m])
  {
    var m := ReduceBestIsEarliestBest(rs, 0, 1);
  }

  /** `results.length * 5000`. */
  function MaxPossibleScore(rounds: nat): (m: nat)
    ensures rounds > 0 ==> m >= MaxRoundScore
  {
    rounds * MaxRoundScore
  }

  /** `(totalScore / maxPossibleScore) * 100`. */
  function Accuracy(totalScore: int, rounds: nat): (a: real)
    requires rounds > 0
    ensures totalScore == MaxPossibleScore(rounds) ==> a == 100.0
    ensures totalScore == 0 ==> a == 0.0
  {
    (totalScore as real / MaxPossibleScore(rounds) as real) * 100.0
  }

  /** What the screen derives from the game: with no results the `reduce`
      throws and nothing is shown. */
  datatype Summary = Summary(best: RoundResult, maxPossible: nat, accuracy: real, tier: Tier)

  function Summarise(results: seq<RoundResult>, totalScore: int): (s: Option<Summary>)
    ensures s.None? <==> results == []
    ensures s.Some? ==> s.value.maxPossible == MaxRoundScore * |results| &&
                        s.value.tier == PerformanceLevel(s.value.accuracy)
  {
    if results == [] then None
    else
      var accuracy := Accuracy(totalScore, |results|);
      Some(Summary(BestRound(results).value, MaxPossibleScore(|results|), accuracy, PerformanceLevel(accuracy)))
  }

  /** The accuracy reaches a threshold of `p` percent exactly when the total
      reaches `p` percent of the per-round maximum on every round. */
  lemma AccuracyAtLeast(totalScore: int, rounds: nat, p: real)
    requires rounds > 0
    ensures Accuracy(totalScore, rounds) >= p <==> totalScore as real >= p * 50.0 * rounds as real
  {
    var m := MaxPossibleScore(rounds) as real;
    var a := Accuracy(totalScore, rounds);
    assert m == 5000.0 * rounds as real;
    assert a * m == totalScore as real * 100.0;
    if a >= p {
      MultiplyBothSides(p, a, m);
    } else {
      MultiplyBothSides(a, p, m);
    }
  }

  lemma MultiplyBothSides(x: real, y: real, m: real)
    requires x <= y && m > 0.0
    ensures x * m <= y * m
  {
  }

  /** The game is Legendary exactly when it averages at least 4500 points a
      round, and Keep Learning exactly when it averages under 2000. */
  lemma LegendaryThreshold(results: seq<RoundResult>, totalScore: int)
    requires results != []
    ensures Summarise(results, totalScore).value.tier == Legendary <==> totalScore >= 4500 * |results|
    ensures Summarise(results, totalScore).value.tier == KeepLearning <==> totalScore < 2000 * |results|
  {
    AccuracyAtLeast(totalScore, |results|, 90.0);
    AccuracyAtLeast(totalScore, |results|, 40.0);
  }

  /** On the final screen of a game the total is the sum of the round
      scores, so a perfect game is Legendary at accuracy 100. */
  lemma PerfectGameIsLegendary(results: seq<RoundResult>)
    requires results != []
    requires forall j :: 0 <= j < |results| ==> results[j].score == MaxRoundScore
    ensures Summarise(results, SumScores(results)).value.accuracy == 100.0
    ensures Summarise(results, SumScores(results)).value.tier == Legendary
  {
    SumOfPerfectRounds(results);
  }

  lemma {:induction false} SumOfPerfectRounds(rs: seq<RoundResult>)
    requires forall j :: 0 <= j < |rs| ==> rs[j].score == MaxRoundScore
    ensures SumScores(rs) == MaxRoundScore * |rs|
  {
    if rs != [] {
      SumOfPerfectRounds(rs[1..]);
    }
  }
}
