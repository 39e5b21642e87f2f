/**
 * The universe runner: walks the symbol list in order, skips the symbols
 * whose price data cannot be scored, scores the rest and collects one
 * record per scored symbol; the collection is then ranked.
 */
module Runner {
  import opened Model
  import opened Sentiment
  import opened Scoring
  import opened Ranking

  /** The symbol's data passed screening. */
  predicate Scorable(o: Observation)
  {
    Screen(o.prices).Ready?
  }

  /**
   * The momentum of a scorable symbol can be computed: its close at negative
   * index 5 is not zero (the program has no guard against that division).
   */
  predicate MomentumSafe(o: Observation)
  {
    match Screen(o.prices)
    case Ready(closes) => MomentumDefined(closes)
    case _ => true
  }

  predicate AllMomentumSafe(observations: seq<Observation>)
  {
    forall i :: 0 <= i < |observations| ==> MomentumSafe(observations[i])
  }

  /**
   * The record of one symbol with usable closes: technical score, average
   * sentiment of its articles, super-score and recommendation.
   */
  function ScoreSymbol(symbol: string, closes: seq<real>, news: NewsResponse, env: Oracles): (r: RankedResult)
    requires |closes| >= MinCloses
    requires MomentumDefined(closes)
    ensures r.symbol == symbol
    ensures r.techScore == TechScore(env.volatility(closes), closes)
    ensures r.newsSentiment == AverageSentiment(ArticlesOf(news), env)
    ensures r.superScore == SuperScore(r.techScore, r.newsSentiment)
    ensures r.recommendation == Recommend(r.superScore)
    ensures PolarityBounded(env.polarity) ==> -1.0 <= r.newsSentiment <= 1.0
  {
    var tech := TechScore(env.volatility(closes), closes);
    var sentiment := AverageSentiment(ArticlesOf(news), env);
    var score := SuperScore(tech, sentiment);
    RankedResult(symbol, score, tech, sentiment, Recommend(score))
  }

  /** The record of a symbol that passed screening. */
  function ScoreObservation(symbol: string, o: Observation, env: Oracles): RankedResult
    requires Scorable(o) && MomentumSafe(o)
  {
    ScoreSymbol(symbol, Screen(o.prices).closes, o.news, env)
  }

  /**
   * The results of a run over `universe`, where `observations[i]` is what the
   * providers returned for `universe[i]`: one record per scorable position,
   * in universe order, at most one per position.
   */
  function Run(universe: seq<string>, observations: seq<Observation>, env: Oracles): (r: seq<RankedResult>)
    requires |universe| == |observations|
    requires AllMomentumSafe(observations)
    ensures |r| <= |universe|
    ensures forall j :: 0 <= j < |r| ==> r[j].symbol in universe
  {
    if universe == [] then []
    else
      var n := |universe| - 1;
      var before := Run(universe[..n], observations[..n], env);
      assert forall j :: 0 <= j < |before| ==> before[j].symbol in universe by {
        forall j | 0 <= j < |before| ensures before[j].symbol in universe {
          var k :| 0 <= k < n && universe[..n][k] == before[j].symbol;
          assert universe[k] == before[j].symbol;
        }
      }
      if Scorable(observations[n]) then before + [ScoreObservation(universe[n], observations[n], env)]
      else before
  }

  /** The positions of the universe whose data passed screening, ascending. */
  function ScoredPositions(observations: seq<Observation>): (p: seq<nat>)
    ensures forall j :: 0 <= j < |p| ==> p[j] < |observations| && Scorable(observations[p[j]])
    ensures forall i, j :: 0 <= i < j < |p| ==> p[i] < p[j]
    ensures forall k :: 0 <= k < |observations| && Scorable(observations[k]) ==> k in p
  {
    if observations == [] then []
    else
      var n := |observations| - 1;
      var before := ScoredPositions(observations[..n]);
      assert forall j :: 0 <= j < |before| ==> observations[before[j]] == observations[..n][before[j]];
      if Scorable(observations[n]) then before + [n] else before
  }

  /** Every prefix of safe observations is safe. */
  lemma AllMomentumSafePrefix(observations: seq<Observation>, m: nat)
    requires m <= |observations|
    requires AllMomentumSafe(observations)
    ensures AllMomentumSafe(observations[..m])
  {
    forall i | 0 <= i < m ensures MomentumSafe(observations[..m][i]) {
      assert observations[..m][i] == observations[i];
    }
  }

  /** The j-th record of `results` is the score of the j-th position in `positions`. */
  predicate RecordsAt(universe: seq<string>, observations: seq<Observation>, env: Oracles,
                      results: seq<RankedResult>, positions: seq<nat>)
    requires |universe| == |observations|
    requires AllMomentumSafe(observations)
    requires forall j :: 0 <= j < |positions| ==> positions[j] < |observations| && Scorable(observations[positions[j]])
  {
    && |results| == |positions|
    && forall j :: 0 <= j < |positions| ==>
         results[j] == ScoreObservation(universe[positions[j]], observations[positions[j]], env)
  }

  /**
   * A run yields exactly one record per scorable position, in universe
   * order: the j-th record is the score of the j-th scorable position.
   */
  lemma {:induction false} RunAtScoredPositions(universe: seq<string>, observations: seq<Observation>, env: Oracles)
    requires |universe| == |observations|
    requires AllMomentumSafe(observations)
    ensures RecordsAt(universe, observations, env, Run(universe, observations, env), ScoredPositions(observations))
  {
    if universe != [] {
      var n := |universe| - 1;
      AllMomentumSafePrefix(observations, n);
      RunAtScoredPositions(universe[..n], observations[..n], env);
      var before := ScoredPositions(observations[..n]);
      var run := Run(universe[..n], observations[..n], env);
      var all := Run(universe, observations, env);
      var positions := ScoredPositions(observations);
      forall j | 0 <= j < |before|
        ensures all[j] == ScoreObservation(universe[positions[j]], observations[positions[j]], env)
      {
        var k := before[j];
        assert universe[..n][k] == universe[k];
        assert observations[..n][k] == observations[k];
        assert run[j] == ScoreObservation(universe[..n][k], observations[..n][k], env);
      }
    }
  }

  /** One more position of the universe: the next prefix's run extends the previous one by at most that position's record. */
  lemma RunPrefixStep(universe: seq<string>, observations: seq<Observation>, i: nat, env: Oracles)
    requires |universe| == |observations| && i < |universe|
    requires AllMomentumSafe(observations)
    ensures AllMomentumSafe(observations[..i]) && AllMomentumSafe(observations[..i + 1])
    ensures MomentumSafe(observations[i])
    ensures Run(universe[..i + 1], observations[..i + 1], env) ==
      Run(universe[..i], observations[..i], env) +
      (if Scorable(observations[i]) then [ScoreObservation(universe[i], observations[i], env)] else [])
  {
    AllMomentumSafePrefix(observations, i);
    AllMomentumSafePrefix(observations, i + 1);
    assert universe[..i + 1][..i] == universe[..i];
    assert observations[..i + 1][..i] == observations[..i];
    assert observations[..i + 1][i] == observations[i];
  }

  /** A skipped symbol adds nothing; a scored one adds exactly its record at the end. */
  lemma RunStep(universe: seq<string>, observations: seq<Observation>, symbol: string, o: Observation, env: Oracles)
    requires |universe| == |observations|
    requires AllMomentumSafe(observations + [o])
    ensures MomentumSafe(o) && AllMomentumSafe(observations)
    ensures !Scorable(o) ==>
      Run(universe + [symbol], observations + [o], env) == Run(universe, observations, env)
    ensures Scorable(o) ==>
      Run(universe + [symbol], observations + [o], env) ==
      Run(universe, observations, env) + [ScoreObservation(symbol, o, env)]
  {
    assert (observations + [o])[|observations|] == o;
    AllMomentumSafePrefix(observations + [o], |observations|);
    assert (universe + [symbol])[..|universe|] == universe;
    assert (observations + [o])[..|observations|] == observations;
  }

  /**
   * When every position is scorable, nothing is skipped and nothing is
   * merged: the run has one record per position, repeated symbols included.
   */
  lemma {:induction false} AllScorableKeepsEverySymbol(universe: seq<string>, observations: seq<Observation>, env: Oracles)
    requires |universe| == |observations|
    requires AllMomentumSafe(observations)
    requires forall i :: 0 <= i < |observations| ==> Scorable(observations[i])
    ensures |Run(universe, observations, env)| == |universe|
    ensures forall i :: 0 <= i < |universe| ==> Run(universe, observations, env)[i].symbol == universe[i]
  {
    RunAtScoredPositions(universe, observations, env);
    AllPositionsScored(observations);
  }

  /** When every position is scorable, the scorable positions are 0, 1, …, n-1. */
  lemma {:induction false} AllPositionsScored(observations: seq<Observation>)
    requires forall i :: 0 <= i < |observations| ==> Scorable(observations[i])
    ensures |ScoredPositions(observations)| == |observations|
    ensures forall j :: 0 <= j < |observations| ==> ScoredPositions(observations)[j] == j
  {
    if observations != [] {
      var n := |observations| - 1;
      var init := observations[..n];
      forall i | 0 <= i < n ensures Scorable(init[i]) {
        assert init[i] == observations[i];
      }
      AllPositionsScored(init);
      assert ScoredPositions(observations) == ScoredPositions(init) + [n];
    }
  }

  /**
   * The main loop: for each symbol in order, skip it when its frame is empty
   * or has no close column, or when fewer than MinCloses closes remain;
   * otherwise score it and append its record.
   */
  method RunUniverse(universe: seq<string>, observations: seq<Observation>, env: Oracles)
    returns (results: seq<RankedResult>)
    requires |universe| == |observations|
    requires AllMomentumSafe(observations)
    ensures results == Run(universe, observations, env)
  {
    results := [];
    var i := 0;
    while i < |universe|
      invariant 0 <= i <= |universe|
      invariant AllMomentumSafe(observations[..i])
      invariant results == Run(universe[..i], observations[..i], env)
    {
      var o := observations[i];
      RunPrefixStep(universe, observations, i, env);
      i := i + 1;
      var screened := Screen(o.prices);
      if screened.NoData? || screened.TooFewCloses? {
        continue;
      }
      var closes := screened.closes;
      var tech := TechScore(env.volatility(closes), closes);
      var sentiment, _ := AggregateNews(ArticlesOf(o.news), env);
      var score := SuperScore(tech, sentiment);
      results := results + [RankedResult(universe[i - 1], score, tech, sentiment, Recommend(score))];
    }
    assert universe[..i] == universe && observations[..i] == observations;
  }

  /**
   * A whole run: the results, ranked by super-score. The ranking holds
   * exactly the run's records, highest score first, and records with equal
   * scores keep their universe order.
   */
  method RankUniverse(universe: seq<string>, observations: seq<Observation>, env: Oracles)
    returns (ranked: seq<RankedResult>)
    requires |universe| == |observations|
    requires AllMomentumSafe(observations)
    ensures multiset(ranked) == multiset(Run(universe, observations, env))
    ensures NonIncreasing(ranked)
    ensures forall key: real :: WithScore(ranked, key) == WithScore(Run(universe, observations, env), key)
  {
    var results := RunUniverse(universe, observations, env);
    ranked := SortBySuperScore(results);
    SortNonIncreasing(results);
    forall key: real ensures WithScore(ranked, key) == WithScore(results, key) {
      SortStable(results, key);
    }
  }

  /**
   * A worked example: closes 10, 11, 10, 12, 11, 13 and one English headline
   * of positive polarity. The technical score is the volatility times 13/11
   * (the last close over the close at negative index 5), the sentiment is the
   * headline's polarity, and with a positive volatility the super-score
   * exceeds the technical score.
   */
  lemma ExampleScore(env: Oracles)
    requires env.detect("great quarter") == Detected("en")
    requires env.polarity("great quarter").Scored? && env.polarity("great quarter").value > 0.0
    requires env.volatility([10.0, 11.0, 10.0, 12.0, 11.0, 13.0]) > 0.0
    ensures
      var r := ScoreSymbol("AAPL", [10.0, 11.0, 10.0, 12.0, 11.0, 13.0],
                           NewsResponse(Some([Article(Some("great quarter"))])), env);
      && r.techScore == env.volatility([10.0, 11.0, 10.0, 12.0, 11.0, 13.0]) * (13.0 / 11.0)
      && r.newsSentiment == env.polarity("great quarter").value
      && r.superScore > r.techScore
  {
    var closes := [10.0, 11.0, 10.0, 12.0, 11.0, 13.0];
    var articles := [Article(Some("great quarter"))];
    assert articles[..0] == [];
    var p := env.polarity("great quarter").value;
    assert SentimentTotal(articles, env) == p;
    var tech := TechScore(env.volatility(closes), closes);
    assert FromEnd(closes, 5) == 11.0 && FromEnd(closes, 1) == 13.0;
    SuperScoreProperties(tech, p);
  }
}
