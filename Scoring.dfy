/**
 * Price screening, the technical score, the combined super-score and the
 * threshold recommendation of one symbol.
 */
module Scoring {
  import opened Model

  /** Fewest closes a series needs to be scored. */
  const MinCloses: nat := 6

  /** Super-scores above this recommend buying. */
  const BuyThreshold: real := 0.01

  /** Super-scores above this (and not above BuyThreshold) are neutral. */
  const NeutralThreshold: real := 0.005

  /** The close column with its missing values dropped, order kept. */
  function DropNa(column: seq<Option<real>>): (r: seq<real>)
    ensures |r| <= |column|
    ensures forall x :: x in r <==> Some(x) in column
  {
    if column == [] then []
    else
      var rest := DropNa(column[..|column| - 1]);
      assert column == column[..|column| - 1] + [column[|column| - 1]];
      match column[|column| - 1]
      case None => rest
      case Some(x) => rest + [x]
  }

  /** Dropping works piecewise: the kept values of a concatenation are those of each part, in order. */
  lemma {:induction false} DropNaAppend(a: seq<Option<real>>, b: seq<Option<real>>)
    ensures DropNa(a + b) == DropNa(a) + DropNa(b)
    decreases |b|
  {
    if b == [] {
      assert a + b == a;
    } else {
      var n := |b| - 1;
      assert (a + b)[..|a + b| - 1] == a + b[..n];
      assert (a + b)[|a + b| - 1] == b[n];
      DropNaAppend(a, b[..n]);
    }
  }

  /** A present value is kept and a missing one is dropped. */
  lemma DropNaSingle(x: real)
    ensures DropNa([Some(x)]) == [x]
    ensures DropNa([None]) == []
  {
    var present: seq<Option<real>>, missing: seq<Option<real>> := [Some(x)], [None];
    assert present[..0] == [] && missing[..0] == [];
  }

  /** How a downloaded frame is screened before scoring. */
  datatype Screened = NoData | TooFewCloses | Ready(closes: seq<real>)

  /**
   * An empty frame or one without a close column has no data; otherwise the
   * symbol is ready exactly when at least MinCloses closes remain after
   * dropping the missing ones.
   */
  function Screen(d: PriceData): (s: Screened)
    ensures s.NoData? <==> d.isEmpty || !d.hasClose
    ensures s.TooFewCloses? <==> !d.isEmpty && d.hasClose && |DropNa(d.close)| < MinCloses
    ensures s.Ready? <==> !d.isEmpty && d.hasClose && |DropNa(d.close)| >= MinCloses
    ensures s.Ready? ==> s.closes == DropNa(d.close)
  {
    if d.isEmpty || !d.hasClose then NoData
    else
      var closes := DropNa(d.close);
      if |closes| < MinCloses then TooFewCloses else Ready(closes)
  }

  /** Positional access from the end, as a negative index does: FromEnd(s, 1) is the last element. */
  function FromEnd(s: seq<real>, k: nat): real
    requires 1 <= k <= |s|
  {
    s[|s| - k]
  }

  /** The momentum denominator, the close at negative index 5, is not zero. */
  predicate MomentumDefined(closes: seq<real>)
  {
    |closes| >= MinCloses ==> FromEnd(closes, 5) != 0.0
  }

  /** Both closes momentum compares are positive. */
  predicate PricesPositive(closes: seq<real>)
    requires |closes| >= MinCloses
  {
    FromEnd(closes, 1) > 0.0 && FromEnd(closes, 5) > 0.0
  }

  /**
   * Ratio of the last close to the close at negative index 5. With positive
   * prices it is positive, above 1 exactly when the price rose over those
   * bars and equal to 1 exactly when it did not move.
   */
  function Momentum(closes: seq<real>): (m: real)
    requires |closes| >= MinCloses
    requires MomentumDefined(closes)
    ensures PricesPositive(closes) ==> m > 0.0
    ensures PricesPositive(closes) ==> (m > 1.0 <==> FromEnd(closes, 1) > FromEnd(closes, 5))
    ensures PricesPositive(closes) ==> (m == 1.0 <==> FromEnd(closes, 1) == FromEnd(closes, 5))
  {
    if PricesPositive(closes) then
      RatioAboveOne(FromEnd(closes, 1), FromEnd(closes, 5));
      FromEnd(closes, 1) / FromEnd(closes, 5)
    else
      FromEnd(closes, 1) / FromEnd(closes, 5)
  }

  lemma RatioAboveOne(l: real, d: real)
    requires l > 0.0 && d > 0.0
    ensures l / d > 0.0
    ensures l / d > 1.0 <==> l > d
    ensures l / d == 1.0 <==> l == d
  {
    var q := l / d;
    assert q * d == l;
    if q > 1.0 {
      ProductPositive(q - 1.0, d);
      assert (q - 1.0) * d == q * d - d;
    } else if q < 1.0 {
      ProductPositive(1.0 - q, d);
      assert (1.0 - q) * d == d - q * d;
    }
  }

  lemma ProductPositive(a: real, b: real)
    requires a > 0.0 && b > 0.0
    ensures a * b > 0.0
  {
  }

  /**
   * Technical score: volatility times momentum. No volatility gives no
   * score; with non-negative volatility and positive prices the score is
   * non-negative, and with positive volatility it exceeds the volatility
   * exactly when the price rose and equals it exactly when it did not move.
   */
  function TechScore(volatility: real, closes: seq<real>): (t: real)
    requires |closes| >= MinCloses
    requires MomentumDefined(closes)
    ensures volatility == 0.0 ==> t == 0.0
    ensures volatility >= 0.0 && PricesPositive(closes) ==> t >= 0.0
    ensures volatility > 0.0 && PricesPositive(closes) ==>
      (t > volatility <==> FromEnd(closes, 1) > FromEnd(closes, 5)) &&
      (t == volatility <==> FromEnd(closes, 1) == FromEnd(closes, 5))
  {
    var m := Momentum(closes);
    if volatility > 0.0 && PricesPositive(closes) then
      ScaleAboveOne(volatility, m);
      volatility * m
    else
      volatility * m
  }

  /** Scaling a positive value by m exceeds it exactly when m > 1. */
  lemma ScaleAboveOne(v: real, m: real)
    requires v > 0.0
    ensures v * m > v <==> m > 1.0
    ensures v * m == v <==> m == 1.0
  {
    assert v * m - v == v * (m - 1.0);
    if m > 1.0 {
      ProductPositive(v, m - 1.0);
    } else if m < 1.0 {
      ProductPositive(v, 1.0 - m);
      assert v - v * m == v * (1.0 - m);
    }
  }

  /** The super-score: technical score scaled by one plus the average sentiment. */
  function SuperScore(tech: real, sentiment: real): real
  {
    tech * (1.0 + sentiment)
  }

  /**
   * How sentiment moves the technical score: the super-score is the technical
   * score plus its sentiment-weighted share; neutral news leaves it alone,
   * positive news raises a positive score, and a sentiment in [-1, 1] keeps
   * its sign and at most doubles its magnitude.
   */
  lemma SuperScoreProperties(tech: real, sentiment: real)
    ensures SuperScore(tech, sentiment) - tech == tech * sentiment
    ensures sentiment == 0.0 ==> SuperScore(tech, sentiment) == tech
    ensures tech > 0.0 && sentiment > 0.0 ==> SuperScore(tech, sentiment) > tech
    ensures tech > 0.0 && sentiment < 0.0 ==> SuperScore(tech, sentiment) < tech
    ensures sentiment >= -1.0 && tech >= 0.0 ==> SuperScore(tech, sentiment) >= 0.0
    ensures sentiment >= -1.0 && tech <= 0.0 ==> SuperScore(tech, sentiment) <= 0.0
    ensures -1.0 <= sentiment <= 1.0 ==>
      -2.0 * Abs(tech) <= SuperScore(tech, sentiment) <= 2.0 * Abs(tech)
  {
    var s := SuperScore(tech, sentiment);
    assert s == tech + tech * sentiment;
    if -1.0 <= sentiment <= 1.0 {
      if tech >= 0.0 {
        assert -tech <= tech * sentiment <= tech;
      } else {
        assert tech <= tech * sentiment <= -tech;
      }
    }
  }

  function Abs(x: real): real
  {
    if x < 0.0 then -x else x
  }

  /** Maps a super-score to a recommendation against the two fixed thresholds. */
  function Recommend(score: real): (r: Recommendation)
    ensures r == Buy <==> score > BuyThreshold
    ensures r == Neutral <==> NeutralThreshold < score <= BuyThreshold
    ensures r == Avoid <==> score <= NeutralThreshold
  {
    if score > BuyThreshold then Buy
    else if score > NeutralThreshold then Neutral
    else Avoid
  }

  /** The text shown for each recommendation; each text belongs to exactly one recommendation. */
  function Label(r: Recommendation): (text: string)
    ensures text == "Kaufen möglich" <==> r == Buy
    ensures text == "Neutral / Vorsicht" <==> r == Neutral
    ensures text == "Nicht handeln" <==> r == Avoid
  {
    match r
    case Buy => "Kaufen möglich"
    case Neutral => "Neutral / Vorsicht"
    case Avoid => "Nicht handeln"
  }

  /** Ordinal of a recommendation, from Avoid (0) to Buy (2). */
  function Rank(r: Recommendation): nat
  {
    match r
    case Avoid => 0
    case Neutral => 1
    case Buy => 2
  }

  /** The boundaries are exclusive: exactly 0.01 is neutral and exactly 0.005 is avoid. */
  lemma RecommendBoundaries()
    ensures Recommend(0.01) == Neutral
    ensures Recommend(0.005) == Avoid
  {
  }

  /** A higher super-score never gives a weaker recommendation. */
  lemma RecommendMonotone(s: real, t: real)
    requires s <= t
    ensures Rank(Recommend(s)) <= Rank(Recommend(t))
  {
  }

  /**
   * With a sentiment in [-1, 1], a non-positive technical score can never be
   * lifted to a Buy or Neutral: positive sentiment cannot flip its sign.
   */
  lemma NonPositiveTechIsAvoid(tech: real, sentiment: real)
    requires tech <= 0.0
    requires -1.0 <= sentiment <= 1.0
    ensures Recommend(SuperScore(tech, sentiment)) == Avoid
  {
    SuperScoreProperties(tech, sentiment);
  }
}
