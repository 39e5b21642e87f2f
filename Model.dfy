/**
 * Data model of the per-symbol scoring pipeline of the daytrading overview:
 * what the price provider, the news provider and the two text classifiers
 * hand to the pipeline, and the record it emits per scored symbol.
 */
module Model {

  datatype Option<T> = None | Some(value: T)

  /** Result of language detection; `Undetermined` stands for the detector raising. */
  datatype Language = Detected(code: string) | Undetermined

  /** Result of polarity scoring; `Failed` stands for the scorer raising. */
  datatype Polarity = Scored(value: real) | Failed

  /**
   * The foreign collaborators, as uninterpreted total functions: language
   * detection, polarity scoring, and the volatility statistic (standard
   * deviation of the percentage changes) of a close series.
   */
  datatype Oracles = Oracles(
    detect: string -> Language,
    polarity: string -> Polarity,
    volatility: seq<real> -> real)

  /** The scorer only ever reports polarities in [-1, 1]. */
  ghost predicate PolarityBounded(polarity: string -> Polarity)
  {
    forall t :: polarity(t).Scored? ==> -1.0 <= polarity(t).value <= 1.0
  }

  /** One news article; `title` is `None` when the article has no title key. */
  datatype Article = Article(title: Option<string>)

  /** The decoded news response; `articles` is `None` when the key is missing. */
  datatype NewsResponse = NewsResponse(articles: Option<seq<Article>>)

  /**
   * The downloaded price frame: whether it is empty, whether it has a `Close`
   * column, and that column with missing values as `None`.
   */
  datatype PriceData = PriceData(isEmpty: bool, hasClose: bool, close: seq<Option<real>>)

  /** What the two providers returned for one position of the universe. */
  datatype Observation = Observation(prices: PriceData, news: NewsResponse)

  datatype Recommendation = Buy | Neutral | Avoid

  /** One entry of the per-symbol news list: a title and its sentiment. */
  datatype NewsItem = NewsItem(title: string, sentiment: real)

  /** The record appended to the results for every scored symbol. */
  datatype RankedResult = RankedResult(
    symbol: string,
    superScore: real,
    techScore: real,
    newsSentiment: real,
    recommendation: Recommendation)
}
