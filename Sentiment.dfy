/**
 * Headline sentiment: the language-guarded polarity of one text and the
 * average over the articles returned for one symbol.
 */
module Sentiment {
  import opened Model

  /** Only texts detected as this language are scored. */
  const TargetLanguage: string := "en"

  /**
   * Polarity of `text`, or 0.0 when the text is not in the target language
   * or when detection or scoring fails.
   */
  function AnalyzeSentiment(text: string, env: Oracles): (r: real)
    ensures env.detect(text) != Detected(TargetLanguage) || env.polarity(text).Failed? ==> r == 0.0
    ensures env.detect(text) == Detected(TargetLanguage) && env.polarity(text).Scored? ==>
      r == env.polarity(text).value
    ensures PolarityBounded(env.polarity) ==> -1.0 <= r <= 1.0
  {
    match env.detect(text)
    case Undetermined => 0.0
    case Detected(code) =>
      if code != TargetLanguage then 0.0
      else
        match env.polarity(text)
        case Failed => 0.0
        case Scored(v) => v
  }

  /** The title of an article, or the empty string when it has none. */
  function TitleOf(a: Article): (title: string)
    ensures a.title.None? ==> title == ""
    ensures a.title.Some? ==> title == a.title.value
  {
    match a.title
    case None => ""
    case Some(t) => t
  }

  /** The articles of a news response, or none when the key is missing. */
  function ArticlesOf(response: NewsResponse): (articles: seq<Article>)
    ensures response.articles.None? ==> articles == []
    ensures response.articles.Some? ==> articles == response.articles.value
  {
    match response.articles
    case None => []
    case Some(articles) => articles
  }

  /**
   * Sum of the title sentiments, accumulated left to right; with bounded
   * polarities the total of n sentiments lies in [-n, n].
   */
  function SentimentTotal(articles: seq<Article>, env: Oracles): (total: real)
    ensures articles == [] ==> total == 0.0
    ensures PolarityBounded(env.polarity) ==> -(|articles| as real) <= total <= |articles| as real
  {
    if articles == [] then 0.0
    else SentimentTotal(articles[..|articles| - 1], env) + AnalyzeSentiment(TitleOf(articles[|articles| - 1]), env)
  }

  /**
   * The average sentiment: the total divided by max(number of articles, 1),
   * so exactly 0.0 for no articles and the arithmetic mean otherwise.
   */
  function AverageSentiment(articles: seq<Article>, env: Oracles): (avg: real)
    ensures articles == [] ==> avg == 0.0
    ensures articles != [] ==> avg * (|articles| as real) == SentimentTotal(articles, env)
    ensures PolarityBounded(env.polarity) ==> -1.0 <= avg <= 1.0
  {
    var n := if |articles| > 1 then |articles| else 1;
    var total := SentimentTotal(articles, env);
    MeanBounded(total, n as real);
    total / (n as real)
  }

  /** A total within [-n, n] divided by n >= 1 lies within [-1, 1]. */
  lemma MeanBounded(total: real, n: real)
    requires n >= 1.0
    ensures -n <= total <= n ==> -1.0 <= total / n <= 1.0
  {
    var q := total / n;
    assert q * n == total;
  }

  /**
   * The inner news loop: scores every title in order, accumulating the total
   * and building the news list, then divides by max(number of articles, 1).
   */
  method AggregateNews(articles: seq<Article>, env: Oracles) returns (avg: real, news: seq<NewsItem>)
    ensures avg == AverageSentiment(articles, env)
    ensures |news| == |articles|
    ensures forall i :: 0 <= i < |articles| ==>
      news[i] == NewsItem(TitleOf(articles[i]), AnalyzeSentiment(TitleOf(articles[i]), env))
  {
    var total := 0.0;
    news := [];
    var i := 0;
    while i < |articles|
      invariant 0 <= i <= |articles|
      invariant total == SentimentTotal(articles[..i], env)
      invariant |news| == i
      invariant forall k :: 0 <= k < i ==>
        news[k] == NewsItem(TitleOf(articles[k]), AnalyzeSentiment(TitleOf(articles[k]), env))
    {
      var title := TitleOf(articles[i]);
      var sentiment := AnalyzeSentiment(title, env);
      assert articles[..i + 1][..i] == articles[..i];
      total := total + sentiment;
      news := news + [NewsItem(title, sentiment)];
      i := i + 1;
    }
    assert articles[..i] == articles;
    var count := if |articles| > 1 then |articles| else 1;
    avg := total / (count as real);
  }
}
