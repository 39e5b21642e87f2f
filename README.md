# Daytrading overview: scoring and ranking core

A Dafny model of the scoring pipeline of the "News + Daytrading" overview
(`News_daytrading_app.py`). The script walks a fixed list of stock symbols.
For each symbol it downloads hourly prices and skips the symbol when there is
no usable close series. Otherwise it computes a technical score
(volatility × momentum), averages the sentiment of up to five English news
headlines, and combines the two into a super-score. It maps the super-score
to one of three recommendations and finally ranks all records by super-score,
highest first.

Modules, following the pipeline:

- `Model` (Model.dfy): the values that cross the pipeline's boundary. These are
  the downloaded price frame (`PriceData`: empty?, has a `Close` column?, the
  column with missing values as `None`), the news response and its articles,
  the per-symbol result record `RankedResult`, and `Oracles`. `Oracles` bundles
  the three foreign collaborators (language detection, polarity scoring, the
  volatility statistic) as uninterpreted total functions. A detector or scorer
  that raises is the `Undetermined` / `Failed` constructor.
- `Sentiment` (Sentiment.dfy): the language-guarded polarity of one title
  (`AnalyzeSentiment`); the running total over the articles (`SentimentTotal`,
  a left-to-right sum); the safe mean (`AverageSentiment`, dividing by
  max(n, 1)); and the inner news loop as a method (`AggregateNews`).
- `Scoring` (Scoring.dfy): dropping missing closes (`DropNa`), the skip
  screening (`Screen`), negative indexing (`FromEnd`), `Momentum`,
  `TechScore`, `SuperScore`, and `Recommend` with its two named thresholds
  `BuyThreshold` = 0.01 and `NeutralThreshold` = 0.005, plus `Label`, which
  gives the German text shown for each recommendation.
- `Ranking` (Ranking.dfy): the final `sorted(..., reverse=True)` as a stable
  insertion sort on the super-score (`SortBySuperScore`), with permutation,
  ordering and stability proved.
- `Runner` (Runner.dfy): the main loop as a method with `continue` on skipped
  symbols (`RunUniverse`), the function it is proved against (`Run`), and the
  lemmas saying which symbols contribute a record and in what order.

Inputs from the outside world are parameters. `observations[i]` is what the
price and news providers returned for `universe[i]`; a repeated symbol has its
own observation. `env: Oracles` holds detection, polarity and volatility.

What the code does at its edges, as modelled:

- Momentum divides the last close by the close at negative index 5
  (`iloc[-5]`), which is four intervals back. For six closes
  `10, 11, 10, 12, 11, 13` this gives 13/11 (`Runner.ExampleScore`).
- A zero close at negative index 5 is not caught. Python float division
  raises and ends the whole run rather than skipping the symbol. The model
  states this as a precondition (`Scoring.MomentumDefined`,
  `Runner.AllMomentumSafe`).
- A NaN volatility is not filtered before the sort, and the sort key is the
  super-score rounded to five decimals. The model works over exact reals.
- With every polarity in [-1, 1], a technical score of zero or below always
  gives "Nicht handeln" (`Scoring.NonPositiveTechIsAvoid`). A technical score
  of zero or below needs zero volatility or a non-positive price. With positive
  prices and positive volatility the technical score is positive even when
  the price fell, so positive news can lift such a symbol to a buy.

## Model

| member | source | states |
|---|---|---|
| `Sentiment.AnalyzeSentiment` | News_daytrading_app.py:11-17 | returns exactly 0.0 when the detected language is not "en", when detection fails or when scoring fails; otherwise returns the polarity; lies in [-1, 1] whenever the scorer's polarities do |
| `Sentiment.TitleOf` | News_daytrading_app.py:85 | an article's title, or the empty string when it has none |
| `Sentiment.ArticlesOf` | News_daytrading_app.py:79 | the response's articles, or no articles when the key is missing |
| `Sentiment.SentimentTotal` | News_daytrading_app.py:81-87 | the running total is 0 for no articles; with polarities in [-1, 1], the total over n titles lies in [-n, n] |
| `Sentiment.AverageSentiment` | News_daytrading_app.py:81-91 | no articles give exactly 0.0 with no division by zero; otherwise the average times the number of articles is the total; the average lies in [-1, 1] when polarities do |
| `Sentiment.AggregateNews` | News_daytrading_app.py:81-91 | the inner loop's average equals `AverageSentiment` of the articles, and its news list has one entry per article, in order, holding the title (empty when missing) and its sentiment |
| `Scoring.DropNa` | News_daytrading_app.py:53 | the close column with missing values removed: no longer than the column, and a value is kept exactly when it is present in the column |
| `Scoring.DropNaAppend` | News_daytrading_app.py:53 | dropping missing values works piecewise: the kept values of a concatenation are those of each part, in order (with `DropNaSingle` this fixes the result completely) |
| `Scoring.DropNaSingle` | News_daytrading_app.py:53 | a present value is kept and a missing one is dropped |
| `Scoring.Screen` | News_daytrading_app.py:49-57 | an empty frame or one without a close column has no data; otherwise too few closes exactly when fewer than 6 closes remain after dropping missing ones; ready, with those closes, exactly when at least 6 remain |
| `Scoring.Momentum` | News_daytrading_app.py:55-63 | with positive closes, momentum is positive; it exceeds 1 exactly when the last close is above the close at negative index 5, and equals 1 exactly when they are equal |
| `Scoring.TechScore` | News_daytrading_app.py:62-64 | zero volatility gives a zero score; non-negative volatility and positive prices give a non-negative score; with positive volatility the score exceeds the volatility exactly when the price rose, and equals it exactly when the price did not move |
| `Scoring.SuperScore` | News_daytrading_app.py:96 | the super-score formula tech × (1 + sentiment); it has no contract of its own, and its consequences are stated by `Scoring.SuperScoreProperties` |
| `Scoring.SuperScoreProperties` | News_daytrading_app.py:96 | the super-score exceeds the technical score by exactly tech × sentiment; zero sentiment leaves the technical score unchanged; positive (negative) sentiment raises (lowers) a positive technical score; a sentiment of at least -1 keeps the sign; a sentiment in [-1, 1] at most doubles the magnitude |
| `Scoring.Recommend` | News_daytrading_app.py:101-106 | Buy exactly when the score is > 0.01, Neutral exactly when 0.005 < score <= 0.01, Avoid exactly when score <= 0.005 (total and exclusive) |
| `Scoring.RecommendBoundaries` | News_daytrading_app.py:101-106 | 0.01 is Neutral and 0.005 is Avoid: both thresholds are exclusive |
| `Scoring.RecommendMonotone` | News_daytrading_app.py:101-106 | a higher super-score never gives a weaker recommendation |
| `Scoring.Label` | News_daytrading_app.py:102-106 | each of the three texts "Kaufen möglich", "Neutral / Vorsicht", "Nicht handeln" is shown for exactly one recommendation, so the text determines the recommendation |
| `Scoring.NonPositiveTechIsAvoid` | News_daytrading_app.py:96-106 | with sentiment in [-1, 1], a non-positive technical score always yields Avoid |
| `Ranking.SortBySuperScore` | News_daytrading_app.py:122 | the ranking is a permutation of the results (same multiset, same length) whose neighbours are ordered by super-score, highest first |
| `Ranking.SortNonIncreasing` | News_daytrading_app.py:122 | every record of the ranking scores at least as high as every later one |
| `Ranking.SortStable` | News_daytrading_app.py:122 | for every super-score, the records with that score appear in the ranking in the same relative order as in the results (stability of `sorted` with `reverse=True`) |
| `Ranking.ExampleRanking` | News_daytrading_app.py:122 | records scored 0.02, -0.01, 0.015 are ranked 0.02, 0.015, -0.01 |
| `Runner.ScoreSymbol` | News_daytrading_app.py:62-117 | the record of a scored symbol carries its symbol, its technical score, the average sentiment of its articles (in [-1, 1] when polarities are), the super-score of the two and the recommendation of that super-score |
| `Runner.Run` | News_daytrading_app.py:43-117 | the results of a run have at most one record per universe position, and every record's symbol comes from the universe |
| `Runner.ScoredPositions` | News_daytrading_app.py:43-57 | the scored positions are strictly increasing, each is scorable, and every scorable position is among them |
| `Runner.RunAtScoredPositions` | News_daytrading_app.py:43-117 | there is exactly one record per scorable position, in universe order: the j-th record is the score of the j-th scorable position |
| `Runner.RunStep` | News_daytrading_app.py:43-117 | a symbol that fails screening adds no record; one that passes adds exactly its own record at the end |
| `Runner.AllScorableKeepsEverySymbol` | News_daytrading_app.py:43-117 | when every position is scorable, the run has one record per position with the same symbol, repeated symbols included |
| `Runner.RunUniverse` | News_daytrading_app.py:43-117 | the main loop, with `continue` on skipped symbols, returns exactly `Run` of the universe and observations |
| `Runner.RankUniverse` | News_daytrading_app.py:43-122 | the ranked list holds exactly the run's records, is non-increasing in super-score, and keeps the universe order among equal scores |
| `Runner.ExampleScore` | News_daytrading_app.py:62-96 | for closes 10, 11, 10, 12, 11, 13 and one English headline of positive polarity, the technical score is volatility × 13/11, the sentiment is that polarity, and the super-score exceeds the technical score |

## Left out

- Streamlit output (titles, headers, "Keine Daten verfügbar" / "Zu wenig Kursdaten" messages, the table and the chart loop at lines 133-137): presentation only. The skip reasons are the `NoData` / `TooFewCloses` results of `Screen`.
- `yf.download`, `requests.get` and `response.json()`: network I/O. Their results are the `observations` parameter. A failing `response.json()` would raise, and that is not modelled.
- The API key and request parameters (lines 69-76): configuration.
- `langdetect.detect`, TextBlob polarity and `pct_change().std()`: foreign libraries. They are the uninterpreted fields of `Oracles`. The polarity range is the hypothesis `PolarityBounded`. The volatility is an arbitrary real, so NaN volatility is not represented. That `detect("")` raises for a title-less article is the library's behaviour and is not built in.
- A JSON `null` title is treated like a missing title.
- `langdetect.detect` gives nondeterministic answers because the source never sets `DetectorFactory.seed`. The model's `Oracles.detect` is a fixed function, so a repeated title always gets the same verdict. In the source, a repeated symbol (SHOP, SQ, ZM, PYPL and others are listed more than once) fetches its headlines again, and they may be classified differently on each call.
- `round(...)` at lines 88 and 113-115, and IEEE floating point in general: all arithmetic is over exact reals, and the ranking sorts on the unrounded super-score. The source sorts on the score rounded to five decimals, so two scores that differ only beyond the fifth decimal tie there but are ordered here.
- The recommendation is stored as the `Recommendation` enum. The source stores its text. `Scoring.Label` gives that text, and its contract shows that text and enum determine each other.
- Momentum on a zero close at negative index 5: the whole script aborts with a division error. The model excludes that input by precondition instead of modelling the abort.
