# AppTone-AI review-sentiment aggregation, in Dafny

AppTone-AI fetches the Google Play reviews of an app. It scores every review with two
sentiment models, a VADER lexicon scorer and a RoBERTa transformer classifier. It then
condenses the scores into one verdict per app. This project models that condensing policy
from `main.py` and proves its properties:

- `Scoring`: the per-review transformer classification (`analyze_roberta`). The raw label
  is mapped to a class, a score at or below 0.55 forces Neutral, and the score is kept
  rounded to three decimals. The lexicon verdict on an average compound score has a
  ±0.05 dead-band.
- `Aggregation`: `aggregate_sentiment` and `pick_example_review`. It averages the compound
  scores and counts every transformer result into a class, as Neutral when its
  confidence is below the threshold (0.7 by default). The verdict is the class with the
  largest count; on a tie, the order of the count table (Positive, Neutral, Negative)
  decides. The presented confidence is the verdict's share of the reviews. The
  representative review is the earliest review of highest confidence among those of
  the verdict's class at the threshold, or overall when there is none.
- `ProsCons`: the nested `extract_pros_cons` of the comparison route. Every review becomes
  a pro, a con or neither, in `if`/`elif` order. The first three of each are kept, and a
  placeholder replaces an empty list.
- `Rounding`: Python's `round(x, n)` on exact decimals, i.e. round half to even. It is used
  for the three-decimal confidence and the two-decimal presented values.

The two scorers are opaque. They are parameters of the model: `lexicon: string -> real`
gives the compound score of a review, `transformer: string -> Prediction` the raw label
code and score. All numbers are Dafny `real`, so averages, ratios and comparisons are exact.

The loops of the source are methods with loop invariants. `CountSentiments` is the loop
that fills `sentiment_counts`, and `ExtractProsCons` the loop that appends to `pros` and
`cons`. Each is proved equal to a specification function (`CountTable`, `Selected`), and
the lemmas state the properties of those functions. The expression-level parts are
functions: the label map and override, the lexicon verdict, `max` over the count table,
and `max` over the filtered reviews.

## Model

| member | source | states |
|---|---|---|
| `Scoring.MapLabel` | main.py:26-27 | LABEL_0 is Negative and LABEL_2 is Positive, each if and only if; every other code (LABEL_1 or unknown) is Neutral |
| `Scoring.AnalyzeRoberta` | main.py:24-40 | a review is Positive (Negative) exactly when its label is LABEL_2 (LABEL_0) and its score exceeds 0.55; a score at or below 0.55 gives Neutral whatever the label; the mapped label is kept; the confidence is the score rounded to 3 decimals |
| `Scoring.LexiconOverall` | main.py:67 | Positive iff the average is at least 0.05, Negative iff at most -0.05, Neutral iff strictly between |
| `Scoring.ConfidenceKeepsThreshold` | main.py:31-38 | rounding the score to 3 decimals never moves it across a threshold with at most 3 decimals |
| `Rounding.Round` | main.py:38 | `round(x, n)`: the result times 10^n is the integer nearest to x·10^n, an exact half going to the even one; the lemmas below state what this means for the result |
| `Rounding.NearestEven` | main.py:38 | the integer is within one half of its argument, and an exact half goes to the even integer |
| `Rounding.RoundOnGrid` | main.py:38 | `round(x, n)` has at most n decimals |
| `Rounding.RoundError` | main.py:38 | `round(x, n)` is within half a 10^-n step of x |
| `Rounding.RoundTiesToEven` | main.py:38 | an exact half step rounds to the even neighbour |
| `Rounding.RoundKeepsLowerBound` | main.py:85 | a value at or above a number with n decimals stays at or above it after `round(x, n)` |
| `Rounding.RoundKeepsUpperBound` | main.py:85 | a value at or below a number with n decimals stays at or below it after `round(x, n)` |
| `Rounding.NearestEvenReaches` | main.py:38 | the rounded integer reaches an even k exactly when its argument reaches k - 0.5, the tie included |
| `Aggregation.Sum` | main.py:66 | Python's `sum`, adding the values from left to right; its bounds are `SumBetween` |
| `Aggregation.Average` | main.py:66 | `sum(...) / len(...)` of a non-empty list; its bounds are `AverageBetween` |
| `Aggregation.Compounds` | main.py:65-66 | one compound score per review, the i-th being the lexicon score of the i-th review |
| `Aggregation.SumBetween` | main.py:66 | a sum of values in [lo, hi] lies between n·lo and n·hi |
| `Aggregation.AverageBetween` | main.py:66 | the average compound score lies between any common bounds of the scores, so scores in [-1, 1] average into [-1, 1] |
| `Aggregation.UniformLexiconVerdict` | main.py:65-67 | when all compound scores equal c, the lexicon verdict is the verdict on c (all 0.05 gives Positive, all -0.05 Negative) |
| `Aggregation.Scores` | main.py:69 | one transformer result per review, the i-th being `analyze_roberta` of the i-th review |
| `Aggregation.Bucket` | main.py:73-76 | a review with confidence below the threshold is counted as Neutral; any other review is counted under its own sentiment |
| `Aggregation.CountedUnderOwnSentiment` | main.py:73-76 | a review whose raw score reaches a threshold with at most 3 decimals is counted under its own sentiment, despite the rounding to a confidence |
| `Aggregation.DefaultThresholdCutoff` | main.py:73-76 | at the default 0.7, a LABEL_0 or LABEL_2 prediction is counted under its polar class if and only if its score is at least 0.6995; a score above 0.55 and below 0.6995 keeps the polar sentiment but is counted as Neutral |
| `Aggregation.CountIn` | main.py:72-76 | the number of results counted under one class, never more than the number of results |
| `Aggregation.CountTable` | main.py:70 | the count table has an entry for each of the three classes |
| `Aggregation.CountsPartition` | main.py:70-76 | the Positive, Neutral and Negative counts sum exactly to the number of reviews |
| `Aggregation.CountSentiments` | main.py:70-76 | the loop leaves, per class, the number of reviews counted under that class, and the counts sum to the number of reviews |
| `Aggregation.Verdict` | main.py:78 | the verdict's count is at least every class's count, and every class earlier in the order Positive, Neutral, Negative has a strictly smaller count |
| `Aggregation.VerdictUnique` | main.py:78 | these two properties determine the verdict uniquely |
| `Aggregation.VerdictShare` | main.py:78-79 | on a non-empty list the verdict's count is positive, at most n and at least n/3, so count/n lies in [1/3, 1] |
| `Aggregation.PresentedShareBounds` | main.py:79-85 | the presented confidence `round(count / n, 2)` lies in [0.33, 1.0] |
| `Aggregation.Qualifies` | main.py:45 | the filter of `pick_example_review`: the review's sentiment is the verdict and its confidence is at least the threshold |
| `Aggregation.FirstMax` | main.py:48-50 | `max` with a confidence key over the accepted reviews returns None iff none is accepted; otherwise an accepted index with the greatest confidence, the first such |
| `Aggregation.PickExampleReview` | main.py:42-52 | the index is valid; if some review has the verdict's sentiment and confidence at the threshold, the pick is such a review with the greatest confidence among them, earliest on ties; otherwise it has the greatest confidence overall, earliest on ties |
| `Aggregation.PolarCountHasWitness` | main.py:72-76 | a positive count for Positive or Negative implies a review of that sentiment at the threshold |
| `Aggregation.Aggregate` | main.py:54-89 | empty input gives the fixed neutral result with zero counts and the note; otherwise the lexicon verdict follows the average compound, the counts are the count table and sum to n, the verdict and its rounded share follow the table, the example is the picked review with its rounded confidence, there is no note, the presented confidence lies in [0.33, 1.0], and a polar verdict's example review has that sentiment |
| `ProsCons.Place` | main.py:152-155 | a review is a pro iff compound ≥ 0.05 or transformer Positive (even when the transformer says Negative); a con iff not a pro and compound ≤ -0.05 or transformer Negative; neither otherwise |
| `ProsCons.PlaceReview` | main.py:150-155 | a review is placed by `Place` on its own lexicon score and transformer sentiment |
| `ProsCons.Selected` | main.py:149-155 | the reviews placed at one placement, in review order, never more than the reviews |
| `ProsCons.Excerpts` | main.py:156-159 | the shown list has 1 to 3 entries: the placeholder alone for an empty list, otherwise the first min(3, k) entries in order |
| `ProsCons.ExtractProsCons` | main.py:146-159 | the pros (cons) shown are the excerpts of the reviews placed Pro (Con), in review order |
| `ProsCons.SelectedMembers` | main.py:149-155 | a text is selected at a placement iff it is one of the reviews and is placed there |
| `ProsCons.SelectedPartition` | main.py:149-155 | pros, cons and dropped reviews together number exactly the reviews |
| `ProsCons.ProsAndConsDisjoint` | main.py:152-155 | no text is selected both as a pro and as a con |
| `ProsCons.ShownProsQualify` | main.py:152-157 | every shown pro is a review placed Pro, or the placeholder when there is none |
| `ProsCons.ShownConsQualify` | main.py:154-158 | every shown con is a review placed Con, or the placeholder when there is none |

## Left out

- Flask routes, CORS, templates, request parsing and JSON responses (main.py:1-2, 15-17, 100-167, 184-185): web plumbing. This includes the merging of each side's result with its app name in the comparison route.
- `fetch_reviews` (main.py:91-97): a network call to the Google Play search and review service. The model takes the review list as input.
- The VADER analyser and the RoBERTa pipeline (main.py:9-13, 22, 25): foreign models. They are the function parameters `lexicon` and `transformer`.
- The text cleaning in `analyze_vader` (main.py:21): it only feeds the opaque scorer, so it is folded into `lexicon`.
- `compare_apps` (main.py:170-182): dead code. It is not routed and calls an undefined `analyze_app`.
- Rounding.Round: models `round` on exact decimal values. Binary floating-point effects, where a decimal such as 2.675 is stored slightly below itself and rounds down, are not captured.
- The default `roberta_threshold=0.55` of `pick_example_review` (main.py:42) is not modelled. Its only caller passes its own threshold, so the model takes the threshold as a parameter.
- Floating-point summation and division: the average and the share are exact rational values here.
- Aggregation.Aggregate: the empty-input branch's `avg_compound` and confidences are the integer 0 in the source. Here they are the real 0.0.

A score of exactly 0.55 is forced to Neutral, because main.py:31 compares with `<=`. On a tie, the verdict follows the insertion order of the count table built at main.py:70 and read by `max` at main.py:78: Positive, then Neutral, then Negative.
