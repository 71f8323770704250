/** `aggregate_sentiment` and `pick_example_review`: turn the per-review scores
    of one app into a lexicon verdict, a transformer verdict with its share of
    the reviews, per-class counts and one representative review. */
module Aggregation {
  import opened Rounding
  import opened Scoring

  datatype Option<T> = None | Some(value: T)

  /** Decimal places of the presented transformer confidence and example confidence. */
  const PresentationDigits: nat := 2

  const NoReviewsNote: string := "No reviews found for this app."

  // ---------------------------------------------------------------------------
  // Lexicon verdict
  // ---------------------------------------------------------------------------

  /** Python's `sum`, adding left to right. */
  function Sum(xs: seq<real>): real
  {
    if xs == [] then 0.0 else Sum(xs[..|xs| - 1]) + xs[|xs| - 1]
  }

  function Average(xs: seq<real>): real
    requires |xs| > 0
  {
    Sum(xs) / |xs| as real
  }

  /** The compound score of every review, in review order. */
  function Compounds(reviews: seq<string>, lexicon: string -> real): (cs: seq<real>)
    ensures |cs| == |reviews|
    ensures forall i :: 0 <= i < |reviews| ==> cs[i] == lexicon(reviews[i])
  {
    seq(|reviews|, i requires 0 <= i < |reviews| => lexicon(reviews[i]))
  }

  /** A sum of values that all lie in [lo, hi] lies between |xs| * lo and |xs| * hi. */
  lemma {:induction false} SumBetween(xs: seq<real>, lo: real, hi: real)
    requires forall i :: 0 <= i < |xs| ==> lo <= xs[i] <= hi
    ensures |xs| as real * lo <= Sum(xs) <= |xs| as real * hi
  {
    if xs != [] {
      var n := |xs| - 1;
      SumBetween(xs[..n], lo, hi);
      assert (n + 1) as real * lo == n as real * lo + lo;
      assert (n + 1) as real * hi == n as real * hi + hi;
    }
  }

  /** The average lies between any common lower and upper bound of the values;
      compound scores in [-1, 1] average into [-1, 1], and equal scores average
      to that score. */
  lemma AverageBetween(xs: seq<real>, lo: real, hi: real)
    requires |xs| > 0
    requires forall i :: 0 <= i < |xs| ==> lo <= xs[i] <= hi
    ensures lo <= Average(xs) <= hi
  {
    SumBetween(xs, lo, hi);
    QuotientAtLeast(Sum(xs), |xs| as real, lo);
    QuotientAtMost(Sum(xs), |xs| as real, hi);
  }

  /** When every review has the same compound score, the lexicon verdict is the
      verdict on that score: all 0.05 is Positive, all -0.05 Negative. */
  lemma UniformLexiconVerdict(cs: seq<real>, c: real)
    requires |cs| > 0
    requires forall i :: 0 <= i < |cs| ==> cs[i] == c
    ensures LexiconOverall(Average(cs)) == LexiconOverall(c)
  {
    AverageBetween(cs, c, c);
  }

  // ---------------------------------------------------------------------------
  // Transformer counts and verdict
  // ---------------------------------------------------------------------------

  /** Every review's transformer result, in review order. */
  function Scores(reviews: seq<string>, transformer: string -> Prediction): (ts: seq<TransformerScore>)
    ensures |ts| == |reviews|
    ensures forall i :: 0 <= i < |reviews| ==> ts[i] == AnalyzeRoberta(transformer(reviews[i]))
  {
    seq(|reviews|, i requires 0 <= i < |reviews| => AnalyzeRoberta(transformer(reviews[i])))
  }

  /** The class a review is counted under: Neutral when its confidence is below
      the threshold, its own sentiment otherwise. */
  function Bucket(r: TransformerScore, threshold: real): (s: Sentiment)
    ensures r.confidence < threshold ==> s == Neutral
    ensures threshold <= r.confidence ==> s == r.sentiment
  {
    if r.confidence < threshold then Neutral else r.sentiment
  }

  /** A review whose raw score reaches a three-decimal threshold is counted
      under its own sentiment: the rounding to a confidence cannot push it
      below the threshold. */
  lemma CountedUnderOwnSentiment(p: Prediction, threshold: real)
    requires OnGrid(threshold, ConfidenceDigits) && p.score >= threshold
    ensures Bucket(AnalyzeRoberta(p), threshold) == AnalyzeRoberta(p).sentiment
  {
    ConfidenceKeepsThreshold(p, threshold);
  }

  /** At the default threshold 0.7 a LABEL_0 or LABEL_2 prediction is counted
      under its polar class exactly when its score reaches 0.6995, the point
      from which the three-decimal confidence rounds to 0.7. Between the 0.55
      override and that point the review keeps its polar sentiment, yet it is
      counted as Neutral. */
  lemma DefaultThresholdCutoff(p: Prediction)
    requires p.code == "LABEL_0" || p.code == "LABEL_2"
    ensures Bucket(AnalyzeRoberta(p), DefaultThreshold) == MapLabel(p.code) <==> p.score >= 0.6995
    ensures OverrideCutoff < p.score < 0.6995 ==>
      AnalyzeRoberta(p).sentiment == MapLabel(p.code)
      && Bucket(AnalyzeRoberta(p), DefaultThreshold) == Neutral
  {
    assert Scale(ConfidenceDigits) == 1000.0;
    NearestEvenReaches(p.score * 1000.0, 700);
  }

  /** How many of `scores` are counted under `s`. */
  function CountIn(scores: seq<TransformerScore>, threshold: real, s: Sentiment): (n: nat)
    ensures n <= |scores|
  {
    if scores == [] then 0
    else CountIn(scores[..|scores| - 1], threshold, s)
         + (if Bucket(scores[|scores| - 1], threshold) == s then 1 else 0)
  }

  type Counts = map<Sentiment, nat>

  /** A count table with an entry for every class. */
  predicate Complete(c: Counts)
  {
    forall s: Sentiment :: s in c
  }

  /** A table keyed by the three classes is complete. */
  lemma ThreeKeysComplete(c: Counts)
    requires Positive in c && Neutral in c && Negative in c
    ensures Complete(c)
  {
    forall s: Sentiment ensures s in c {
      match s
      case Positive =>
      case Neutral =>
      case Negative =>
    }
  }

  /** The count table the source builds for a list of transformer results. */
  function CountTable(scores: seq<TransformerScore>, threshold: real): (c: Counts)
    ensures Complete(c)
  {
    var c := map[Positive := CountIn(scores, threshold, Positive),
                 Neutral := CountIn(scores, threshold, Neutral),
                 Negative := CountIn(scores, threshold, Negative)];
    ThreeKeysComplete(c);
    c
  }

  /** Every review is counted exactly once: the three counts sum to the number
      of reviews. */
  lemma {:induction false} CountsPartition(scores: seq<TransformerScore>, threshold: real)
    ensures CountIn(scores, threshold, Positive) + CountIn(scores, threshold, Neutral)
            + CountIn(scores, threshold, Negative) == |scores|
  {
    if scores != [] {
      CountsPartition(scores[..|scores| - 1], threshold);
    }
  }

  /** The loop of `aggregate_sentiment` that fills `sentiment_counts`. */
  method CountSentiments(scores: seq<TransformerScore>, threshold: real) returns (counts: Counts)
    ensures counts == CountTable(scores, threshold)
    ensures counts[Positive] + counts[Neutral] + counts[Negative] == |scores|
  {
    counts := map[Positive := 0, Neutral := 0, Negative := 0];
    for i := 0 to |scores|
      invariant counts == CountTable(scores[..i], threshold)
    {
      assert scores[..i + 1][..i] == scores[..i];
      var r := scores[i];
      if r.confidence < threshold {
        counts := counts[Neutral := counts[Neutral] + 1];
      } else {
        counts := counts[r.sentiment := counts[r.sentiment] + 1];
      }
    }
    assert scores[..|scores|] == scores;
    CountsPartition(scores, threshold);
  }

  /** `max(sentiment_counts, key=sentiment_counts.get)`: the class with the
      largest count, the earlier one in the table's order on a tie. */
  function Verdict(c: Counts): (v: Sentiment)
    requires Complete(c)
    ensures c[Positive] <= c[v] && c[Neutral] <= c[v] && c[Negative] <= c[v]
    ensures forall s: Sentiment :: Rank(s) < Rank(v) ==> c[s] < c[v]
  {
    var best := if c[Neutral] > c[Positive] then Neutral else Positive;
    if c[Negative] > c[best] then Negative else best
  }

  /** The two properties of Verdict pin it down: no other class is both a
      largest count and first among the largest. */
  lemma VerdictUnique(c: Counts, v: Sentiment)
    requires Complete(c)
    requires c[Positive] <= c[v] && c[Neutral] <= c[v] && c[Negative] <= c[v]
    requires forall s: Sentiment :: Rank(s) < Rank(v) ==> c[s] < c[v]
    ensures v == Verdict(c)
  {
  }

  /** On a non-empty list the verdict's class holds at least a third of the
      reviews and at most all of them, so its share lies in [1/3, 1]. */
  lemma VerdictShare(scores: seq<TransformerScore>, threshold: real)
    requires |scores| > 0
    ensures var c := CountTable(scores, threshold);
      0 < c[Verdict(c)] <= |scores| && |scores| <= 3 * c[Verdict(c)]
  {
    CountsPartition(scores, threshold);
  }

  /** A lower bound on a quotient, from a lower bound on the dividend. */
  lemma QuotientAtLeast(a: real, b: real, t: real)
    requires b > 0.0 && t * b <= a
    ensures t <= a / b
  {
    DivideThenScale(a, b);
    ScaleReflects(t, a / b, b);
  }

  /** An upper bound on a quotient, from an upper bound on the dividend. */
  lemma QuotientAtMost(a: real, b: real, t: real)
    requires b > 0.0 && a <= t * b
    ensures a / b <= t
  {
    DivideThenScale(a, b);
    ScaleReflects(a / b, t, b);
  }

  /** The verdict's share of the reviews, as a real ratio, lies in [1/3, 1]. */
  lemma ShareBetween(count: nat, n: nat)
    requires 0 < n && count <= n && n <= 3 * count
    ensures 1.0 / 3.0 <= count as real / n as real <= 1.0
  {
    QuotientAtLeast(count as real, n as real, 1.0 / 3.0);
    QuotientAtMost(count as real, n as real, 1.0);
  }

  /** The presented transformer confidence, `round(count / n, 2)`, lies in
      [0.33, 1.0] for a non-empty list. */
  lemma PresentedShareBounds(count: nat, n: nat)
    requires 0 < n && count <= n && n <= 3 * count
    ensures 0.33 <= Round(count as real / n as real, PresentationDigits) <= 1.0
  {
    ShareBetween(count, n);
    assert Scale(PresentationDigits) == 100.0;
    assert OnGrid(0.33, PresentationDigits) && OnGrid(1.0, PresentationDigits);
    RoundKeepsLowerBound(count as real / n as real, 0.33, PresentationDigits);
    RoundKeepsUpperBound(count as real / n as real, 1.0, PresentationDigits);
  }

  // ---------------------------------------------------------------------------
  // Example review
  // ---------------------------------------------------------------------------

  /** A review the example may be drawn from: its sentiment is the verdict and
      its confidence reaches the threshold. */
  predicate Qualifies(r: TransformerScore, overall: Sentiment, threshold: real)
  {
    r.sentiment == overall && r.confidence >= threshold
  }

  /** Python's `max` with a confidence key over the elements of `scores[..k]`
      that `keep` accepts: the first index of greatest confidence among them,
      or None when `keep` accepts none. */
  function FirstMax(scores: seq<TransformerScore>, keep: TransformerScore -> bool, k: nat): (m: Option<nat>)
    requires k <= |scores|
    ensures m.None? <==> forall j :: 0 <= j < k ==> !keep(scores[j])
    ensures m.Some? ==> m.value < k && keep(scores[m.value])
    ensures m.Some? ==> forall j :: 0 <= j < k && keep(scores[j]) ==>
      scores[j].confidence <= scores[m.value].confidence
    ensures m.Some? ==> forall j :: 0 <= j < m.value && keep(scores[j]) ==>
      scores[j].confidence < scores[m.value].confidence
  {
    if k == 0 then None
    else
      var m := FirstMax(scores, keep, k - 1);
      if keep(scores[k - 1]) && (m.None? || scores[m.value].confidence < scores[k - 1].confidence)
      then Some(k - 1)
      else m
  }

  /** `pick_example_review`, as the index of the chosen review: the earliest
      review of greatest confidence among those that qualify, or, when none
      qualifies, the earliest review of greatest confidence overall. */
  function PickExampleReview(scores: seq<TransformerScore>, overall: Sentiment, threshold: real): (i: nat)
    requires |scores| > 0
    ensures i < |scores|
    ensures (exists j :: 0 <= j < |scores| && Qualifies(scores[j], overall, threshold)) ==>
      && Qualifies(scores[i], overall, threshold)
      && (forall j :: 0 <= j < |scores| && Qualifies(scores[j], overall, threshold) ==>
            scores[j].confidence <= scores[i].confidence)
      && (forall j :: 0 <= j < i && Qualifies(scores[j], overall, threshold) ==>
            scores[j].confidence < scores[i].confidence)
    ensures (forall j :: 0 <= j < |scores| ==> !Qualifies(scores[j], overall, threshold)) ==>
      && (forall j :: 0 <= j < |scores| ==> scores[j].confidence <= scores[i].confidence)
      && (forall j :: 0 <= j < i ==> scores[j].confidence < scores[i].confidence)
  {
    var keep := (r: TransformerScore) => Qualifies(r, overall, threshold);
    var filtered := FirstMax(scores, keep, |scores|);
    if filtered.Some? then filtered.value
    else
      var any := FirstMax(scores, (r: TransformerScore) => true, |scores|);
      any.value
  }

  /** A polar class (Positive or Negative) only counts reviews that carry that
      sentiment with a confidence at the threshold, so when it has a count
      there is a review the example can be drawn from. */
  lemma {:induction false} PolarCountHasWitness(scores: seq<TransformerScore>, threshold: real, s: Sentiment)
    requires s != Neutral && CountIn(scores, threshold, s) > 0
    ensures exists j :: 0 <= j < |scores| && Qualifies(scores[j], s, threshold)
  {
    var n := |scores| - 1;
    if Bucket(scores[n], threshold) == s {
      assert Qualifies(scores[n], s, threshold);
    } else {
      PolarCountHasWitness(scores[..n], threshold, s);
      var j :| 0 <= j < n && Qualifies(scores[..n][j], s, threshold);
      assert scores[j] == scores[..n][j];
    }
  }

  // ---------------------------------------------------------------------------
  // The aggregate
  // ---------------------------------------------------------------------------

  datatype LexiconVerdict = LexiconVerdict(overall: Sentiment, avgCompound: real)

  datatype TransformerVerdict = TransformerVerdict(sentiment: Sentiment, confidence: real)

  datatype AggregateResult = AggregateResult(
    lexicon: LexiconVerdict,
    transformer: TransformerVerdict,
    exampleReview: string,
    exampleConfidence: real,
    counts: Counts,
    note: Option<string>)

  /** `aggregate_sentiment`: the lexicon scorer maps a review to its compound
      score, the transformer scorer to its raw prediction. */
  method Aggregate(reviews: seq<string>, lexicon: string -> real, transformer: string -> Prediction,
                   threshold: real) returns (res: AggregateResult)
    ensures reviews == [] ==>
      res == AggregateResult(LexiconVerdict(Neutral, 0.0), TransformerVerdict(Neutral, 0.0), "", 0.0,
                             map[Positive := 0, Neutral := 0, Negative := 0], Some(NoReviewsNote))
    ensures reviews != [] ==>
      var compounds := Compounds(reviews, lexicon);
      var scores := Scores(reviews, transformer);
      var verdict := Verdict(CountTable(scores, threshold));
      var pick := PickExampleReview(scores, verdict, threshold);
      && res.lexicon == LexiconVerdict(LexiconOverall(Average(compounds)), Average(compounds))
      && res.counts == CountTable(scores, threshold)
      && res.transformer.sentiment == verdict
      && res.transformer.confidence
         == Round(res.counts[verdict] as real / |reviews| as real, PresentationDigits)
      && res.exampleReview == reviews[pick]
      && res.exampleConfidence == Round(scores[pick].confidence, PresentationDigits)
      && res.note == None
    ensures Complete(res.counts)
    ensures res.counts[Positive] + res.counts[Neutral] + res.counts[Negative] == |reviews|
    ensures reviews != [] ==> 0.33 <= res.transformer.confidence <= 1.0
    ensures reviews != [] && res.transformer.sentiment != Neutral ==>
      exists i :: 0 <= i < |reviews| && res.exampleReview == reviews[i]
        && Qualifies(Scores(reviews, transformer)[i], res.transformer.sentiment, threshold)
  {
    if reviews == [] {
      ThreeKeysComplete(map[Positive := 0, Neutral := 0, Negative := 0]);
      return AggregateResult(LexiconVerdict(Neutral, 0.0), TransformerVerdict(Neutral, 0.0), "", 0.0,
                             map[Positive := 0, Neutral := 0, Negative := 0], Some(NoReviewsNote));
    }
    var compounds := Compounds(reviews, lexicon);
    var avg := Average(compounds);
    var lexiconOverall := LexiconOverall(avg);

    var scores := Scores(reviews, transformer);
    var counts := CountSentiments(scores, threshold);

    var overall := Verdict(counts);
    var share := counts[overall] as real / |scores| as real;
    VerdictShare(scores, threshold);
    PresentedShareBounds(counts[overall], |scores|);

    var pick := PickExampleReview(scores, overall, threshold);
    if overall != Neutral {
      PolarCountHasWitness(scores, threshold, overall);
    }
    res := AggregateResult(LexiconVerdict(lexiconOverall, avg),
                           TransformerVerdict(overall, Round(share, PresentationDigits)),
                           reviews[pick], Round(scores[pick].confidence, PresentationDigits),
                           counts, None);
  }
}
