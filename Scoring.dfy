/** Per-review scoring policy: how one review's lexicon (VADER) compound score
    and transformer (RoBERTa) prediction become sentiment classes. The two
    scorers themselves are opaque and appear only as their outputs. */
module Scoring {
  import opened Rounding

  datatype Sentiment = Positive | Neutral | Negative

  /** Position of each class in the source's count table, whose insertion order
      decides ties when the overall verdict is chosen. */
  function Rank(s: Sentiment): (k: nat)
    ensures k < 3
  {
    match s
    case Positive => 0
    case Neutral => 1
    case Negative => 2
  }

  /** Dead-band of the lexicon classification: |compound| below this is neutral. */
  const LexiconBand: real := 0.05

  /** A transformer score at or below this forces the review to Neutral. */
  const OverrideCutoff: real := 0.55

  /** Aggregation-level confidence threshold (the default of `roberta_threshold`). */
  const DefaultThreshold: real := 0.7

  /** Decimal places kept of a transformer score. */
  const ConfidenceDigits: nat := 3

  /** What the transformer pipeline returns for one text: a raw label code and a score in [0, 1]. */
  datatype Prediction = Prediction(code: string, score: real)

  /** A review's transformer result after the label mapping and the override. */
  datatype TransformerScore = TransformerScore(sentiment: Sentiment, confidence: real, mapped: Sentiment)

  /** The label map: LABEL_0, LABEL_1 and LABEL_2 are Negative, Neutral and
      Positive; any other code reads as Neutral. */
  function MapLabel(raw: string): (s: Sentiment)
    ensures s == Negative <==> raw == "LABEL_0"
    ensures s == Positive <==> raw == "LABEL_2"
    ensures s == Neutral <==> raw != "LABEL_0" && raw != "LABEL_2"
  {
    if raw == "LABEL_0" then Negative
    else if raw == "LABEL_1" then Neutral
    else if raw == "LABEL_2" then Positive
    else Neutral
  }

  /** `analyze_roberta`: map the label, force Neutral for a low score, keep the
      score rounded to three decimals. */
  function AnalyzeRoberta(p: Prediction): (t: TransformerScore)
    ensures t.mapped == MapLabel(p.code)
    ensures t.sentiment == Positive <==> p.code == "LABEL_2" && p.score > OverrideCutoff
    ensures t.sentiment == Negative <==> p.code == "LABEL_0" && p.score > OverrideCutoff
    ensures p.score <= OverrideCutoff ==> t.sentiment == Neutral
    ensures t.confidence == Round(p.score, ConfidenceDigits)
  {
    var mapped := MapLabel(p.code);
    var sentiment := if p.score <= OverrideCutoff then Neutral else mapped;
    TransformerScore(sentiment, Round(p.score, ConfidenceDigits), mapped)
  }

  /** The lexicon verdict on an average compound score, with a dead-band of
      plus or minus 0.05 whose ends count as polar. */
  function LexiconOverall(avg: real): (s: Sentiment)
    ensures s == Positive <==> avg >= LexiconBand
    ensures s == Negative <==> avg <= -LexiconBand
    ensures s == Neutral <==> -LexiconBand < avg < LexiconBand
  {
    if avg >= LexiconBand then Positive
    else if avg <= -LexiconBand then Negative
    else Neutral
  }

  /** A score that is already a whole number of thousandths keeps its value as
      the confidence, so the confidence sits on the same side of every
      three-decimal threshold as the raw score. */
  lemma ConfidenceKeepsThreshold(p: Prediction, threshold: real)
    requires OnGrid(threshold, ConfidenceDigits)
    ensures p.score >= threshold ==> AnalyzeRoberta(p).confidence >= threshold
    ensures p.score <= threshold ==> AnalyzeRoberta(p).confidence <= threshold
  {
    if p.score >= threshold {
      RoundKeepsLowerBound(p.score, threshold, ConfidenceDigits);
    }
    if p.score <= threshold {
      RoundKeepsUpperBound(p.score, threshold, ConfidenceDigits);
    }
  }
}
