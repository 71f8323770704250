/** `extract_pros_cons`, used by the comparison of two apps: sort each review
    into pros, cons or neither, keep the first three of each in review order,
    and put a placeholder in place of an empty list. */
module ProsCons {
  import opened Scoring

  datatype Placement = Pro | Con | Neither

  const MaxExcerpts: nat := 3

  const NoPositives: string := "No strong positives detected"

  const NoNegatives: string := "No strong negatives detected"

  /** The `if`/`elif` of the source: a positive signal from either scorer wins;
      otherwise a negative signal from either scorer makes a con. */
  function Place(compound: real, sentiment: Sentiment): (p: Placement)
    ensures p == Pro <==> compound >= LexiconBand || sentiment == Positive
    ensures p == Con <==>
      !(compound >= LexiconBand || sentiment == Positive)
      && (compound <= -LexiconBand || sentiment == Negative)
    ensures p == Neither <==>
      -LexiconBand < compound < LexiconBand && sentiment != Positive && sentiment != Negative
  {
    if compound >= LexiconBand || sentiment == Positive then Pro
    else if compound <= -LexiconBand || sentiment == Negative then Con
    else Neither
  }

  /** Where one review goes, after scoring it afresh with both scorers. */
  function PlaceReview(review: string, lexicon: string -> real, transformer: string -> Prediction): Placement
  {
    Place(lexicon(review), AnalyzeRoberta(transformer(review)).sentiment)
  }

  /** The reviews placed at `w`, in review order. */
  function Selected(reviews: seq<string>, lexicon: string -> real, transformer: string -> Prediction,
                    w: Placement): (sel: seq<string>)
    ensures |sel| <= |reviews|
  {
    if reviews == [] then []
    else
      var last := reviews[|reviews| - 1];
      Selected(reviews[..|reviews| - 1], lexicon, transformer, w)
        + (if PlaceReview(last, lexicon, transformer) == w then [last] else [])
  }

  /** `pros[:3] if pros else [placeholder]`. */
  function Excerpts(xs: seq<string>, placeholder: string): (r: seq<string>)
    ensures 1 <= |r| <= MaxExcerpts
    ensures xs == [] ==> r == [placeholder]
    ensures xs != [] ==> |r| == if |xs| < MaxExcerpts then |xs| else MaxExcerpts
    ensures xs != [] ==> r == xs[..|r|]
  {
    if xs == [] then [placeholder]
    else if |xs| < MaxExcerpts then xs
    else xs[..MaxExcerpts]
  }

  datatype ProsAndCons = ProsAndCons(pros: seq<string>, cons: seq<string>)

  /** `extract_pros_cons`: the loop that appends to `pros` and `cons`, then the
      truncation and the placeholders. */
  method ExtractProsCons(reviews: seq<string>, lexicon: string -> real, transformer: string -> Prediction)
    returns (pc: ProsAndCons)
    ensures pc.pros == Excerpts(Selected(reviews, lexicon, transformer, Pro), NoPositives)
    ensures pc.cons == Excerpts(Selected(reviews, lexicon, transformer, Con), NoNegatives)
  {
    var pros: seq<string> := [];
    var cons: seq<string> := [];
    for i := 0 to |reviews|
      invariant pros == Selected(reviews[..i], lexicon, transformer, Pro)
      invariant cons == Selected(reviews[..i], lexicon, transformer, Con)
    {
      assert reviews[..i + 1][..i] == reviews[..i];
      var r := reviews[i];
      var score := lexicon(r);
      var rob := AnalyzeRoberta(transformer(r));
      if score >= LexiconBand || rob.sentiment == Positive {
        pros := pros + [r];
      } else if score <= -LexiconBand || rob.sentiment == Negative {
        cons := cons + [r];
      }
    }
    assert reviews[..|reviews|] == reviews;
    pc := ProsAndCons(Excerpts(pros, NoPositives), Excerpts(cons, NoNegatives));
  }

  /** A text is among the selected reviews exactly when it is one of the
      reviews and is placed at `w`. */
  lemma {:induction false} SelectedMembers(reviews: seq<string>, lexicon: string -> real,
                                           transformer: string -> Prediction, w: Placement, x: string)
    ensures x in Selected(reviews, lexicon, transformer, w)
            <==> x in reviews && PlaceReview(x, lexicon, transformer) == w
  {
    if reviews != [] {
      var init := reviews[..|reviews| - 1];
      SelectedMembers(init, lexicon, transformer, w, x);
      assert reviews == init + [reviews[|reviews| - 1]];
    }
  }

  /** The selected reviews, the other reviews and their counts add up: pros,
      cons and the dropped reviews partition the input. */
  lemma {:induction false} SelectedPartition(reviews: seq<string>, lexicon: string -> real,
                                             transformer: string -> Prediction)
    ensures |Selected(reviews, lexicon, transformer, Pro)| + |Selected(reviews, lexicon, transformer, Con)|
            + |Selected(reviews, lexicon, transformer, Neither)| == |reviews|
  {
    if reviews != [] {
      SelectedPartition(reviews[..|reviews| - 1], lexicon, transformer);
    }
  }

  /** No review text is selected both as a pro and as a con. */
  lemma ProsAndConsDisjoint(reviews: seq<string>, lexicon: string -> real, transformer: string -> Prediction,
                            x: string)
    ensures !(x in Selected(reviews, lexicon, transformer, Pro) && x in Selected(reviews, lexicon, transformer, Con))
  {
    SelectedMembers(reviews, lexicon, transformer, Pro, x);
    SelectedMembers(reviews, lexicon, transformer, Con, x);
  }

  /** Every pro shown is one of the reviews and is placed Pro, unless no review
      is, in which case the placeholder alone is shown. */
  lemma ShownProsQualify(reviews: seq<string>, lexicon: string -> real, transformer: string -> Prediction,
                         x: string)
    ensures var pros := Selected(reviews, lexicon, transformer, Pro);
      x in Excerpts(pros, NoPositives) ==>
        (pros != [] && x in reviews && PlaceReview(x, lexicon, transformer) == Pro)
        || (pros == [] && x == NoPositives)
  {
    SelectedMembers(reviews, lexicon, transformer, Pro, x);
  }

  /** Every con shown is one of the reviews and is placed Con, unless no review
      is, in which case the placeholder alone is shown. */
  lemma ShownConsQualify(reviews: seq<string>, lexicon: string -> real, transformer: string -> Prediction,
                         x: string)
    ensures var cons := Selected(reviews, lexicon, transformer, Con);
      x in Excerpts(cons, NoNegatives) ==>
        (cons != [] && x in reviews && PlaceReview(x, lexicon, transformer) == Con)
        || (cons == [] && x == NoNegatives)
  {
    SelectedMembers(reviews, lexicon, transformer, Con, x);
  }
}
