/** Three-band sentiment classification of VADER compound scores. The
    analyser itself is not modelled: a text's compound score is whatever
    the input function `compound` gives for it. */
module Sentiment {

  datatype Band = Positive | Negative | Neutral

  /** The cut-off around zero: above it a score is positive, below its negation negative, in between
      neutral. */
  const THRESHOLD: real := 0.05

  /** The `if > 0.05 / elif < -0.05 / else` chain. */
  function BandOf(score: real): (b: Band)
    ensures b == Positive <==> score > THRESHOLD
    ensures b == Negative <==> score < -THRESHOLD
    ensures b == Neutral <==> -THRESHOLD <= score <= THRESHOLD
  {
    if score > THRESHOLD then Positive
    else if score < -THRESHOLD then Negative
    else Neutral
  }

  /** How many of `scores` fall in band `b`. */
  function CountBand(scores: seq<real>, b: Band): nat
  {
    if scores == [] then 0
    else CountBand(scores[..|scores| - 1], b) + (if BandOf(scores[|scores| - 1]) == b then 1 else 0)
  }

  /** One more score adds one to its own band and nothing to the others. */
  lemma CountBandSnoc(scores: seq<real>, x: real, b: Band)
    ensures CountBand(scores + [x], b) == CountBand(scores, b) + (if BandOf(x) == b then 1 else 0)
  {
    assert (scores + [x])[..|scores|] == scores;
  }

  /** Every score is counted in exactly one band. */
  lemma {:induction false} BandsPartition(scores: seq<real>)
    ensures CountBand(scores, Positive) + CountBand(scores, Negative) + CountBand(scores, Neutral) == |scores|
  {
    if scores != [] {
      BandsPartition(scores[..|scores| - 1]);
    }
  }

  /** The compound score of each text, in order. */
  function Scores(texts: seq<string>, compound: string -> real): (r: seq<real>)
    ensures |r| == |texts|
    ensures forall i :: 0 <= i < |texts| ==> r[i] == compound(texts[i])
  {
    seq(|texts|, i requires 0 <= i < |texts| => compound(texts[i]))
  }

  /** Scoring one more text appends its score. */
  lemma ScoresStep(texts: seq<string>, compound: string -> real, i: nat)
    requires i < |texts|
    ensures Scores(texts[..i + 1], compound) == Scores(texts[..i], compound) + [compound(texts[i])]
  {
    assert Scores(texts[..i + 1], compound)[..i] == Scores(texts[..i], compound);
  }

  /** A sentiment tally: positive, negative and neutral counts and the
      number of texts. */
  datatype Senti = Senti(pos: nat, neg: nat, neu: nat, n: nat)

  /** `{"pos":0, "neg":0, "neu":0, "n":0}`. */
  const ZERO: Senti := Senti(0, 0, 0, 0)
}
