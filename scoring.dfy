/**
 * The analyser's three scores: accuracy and overall score against the
 * number of reference words, and a fluency heuristic over the transcript.
 * Scores are exact reals; `round(x, 1)` is rounding to the nearest tenth
 * with ties to the even tenth.
 */
module Scoring {
  import opened Wrappers
  import opened Text
  import opened Transcripts
  import opened Reals

  // ---------------------------------------------------------------------
  // round(x, 1)
  // ---------------------------------------------------------------------

  /** The nearest integer to `y`, ties going to the even one. */
  function RoundHalfEven(y: real): (n: int)
    ensures y - 0.5 <= n as real <= y + 0.5
  {
    var f := y.Floor;
    var frac := y - f as real;
    if frac > 0.5 then f + 1
    else if frac < 0.5 then f
    else if f % 2 == 0 then f
    else f + 1
  }

  /** `round(x, 1)`. */
  function Round1(x: real): real {
    RoundHalfEven(x * 10.0) as real / 10.0
  }

  /** Rounding keeps a score between 0 and 100. */
  lemma Round1Bounds(x: real, lo: int, hi: int)
    requires lo as real <= x <= hi as real
    ensures lo as real <= Round1(x) <= hi as real
  {
    var y := x * 10.0;
    var n := RoundHalfEven(y);
    assert (lo * 10) as real <= y <= (hi * 10) as real;
    assert lo * 10 <= n <= hi * 10 by {
      var f := y.Floor;
      assert lo * 10 <= f <= hi * 10;
      if f == hi * 10 {
        assert y - f as real == 0.0;
      }
    }
  }

  /** A value that already is a whole number of tenths is left as it is. */
  lemma Round1OfTenths(k: int)
    ensures Round1(k as real / 10.0) == k as real / 10.0
  {
    var y := (k as real / 10.0) * 10.0;
    assert y == k as real;
    assert y.Floor == k;
  }

  // ---------------------------------------------------------------------
  // Accuracy and overall score
  // ---------------------------------------------------------------------

  function RealMax(a: real, b: real): real {
    if a >= b then a else b
  }

  /** Share of the `total` reference words not counted against, floored at zero. */
  function Share(total: nat, against: real): real
    requires total > 0
  {
    RealMax(0.0, (total as real - against) / total as real)
  }

  /** The share lies in [0, 1]; it is 1 when nothing counts against and 0 when everything does. */
  lemma ShareBounds(total: nat, against: real)
    requires total > 0 && against >= 0.0
    ensures 0.0 <= Share(total, against) <= 1.0
    ensures against == 0.0 ==> Share(total, against) == 1.0
    ensures against >= total as real ==> Share(total, against) == 0.0
  {
    var t := total as real;
    var q := (t - against) / t;
    assert q * t == t - against;
    if q > 1.0 {
      ProductPositive(q - 1.0, t);
    }
    if against == 0.0 && q < 1.0 {
      ProductPositive(1.0 - q, t);
    }
    if against >= t && q > 0.0 {
      ProductPositive(q, t);
    }
  }

  /** `_calculate_accuracy_score` given the error count. */
  function AccuracyScore(errorCount: nat, referenceText: string): real {
    var totalWords := |Split(referenceText)|;
    if totalWords == 0 then 100.0
    else Round1(Share(totalWords, errorCount as real) * 100.0)
  }

  /** `_calculate_overall_score` given the sum of the errors' confidences. */
  function OverallScore(weightedErrors: real, referenceText: string): real {
    var totalWords := |Split(referenceText)|;
    if totalWords == 0 then 100.0
    else Round1(Share(totalWords, weightedErrors) * 100.0)
  }

  /** Accuracy is a score out of 100, with 100 for no words or no errors. */
  lemma AccuracyInRange(errorCount: nat, referenceText: string)
    ensures 0.0 <= AccuracyScore(errorCount, referenceText) <= 100.0
    ensures errorCount == 0 ==> AccuracyScore(errorCount, referenceText) == 100.0
    ensures |Split(referenceText)| == 0 ==> AccuracyScore(errorCount, referenceText) == 100.0
    ensures errorCount >= |Split(referenceText)| > 0 ==> AccuracyScore(errorCount, referenceText) == 0.0
  {
    var n := |Split(referenceText)|;
    if n > 0 {
      ShareBounds(n, errorCount as real);
      Round1Bounds(Share(n, errorCount as real) * 100.0, 0, 100);
      if errorCount == 0 {
        Round1OfTenths(1000);
      }
      if errorCount >= n {
        Round1OfTenths(0);
      }
    }
  }

  /** The overall score is a score out of 100, with 100 for no words or no weight. */
  lemma OverallInRange(weightedErrors: real, referenceText: string)
    requires weightedErrors >= 0.0
    ensures 0.0 <= OverallScore(weightedErrors, referenceText) <= 100.0
    ensures weightedErrors == 0.0 ==> OverallScore(weightedErrors, referenceText) == 100.0
    ensures |Split(referenceText)| == 0 ==> OverallScore(weightedErrors, referenceText) == 100.0
  {
    var n := |Split(referenceText)|;
    if n > 0 {
      ShareBounds(n, weightedErrors);
      Round1Bounds(Share(n, weightedErrors) * 100.0, 0, 100);
      if weightedErrors == 0.0 {
        Round1OfTenths(1000);
      }
    }
  }

  /** More errors never raise the accuracy. */
  lemma AccuracyMonotone(e1: nat, e2: nat, referenceText: string)
    requires e1 <= e2
    ensures AccuracyScore(e2, referenceText) <= AccuracyScore(e1, referenceText)
  {
    var n := |Split(referenceText)|;
    if n > 0 {
      var q1 := (n as real - e1 as real) / n as real;
      var q2 := (n as real - e2 as real) / n as real;
      assert q1 * n as real == n as real - e1 as real;
      assert q2 * n as real == n as real - e2 as real;
      assert q2 <= q1;
      Round1Monotone(Share(n, e2 as real) * 100.0, Share(n, e1 as real) * 100.0);
    }
  }

  lemma RoundHalfEvenMonotone(x: real, y: real)
    requires x <= y
    ensures RoundHalfEven(x) <= RoundHalfEven(y)
  {
    var fx, fy := x.Floor, y.Floor;
    if fx == fy {
    } else {
      assert fx < fy;
    }
  }

  lemma Round1Monotone(x: real, y: real)
    requires x <= y
    ensures Round1(x) <= Round1(y)
  {
    RoundHalfEvenMonotone(x * 10.0, y * 10.0);
  }

  // ---------------------------------------------------------------------
  // Fluency
  // ---------------------------------------------------------------------

  /** Factor 1: the number of words said. */
  function WordCountScore(wordCount: nat): (score: int)
    ensures 60 <= score <= 95
  {
    if wordCount <= 2 then 60
    else if wordCount <= 5 then 70 + (wordCount - 2) * 5
    else if wordCount <= 10 then 85 + (wordCount - 5) * 2
    else 95
  }

  /** Factor 2: whether the transcript reads as a complete sentence. */
  function CompletenessScore(text: string): (score: int)
    ensures 70 <= score <= 95
  {
    if |text| == 0 then 85
    else
      var stripped := Strip(text);
      var ended := EndsWith(stripped, ".") || EndsWith(stripped, "!") || EndsWith(stripped, "?");
      85 + (if ended then 10 else 0) - (if |stripped| < 10 then 15 else 0)
  }

  /** Factor 3: the average length of the timed words. */
  function DistributionScore(wordCount: nat, totalLetters: nat): (score: int)
    ensures 70 <= score <= 90
  {
    if wordCount <= 1 then 80
    else
      var average := totalLetters as real / wordCount as real;
      if 3.0 <= average <= 6.0 then 90
      else if average < 2.0 then 70
      else 80
  }

  /** Letters of the timed words, an entry without a word counting none. */
  function TotalLetters(words: seq<Option<string>>): nat
    decreases |words|
  {
    if |words| == 0 then 0
    else (if words[0].Some? then |words[0].value| else 0) + TotalLetters(words[1..])
  }

  function Clamp(x: real, lo: real, hi: real): real {
    if x < lo then lo else if x > hi then hi else x
  }

  /** The three factors weighted 40, 40 and 20 per cent. */
  function Weighted(wordCount: int, completeness: int, distribution: int): real {
    wordCount as real * 0.4 + completeness as real * 0.4 + distribution as real * 0.2
  }

  /** With each factor in its range, the weighted sum is a whole number of tenths in [66, 94]. */
  lemma WeightedFactors(a: int, b: int, c: int)
    requires 60 <= a <= 95 && 70 <= b <= 95 && 70 <= c <= 90
    ensures Round1(Clamp(Weighted(a, b, c), 30.0, 100.0)) == (4 * a + 4 * b + 2 * c) as real / 10.0
    ensures 66.0 <= (4 * a + 4 * b + 2 * c) as real / 10.0 <= 94.0
  {
    assert Weighted(a, b, c) == (4 * a + 4 * b + 2 * c) as real / 10.0;
    Round1OfTenths(4 * a + 4 * b + 2 * c);
  }

  /**
   * `_calculate_fluency_score` over the transcript's text and timed words
   * (`None` for a transcript that is no dictionary).
   */
  function FluencyScore(transcript: Option<TranscriptData>): real {
    if transcript.None? || |transcript.value.words| == 0 then 50.0
    else
      var words := transcript.value.words;
      var wordCount := |words|;
      Round1(Clamp(Weighted(WordCountScore(wordCount), CompletenessScore(transcript.value.text),
                            DistributionScore(wordCount, TotalLetters(words))), 30.0, 100.0))
  }

  /**
   * Fluency is 50 without words, and otherwise a whole number of tenths
   * between 66 and 94, so neither the clamp to [30, 100] nor the rounding
   * ever changes it.
   */
  lemma FluencyRange(transcript: Option<TranscriptData>)
    ensures transcript.None? || |transcript.value.words| == 0 ==> FluencyScore(transcript) == 50.0
    ensures transcript.Some? && |transcript.value.words| > 0 ==>
      66.0 <= FluencyScore(transcript) <= 94.0 &&
      FluencyScore(transcript) ==
        (4 * WordCountScore(|transcript.value.words|) + 4 * CompletenessScore(transcript.value.text) +
         2 * DistributionScore(|transcript.value.words|, TotalLetters(transcript.value.words))) as real / 10.0
  {
    if transcript.Some? && |transcript.value.words| > 0 {
      var words := transcript.value.words;
      var a := WordCountScore(|words|);
      var b := CompletenessScore(transcript.value.text);
      var c := DistributionScore(|words|, TotalLetters(words));
      WeightedFactors(a, b, c);
    }
  }
}
