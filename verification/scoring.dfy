/** The numeric half of `calculate_credit_score`: the linear predictor, the probability-to-score
    rescale, Python's `int()` on the score, and the rating buckets of `get_rating`. */
module Scoring {

  /** The ordered dot product `np.dot`, accumulated from the first feature to the last. */
  function Dot(xs: seq<real>, ys: seq<real>): real
    requires |xs| == |ys|
    decreases |xs|
  {
    if |xs| == 0 then 0.0 else Dot(xs[..|xs| - 1], ys[..|ys| - 1]) + xs[|xs| - 1] * ys[|ys| - 1]
  }

  /** Changing one feature moves the dot product by that change times the feature's coefficient,
      whatever the other features hold. */
  lemma {:induction false} DotUpdate(xs: seq<real>, ys: seq<real>, i: nat, v: real)
    requires |xs| == |ys| && i < |xs|
    ensures Dot(xs[i := v], ys) == Dot(xs, ys) + (v - xs[i]) * ys[i]
    decreases |xs|
  {
    var n := |xs| - 1;
    var xs' := xs[i := v];
    if i == n {
      assert xs'[..n] == xs[..n];
    } else {
      assert xs'[..n] == xs[..n][i := v];
      DotUpdate(xs[..n], ys[..n], i, v);
    }
  }

  /** Features whose products with their coefficients all vanish contribute nothing: the score is 0. */
  lemma {:induction false} DotOfZeroTerms(xs: seq<real>, ys: seq<real>)
    requires |xs| == |ys|
    requires forall i :: 0 <= i < |xs| ==> xs[i] * ys[i] == 0.0
    ensures Dot(xs, ys) == 0.0
    decreases |xs|
  {
    if |xs| > 0 {
      var n := |xs| - 1;
      assert forall i :: 0 <= i < n ==> xs[..n][i] * ys[..n][i] == 0.0 by {
        forall i | 0 <= i < n ensures xs[..n][i] * ys[..n][i] == 0.0 {
          assert xs[..n][i] == xs[i] && ys[..n][i] == ys[i];
        }
      }
      DotOfZeroTerms(xs[..n], ys[..n]);
    }
  }

  /** `np.dot(x, coef)`: a left-to-right sum of products. */
  method DotProduct(xs: seq<real>, ys: seq<real>) returns (s: real)
    requires |xs| == |ys|
    ensures s == Dot(xs, ys)
  {
    s := 0.0;
    for i := 0 to |xs|
      invariant s == Dot(xs[..i], ys[..i])
    {
      assert xs[..i + 1][..i] == xs[..i] && ys[..i + 1][..i] == ys[..i];
      s := s + xs[i] * ys[i];
    }
    assert xs[..|xs|] == xs && ys[..|ys|] == ys;
  }

  /** The default `base_score` and `scale_length` of `calculate_credit_score`. */
  const DefaultBase: real := 300.0
  const DefaultScaleLength: real := 600.0

  /** The unrounded credit score: the base plus the non-default probability times the scale length. */
  function CreditScore(defaultProb: real, baseScore: real, scaleLength: real): (r: real)
  {
    baseScore + (1.0 - defaultProb) * scaleLength
  }

  /** For any non-negative scale length, a probability in [0, 1] scores between the base and the base
      plus the scale length; certain default scores the base and certain repayment the top. */
  lemma ScoreWithinScale(p: real, baseScore: real, scaleLength: real)
    requires 0.0 <= p <= 1.0 && 0.0 <= scaleLength
    ensures baseScore <= CreditScore(p, baseScore, scaleLength) <= baseScore + scaleLength
    ensures p == 1.0 ==> CreditScore(p, baseScore, scaleLength) == baseScore
    ensures p == 0.0 ==> CreditScore(p, baseScore, scaleLength) == baseScore + scaleLength
  {
    assert scaleLength - (1.0 - p) * scaleLength == p * scaleLength;
    assert 0.0 <= p * scaleLength;
  }

  /** With the default base and scale length a probability in [0, 1] gives a score in [300, 900]:
      certain default scores 300 and certain repayment scores 900. */
  lemma ScoreBounds(p: real)
    requires 0.0 <= p <= 1.0
    ensures DefaultBase <= CreditScore(p, DefaultBase, DefaultScaleLength) <= 900.0
    ensures p == 0.0 ==> CreditScore(p, DefaultBase, DefaultScaleLength) == 900.0
    ensures p == 1.0 ==> CreditScore(p, DefaultBase, DefaultScaleLength) == 300.0
  {
  }

  /** A higher default probability gives a strictly lower score whenever the scale length is positive. */
  lemma ScoreDecreasing(p: real, q: real, baseScore: real, scaleLength: real)
    requires p < q && scaleLength > 0.0
    ensures CreditScore(q, baseScore, scaleLength) < CreditScore(p, baseScore, scaleLength)
  {
    assert (q - p) * scaleLength > 0.0;
  }

  /** The score determines the probability it came from: the rescale is invertible for a non-zero
      scale length. */
  lemma ScoreInverse(p: real, baseScore: real, scaleLength: real)
    requires scaleLength != 0.0
    ensures 1.0 - (CreditScore(p, baseScore, scaleLength) - baseScore) / scaleLength == p
  {
    var q := 1.0 - p;
    var d := CreditScore(p, baseScore, scaleLength) - baseScore;
    assert d == q * scaleLength;
    assert d / scaleLength * scaleLength == d;
    assert (d / scaleLength - q) * scaleLength == 0.0;
    ZeroProduct(d / scaleLength - q, scaleLength);
  }

  /** A product with a non-zero factor vanishes only when the other factor does. */
  lemma ZeroProduct(a: real, b: real)
    requires a * b == 0.0 && b != 0.0
    ensures a == 0.0
  {
  }

  /** Python's `int()` on a float: truncation toward zero. */
  function Truncate(x: real): (r: int)
    ensures 0.0 <= x ==> r as real <= x < r as real + 1.0
    ensures x < 0.0 ==> r as real - 1.0 < x <= r as real
  {
    if x >= 0.0 then x.Floor else -((-x).Floor)
  }

  /** Truncation leaves whole numbers alone. */
  lemma TruncateWhole(n: int)
    ensures Truncate(n as real) == n
  {
  }

  datatype Rating = Poor | Average | Good | Excellent | Undefined

  /** `get_rating`: thresholds at 300, 500, 650 and 750, each bucket closed below and open above,
      except that 900 itself is still `Excellent`. */
  function GetRating(score: real): (r: Rating)
    ensures r != Undefined <==> 300.0 <= score <= 900.0
  {
    if 300.0 <= score < 500.0 then Poor
    else if 500.0 <= score < 650.0 then Average
    else if 650.0 <= score < 750.0 then Good
    else if 750.0 <= score <= 900.0 then Excellent
    else Undefined
  }

  /** The position of a defined rating on the scale, Poor lowest. */
  function Rank(r: Rating): int {
    match r
    case Poor => 0
    case Average => 1
    case Good => 2
    case Excellent => 3
    case Undefined => -1
  }

  /** On [300, 900] a higher score never gets a lower rating. */
  lemma RatingMonotone(a: real, b: real)
    requires 300.0 <= a <= b <= 900.0
    ensures Rank(GetRating(a)) <= Rank(GetRating(b))
  {
  }

  /** Rating the truncated score gives the rating of the unrounded score, except on (900, 901),
      where the unrounded score is `Undefined` but its truncation 900 is `Excellent`. */
  lemma RatingOfTruncatedScore(score: real)
    ensures GetRating(Truncate(score) as real) == GetRating(score) <==> !(900.0 < score < 901.0)
  {
  }

  /** With the default base and scale length and a probability in [0, 1], the returned integer score
      lies in [300, 900], the rating is defined, and it is the rating of the returned integer. */
  lemma IntegerScoreRating(p: real, baseScore: real, scaleLength: real)
    ensures baseScore == DefaultBase && scaleLength == DefaultScaleLength && 0.0 <= p <= 1.0 ==>
      var s := CreditScore(p, baseScore, scaleLength);
      && 300 <= Truncate(s) <= 900
      && GetRating(s) != Undefined
      && GetRating(Truncate(s) as real) == GetRating(s)
  {
    if baseScore == DefaultBase && scaleLength == DefaultScaleLength && 0.0 <= p <= 1.0 {
      ScoreBounds(p);
      RatingOfTruncatedScore(CreditScore(p, baseScore, scaleLength));
    }
  }

  /** What `calculate_credit_score` returns for a default probability: the probability itself, the
      truncated score and the rating of the unrounded score. */
  datatype Prediction = Prediction(defaultProbability: real, creditScore: int, rating: Rating)

  /** The probability-to-score-and-rating step. With the default base and scale length, a probability
      in [0, 1] yields an integer score in [300, 900] whose rating is defined and is also the rating of
      the integer score itself. */
  function ScoreAndRate(p: real, baseScore: real, scaleLength: real): (r: Prediction)
    ensures r.defaultProbability == p
    ensures baseScore == DefaultBase && scaleLength == DefaultScaleLength && 0.0 <= p <= 1.0 ==>
      && 300 <= r.creditScore <= 900
      && r.rating != Undefined
      && r.rating == GetRating(r.creditScore as real)
  {
    var s := CreditScore(p, baseScore, scaleLength);
    IntegerScoreRating(p, baseScore, scaleLength);
    Prediction(p, Truncate(s), GetRating(s))
  }

  /** Worked examples: a default probability of 0.10 scores 840, Excellent; 0.99 scores 306, Poor. */
  lemma ScoreExamples()
    ensures CreditScore(0.10, DefaultBase, DefaultScaleLength) == 840.0
    ensures Truncate(840.0) == 840 && GetRating(840.0) == Excellent
    ensures CreditScore(0.99, DefaultBase, DefaultScaleLength) == 306.0
    ensures Truncate(306.0) == 306 && GetRating(306.0) == Poor
  {
  }
}
