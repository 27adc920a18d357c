/**
  Standardisation of raw criterion values: the z-score used for age,
  income, burn severity, road count and fire-station count, and the
  min-max ratio used for the mean squared hospital distance.  Statistics (mean, standard
  deviation, minimum, maximum) are parameters; the lemmas at the end tie
  them to a population of values so that the usual properties of
  standard scores can be stated.
 */
module Standardize {

  import opened Statistics

  /** Number of standard deviations v lies from the mean. */
  function ZScore(v: real, mean: real, std: real): (z: real)
    requires std != 0.0
    ensures mean + z * std == v
  {
    (v - mean) / std
  }

  /** The z-score is the one number of deviations that leads from the mean back to v. */
  lemma ZScoreInverse(v: real, mean: real, std: real, z: real)
    requires std != 0.0
    ensures z == ZScore(v, mean, std) <==> mean + z * std == v
  {
    if mean + z * std == v {
      assert v - mean == z * std;
    }
  }

  /** With a positive deviation the z-score preserves and reflects the order of raw values. */
  lemma ZScoreStrictlyIncreasing(v1: real, v2: real, mean: real, std: real)
    requires std > 0.0
    ensures v1 < v2 <==> ZScore(v1, mean, std) < ZScore(v2, mean, std)
  {
    var z1, z2 := ZScore(v1, mean, std), ZScore(v2, mean, std);
    ZScoreInverse(v1, mean, std, z1);
    ZScoreInverse(v2, mean, std, z2);
    assert v2 - v1 == (z2 - z1) * std;
    PositiveFactorSign(z2 - z1, std);
  }

  /** A zone scores zero exactly when its raw value is the mean. */
  lemma ZScoreZeroIff(v: real, mean: real, std: real)
    requires std != 0.0
    ensures ZScore(v, mean, std) == 0.0 <==> v == mean
  {
  }

  /** Position of v in [lo, hi] as a fraction of the range. */
  function MinMax(v: real, lo: real, hi: real): (r: real)
    requires lo != hi
    ensures lo + r * (hi - lo) == v
  {
    (v - lo) / (hi - lo)
  }

  /** The ratio is the one fraction of the range that leads from lo back to v. */
  lemma MinMaxInverse(v: real, lo: real, hi: real, r: real)
    requires lo != hi
    ensures r == MinMax(v, lo, hi) <==> lo + r * (hi - lo) == v
  {
    if lo + r * (hi - lo) == v {
      assert v - lo == r * (hi - lo);
    }
  }

  /** The minimum maps to 0 and the maximum to 1. */
  lemma MinMaxEndpoints(lo: real, hi: real)
    requires lo != hi
    ensures MinMax(lo, lo, hi) == 0.0
    ensures MinMax(hi, lo, hi) == 1.0
  {
    MinMaxInverse(lo, lo, hi, 0.0);
    MinMaxInverse(hi, lo, hi, 1.0);
  }

  /** On an increasing range, exactly the values inside it land in [0, 1]. */
  lemma MinMaxUnitInterval(v: real, lo: real, hi: real)
    requires lo < hi
    ensures lo <= v <= hi <==> 0.0 <= MinMax(v, lo, hi) <= 1.0
  {
    var r := MinMax(v, lo, hi);
    MinMaxInverse(v, lo, hi, r);
    assert hi - v == (1.0 - r) * (hi - lo);
    PositiveFactorSign(r, hi - lo);
    PositiveFactorSign(1.0 - r, hi - lo);
  }

  /** Multiplying by a positive factor keeps the sign. */
  lemma PositiveFactorSign(a: real, c: real)
    requires c > 0.0
    ensures a >= 0.0 <==> a * c >= 0.0
    ensures a > 0.0 <==> a * c > 0.0
  {
    if a < 0.0 {
      assert a * c < 0.0;
    }
    if a > 0.0 {
      assert a * c > 0.0;
    }
  }

  /** On an increasing range the ratio preserves and reflects the order of raw values. */
  lemma MinMaxStrictlyIncreasing(v1: real, v2: real, lo: real, hi: real)
    requires lo < hi
    ensures v1 < v2 <==> MinMax(v1, lo, hi) < MinMax(v2, lo, hi)
  {
    var r1, r2 := MinMax(v1, lo, hi), MinMax(v2, lo, hi);
    MinMaxInverse(v1, lo, hi, r1);
    MinMaxInverse(v2, lo, hi, r2);
    assert v2 - v1 == (r2 - r1) * (hi - lo);
    PositiveFactorSign(r2 - r1, hi - lo);
  }

  /** The z-scores of a whole population against one set of statistics. */
  function ZScores(vs: seq<real>, mean: real, std: real): (zs: seq<real>)
    requires std != 0.0
    ensures |zs| == |vs|
    ensures forall i :: 0 <= i < |vs| ==> zs[i] == ZScore(vs[i], mean, std)
    decreases |vs|
  {
    if |vs| == 0 then [] else [ZScore(vs[0], mean, std)] + ZScores(vs[1..], mean, std)
  }

  /** Summing z-scores and scaling back gives the total deviation from the mean. */
  lemma {:induction false} SumOfZScores(vs: seq<real>, mean: real, std: real)
    requires std != 0.0
    ensures Sum(ZScores(vs, mean, std)) * std == Sum(vs) - (|vs| as real) * mean
    decreases |vs|
  {
    if |vs| > 0 {
      var zs := ZScores(vs, mean, std);
      assert zs[1..] == ZScores(vs[1..], mean, std);
      SumOfZScores(vs[1..], mean, std);
      assert Sum(zs) * std == zs[0] * std + Sum(zs[1..]) * std;
    }
  }

  /** Against the population's own mean, the z-scores sum to zero. */
  lemma ZScoresCentred(vs: seq<real>, std: real)
    requires |vs| > 0
    requires std != 0.0
    ensures Sum(ZScores(vs, Mean(vs), std)) == 0.0
  {
    var n := |vs| as real;
    SumOfZScores(vs, Mean(vs), std);
    assert n * Mean(vs) == Sum(vs);
    assert Sum(ZScores(vs, Mean(vs), std)) * std == 0.0;
  }

  lemma Distribute(a: real, b: real, c: real)
    ensures (a + b) * c == a * c + b * c
  {
  }

  lemma Associate(a: real, b: real, c: real)
    ensures (a * b) * c == a * (b * c)
  {
  }

  /** A non-zero factor can be cancelled from both sides. */
  lemma CancelFactor(a: real, b: real, x: real)
    requires x != 0.0
    requires a * x == b * x
    ensures a == b
  {
    assert (a - b) * x == 0.0;
    if x > 0.0 {
      PositiveFactorSign(a - b, x);
      PositiveFactorSign(b - a, x);
    } else {
      assert (a - b) * (-x) == 0.0 && (b - a) * (-x) == 0.0;
      PositiveFactorSign(a - b, -x);
      PositiveFactorSign(b - a, -x);
    }
  }

  /** A non-zero value divided by itself is 1. */
  lemma DivideBySelf(m: real)
    requires m != 0.0
    ensures m / m == 1.0
  {
  }

  /** Squaring both sides of z * std == d. */
  lemma ScaledSquare(z: real, std: real, d: real)
    requires z * std == d
    ensures z * z * (std * std) == d * d
  {
    assert z * z * (std * std) == (z * std) * (z * std);
  }

  /** Summing squared z-scores and scaling back by the squared deviation
      gives the squared deviations of the raw values from the mean,
      whatever convention produced the deviation. */
  lemma {:induction false} SumOfSquaredZScores(vs: seq<real>, mean: real, std: real)
    requires std != 0.0
    ensures SumOfSquares(ZScores(vs, mean, std)) * (std * std) == SquaredDeviations(vs, mean)
    decreases |vs|
  {
    if |vs| > 0 {
      var zs := ZScores(vs, mean, std);
      assert zs[1..] == ZScores(vs[1..], mean, std);
      SumOfSquaredZScores(vs[1..], mean, std);
      ScaledSquare(zs[0], std, vs[0] - mean);
      Distribute(zs[0] * zs[0], SumOfSquares(zs[1..]), std * std);
    }
  }

  /** The squared deviations of vs from mean amount to m squared std's. */
  predicate SpreadIs(vs: seq<real>, mean: real, std: real, m: real) {
    SquaredDeviations(vs, mean) == m * (std * std)
  }

  /** When the squared deviations amount to m squared std's, the squared
      z-scores add up to m. */
  lemma ZScoresSpread(vs: seq<real>, mean: real, std: real, m: real)
    requires std != 0.0
    requires SpreadIs(vs, mean, std, m)
    ensures SumOfSquares(ZScores(vs, mean, std)) == m
  {
    var q := SumOfSquares(ZScores(vs, mean, std));
    SumOfSquaredZScores(vs, mean, std);
    Associate(q, std, std);
    Associate(m, std, std);
    CancelFactor(q * std, m * std, std);
    CancelFactor(q, m, std);
  }

  /** With the population deviation of the values, the z-scores have mean
      square 1, so their own population deviation is 1. */
  lemma ZScoresUnitSpread(vs: seq<real>, std: real)
    requires |vs| > 0
    requires std != 0.0
    requires std * std * (|vs| as real) == SquaredDeviations(vs, Mean(vs))
    ensures SumOfSquares(ZScores(vs, Mean(vs), std)) / (|vs| as real) == 1.0
  {
    ZScoresSpread(vs, Mean(vs), std, |vs| as real);
    DivideBySelf(|vs| as real);
  }

  /** With the sample deviation of the values, the squared z-scores add up
      to one less than the number of values, so their sample deviation is 1. */
  lemma ZScoresUnitSampleSpread(vs: seq<real>, std: real)
    requires |vs| > 1
    requires std != 0.0
    requires std * std * (|vs| as real - 1.0) == SquaredDeviations(vs, Mean(vs))
    ensures SumOfSquares(ZScores(vs, Mean(vs), std)) / (|vs| as real - 1.0) == 1.0
  {
    ZScoresSpread(vs, Mean(vs), std, |vs| as real - 1.0);
    DivideBySelf(|vs| as real - 1.0);
  }
}
