/**
  The MCE index: a weighted sum of a zone's six scaled criterion scores.
  The workflow fixes the weights (age 0.05, income 0.1, burn severity 0.4,
  road count 0.15, fire-station count 0.2, mean squared hospital distance 0.1); the sum
  is stated here for any weights, and its convexity is proved for every
  non-negative weighting that sums to one, the workflow's included.
 */
module Composite {

  /** One value per criterion, named as in the workflow's MCE field list. */
  datatype Scores = Scores(age: real, income: real, burn: real, road: real, fstation: real, hospital: real)

  datatype Weights = Weights(age: real, income: real, burn: real, road: real, fstation: real, hospital: real)

  /** The weights the workflow multiplies the scaled scores by. */
  const SourceWeights: Weights := Weights(0.05, 0.1, 0.4, 0.15, 0.2, 0.1)

  function Total(w: Weights): real {
    w.age + w.income + w.burn + w.road + w.fstation + w.hospital
  }

  predicate NonNegative(w: Weights) {
    && w.age >= 0.0 && w.income >= 0.0 && w.burn >= 0.0
    && w.road >= 0.0 && w.fstation >= 0.0 && w.hospital >= 0.0
  }

  /** Non-negative weights summing to one: the MCE is then an average of the scores. */
  predicate Convex(w: Weights) {
    NonNegative(w) && Total(w) == 1.0
  }

  /** Every score lies in [lo, hi]. */
  predicate Within(s: Scores, lo: real, hi: real) {
    && lo <= s.age <= hi && lo <= s.income <= hi && lo <= s.burn <= hi
    && lo <= s.road <= hi && lo <= s.fstation <= hi && lo <= s.hospital <= hi
  }

  /** Every score of s is at most the matching score of t. */
  predicate Dominated(s: Scores, t: Scores) {
    && s.age <= t.age && s.income <= t.income && s.burn <= t.burn
    && s.road <= t.road && s.fstation <= t.fstation && s.hospital <= t.hospital
  }

  /** The same score c for every criterion. */
  function Uniform(c: real): Scores {
    Scores(c, c, c, c, c, c)
  }

  function Min(a: real, b: real): real {
    if a <= b then a else b
  }

  function Max(a: real, b: real): real {
    if a >= b then a else b
  }

  /** The smallest of the six scores. */
  function Lowest(s: Scores): real {
    Min(s.age, Min(s.income, Min(s.burn, Min(s.road, Min(s.fstation, s.hospital)))))
  }

  /** The largest of the six scores. */
  function Highest(s: Scores): real {
    Max(s.age, Max(s.income, Max(s.burn, Max(s.road, Max(s.fstation, s.hospital)))))
  }

  /** The weighted sum of the six scores: under convex weights it lies
      between the smallest and the largest score. */
  function Mce(s: Scores, w: Weights): (r: real)
    ensures Convex(w) ==> Lowest(s) <= r <= Highest(s)
  {
    var r := s.age * w.age + s.income * w.income + s.burn * w.burn
             + s.road * w.road + s.fstation * w.fstation + s.hospital * w.hospital;
    if Convex(w) then
      WeightedSumBounded(s, w, Lowest(s), Highest(s));
      r
    else
      r
  }

  /** A convex combination of scores in [lo, hi] stays in [lo, hi]. */
  lemma WeightedSumBounded(s: Scores, w: Weights, lo: real, hi: real)
    requires Convex(w)
    requires Within(s, lo, hi)
    ensures lo <= s.age * w.age + s.income * w.income + s.burn * w.burn
                  + s.road * w.road + s.fstation * w.fstation + s.hospital * w.hospital <= hi
  {
    WeightedSumMonotone(Uniform(lo), s, w);
    WeightedSumMonotone(s, Uniform(hi), w);
    assert lo * w.age + lo * w.income + lo * w.burn + lo * w.road + lo * w.fstation + lo * w.hospital
           == lo * Total(w);
    assert hi * w.age + hi * w.income + hi * w.burn + hi * w.road + hi * w.fstation + hi * w.hospital
           == hi * Total(w);
  }

  /** Under non-negative weights the weighted sum follows the scores termwise. */
  lemma WeightedSumMonotone(s: Scores, t: Scores, w: Weights)
    requires NonNegative(w)
    requires Dominated(s, t)
    ensures s.age * w.age + s.income * w.income + s.burn * w.burn
            + s.road * w.road + s.fstation * w.fstation + s.hospital * w.hospital
            <= t.age * w.age + t.income * w.income + t.burn * w.burn
               + t.road * w.road + t.fstation * w.fstation + t.hospital * w.hospital
  {
    ScaleMonotone(s.age, t.age, w.age);
    ScaleMonotone(s.income, t.income, w.income);
    ScaleMonotone(s.burn, t.burn, w.burn);
    ScaleMonotone(s.road, t.road, w.road);
    ScaleMonotone(s.fstation, t.fstation, w.fstation);
    ScaleMonotone(s.hospital, t.hospital, w.hospital);
    AddSix(s.age * w.age, s.income * w.income, s.burn * w.burn,
           s.road * w.road, s.fstation * w.fstation, s.hospital * w.hospital,
           t.age * w.age, t.income * w.income, t.burn * w.burn,
           t.road * w.road, t.fstation * w.fstation, t.hospital * w.hospital);
  }

  /** The workflow's weights are a convex weighting. */
  lemma SourceWeightsConvex()
    ensures Convex(SourceWeights)
  {
  }

  /** A non-negative weight keeps the order of the scores it multiplies. */
  lemma ScaleMonotone(a: real, b: real, w: real)
    requires w >= 0.0
    requires a <= b
    ensures a * w <= b * w
  {
    assert b * w - a * w == (b - a) * w;
  }

  /** Termwise inequalities add up. */
  lemma AddSix(a1: real, a2: real, a3: real, a4: real, a5: real, a6: real,
               b1: real, b2: real, b3: real, b4: real, b5: real, b6: real)
    requires a1 <= b1 && a2 <= b2 && a3 <= b3 && a4 <= b4 && a5 <= b5 && a6 <= b6
    ensures a1 + a2 + a3 + a4 + a5 + a6 <= b1 + b2 + b3 + b4 + b5 + b6
  {
  }

  /** Raising any score never lowers the MCE under non-negative weights. */
  lemma MceMonotone(s: Scores, t: Scores, w: Weights)
    requires NonNegative(w)
    requires Dominated(s, t)
    ensures Mce(s, w) <= Mce(t, w)
  {
    WeightedSumMonotone(s, t, w);
  }

  /** Weights summing to one reproduce a score shared by every criterion. */
  lemma MceOfUniform(c: real, w: Weights)
    requires Total(w) == 1.0
    ensures Mce(Uniform(c), w) == c
  {
    calc {
      Mce(Uniform(c), w);
      c * (w.age + w.income + w.burn + w.road + w.fstation + w.hospital);
      c * Total(w);
    }
  }

  /** Convexity: when every score lies in [lo, hi], so does the MCE. */
  lemma MceBounded(s: Scores, w: Weights, lo: real, hi: real)
    requires Convex(w)
    requires Within(s, lo, hi)
    ensures lo <= Mce(s, w) <= hi
  {
  }

  /** The MCE with the workflow's weights, written as the workflow writes it. */
  lemma SourceMce(s: Scores)
    ensures Mce(s, SourceWeights)
            == s.age * 0.05 + s.income * 0.1 + s.burn * 0.4 + s.road * 0.15 + s.fstation * 0.2 + s.hospital * 0.1
  {
  }

  /** With the workflow's weights, five classified scores in [0.1, 1] and a
      hospital ratio in [0, 1] give an MCE in [0.09, 1]. */
  lemma SourceMceRange(s: Scores)
    requires 0.1 <= s.age <= 1.0 && 0.1 <= s.income <= 1.0 && 0.1 <= s.burn <= 1.0
    requires 0.1 <= s.road <= 1.0 && 0.1 <= s.fstation <= 1.0
    requires 0.0 <= s.hospital <= 1.0
    ensures 0.09 <= Mce(s, SourceWeights) <= 1.0
  {
    SourceMce(s);
  }

  /** Both ends of that range are reached, so the index can fall below the
      lowest classified score 0.1: the zone with the smallest mean squared
      hospital distance, with every other criterion in its least vulnerable
      bucket, scores 0.09. */
  lemma SourceMceExtremes()
    ensures Mce(Scores(0.1, 0.1, 0.1, 0.1, 0.1, 0.0), SourceWeights) == 0.09
    ensures Mce(Uniform(1.0), SourceWeights) == 1.0
  {
  }
}
