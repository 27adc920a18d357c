/**
  Summary statistics over a population of zone values: the sum and mean
  behind the z-score criteria, the squared deviations behind their spread,
  and the minimum and maximum behind the hospital ratio.  The workflow obtains them from a statistics
  table; here they are plain functions so that the scoring lemmas can say
  what "the population's mean" or "the population's minimum" is.
 */
module Statistics {

  function Sum(s: seq<real>): real {
    if |s| == 0 then 0.0 else s[0] + Sum(s[1..])
  }

  /** Arithmetic mean of a non-empty population. */
  function Mean(s: seq<real>): real
    requires |s| > 0
  {
    Sum(s) / (|s| as real)
  }

  /** Sum of the squares of the values. */
  function SumOfSquares(s: seq<real>): real {
    if |s| == 0 then 0.0 else s[0] * s[0] + SumOfSquares(s[1..])
  }

  /** Sum of the squared deviations of the values from c. */
  function SquaredDeviations(s: seq<real>, c: real): real {
    if |s| == 0 then 0.0 else (s[0] - c) * (s[0] - c) + SquaredDeviations(s[1..], c)
  }

  /** Smallest value of a non-empty population. */
  function Minimum(s: seq<real>): (m: real)
    requires |s| > 0
    ensures m in s
    ensures forall i :: 0 <= i < |s| ==> m <= s[i]
  {
    if |s| == 1 then s[0]
    else
      var rest := Minimum(s[1..]);
      if s[0] <= rest then s[0] else rest
  }

  /** Largest value of a non-empty population. */
  function Maximum(s: seq<real>): (m: real)
    requires |s| > 0
    ensures m in s
    ensures forall i :: 0 <= i < |s| ==> s[i] <= m
  {
    if |s| == 1 then s[0]
    else
      var rest := Maximum(s[1..]);
      if s[0] >= rest then s[0] else rest
  }

  /** The range is empty exactly when every value equals the first one. */
  lemma DegenerateRange(s: seq<real>)
    requires |s| > 0
    ensures Minimum(s) == Maximum(s) <==> forall i :: 0 <= i < |s| ==> s[i] == s[0]
  {
    if Minimum(s) == Maximum(s) {
      forall i | 0 <= i < |s|
        ensures s[i] == s[0]
      {
        assert Minimum(s) <= s[i] <= Maximum(s);
        assert Minimum(s) <= s[0] <= Maximum(s);
      }
    } else {
      var i :| 0 <= i < |s| && s[i] == Minimum(s);
      var j :| 0 <= j < |s| && s[j] == Maximum(s);
      assert s[i] != s[j];
    }
  }
}
