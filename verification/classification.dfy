/**
  Breakpoint classification of a z-score into the seven-level ordinal
  vulnerability score used by the wildfire MCE workflow.

  The workflow writes the same if/elif chain five times: twice with the
  levels ascending in z (age, burn severity) and three times with the levels
  reversed (income, road count, fire-station count).  Here the chain is one
  breakpoint table, a first-match bucket lookup and a direction flag; the two
  literal chains are kept as `AscendingChain` and `DescendingChain` so that
  the collapse can be proved faithful.
 */
module Classification {

  /** Whether a higher z-score means a more (Ascending) or a less
      (Descending) vulnerable zone. */
  datatype Direction = Ascending | Descending

  /** Upper bounds of the first six buckets; the seventh is unbounded above. */
  const Breakpoints: seq<real> := [-1.5, -1.0, -0.5, 0.5, 1.0, 1.5]

  /** Scores of the seven buckets, lowest bucket first, for an ascending criterion. */
  const AscendingScores: seq<real> := [0.1, 0.2, 0.3, 0.5, 0.7, 0.85, 1.0]

  predicate StrictlyIncreasing(s: seq<real>) {
    forall i, j :: 0 <= i < j < |s| ==> s[i] < s[j]
  }

  /** Index of the first bound, from position i on, that z does not exceed,
      or |bounds| when z exceeds them all: the first branch of an if/elif
      chain whose guards are `z <= bounds[i]`, `z <= bounds[i + 1]`, ...
      that fires. */
  function BucketFrom(bounds: seq<real>, z: real, i: nat): (k: nat)
    requires i <= |bounds|
    ensures i <= k <= |bounds|
    ensures k < |bounds| ==> z <= bounds[k]
    decreases |bounds| - i
  {
    if i == |bounds| then i
    else if z <= bounds[i] then i
    else BucketFrom(bounds, z, i + 1)
  }

  /** The bucket of z: the branch of the whole chain that fires. */
  function Bucket(bounds: seq<real>, z: real): (k: nat)
    ensures k <= |bounds|
    ensures k < |bounds| ==> z <= bounds[k]
  {
    BucketFrom(bounds, z, 0)
  }

  /** Every guard passed over before the firing one was false. */
  lemma {:induction false} BucketFromAbove(bounds: seq<real>, z: real, i: nat)
    requires i <= |bounds|
    ensures forall j :: i <= j < BucketFrom(bounds, z, i) ==> bounds[j] < z
    decreases |bounds| - i
  {
    if i < |bounds| && bounds[i] < z {
      BucketFromAbove(bounds, z, i + 1);
    }
  }

  /** z exceeds all bounds below its bucket. */
  lemma BucketAbove(bounds: seq<real>, z: real)
    ensures forall j :: 0 <= j < Bucket(bounds, z) ==> bounds[j] < z
  {
    BucketFromAbove(bounds, z, 0);
  }

  lemma {:induction false} BucketFromUnique(bounds: seq<real>, z: real, i: nat, k: nat)
    requires StrictlyIncreasing(bounds)
    requires i <= k <= |bounds|
    requires k == 0 || bounds[k - 1] < z
    requires k == |bounds| || z <= bounds[k]
    ensures BucketFrom(bounds, z, i) == k
    decreases |bounds| - i
  {
    if i < k {
      assert bounds[i] <= bounds[k - 1];
      BucketFromUnique(bounds, z, i + 1, k);
    }
  }

  /** On increasing bounds a bucket is the half-open interval
      (bounds[k-1], bounds[k]], open at both tails: z lies in bucket k
      exactly when it is above the bound below k and at most the bound of k. */
  lemma BucketUnique(bounds: seq<real>, z: real, k: nat)
    requires StrictlyIncreasing(bounds)
    requires k <= |bounds|
    requires k == 0 || bounds[k - 1] < z
    requires k == |bounds| || z <= bounds[k]
    ensures Bucket(bounds, z) == k
  {
    BucketFromUnique(bounds, z, 0, k);
  }

  lemma {:induction false} BucketFromMonotone(bounds: seq<real>, z1: real, z2: real, i: nat)
    requires i <= |bounds|
    requires z1 <= z2
    ensures BucketFrom(bounds, z1, i) <= BucketFrom(bounds, z2, i)
    decreases |bounds| - i
  {
    if i < |bounds| && bounds[i] < z1 {
      BucketFromMonotone(bounds, z1, z2, i + 1);
    }
  }

  /** A larger z never lands in an earlier bucket. */
  lemma BucketMonotone(bounds: seq<real>, z1: real, z2: real)
    requires z1 <= z2
    ensures Bucket(bounds, z1) <= Bucket(bounds, z2)
  {
    BucketFromMonotone(bounds, z1, z2, 0);
  }

  /** Score of bucket k: the table read forwards for Ascending, backwards for Descending. */
  function Level(dir: Direction, k: nat): real
    requires k < |AscendingScores|
  {
    match dir
    case Ascending => AscendingScores[k]
    case Descending => AscendingScores[|AscendingScores| - 1 - k]
  }

  /** The scaled score of a z-score for a criterion of the given direction. */
  function Classify(z: real, dir: Direction): (s: real)
    ensures 0.1 <= s <= 1.0
  {
    var k := Bucket(Breakpoints, z);
    assert AscendingScores[k] in AscendingScores;
    Level(dir, k)
  }

  /** Every scaled score is one of the seven levels. */
  lemma ClassifyInScores(z: real, dir: Direction)
    ensures Classify(z, dir) in AscendingScores
  {
  }

  lemma BreakpointsIncreasing()
    ensures StrictlyIncreasing(Breakpoints)
  {
  }

  lemma ScoresIncreasing()
    ensures StrictlyIncreasing(AscendingScores)
  {
  }

  /** Classify returns the score of bucket k exactly when z lies in bucket k:
      above the breakpoint below it (if any) and at most the breakpoint of
      the bucket itself (if any). */
  lemma {:induction false} ClassifyBucket(z: real, dir: Direction, k: nat)
    requires k < |AscendingScores|
    ensures Classify(z, dir) == Level(dir, k)
            <==> (k == 0 || Breakpoints[k - 1] < z) && (k == |Breakpoints| || z <= Breakpoints[k])
  {
    BreakpointsIncreasing();
    ScoresIncreasing();
    var b := Bucket(Breakpoints, z);
    if (k == 0 || Breakpoints[k - 1] < z) && (k == |Breakpoints| || z <= Breakpoints[k]) {
      BucketUnique(Breakpoints, z, k);
    } else {
      assert b != k;
      assert AscendingScores[b] != AscendingScores[k];
    }
  }

  /** The breakpoints themselves belong to the bucket below them, in both tables. */
  lemma ClassifyBoundaries()
    ensures Classify(-1.5, Ascending) == 0.1 && Classify(-1.5, Descending) == 1.0
    ensures Classify(-1.0, Ascending) == 0.2 && Classify(-1.0, Descending) == 0.85
    ensures Classify(-0.5, Ascending) == 0.3 && Classify(-0.5, Descending) == 0.7
    ensures Classify(0.5, Ascending) == 0.5 && Classify(0.5, Descending) == 0.5
    ensures Classify(1.0, Ascending) == 0.7 && Classify(1.0, Descending) == 0.3
    ensures Classify(1.5, Ascending) == 0.85 && Classify(1.5, Descending) == 0.2
    ensures forall z :: z > 1.5 ==> Classify(z, Ascending) == 1.0 && Classify(z, Descending) == 0.1
  {
    BreakpointsIncreasing();
    BucketUnique(Breakpoints, -1.5, 0);
    BucketUnique(Breakpoints, -1.0, 1);
    BucketUnique(Breakpoints, -0.5, 2);
    BucketUnique(Breakpoints, 0.5, 3);
    BucketUnique(Breakpoints, 1.0, 4);
    BucketUnique(Breakpoints, 1.5, 5);
    forall z | z > 1.5
      ensures Classify(z, Ascending) == 1.0 && Classify(z, Descending) == 0.1
    {
      BucketUnique(Breakpoints, z, 6);
    }
  }

  /** The ascending table never decreases in z; the descending one never increases. */
  lemma ClassifyMonotone(z1: real, z2: real)
    requires z1 <= z2
    ensures Classify(z1, Ascending) <= Classify(z2, Ascending)
    ensures Classify(z1, Descending) >= Classify(z2, Descending)
  {
    BucketMonotone(Breakpoints, z1, z2);
    ScoresIncreasing();
  }

  /** The value swap that turns one table into the other:
      0.1 <-> 1, 0.2 <-> 0.85, 0.3 <-> 0.7, 0.5 fixed. */
  function Mirror(s: real): real {
    if s == 0.1 then 1.0
    else if s == 0.2 then 0.85
    else if s == 0.3 then 0.7
    else if s == 0.7 then 0.3
    else if s == 0.85 then 0.2
    else if s == 1.0 then 0.1
    else s
  }

  /** Mirror maps the score set onto itself and undoes itself there. */
  lemma MirrorInvolution(s: real)
    requires s in AscendingScores
    ensures Mirror(s) in AscendingScores
    ensures Mirror(Mirror(s)) == s
  {
  }

  /** Same buckets, mirrored values: the descending score is the mirror of
      the ascending score of the same z. */
  lemma ClassifyMirror(z: real)
    ensures Classify(z, Descending) == Mirror(Classify(z, Ascending))
  {
  }

  /** The mirror is not a reflection about a constant: the two scores of
      one z sum to 1.1 in the lowest bucket but to 1.0 in the middle one. */
  lemma MirrorSumNotConstant()
    ensures Classify(-2.0, Ascending) + Classify(-2.0, Descending) == 1.1
    ensures Classify(0.0, Ascending) + Classify(0.0, Descending) == 1.0
  {
    BreakpointsIncreasing();
    BucketUnique(Breakpoints, -2.0, 0);
    BucketUnique(Breakpoints, 0.0, 3);
  }

  lemma BreakpointsSymmetric()
    ensures forall i :: 0 <= i < |Breakpoints| ==> Breakpoints[i] == -Breakpoints[|Breakpoints| - 1 - i]
  {
  }

  /** Off the breakpoints, the descending table is the ascending table applied to -z. */
  lemma DescendingOffBreakpoints(z: real)
    requires z !in Breakpoints
    ensures Classify(z, Descending) == Classify(-z, Ascending)
  {
    BreakpointsIncreasing();
    BreakpointsSymmetric();
    var k := Bucket(Breakpoints, z);
    if k < |Breakpoints| {
      assert z != Breakpoints[k];
    }
    BucketUnique(Breakpoints, -z, |Breakpoints| - k);
  }

  /** At a breakpoint the two disagree: z is in the bucket below it, and so is -z. */
  lemma {:induction false} DescendingAtBreakpoint(i: nat)
    requires i < |Breakpoints|
    ensures Classify(Breakpoints[i], Descending) != Classify(-Breakpoints[i], Ascending)
  {
    ClassifyBoundaries();
    var b := Breakpoints[i];
    if i == 0 {
      assert b == -1.5;
    } else if i == 1 {
      assert b == -1.0;
    } else if i == 2 {
      assert b == -0.5;
    } else if i == 3 {
      assert b == 0.5;
    } else if i == 4 {
      assert b == 1.0;
    } else {
      assert b == 1.5;
    }
  }

  /** Since both tables close their buckets on the upper bound, the
      descending table is the ascending table applied to -z everywhere
      except at the six breakpoints, where the two disagree. */
  lemma DescendingIsNegatedAscending(z: real)
    ensures Classify(z, Descending) == Classify(-z, Ascending) <==> z !in Breakpoints
  {
    if z in Breakpoints {
      var i :| 0 <= i < |Breakpoints| && Breakpoints[i] == z;
      DescendingAtBreakpoint(i);
    } else {
      DescendingOffBreakpoints(z);
    }
  }

  /** The chain written out for age (and, verbatim, for burn severity). */
  function AscendingChain(z: real): (s: real)
    ensures s in AscendingScores
  {
    if z <= -1.5 then 0.1
    else if -1.5 < z && z <= -1.0 then 0.2
    else if -1.0 < z && z <= -0.5 then 0.3
    else if -0.5 < z && z <= 0.5 then 0.5
    else if 0.5 < z && z <= 1.0 then 0.7
    else if 1.0 < z && z <= 1.5 then 0.85
    else 1.0
  }

  /** The chain written out for income (and, verbatim, for road and fire-station counts). */
  function DescendingChain(z: real): (s: real)
    ensures s in AscendingScores
  {
    if z <= -1.5 then 1.0
    else if -1.5 < z && z <= -1.0 then 0.85
    else if -1.0 < z && z <= -0.5 then 0.7
    else if -0.5 < z && z <= 0.5 then 0.5
    else if 0.5 < z && z <= 1.0 then 0.3
    else if 1.0 < z && z <= 1.5 then 0.2
    else 0.1
  }

  /** Index of the branch of either chain that fires for z. */
  function ChainBranch(z: real): (k: nat)
    ensures k < |AscendingScores|
    ensures k == 0 || Breakpoints[k - 1] < z
    ensures k == |Breakpoints| || z <= Breakpoints[k]
  {
    if z <= -1.5 then 0
    else if z <= -1.0 then 1
    else if z <= -0.5 then 2
    else if z <= 0.5 then 3
    else if z <= 1.0 then 4
    else if z <= 1.5 then 5
    else 6
  }

  /** The collapsed classifier agrees with the ascending chain on every z. */
  lemma AscendingChainIsClassify(z: real)
    ensures AscendingChain(z) == Classify(z, Ascending)
  {
    BreakpointsIncreasing();
    BucketUnique(Breakpoints, z, ChainBranch(z));
  }

  /** The collapsed classifier agrees with the descending chain on every z. */
  lemma DescendingChainIsClassify(z: real)
    ensures DescendingChain(z) == Classify(z, Descending)
  {
    BreakpointsIncreasing();
    BucketUnique(Breakpoints, z, ChainBranch(z));
  }
}
