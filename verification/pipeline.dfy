/**
  The scoring run over the fire-affected census tracts: every tract's five
  z-score criteria are standardised against the run's statistics and
  classified, its mean squared hospital distance is min-max scaled, and the six scaled
  scores are combined into the MCE index.

  The workflow does this as a series of passes over one attribute table,
  addressing fields by position; here a tract is a record with named raw
  fields and the run is a pure function of the tracts and the statistics.
 */
module Pipeline {

  import opened Statistics
  import opened Standardize
  import opened Classification
  import opened Composite

  /** Raw attributes of one tract, as the geoprocessing stage leaves them:
      median age, median income, mean burn severity, road count,
      fire-station count, and the mean over the tract of the squared
      distance to the nearest hospital. */
  datatype Zone = Zone(age: real, income: real, burn: real, roads: real, fstations: real, hospital: real)

  /** The run's statistics: mean and standard deviation of each z-score
      criterion, minimum and maximum of the mean squared hospital distance. */
  datatype RunStatistics = RunStatistics(
    ageMean: real, ageStd: real,
    incomeMean: real, incomeStd: real,
    burnMean: real, burnStd: real,
    roadMean: real, roadStd: real,
    fstationMean: real, fstationStd: real,
    hospitalMin: real, hospitalMax: real)

  datatype Criterion = Age | Income | Burn | Road | FireStation | Hospital

  /** The five z-scores of one tract. */
  datatype ZValues = ZValues(age: real, income: real, burn: real, road: real, fstation: real)

  /** What the run writes back for one tract. */
  datatype ScoredZone = ScoredZone(z: ZValues, scaled: Scores, mce: real)

  datatype Option<T> = None | Some(value: T)

  /** A division by zero aborts the run, naming the criterion whose statistic was zero. */
  datatype ScoringError = ZeroDivision(criterion: Criterion)

  datatype Result<T> = Success(value: T) | Failure(error: ScoringError)

  function Raw(zone: Zone, c: Criterion): real {
    match c
    case Age => zone.age
    case Income => zone.income
    case Burn => zone.burn
    case Road => zone.roads
    case FireStation => zone.fstations
    case Hospital => zone.hospital
  }

  /** The value a criterion's raw value is measured from: its mean, or for
      the mean squared hospital distance its minimum. */
  function Centre(st: RunStatistics, c: Criterion): real {
    match c
    case Age => st.ageMean
    case Income => st.incomeMean
    case Burn => st.burnMean
    case Road => st.roadMean
    case FireStation => st.fstationMean
    case Hospital => st.hospitalMin
  }

  /** The statistic a criterion divides by: its standard deviation, or for
      the mean squared hospital distance its range. */
  function Divisor(st: RunStatistics, c: Criterion): real {
    match c
    case Age => st.ageStd
    case Income => st.incomeStd
    case Burn => st.burnStd
    case Road => st.roadStd
    case FireStation => st.fstationStd
    case Hospital => st.hospitalMax - st.hospitalMin
  }

  /** Higher age and burn severity mean more vulnerable, as does a larger
      mean squared hospital distance; higher income and more roads and fire stations
      mean less vulnerable. */
  function DirectionOf(c: Criterion): Direction {
    match c
    case Age => Ascending
    case Burn => Ascending
    case Hospital => Ascending
    case Income => Descending
    case Road => Descending
    case FireStation => Descending
  }

  function ZOf(z: ZValues, c: Criterion): real
    requires c != Hospital
  {
    match c
    case Age => z.age
    case Income => z.income
    case Burn => z.burn
    case Road => z.road
    case FireStation => z.fstation
  }

  function ScaledOf(s: Scores, c: Criterion): real {
    match c
    case Age => s.age
    case Income => s.income
    case Burn => s.burn
    case Road => s.road
    case FireStation => s.fstation
    case Hospital => s.hospital
  }

  /** The order in which a run divides by the statistics: the five z-scores
      of the first tract, age first, then the hospital ratio. */
  const DivisionOrder: seq<Criterion> := [Age, Income, Burn, Road, FireStation, Hospital]

  /** No statistic the run divides by is zero. */
  predicate Divisible(st: RunStatistics) {
    && st.ageStd != 0.0 && st.incomeStd != 0.0 && st.burnStd != 0.0
    && st.roadStd != 0.0 && st.fstationStd != 0.0 && st.hospitalMax != st.hospitalMin
  }

  /** Divisible names every criterion's divisor. */
  lemma DivisibleIffNoZeroDivisor(st: RunStatistics)
    ensures Divisible(st) <==> forall c: Criterion :: Divisor(st, c) != 0.0
  {
    if !Divisible(st) {
      if st.ageStd == 0.0 { assert Divisor(st, Age) == 0.0; }
      else if st.incomeStd == 0.0 { assert Divisor(st, Income) == 0.0; }
      else if st.burnStd == 0.0 { assert Divisor(st, Burn) == 0.0; }
      else if st.roadStd == 0.0 { assert Divisor(st, Road) == 0.0; }
      else if st.fstationStd == 0.0 { assert Divisor(st, FireStation) == 0.0; }
      else { assert Divisor(st, Hospital) == 0.0; }
    }
  }

  /** The first criterion of cs whose divisor is zero, if any. */
  function FirstZeroDivisor(cs: seq<Criterion>, st: RunStatistics): (r: Option<Criterion>)
    ensures r.None? <==> forall i :: 0 <= i < |cs| ==> Divisor(st, cs[i]) != 0.0
    ensures r.Some? ==> exists i :: 0 <= i < |cs| && cs[i] == r.value && Divisor(st, r.value) == 0.0
                                    && forall j :: 0 <= j < i ==> Divisor(st, cs[j]) != 0.0
  {
    if |cs| == 0 then None
    else if Divisor(st, cs[0]) == 0.0 then Some(cs[0])
    else
      var r := FirstZeroDivisor(cs[1..], st);
      if r.Some? then
        assert forall i :: 0 <= i < |cs| - 1 ==> cs[1..][i] == cs[i + 1];
        r
      else r
  }

  /** A run divides by every statistic, so no zero divisor in the order means none at all. */
  lemma NoZeroDivisorIsDivisible(st: RunStatistics)
    ensures FirstZeroDivisor(DivisionOrder, st).None? <==> Divisible(st)
  {
    DivisibleIffNoZeroDivisor(st);
    if FirstZeroDivisor(DivisionOrder, st).None? {
      forall c: Criterion
        ensures Divisor(st, c) != 0.0
      {
        match c
        case Age => assert DivisionOrder[0] == c;
        case Income => assert DivisionOrder[1] == c;
        case Burn => assert DivisionOrder[2] == c;
        case Road => assert DivisionOrder[3] == c;
        case FireStation => assert DivisionOrder[4] == c;
        case Hospital => assert DivisionOrder[5] == c;
      }
    }
  }

  /** The five z-scores of a tract, each from its own raw field, mean and deviation. */
  function Standardized(zone: Zone, st: RunStatistics): (z: ZValues)
    requires Divisible(st)
    ensures st.ageMean + z.age * st.ageStd == zone.age
    ensures st.incomeMean + z.income * st.incomeStd == zone.income
    ensures st.burnMean + z.burn * st.burnStd == zone.burn
    ensures st.roadMean + z.road * st.roadStd == zone.roads
    ensures st.fstationMean + z.fstation * st.fstationStd == zone.fstations
  {
    assert Divisor(st, Age) != 0.0 && Divisor(st, Income) != 0.0 && Divisor(st, Burn) != 0.0;
    assert Divisor(st, Road) != 0.0 && Divisor(st, FireStation) != 0.0;
    ZValues(ZScore(zone.age, st.ageMean, st.ageStd),
            ZScore(zone.income, st.incomeMean, st.incomeStd),
            ZScore(zone.burn, st.burnMean, st.burnStd),
            ZScore(zone.roads, st.roadMean, st.roadStd),
            ZScore(zone.fstations, st.fstationMean, st.fstationStd))
  }

  /** The five classified scores lie in [0.1, 1]. */
  predicate Graded(s: Scores) {
    && 0.1 <= s.age <= 1.0 && 0.1 <= s.income <= 1.0 && 0.1 <= s.burn <= 1.0
    && 0.1 <= s.road <= 1.0 && 0.1 <= s.fstation <= 1.0
  }

  /** The six scaled scores of a tract from its z-scores and hospital
      ratio: each z-score classified in its criterion's direction. */
  function Scale(z: ZValues, hospitalRatio: real): (s: Scores)
    ensures s.hospital == hospitalRatio
    ensures Graded(s)
  {
    Scores(Classify(z.age, DirectionOf(Age)),
           Classify(z.income, DirectionOf(Income)),
           Classify(z.burn, DirectionOf(Burn)),
           Classify(z.road, DirectionOf(Road)),
           Classify(z.fstation, DirectionOf(FireStation)),
           hospitalRatio)
  }

  /** Scores one tract: z-scores, their classification by direction, the
      hospital ratio, and the weighted sum. */
  function ScoreZone(zone: Zone, st: RunStatistics): (r: ScoredZone)
    requires Divisible(st)
    ensures Graded(r.scaled)
    ensures st.hospitalMin + r.scaled.hospital * (st.hospitalMax - st.hospitalMin) == zone.hospital
  {
    var z := Standardized(zone, st);
    var scaled := Scale(z, MinMax(zone.hospital, st.hospitalMin, st.hospitalMax));
    ScoredZone(z, scaled, Mce(scaled, SourceWeights))
  }

  /** A scored tract holds what the workflow's passes write: each z-score
      from its own raw field, mean and deviation; the ascending chain for
      age and burn severity and the descending chain for income, roads and
      fire stations; the hospital ratio; and the weighted sum with the
      workflow's weights in the workflow's field order. */
  lemma ScoreZoneMatchesSource(zone: Zone, st: RunStatistics)
    requires Divisible(st)
    ensures ScoreZone(zone, st).z.age == ZScore(zone.age, st.ageMean, st.ageStd)
    ensures ScoreZone(zone, st).z.income == ZScore(zone.income, st.incomeMean, st.incomeStd)
    ensures ScoreZone(zone, st).z.burn == ZScore(zone.burn, st.burnMean, st.burnStd)
    ensures ScoreZone(zone, st).z.road == ZScore(zone.roads, st.roadMean, st.roadStd)
    ensures ScoreZone(zone, st).z.fstation == ZScore(zone.fstations, st.fstationMean, st.fstationStd)
    ensures ScoreZone(zone, st).scaled.age == AscendingChain(ScoreZone(zone, st).z.age)
    ensures ScoreZone(zone, st).scaled.burn == AscendingChain(ScoreZone(zone, st).z.burn)
    ensures ScoreZone(zone, st).scaled.income == DescendingChain(ScoreZone(zone, st).z.income)
    ensures ScoreZone(zone, st).scaled.road == DescendingChain(ScoreZone(zone, st).z.road)
    ensures ScoreZone(zone, st).scaled.fstation == DescendingChain(ScoreZone(zone, st).z.fstation)
    ensures ScoreZone(zone, st).scaled.hospital == MinMax(zone.hospital, st.hospitalMin, st.hospitalMax)
    ensures ScoreZone(zone, st).mce
            == ScoreZone(zone, st).scaled.age * 0.05 + ScoreZone(zone, st).scaled.income * 0.1
               + ScoreZone(zone, st).scaled.burn * 0.4 + ScoreZone(zone, st).scaled.road * 0.15
               + ScoreZone(zone, st).scaled.fstation * 0.2 + ScoreZone(zone, st).scaled.hospital * 0.1
  {
    assert Divisor(st, Hospital) != 0.0;
    var z := Standardized(zone, st);
    var s := Scale(z, MinMax(zone.hospital, st.hospitalMin, st.hospitalMax));
    assert ScoreZone(zone, st) == ScoredZone(z, s, Mce(s, SourceWeights));
    ScaleMatchesChains(z, MinMax(zone.hospital, st.hospitalMin, st.hospitalMax));
    SourceMce(s);
  }

  /** The classified scores are the chains' values of the z-scores. */
  lemma ScaleMatchesChains(z: ZValues, hospitalRatio: real)
    ensures Scale(z, hospitalRatio).age == AscendingChain(z.age)
    ensures Scale(z, hospitalRatio).burn == AscendingChain(z.burn)
    ensures Scale(z, hospitalRatio).income == DescendingChain(z.income)
    ensures Scale(z, hospitalRatio).road == DescendingChain(z.road)
    ensures Scale(z, hospitalRatio).fstation == DescendingChain(z.fstation)
  {
    AscendingChainIsClassify(z.age);
    AscendingChainIsClassify(z.burn);
    DescendingChainIsClassify(z.income);
    DescendingChainIsClassify(z.road);
    DescendingChainIsClassify(z.fstation);
  }

  /** Scores every tract of a run whose statistics can all be divided by. */
  function ScoreEach(zones: seq<Zone>, st: RunStatistics): (rs: seq<ScoredZone>)
    requires Divisible(st)
    ensures |rs| == |zones|
    ensures forall i :: 0 <= i < |zones| ==> rs[i] == ScoreZone(zones[i], st)
  {
    seq(|zones|, i requires 0 <= i < |zones| => ScoreZone(zones[i], st))
  }

  /** A whole run.  With no tracts nothing is divided and nothing fails;
      otherwise the first zero statistic, in the order the run divides by
      them, aborts it, and if there is none every tract is scored. */
  method ScoreZones(zones: seq<Zone>, st: RunStatistics) returns (r: Result<seq<ScoredZone>>)
    ensures |zones| == 0 ==> r == Success([])
    ensures |zones| > 0 ==> (r.Failure? <==> !Divisible(st))
    ensures r.Failure? ==> FirstZeroDivisor(DivisionOrder, st) == Some(r.error.criterion)
    ensures r.Success? ==> |r.value| == |zones|
    ensures r.Success? ==> forall i :: 0 <= i < |zones| ==> Divisible(st) && r.value[i] == ScoreZone(zones[i], st)
    ensures r.Success? && Divisible(st) ==> r.value == ScoreEach(zones, st)
  {
    if |zones| == 0 {
      return Success([]);
    }
    var first := FirstZeroDivisor(DivisionOrder, st);
    NoZeroDivisorIsDivisible(st);
    if first.Some? {
      return Failure(ZeroDivision(first.value));
    }
    var scored: seq<ScoredZone> := [];
    var i := 0;
    while i < |zones|
      invariant 0 <= i <= |zones|
      invariant |scored| == i
      invariant forall j :: 0 <= j < i ==> scored[j] == ScoreZone(zones[j], st)
    {
      scored := scored + [ScoreZone(zones[i], st)];
      i := i + 1;
    }
    assert scored == ScoreEach(zones, st);
    return Success(scored);
  }

  /** The raw values of one criterion across the run's tracts. */
  function Column(zones: seq<Zone>, c: Criterion): (col: seq<real>)
    ensures |col| == |zones|
    ensures forall i :: 0 <= i < |zones| ==> col[i] == Raw(zones[i], c)
  {
    seq(|zones|, i requires 0 <= i < |zones| => Raw(zones[i], c))
  }

  /** The statistics were computed from these tracts: every mean is the
      mean of its column, and the hospital bounds are the column's extremes. */
  predicate StatisticsOf(zones: seq<Zone>, st: RunStatistics) {
    && |zones| > 0
    && st.ageMean == Mean(Column(zones, Age))
    && st.incomeMean == Mean(Column(zones, Income))
    && st.burnMean == Mean(Column(zones, Burn))
    && st.roadMean == Mean(Column(zones, Road))
    && st.fstationMean == Mean(Column(zones, FireStation))
    && st.hospitalMin == Minimum(Column(zones, Hospital))
    && st.hospitalMax == Maximum(Column(zones, Hospital))
  }

  /** The z-scores of one criterion across a scored run. */
  function ZColumn(rs: seq<ScoredZone>, c: Criterion): (col: seq<real>)
    requires c != Hospital
    ensures |col| == |rs|
    ensures forall i :: 0 <= i < |rs| ==> col[i] == ZOf(rs[i].z, c)
  {
    seq(|rs|, i requires 0 <= i < |rs| => ZOf(rs[i].z, c))
  }

  /** A criterion's z-scores across a scored run are its column's z-scores
      against the run's statistics for that criterion. */
  lemma ZColumnIsZScores(zones: seq<Zone>, st: RunStatistics, c: Criterion)
    requires Divisible(st)
    requires c != Hospital
    ensures Divisor(st, c) != 0.0
    ensures ZColumn(ScoreEach(zones, st), c) == ZScores(Column(zones, c), Centre(st, c), Divisor(st, c))
  {
    var col := ZColumn(ScoreEach(zones, st), c);
    var zs := ZScores(Column(zones, c), Centre(st, c), Divisor(st, c));
    forall i | 0 <= i < |zones|
      ensures col[i] == zs[i]
    {
      ScoreZoneMatchesSource(zones[i], st);
    }
  }

  /** When the means are the run's own, a criterion's z-scores across the
      run are its column's z-scores about the column's mean. */
  lemma ZColumnOfRun(zones: seq<Zone>, st: RunStatistics, c: Criterion)
    requires StatisticsOf(zones, st)
    requires Divisible(st)
    requires c != Hospital
    ensures Divisor(st, c) != 0.0
    ensures ZColumn(ScoreEach(zones, st), c) == ZScores(Column(zones, c), Mean(Column(zones, c)), Divisor(st, c))
  {
    ZColumnIsZScores(zones, st, c);
    assert Centre(st, c) == Mean(Column(zones, c));
  }

  /** When the means are the run's own, each criterion's z-scores sum to zero across the run. */
  lemma ZScoresCentredInRun(zones: seq<Zone>, st: RunStatistics, c: Criterion)
    requires StatisticsOf(zones, st)
    requires Divisible(st)
    requires c != Hospital
    ensures Sum(ZColumn(ScoreEach(zones, st), c)) == 0.0
  {
    ZColumnOfRun(zones, st, c);
    ZScoresCentred(Column(zones, c), Divisor(st, c));
  }

  /** A criterion's z-scores across the run have as sum of squares the
      column's squared deviation from the run's centre, counted in units of
      the squared divisor; whatever convention produced the divisor, this is
      the spread it gives. */
  lemma ZScoresSpreadInRun(zones: seq<Zone>, st: RunStatistics, c: Criterion, m: real)
    requires Divisible(st)
    requires c != Hospital
    requires SpreadIs(Column(zones, c), Centre(st, c), Divisor(st, c), m)
    ensures SumOfSquares(ZColumn(ScoreEach(zones, st), c)) == m
  {
    var col, centre, d := Column(zones, c), Centre(st, c), Divisor(st, c);
    ZColumnIsZScores(zones, st, c);
    var zs := ZColumn(ScoreEach(zones, st), c);
    assert zs == ZScores(col, centre, d);
    ZScoresSpread(col, centre, d, m);
    assert SumOfSquares(zs) == m;
  }

  /** When the divisor is the column's population standard deviation, the
      z-scores of the run have mean square one, that is unit spread. */
  lemma ZScoresUnitSpreadInRun(zones: seq<Zone>, st: RunStatistics, c: Criterion)
    requires StatisticsOf(zones, st)
    requires Divisible(st)
    requires c != Hospital
    requires Divisor(st, c) * Divisor(st, c) * (|zones| as real) == SquaredDeviations(Column(zones, c), Mean(Column(zones, c)))
    ensures SumOfSquares(ZColumn(ScoreEach(zones, st), c)) / (|zones| as real) == 1.0
  {
    assert Centre(st, c) == Mean(Column(zones, c));
    ZScoresSpreadInRun(zones, st, c, |zones| as real);
    DivideBySelf(|zones| as real);
  }

  /** When the hospital bounds are the run's own, every hospital score lies
      in [0, 1], the tracts with the smallest mean squared hospital distance
      score exactly 0 and those with the largest exactly 1. */
  lemma HospitalScoresInRun(zones: seq<Zone>, st: RunStatistics)
    requires StatisticsOf(zones, st)
    requires Divisible(st)
    ensures forall i :: 0 <= i < |zones| ==> 0.0 <= ScoreZone(zones[i], st).scaled.hospital <= 1.0
    ensures forall i :: 0 <= i < |zones| && zones[i].hospital == st.hospitalMin
                        ==> ScoreZone(zones[i], st).scaled.hospital == 0.0
    ensures forall i :: 0 <= i < |zones| && zones[i].hospital == st.hospitalMax
                        ==> ScoreZone(zones[i], st).scaled.hospital == 1.0
  {
    var col := Column(zones, Hospital);
    forall i | 0 <= i < |zones|
      ensures 0.0 <= ScoreZone(zones[i], st).scaled.hospital <= 1.0
      ensures zones[i].hospital == st.hospitalMin ==> ScoreZone(zones[i], st).scaled.hospital == 0.0
      ensures zones[i].hospital == st.hospitalMax ==> ScoreZone(zones[i], st).scaled.hospital == 1.0
    {
      assert col[i] == zones[i].hospital;
      HospitalScoreOfZone(zones[i], st);
    }
  }

  /** When the hospital bounds are the run's own, both ends of the hospital
      score range are reached by some tract. */
  lemma HospitalExtremesInRun(zones: seq<Zone>, st: RunStatistics)
    requires StatisticsOf(zones, st)
    requires Divisible(st)
    ensures exists i :: 0 <= i < |zones| && ScoreZone(zones[i], st).scaled.hospital == 0.0
    ensures exists i :: 0 <= i < |zones| && ScoreZone(zones[i], st).scaled.hospital == 1.0
  {
    var col := Column(zones, Hospital);
    var i :| 0 <= i < |zones| && col[i] == st.hospitalMin;
    var j :| 0 <= j < |zones| && col[j] == st.hospitalMax;
    assert col[0] <= st.hospitalMax;
    HospitalScoreOfZone(zones[i], st);
    HospitalScoreOfZone(zones[j], st);
  }

  /** A tract whose mean squared hospital distance lies within the run's
      bounds gets a hospital score in [0, 1]: 0 at the minimum and 1 at the maximum. */
  lemma HospitalScoreOfZone(zone: Zone, st: RunStatistics)
    requires Divisible(st)
    requires st.hospitalMin <= zone.hospital <= st.hospitalMax
    ensures 0.0 <= ScoreZone(zone, st).scaled.hospital <= 1.0
    ensures zone.hospital == st.hospitalMin ==> ScoreZone(zone, st).scaled.hospital == 0.0
    ensures zone.hospital == st.hospitalMax ==> ScoreZone(zone, st).scaled.hospital == 1.0
  {
    ScoreZoneMatchesSource(zone, st);
    MinMaxUnitInterval(zone.hospital, st.hospitalMin, st.hospitalMax);
    MinMaxEndpoints(st.hospitalMin, st.hospitalMax);
  }

  /** A tract whose mean squared hospital distance lies within the run's bounds gets an MCE in [0.09, 1]. */
  lemma MceOfZone(zone: Zone, st: RunStatistics)
    requires Divisible(st)
    requires st.hospitalMin <= zone.hospital <= st.hospitalMax
    ensures 0.09 <= ScoreZone(zone, st).mce <= 1.0
  {
    HospitalScoreOfZone(zone, st);
    SourceMceRange(ScoreZone(zone, st).scaled);
  }

  /** When the hospital bounds are the run's own, every tract's MCE lies in [0.09, 1]. */
  lemma MceInRun(zones: seq<Zone>, st: RunStatistics)
    requires StatisticsOf(zones, st)
    requires Divisible(st)
    ensures forall i :: 0 <= i < |zones| ==> 0.09 <= ScoreZone(zones[i], st).mce <= 1.0
  {
    HospitalScoresInRun(zones, st);
    forall i | 0 <= i < |zones|
      ensures 0.09 <= ScoreZone(zones[i], st).mce <= 1.0
    {
      var r := ScoreZone(zones[i], st);
      SourceMceRange(r.scaled);
    }
  }

  /** The direction each criterion is scored in, end to end: between two
      tracts of one run, the one with the larger raw value never scores
      lower on an ascending criterion and never higher on a descending one. */
  lemma ScaledFollowsDirection(a: Zone, b: Zone, st: RunStatistics, c: Criterion)
    requires Divisible(st)
    requires Divisor(st, c) > 0.0
    requires Raw(a, c) <= Raw(b, c)
    ensures DirectionOf(c) == Ascending ==> ScaledOf(ScoreZone(a, st).scaled, c) <= ScaledOf(ScoreZone(b, st).scaled, c)
    ensures DirectionOf(c) == Descending ==> ScaledOf(ScoreZone(a, st).scaled, c) >= ScaledOf(ScoreZone(b, st).scaled, c)
  {
    var ra, rb := ScoreZone(a, st), ScoreZone(b, st);
    if c == Hospital {
      MinMaxStrictlyIncreasing(Raw(b, c), Raw(a, c), st.hospitalMin, st.hospitalMax);
    } else {
      ZScoreStrictlyIncreasing(Raw(b, c), Raw(a, c), Centre(st, c), Divisor(st, c));
      ClassifyMonotone(ZOf(ra.z, c), ZOf(rb.z, c));
    }
  }
}
