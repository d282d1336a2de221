/** Statistical process control over a series of measurements: mean and
    population standard deviation, control limits at three standard
    deviations, three Western Electric violation rules, and the Cp/Cpk
    process capability indices with their classification.

    Measurements are reals. The standard deviation is a parameter whose
    square is the population variance, since square roots are not modelled. */
module Spc {
  import opened QualityTypes

  /** One control-chart violation: a point outside the control limits, a
      run of nine points on one side of the mean, or a six-point trend. */
  datatype Violation = OutOfLimits(index: int) | SameSideRun | Trend(start: int, increasing: bool)

  datatype Capability = EXCELLENT | ADEQUATE | MARGINAL | INADEQUATE

  datatype SPCMetrics = SPCMetrics(
    mean: real,
    standardDeviation: real,
    upperControlLimit: real,
    lowerControlLimit: real,
    dataPoints: int,
    violations: Option<seq<Violation>>,
    inControl: bool)

  datatype ProcessCapability = ProcessCapability(
    cp: real,
    cpk: real,
    mean: real,
    standardDeviation: real,
    lowerSpecLimit: real,
    upperSpecLimit: real,
    capability: Option<Capability>)

  // ---------------------------------------------------------------- statistics

  function Sum(data: seq<real>): real {
    if data == [] then 0.0 else Sum(data[..|data| - 1]) + data[|data| - 1]
  }

  /** The arithmetic mean; 0 for an empty series. */
  function Mean(data: seq<real>): (m: real)
    ensures data == [] ==> m == 0.0
    ensures data != [] ==> m * |data| as real == Sum(data)
  {
    if data == [] then 0.0 else Sum(data) / |data| as real
  }

  function SquaredDeviations(data: seq<real>, mean: real): (total: real)
    ensures total >= 0.0
  {
    if data == [] then 0.0
    else
      var d := data[|data| - 1] - mean;
      SquaredDeviations(data[..|data| - 1], mean) + d * d
  }

  /** The population variance: squared deviations divided by n, not n - 1;
      0 for an empty series. */
  function Variance(data: seq<real>, mean: real): (v: real)
    ensures v >= 0.0
  {
    if data == [] then 0.0 else SquaredDeviations(data, mean) / |data| as real
  }

  lemma {:induction false} SumBounds(data: seq<real>, lo: real, hi: real)
    requires forall i :: 0 <= i < |data| ==> lo <= data[i] <= hi
    ensures |data| as real * lo <= Sum(data) <= |data| as real * hi
  {
    if data != [] {
      var n := |data| - 1;
      assert forall i :: 0 <= i < n ==> data[..n][i] == data[i];
      SumBounds(data[..n], lo, hi);
      assert |data| as real * lo == n as real * lo + lo;
      assert |data| as real * hi == n as real * hi + hi;
    }
  }

  /** The mean of a series lies between any bounds of its points. */
  lemma MeanBetweenBounds(data: seq<real>, lo: real, hi: real)
    requires |data| > 0
    requires forall i :: 0 <= i < |data| ==> lo <= data[i] <= hi
    ensures lo <= Mean(data) <= hi
  {
    SumBounds(data, lo, hi);
    var n := |data| as real;
    assert (Mean(data) - lo) * n == Sum(data) - n * lo;
    assert (hi - Mean(data)) * n == n * hi - Sum(data);
  }

  // ---------------------------------------------------------------- rule 1

  predicate OutsideLimits(x: real, ucl: real, lcl: real) {
    x > ucl || x < lcl
  }

  /** One OutOfLimits entry per point above `ucl` or below `lcl`, by
      increasing index. */
  function OutOfLimitsPoints(data: seq<real>, ucl: real, lcl: real): seq<Violation> {
    if data == [] then []
    else
      var n := |data| - 1;
      OutOfLimitsPoints(data[..n], ucl, lcl) +
        (if OutsideLimits(data[n], ucl, lcl) then [OutOfLimits(n)] else [])
  }

  /** Each entry of `vs` is the index of a point of `data` beyond the limits. */
  predicate OnlyOutsidePoints(vs: seq<Violation>, data: seq<real>, ucl: real, lcl: real) {
    forall k :: 0 <= k < |vs| ==>
      vs[k].OutOfLimits? && 0 <= vs[k].index < |data| && OutsideLimits(data[vs[k].index], ucl, lcl)
  }

  /** The entries of `vs` are out-of-limits entries by strictly increasing index. */
  predicate IndicesIncreasing(vs: seq<Violation>) {
    forall a, b :: 0 <= a < b < |vs| ==> vs[a].OutOfLimits? && vs[b].OutOfLimits? && vs[a].index < vs[b].index
  }

  /** Rule 1 reports exactly the points beyond the limits, each once, by
      increasing index. */
  lemma {:induction false} OutOfLimitsMeaning(data: seq<real>, ucl: real, lcl: real)
    ensures OnlyOutsidePoints(OutOfLimitsPoints(data, ucl, lcl), data, ucl, lcl)
    ensures IndicesIncreasing(OutOfLimitsPoints(data, ucl, lcl))
    ensures forall i :: 0 <= i < |data| && OutsideLimits(data[i], ucl, lcl) ==>
              OutOfLimits(i) in OutOfLimitsPoints(data, ucl, lcl)
  {
    if data != [] {
      var n := |data| - 1;
      var earlier := OutOfLimitsPoints(data[..n], ucl, lcl);
      OutOfLimitsMeaning(data[..n], ucl, lcl);
      assert forall i :: 0 <= i < n ==> data[..n][i] == data[i];
      var vs := OutOfLimitsPoints(data, ucl, lcl);
      assert forall k :: 0 <= k < |earlier| ==> vs[k] == earlier[k];
      assert forall k :: |earlier| <= k < |vs| ==> vs[k] == OutOfLimits(n);
      assert forall k :: 0 <= k < |earlier| ==> earlier[k].index < n;
    }
  }

  // ---------------------------------------------------------------- rule 2

  predicate Above(x: real, mean: real) {
    x > mean
  }

  /** The length of the longest run of points at the end of `s` that lie on
      the same side of the mean (above, or not above) as its last point. */
  function RunLength(s: seq<real>, mean: real): (n: nat)
    ensures n <= |s|
  {
    if |s| <= 1 then |s|
    else if Above(s[|s| - 1], mean) == Above(s[|s| - 2], mean) then RunLength(s[..|s| - 1], mean) + 1
    else 1
  }

  /** The nine points from `i` on all lie on the same side of the mean. */
  ghost predicate NineOnOneSide(data: seq<real>, mean: real, i: int) {
    0 <= i && i + 9 <= |data| &&
    forall j :: i <= j < i + 9 ==> Above(data[j], mean) == Above(data[i], mean)
  }

  ghost predicate HasNineOnOneSide(data: seq<real>, mean: real) {
    exists i :: NineOnOneSide(data, mean, i)
  }

  /** The run-of-nine rule yields one entry exactly when some nine
      consecutive points lie on one side of the mean. */
  ghost function RunRule(data: seq<real>, mean: real): seq<Violation> {
    if HasNineOnOneSide(data, mean) then [SameSideRun] else []
  }

  /** The run at the end of `s` is at least `m` long exactly when the last
      `m` points all lie on the side of the last one. */
  lemma {:induction false} RunLengthMeaning(s: seq<real>, mean: real, m: nat)
    requires 1 <= m <= |s|
    ensures RunLength(s, mean) >= m <==>
              forall j :: |s| - m <= j < |s| ==> Above(s[j], mean) == Above(s[|s| - 1], mean)
  {
    var n := |s|;
    if m > 1 {
      var prefix := s[..n - 1];
      RunLengthMeaning(prefix, mean, m - 1);
      assert forall j :: 0 <= j < n - 1 ==> prefix[j] == s[j];
      if Above(s[n - 1], mean) != Above(s[n - 2], mean) {
        assert !(Above(s[n - 2], mean) == Above(s[n - 1], mean));
      }
    }
  }

  // ---------------------------------------------------------------- rule 3

  /** The six points from `i` rise strictly. */
  predicate Increasing(data: seq<real>, i: int)
    requires 0 <= i && i + 6 <= |data|
  {
    forall j :: i <= j < i + 5 ==> data[j] < data[j + 1]
  }

  /** The six points from `i` fall strictly. */
  predicate Decreasing(data: seq<real>, i: int)
    requires 0 <= i && i + 6 <= |data|
  {
    forall j :: i <= j < i + 5 ==> data[j] > data[j + 1]
  }

  /** The trend entries of the windows starting before `k`. */
  function TrendsBefore(data: seq<real>, k: nat): seq<Violation>
    requires k == 0 || k + 5 <= |data|
  {
    if k == 0 then []
    else
      var i := k - 1;
      TrendsBefore(data, i) +
        (if Increasing(data, i) || Decreasing(data, i) then [Trend(i, Increasing(data, i))] else [])
  }

  /** The six-point trend rule over the whole series. */
  function TrendRule(data: seq<real>): seq<Violation> {
    if |data| >= 6 then TrendsBefore(data, |data| - 5) else []
  }

  /** `v` reports the window starting at `v.start`, which rises or falls
      strictly, with its direction. */
  predicate ReportsTrend(data: seq<real>, v: Violation) {
    v.Trend? && 0 <= v.start && v.start + 6 <= |data| &&
    (Increasing(data, v.start) || Decreasing(data, v.start)) &&
    v.increasing == Increasing(data, v.start)
  }

  /** Every entry of the windows before `k` reports a strictly monotone
      window starting before `k`, labelled increasing when it rises. */
  lemma {:induction false} TrendsBeforeSound(data: seq<real>, k: nat)
    requires k == 0 || k + 5 <= |data|
    ensures forall v :: v in TrendsBefore(data, k) ==> ReportsTrend(data, v) && v.start < k
  {
    if k > 0 {
      TrendsBeforeSound(data, k - 1);
    }
  }

  /** Every strictly monotone window starting before `k` is reported. */
  lemma {:induction false} TrendsBeforeComplete(data: seq<real>, k: nat)
    requires k == 0 || k + 5 <= |data|
    ensures forall i :: 0 <= i < k && (Increasing(data, i) || Decreasing(data, i)) ==>
              Trend(i, Increasing(data, i)) in TrendsBefore(data, k)
  {
    if k > 0 {
      TrendsBeforeComplete(data, k - 1);
    }
  }

  /** The entries are trends with strictly increasing start indices, so
      each window is reported at most once, in scan order. */
  predicate StartsIncreasing(vs: seq<Violation>) {
    forall a, b :: 0 <= a < b < |vs| ==> vs[a].Trend? && vs[b].Trend? && vs[a].start < vs[b].start
  }

  /** The windows before `k` are reported in increasing start order. */
  lemma {:induction false} TrendsBeforeOrdered(data: seq<real>, k: nat)
    requires k == 0 || k + 5 <= |data|
    ensures StartsIncreasing(TrendsBefore(data, k))
  {
    if k > 0 {
      var earlier := TrendsBefore(data, k - 1);
      TrendsBeforeOrdered(data, k - 1);
      TrendsBeforeSound(data, k - 1);
      var vs := TrendsBefore(data, k);
      forall a, b | 0 <= a < b < |vs|
        ensures vs[a].Trend? && vs[b].Trend? && vs[a].start < vs[b].start
      {
        if b < |earlier| {
          assert vs[a] == earlier[a] && vs[b] == earlier[b];
        } else {
          assert vs[a] == earlier[a] && earlier[a] in earlier;
          assert vs[b] == Trend(k - 1, Increasing(data, k - 1));
        }
      }
    }
  }

  lemma TrendRuleMeaning(data: seq<real>)
    ensures |data| < 6 ==> TrendRule(data) == []
    ensures forall v :: v in TrendRule(data) ==> ReportsTrend(data, v)
    ensures StartsIncreasing(TrendRule(data))
    ensures forall i :: 0 <= i && i + 6 <= |data| && (Increasing(data, i) || Decreasing(data, i)) ==>
              Trend(i, Increasing(data, i)) in TrendRule(data)
  {
    if |data| >= 6 {
      var n := |data| - 5;
      assert TrendRule(data) == TrendsBefore(data, n);
      TrendsBeforeSound(data, n);
      TrendsBeforeComplete(data, n);
      TrendsBeforeOrdered(data, n);
    }
  }

  /** No window both rises and falls. */
  lemma TrendDirectionsExclusive(data: seq<real>, i: int)
    requires 0 <= i && i + 6 <= |data|
    ensures !(Increasing(data, i) && Decreasing(data, i))
  {
    assert data[i] < data[i + 1] || !Increasing(data, i);
  }

  // ---------------------------------------------------------------- detection

  /** All violations: rule 1 entries, then rule 2, then rule 3. */
  ghost function Violations(data: seq<real>, mean: real, ucl: real, lcl: real): seq<Violation> {
    OutOfLimitsPoints(data, ucl, lcl) + RunRule(data, mean) + TrendRule(data)
  }

  /** Every out-of-limits entry precedes every run and trend entry. */
  lemma OutOfLimitsFirst(data: seq<real>, mean: real, ucl: real, lcl: real)
    ensures var vs := Violations(data, mean, ucl, lcl);
            forall a, b :: 0 <= a < b < |vs| && vs[b].OutOfLimits? ==> vs[a].OutOfLimits?
  {
    var r1, r2, r3 := OutOfLimitsPoints(data, ucl, lcl), RunRule(data, mean), TrendRule(data);
    OutOfLimitsMeaning(data, ucl, lcl);
    TrendRuleMeaning(data);
    var vs := r1 + r2 + r3;
    forall a | 0 <= a < |r1|
      ensures vs[a].OutOfLimits?
    {
      assert vs[a] == r1[a];
    }
    forall b | |r1| <= b < |vs|
      ensures !vs[b].OutOfLimits?
    {
      if b < |r1| + |r2| {
        assert vs[b] == r2[b - |r1|];
      } else {
        assert vs[b] == r3[b - |r1| - |r2|];
        assert vs[b] in r3;
      }
    }
  }

  /** Rule 1: one point beyond the control limits. */
  method ScanOutOfLimits(data: seq<real>, ucl: real, lcl: real) returns (violations: seq<Violation>)
    ensures violations == OutOfLimitsPoints(data, ucl, lcl)
  {
    violations := [];
    var i := 0;
    while i < |data|
      invariant 0 <= i <= |data|
      invariant violations == OutOfLimitsPoints(data[..i], ucl, lcl)
    {
      assert data[..i + 1][..i] == data[..i];
      if data[i] > ucl || data[i] < lcl {
        violations := violations + [OutOfLimits(i)];
      }
      i := i + 1;
    }
    assert data[..i] == data;
  }

  /** Rule 2: nine consecutive points on the same side of the mean. The scan
      stops at the first run that reaches nine. */
  method ScanSameSideRun(data: seq<real>, mean: real) returns (found: bool)
    requires |data| > 0
    ensures found <==> HasNineOnOneSide(data, mean)
  {
    found := false;
    var consecutiveSameSide := 0;
    var aboveMean := data[0] > mean;
    var k := 0;
    while k < |data|
      invariant 0 <= k <= |data|
      invariant !found
      invariant consecutiveSameSide == RunLength(data[..k], mean)
      invariant aboveMean == Above(data[if k == 0 then 0 else k - 1], mean)
      invariant forall j :: 1 <= j <= k ==> RunLength(data[..j], mean) < 9
    {
      var currentAboveMean := data[k] > mean;
      assert data[..k + 1][..k] == data[..k];
      if currentAboveMean == aboveMean {
        consecutiveSameSide := consecutiveSameSide + 1;
        if consecutiveSameSide >= 9 {
          RunLengthMeaning(data[..k + 1], mean, 9);
          assert NineOnOneSide(data, mean, k - 8) by {
            assert forall j :: k - 8 <= j <= k ==> data[..k + 1][j] == data[j];
          }
          found := true;
          break;
        }
      } else {
        consecutiveSameSide := 1;
        aboveMean := currentAboveMean;
      }
      k := k + 1;
    }
    if !found {
      forall start | 0 <= start && start + 9 <= |data|
        ensures !NineOnOneSide(data, mean, start)
      {
        var s := data[..start + 9];
        RunLengthMeaning(s, mean, 9);
        assert forall j :: start <= j < start + 9 ==> s[j] == data[j];
      }
    }
  }

  /** Rule 3: six consecutive points rising or falling strictly. */
  method ScanTrends(data: seq<real>) returns (trends: seq<Violation>)
    ensures trends == TrendRule(data)
  {
    trends := [];
    if |data| >= 6 {
      var start := 0;
      while start <= |data| - 6
        invariant 0 <= start <= |data| - 5
        invariant trends == TrendsBefore(data, start)
      {
        var increasing := true;
        var decreasing := true;
        var j := start;
        while j < start + 5
          invariant start <= j <= start + 5
          invariant increasing <==> forall m :: start <= m < j ==> data[m] < data[m + 1]
          invariant decreasing <==> forall m :: start <= m < j ==> data[m] > data[m + 1]
        {
          if data[j] >= data[j + 1] {
            increasing := false;
          }
          if data[j] <= data[j + 1] {
            decreasing := false;
          }
          j := j + 1;
        }
        if increasing || decreasing {
          trends := trends + [Trend(start, increasing)];
        }
        start := start + 1;
      }
    }
  }

  /** Applies the three Western Electric rules to a non-empty series. */
  method DetectViolations(data: seq<real>, mean: real, ucl: real, lcl: real)
    returns (violations: seq<Violation>)
    requires |data| > 0
    ensures violations == Violations(data, mean, ucl, lcl)
  {
    violations := ScanOutOfLimits(data, ucl, lcl);
    var run := ScanSameSideRun(data, mean);
    if run {
      violations := violations + [SameSideRun];
    }
    var trends := ScanTrends(data);
    violations := violations + trends;
  }

  /** Control limits and violations of a series; an empty series gives the
      all-default metrics, which are not in control. */
  method CalculateSPCMetrics(data: seq<real>, standardDeviation: real) returns (m: SPCMetrics)
    requires standardDeviation >= 0.0
    requires standardDeviation * standardDeviation == Variance(data, Mean(data))
    ensures data == [] ==> m == SPCMetrics(0.0, 0.0, 0.0, 0.0, 0, None, false)
    ensures data != [] ==>
              && m.mean == Mean(data)
              && m.standardDeviation == standardDeviation
              && m.upperControlLimit == m.mean + 3.0 * standardDeviation
              && m.lowerControlLimit == m.mean - 3.0 * standardDeviation
              && m.lowerControlLimit <= m.mean <= m.upperControlLimit
              && m.dataPoints == |data|
              && m.violations == Some(Violations(data, m.mean, m.upperControlLimit, m.lowerControlLimit))
              && (m.inControl <==> m.violations == Some([]))
  {
    if data == [] {
      return SPCMetrics(0.0, 0.0, 0.0, 0.0, 0, None, false);
    }
    var mean := Mean(data);
    var ucl := mean + 3.0 * standardDeviation;
    var lcl := mean - 3.0 * standardDeviation;
    var violations := DetectViolations(data, mean, ucl, lcl);
    m := SPCMetrics(mean, standardDeviation, ucl, lcl, |data|, Some(violations), violations == []);
  }

  // ---------------------------------------------------------------- capability

  /** Cp: the specification width over six standard deviations. */
  function Cp(lowerSpecLimit: real, upperSpecLimit: real, standardDeviation: real): (cp: real)
    requires standardDeviation > 0.0
    ensures cp * (6.0 * standardDeviation) == upperSpecLimit - lowerSpecLimit
  {
    (upperSpecLimit - lowerSpecLimit) / (6.0 * standardDeviation)
  }

  /** Cpk: the distance from the mean to the nearer specification limit,
      over three standard deviations. */
  function Cpk(mean: real, lowerSpecLimit: real, upperSpecLimit: real, standardDeviation: real): (cpk: real)
    requires standardDeviation > 0.0
    ensures cpk * (3.0 * standardDeviation) <= upperSpecLimit - mean
    ensures cpk * (3.0 * standardDeviation) <= mean - lowerSpecLimit
    ensures cpk * (3.0 * standardDeviation) == upperSpecLimit - mean ||
            cpk * (3.0 * standardDeviation) == mean - lowerSpecLimit
  {
    Min((upperSpecLimit - mean) / (3.0 * standardDeviation),
        (mean - lowerSpecLimit) / (3.0 * standardDeviation))
  }

  function Min(a: real, b: real): real {
    if a <= b then a else b
  }

  /** The two one-sided indices average to Cp, so Cpk never exceeds Cp,
      and equals it exactly when the mean is centred between the limits. */
  lemma CpkAtMostCp(mean: real, lowerSpecLimit: real, upperSpecLimit: real, standardDeviation: real)
    requires standardDeviation > 0.0
    ensures var s3 := 3.0 * standardDeviation;
            ((upperSpecLimit - mean) / s3 + (mean - lowerSpecLimit) / s3) / 2.0 ==
              Cp(lowerSpecLimit, upperSpecLimit, standardDeviation)
    ensures Cpk(mean, lowerSpecLimit, upperSpecLimit, standardDeviation) <=
            Cp(lowerSpecLimit, upperSpecLimit, standardDeviation)
    ensures Cpk(mean, lowerSpecLimit, upperSpecLimit, standardDeviation) ==
              Cp(lowerSpecLimit, upperSpecLimit, standardDeviation) <==>
            mean * 2.0 == lowerSpecLimit + upperSpecLimit
  {
    var s3 := 3.0 * standardDeviation;
    var upper := (upperSpecLimit - mean) / s3;
    var lower := (mean - lowerSpecLimit) / s3;
    assert upper + lower == (upperSpecLimit - lowerSpecLimit) / s3;
    assert (upperSpecLimit - lowerSpecLimit) / s3 / 2.0 ==
           (upperSpecLimit - lowerSpecLimit) / (6.0 * standardDeviation);
    assert upper == lower <==> upperSpecLimit - mean == mean - lowerSpecLimit by {
      assert upper * s3 == upperSpecLimit - mean;
      assert lower * s3 == mean - lowerSpecLimit;
    }
  }

  /** The rank of a classification, best highest. */
  function CapabilityRank(c: Capability): nat {
    match c
    case INADEQUATE => 0
    case MARGINAL => 1
    case ADEQUATE => 2
    case EXCELLENT => 3
  }

  /** The least Cpk a classification demands. */
  predicate Meets(cpk: real, c: Capability) {
    match c
    case EXCELLENT => cpk >= 2.0
    case ADEQUATE => cpk >= 1.33
    case MARGINAL => cpk >= 1.0
    case INADEQUATE => true
  }

  /** The best classification whose threshold `cpk` meets. */
  function ClassifyCapability(cpk: real): (c: Capability)
    ensures Meets(cpk, c)
    ensures forall better :: CapabilityRank(better) > CapabilityRank(c) ==> !Meets(cpk, better)
  {
    if cpk >= 2.0 then EXCELLENT
    else if cpk >= 1.33 then ADEQUATE
    else if cpk >= 1.0 then MARGINAL
    else INADEQUATE
  }

  /** A larger Cpk never gets a worse classification. */
  lemma ClassificationMonotone(a: real, b: real)
    requires a <= b
    ensures CapabilityRank(ClassifyCapability(a)) <= CapabilityRank(ClassifyCapability(b))
  {
  }

  /** Cp, Cpk and the classification of a series against the
      specification limits; an empty series gives the all-default result
      (limits included) and no classification. */
  function CalculateCapability(data: seq<real>, lowerSpecLimit: real, upperSpecLimit: real,
                               standardDeviation: real): (pc: ProcessCapability)
    requires data != [] ==>
               (standardDeviation > 0.0 &&
                standardDeviation * standardDeviation == Variance(data, Mean(data)))
    ensures data == [] ==> pc == ProcessCapability(0.0, 0.0, 0.0, 0.0, 0.0, 0.0, None)
    ensures data != [] ==>
              && pc.mean == Mean(data) && pc.standardDeviation == standardDeviation
              && pc.lowerSpecLimit == lowerSpecLimit && pc.upperSpecLimit == upperSpecLimit
              && pc.cp == Cp(lowerSpecLimit, upperSpecLimit, standardDeviation)
              && pc.cpk == Cpk(pc.mean, lowerSpecLimit, upperSpecLimit, standardDeviation)
              && pc.cpk <= pc.cp
              && pc.capability == Some(ClassifyCapability(pc.cpk))
              && (pc.cpk == pc.cp <==> pc.mean * 2.0 == lowerSpecLimit + upperSpecLimit)
  {
    if data == [] then
      ProcessCapability(0.0, 0.0, 0.0, 0.0, 0.0, 0.0, None)
    else
      var mean := Mean(data);
      var cp := Cp(lowerSpecLimit, upperSpecLimit, standardDeviation);
      var cpk := Cpk(mean, lowerSpecLimit, upperSpecLimit, standardDeviation);
      CpkAtMostCp(mean, lowerSpecLimit, upperSpecLimit, standardDeviation);
      ProcessCapability(cp, cpk, mean, standardDeviation, lowerSpecLimit, upperSpecLimit,
                        Some(ClassifyCapability(cpk)))
  }

  /** A centred process with mean 10 and standard deviation 1 against the
      limits 5 and 15 has Cp = Cpk = 5/3, which is ADEQUATE. */
  lemma CenteredExample()
    ensures Cp(5.0, 15.0, 1.0) == Cpk(10.0, 5.0, 15.0, 1.0) == 5.0 / 3.0
    ensures ClassifyCapability(Cpk(10.0, 5.0, 15.0, 1.0)) == ADEQUATE
  {
  }
}
