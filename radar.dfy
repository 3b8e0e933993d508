/** The data behind the report page's radar chart: the axes (the dimension
    entries of the scores object in order) and their values (the dimension
    averages), the radial scaling of a value against the maximum 5, the five
    grid rings, the axis angles, and the three-band legend. */
module Radar {
  import Scoring
  import Analysis

  /** The value at the rim of the chart. */
  const MaxValue: real := 5.0

  /** The canvas is drawn at 400 by 400; the chart leaves a 50-unit margin
      for labels around the largest circle that fits. */
  const DisplayWidth: real := 400.0
  const DisplayHeight: real := 400.0

  function Radius(): (r: real)
    ensures r == 150.0
  {
    var cx, cy := DisplayWidth / 2.0, DisplayHeight / 2.0;
    (if cx < cy then cx else cy) - 50.0
  }

  datatype RadarData = RadarData(dimensions: seq<string>, values: seq<real>)

  /** The axes the chart receives: the entries that are not aggregates. */
  function AxisNames(groups: seq<(string, Scoring.GroupScore)>): seq<string> {
    if groups == [] then []
    else
      var rest := AxisNames(groups[..|groups| - 1]);
      var (name, _) := groups[|groups| - 1];
      if Analysis.IsAggregateKey(name) then rest else rest + [name]
  }

  function AxisValues(groups: seq<(string, Scoring.GroupScore)>): seq<real> {
    if groups == [] then []
    else
      var rest := AxisValues(groups[..|groups| - 1]);
      var (name, gs) := groups[|groups| - 1];
      if Analysis.IsAggregateKey(name) then rest else rest + [gs.average]
  }

  /** The page's preparation loop: one pass over the entries, pushing the
      name and the average of every entry that is not an aggregate. The
      chart is drawn only when the result is non-empty. */
  method PrepareRadarData(s: Scoring.Scores) returns (d: RadarData, draw: bool)
    ensures d.dimensions == AxisNames(s.groups)
    ensures d.values == AxisValues(s.groups)
    ensures draw <==> |d.dimensions| > 0
  {
    var dimensions: seq<string> := [];
    var values: seq<real> := [];
    var k := 0;
    while k < |s.groups|
      invariant 0 <= k <= |s.groups|
      invariant dimensions == AxisNames(s.groups[..k])
      invariant values == AxisValues(s.groups[..k])
    {
      assert s.groups[..k + 1][..k] == s.groups[..k];
      var (name, data) := s.groups[k];
      if !Analysis.IsAggregateKey(name) {
        dimensions := dimensions + [name];
        values := values + [data.average];
      }
      k := k + 1;
    }
    assert s.groups[..k] == s.groups;
    d := RadarData(dimensions, values);
    draw := |dimensions| > 0 && |values| > 0;
    AxesMatchValues(s.groups);
  }

  // ---------------------------------------------------------------------
  // Lemmas about the axes
  // ---------------------------------------------------------------------

  /** There is one value per axis, and the axes are exactly the dimensions
      the analysis lists, in the same order and with the same scores. */
  lemma {:induction false} AxesMatchValues(groups: seq<(string, Scoring.GroupScore)>)
    ensures |AxisNames(groups)| == |AxisValues(groups)| == |Analysis.DimensionAnalyses(groups)|
    ensures forall k :: 0 <= k < |AxisNames(groups)| ==>
              AxisNames(groups)[k] == Analysis.DimensionAnalyses(groups)[k].0 &&
              AxisValues(groups)[k] == Analysis.DimensionAnalyses(groups)[k].1.score
  {
    if groups != [] {
      AxesMatchValues(groups[..|groups| - 1]);
    }
  }

  /** When no dimension is named like an aggregate, the axes are all the
      dimensions, in order, with their averages. */
  lemma {:induction false} AxesAreAllDimensions(groups: seq<(string, Scoring.GroupScore)>)
    requires forall k :: 0 <= k < |groups| ==> !Analysis.IsAggregateKey(groups[k].0)
    ensures |AxisNames(groups)| == |AxisValues(groups)| == |groups|
    ensures forall k :: 0 <= k < |groups| ==>
              AxisNames(groups)[k] == groups[k].0 && AxisValues(groups)[k] == groups[k].1.average
  {
    if groups != [] {
      AxesAreAllDimensions(groups[..|groups| - 1]);
    }
  }

  // ---------------------------------------------------------------------
  // Geometry (radial part only)
  // ---------------------------------------------------------------------

  /** The distance of a data point from the centre. */
  function PointDistance(value: real, radius: real): (r: real)
    ensures value == 0.0 ==> r == 0.0
    ensures value == MaxValue ==> r == radius
  {
    (value / MaxValue) * radius
  }

  /** The radius of grid ring i, for i = 1..5. */
  function RingRadius(radius: real, i: int): (r: real)
    ensures i == 0 ==> r == 0.0
    ensures i == 5 ==> r == radius
  {
    (radius / 5.0) * i as real
  }

  /** The angle of axis k out of n, in degrees: axis 0 points straight up
      and the axes are evenly spaced clockwise. */
  function AxisAngleDegrees(k: int, n: int): (r: real)
    requires n > 0
    ensures k == 0 ==> r == -90.0
    ensures k == n ==> r == 270.0
  {
    k as real * (360.0 / n as real) - 90.0
  }

  /** A value on the 0..5 scale is drawn inside the chart, scaling is
      monotone, and a value of 5 sits on the rim. */
  lemma PointWithinRadius(value: real, other: real, radius: real)
    requires radius >= 0.0
    ensures 0.0 <= value <= MaxValue ==> 0.0 <= PointDistance(value, radius) <= radius
    ensures value <= other ==> PointDistance(value, radius) <= PointDistance(other, radius)
    ensures PointDistance(MaxValue, radius) == radius
  {
    if 0.0 <= value <= MaxValue {
      ProductNonNegative(radius, value / 5.0);
      ProductNonNegative(radius, (5.0 - value) / 5.0);
      assert radius - PointDistance(value, radius) == radius * ((5.0 - value) / 5.0);
    }
    if value <= other {
      ProductNonNegative(radius, (other - value) / 5.0);
      assert PointDistance(other, radius) - PointDistance(value, radius) == radius * ((other - value) / 5.0);
    }
  }

  /** Nonlinear step kept apart so the solver sees it as one fact. */
  lemma ProductNonNegative(a: real, b: real)
    requires a >= 0.0 && b >= 0.0
    ensures a * b >= 0.0
  {
  }

  /** Every dimension average of a sheet on the 1..5 scale is drawn within
      the chart's radius. */
  lemma AveragesDrawnInside(items: seq<int>, answers: Scoring.Answers)
    requires Scoring.ItemsWithin(items, |answers|) && Scoring.OnScale(answers)
    ensures 0.0 <= PointDistance(Scoring.GroupScoreOf(items, answers).average, Radius()) <= Radius()
  {
    Scoring.GroupAverageOnScale(items, answers);
    PointWithinRadius(Scoring.GroupScoreOf(items, answers).average, 0.0, Radius());
  }

  /** The five rings are evenly spaced, strictly growing, and the fifth is the
      rim, which is where a value of 5 is drawn. */
  lemma RingsEvenlySpaced(radius: real, i: int)
    requires radius > 0.0 && 1 <= i < 5
    ensures RingRadius(radius, i + 1) - RingRadius(radius, i) == radius / 5.0
    ensures 0.0 < RingRadius(radius, i) < RingRadius(radius, i + 1)
    ensures RingRadius(radius, 5) == radius == PointDistance(MaxValue, radius)
  {
  }

  /** The ring at i is where a value of i is drawn. */
  lemma RingMarksValue(radius: real, i: int)
    ensures RingRadius(radius, i) == PointDistance(i as real, radius)
  {
  }

  /** The axes are spread over one full turn: distinct angles from -90
      degrees up to (but not reaching) 270. */
  lemma AxisAnglesSpread(k: int, l: int, n: int)
    requires n > 0 && 0 <= k < l < n
    ensures AxisAngleDegrees(0, n) == -90.0
    ensures -90.0 <= AxisAngleDegrees(k, n) < AxisAngleDegrees(l, n) < 270.0
  {
    var step := 360.0 / n as real;
    assert step * n as real == 360.0;
    assert AxisAngleDegrees(l, n) - AxisAngleDegrees(k, n) == (l - k) as real * step;
    assert 270.0 - AxisAngleDegrees(l, n) == (n - l) as real * step;
  }

  // ---------------------------------------------------------------------
  // Legend
  // ---------------------------------------------------------------------

  /** The legend's bands, tested from the top. */
  function LegendLevel(value: real): (r: Analysis.Level)
    ensures r == Analysis.LevelOf(value)
  {
    if value >= 2.5 then Analysis.Concern
    else if value >= 1.5 then Analysis.Warning
    else Analysis.Good
  }

  const LegendColors: seq<string> := ["#48BB78", "#F59E0B", "#EF4444"]

  function LegendColor(value: real): (r: string)
    ensures r == Analysis.RiskLevelColor(Analysis.RiskName(Analysis.RiskOf(value)))
  {
    LegendColors[match LegendLevel(value) case Good => 0 case Warning => 1 case Concern => 2]
  }

  /** The legend bands the same way as the analysis, and its colours are the
      colours of the corresponding risk levels. */
  lemma LegendAgreesWithAnalysis(value: real)
    ensures LegendLevel(value) == Analysis.LevelOf(value)
    ensures LegendColor(value) == Analysis.RiskLevelColor(Analysis.RiskName(Analysis.RiskOf(value)))
  {
  }
}
