/** The SCL-90 report as the report page assembles it: the scores of the
    stored answer sheet under the SCL-90 dimension table, their analysis,
    the gauge score and the radar data. */
module Report {
  import opened Wrappers
  import Catalog
  import Scoring
  import Analysis
  import Radar

  datatype Scl90Report = Scl90Report(
    scores: Scoring.Scores,
    analysis: Analysis.Analysis,
    healthScore: real,
    radar: Radar.RadarData)

  /** The dimension names of the SCL-90 table, in declaration order. */
  function DimensionNames(dims: seq<Catalog.Dimension>): (r: seq<string>)
    ensures |r| == |dims| && forall g :: 0 <= g < |dims| ==> r[g] == dims[g].name
  {
    if dims == [] then [] else DimensionNames(dims[..|dims| - 1]) + [dims[|dims| - 1].name]
  }

  /** Every part of the report is read from the same scores: ten dimension
      entries in catalog order, each the score of its own item list, analysed
      and charted (names and averages) in that order, the concerns and the
      recommendations drawn from them, the risk and the gauge from the
      guarded overall average (the total over the answered slots, 0 when none
      is answered); on a full sheet the totals are those of the whole
      sheet. */
  method GenerateSCL90Report(answers: Scoring.Answers) returns (r: Scl90Report)
    requires |answers| >= Catalog.QuestionCount
    ensures Scoring.AllWithin(Catalog.Dimensions, |answers|)
    ensures |r.scores.groups| == |Catalog.Dimensions| == |r.analysis.dimensions| == 10
    ensures forall g :: 0 <= g < 10 ==>
              r.scores.groups[g].0 == Catalog.Dimensions[g].name &&
              r.scores.groups[g].1 == Scoring.GroupScoreOf(Catalog.Dimensions[g].questions, answers) &&
              r.analysis.dimensions[g].0 == Catalog.Dimensions[g].name &&
              r.analysis.dimensions[g].1.level == Analysis.LevelOf(r.scores.groups[g].1.average) &&
              r.analysis.dimensions[g].1.score == r.scores.groups[g].1.average
    ensures r.analysis.riskLevel == Analysis.RiskOf(r.scores.averageScore)
    ensures r.healthScore == Analysis.HealthScore(r.scores.averageScore)
    ensures r.analysis.concerns == Analysis.Concerns(r.scores.groups)
    ensures r.analysis.recommendations == Analysis.RecommendationsFor(r.analysis.concerns)
    ensures r.radar.dimensions == DimensionNames(Catalog.Dimensions)
    ensures |r.radar.values| == 10 && forall g :: 0 <= g < 10 ==> r.radar.values[g] == r.scores.groups[g].1.average
    ensures r.scores.totalScore == Scoring.GroupsTally(Catalog.Dimensions, answers, Scoring.Value)
    ensures r.scores.positiveSymptomCount == Scoring.GroupsTally(Catalog.Dimensions, answers, Scoring.Positive)
    ensures r.scores.averageScore == Scoring.AverageScore(r.scores.totalScore, answers)
    ensures |answers| == Catalog.QuestionCount ==>
              r.scores.totalScore == Scoring.SheetTally(answers, Scoring.Value) &&
              r.scores.positiveSymptomCount == Scoring.SheetTally(answers, Scoring.Positive)
  {
    var dims := Catalog.GetAssessmentConfig("scl90").dimensions;
    Scoring.CatalogItemsWithin(|answers|);
    var scores := Scoring.CalculateScores(dims, answers);
    var groups := scores.groups;
    assert forall g :: 0 <= g < |groups| ==> groups[g].0 == dims[g].name;
    NamesNotAggregate(dims, groups);
    var analysis := Analysis.GenerateAnalysis(scores);
    Analysis.DimensionAnalysesPointwise(groups);
    var radar, _ := Radar.PrepareRadarData(scores);
    Radar.AxesAreAllDimensions(groups);
    assert radar.dimensions == DimensionNames(dims);
    if |answers| == Catalog.QuestionCount {
      Scoring.ScoresOfFullSheet(answers, scores);
    }
    r := Scl90Report(scores, analysis, Analysis.HealthScore(scores.averageScore), radar);
  }

  lemma NamesNotAggregate(dims: seq<Catalog.Dimension>, groups: seq<(string, Scoring.GroupScore)>)
    requires dims == Catalog.Dimensions && |groups| == |dims|
    requires forall g :: 0 <= g < |groups| ==> groups[g].0 == dims[g].name
    ensures forall g :: 0 <= g < |groups| ==> !Analysis.IsAggregateKey(groups[g].0)
  {
    forall g | 0 <= g < |groups| ensures !Analysis.IsAggregateKey(groups[g].0) {
      Analysis.CatalogNamesAreNotAggregate(g);
    }
  }
}
