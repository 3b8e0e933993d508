/** The SCL-90 analysis of the report page: the overall risk level from the
    overall average, a level per dimension from its average, the list of
    dimensions of concern, the recommendations, the 0..10 health score with
    its label, and the four-band score interpretation with the risk colours. */
module Analysis {
  import opened Wrappers
  import Scoring
  import Catalog

  datatype Level = Good | Warning | Concern
  datatype Risk = Low | Moderate | High
  datatype Priority = HighPriority | MediumPriority

  datatype Recommendation = Recommendation(title: string, priority: Priority)

  /** A dimension's verdict: its level and the average it was read from. */
  datatype DimensionAnalysis = DimensionAnalysis(level: Level, score: real)

  datatype Analysis = Analysis(
    riskLevel: Risk,
    dimensions: seq<(string, DimensionAnalysis)>,
    concerns: seq<string>,
    recommendations: seq<Recommendation>)

  /** The keys of the scores object that are not dimensions. */
  predicate IsAggregateKey(key: string) {
    key == "totalScore" || key == "positiveSymptomCount" || key == "averageScore"
  }

  /** Cut-points 1.5 and 2.5 on a dimension average. */
  function LevelOf(average: real): (r: Level)
    ensures r == Good <==> average < 1.5
    ensures r == Concern <==> average >= 2.5
  {
    if average < 1.5 then Good else if average < 2.5 then Warning else Concern
  }

  /** The same cut-points on the overall average. */
  function RiskOf(average: real): (r: Risk)
    ensures r == Low <==> average < 1.5
    ensures r == High <==> average >= 2.5
  {
    if average < 1.5 then Low else if average < 2.5 then Moderate else High
  }

  /** The risk the page computes when the overall average may be NaN (None):
      both comparisons with NaN are false, so NaN lands in the last branch. */
  function RiskAsWritten(average: Option<real>): (r: Risk)
    ensures r == High <==> average.None? || average.value >= 2.5
    ensures average.Some? ==> r == RiskOf(average.value)
  {
    if average.Some? then RiskOf(average.value) else High
  }

  // Specification of the per-dimension pass: the groups in order, aggregate
  // keys skipped, each mapped to its level.

  function DimensionAnalyses(groups: seq<(string, Scoring.GroupScore)>): seq<(string, DimensionAnalysis)> {
    if groups == [] then []
    else
      var rest := DimensionAnalyses(groups[..|groups| - 1]);
      var (name, gs) := groups[|groups| - 1];
      if IsAggregateKey(name) then rest
      else rest + [(name, DimensionAnalysis(LevelOf(gs.average), gs.average))]
  }

  function Concerns(groups: seq<(string, Scoring.GroupScore)>): seq<string> {
    if groups == [] then []
    else
      var rest := Concerns(groups[..|groups| - 1]);
      var (name, gs) := groups[|groups| - 1];
      if IsAggregateKey(name) || LevelOf(gs.average) == Good then rest
      else rest + [name]
  }

  const Professional: Recommendation := Recommendation("专业咨询建议", HighPriority)
  const Lifestyle: Recommendation := Recommendation("保持健康生活方式", MediumPriority)
  const StressManagement: Recommendation := Recommendation("压力管理", MediumPriority)

  /** The analysis's own recommendations: professional help first when any
      dimension is of concern, then the two general ones. */
  function RecommendationsFor(concerns: seq<string>): (r: seq<Recommendation>)
    ensures Lifestyle in r && StressManagement in r
    ensures Professional in r <==> |concerns| > 0
  {
    (if |concerns| > 0 then [Professional] else []) + [Lifestyle, StressManagement]
  }

  /** The four general recommendations the page always appends. */
  const BaseRecommendations: seq<Recommendation> := [
    Recommendation("保持规律作息", MediumPriority),
    Recommendation("适量运动锻炼", MediumPriority),
    Recommendation("健康饮食", MediumPriority),
    Recommendation("社交支持", MediumPriority)
  ]

  /** The recommendation cards shown: the analysis's, then the base ones.
      For an analysis whose recommendations follow from its concerns, that
      is seven cards led by the one high-priority card (professional help)
      when there are concerns, and six medium-priority cards otherwise. */
  function DisplayedRecommendations(a: Analysis): (r: seq<Recommendation>)
    ensures |r| == |a.recommendations| + 4
    ensures a.recommendations == RecommendationsFor(a.concerns) ==>
              (|r| == 7 <==> |a.concerns| > 0) && (|r| == 6 <==> |a.concerns| == 0) &&
              (|a.concerns| > 0 ==> r[0] == Professional) &&
              (forall i :: 0 <= i < |r| && r[i].priority == HighPriority ==> i == 0 && |a.concerns| > 0)
  {
    RecommendationsShape(a.concerns);
    a.recommendations + BaseRecommendations
  }

  /** The analysis of a scores object: the overall risk, then one pass over
      the entries in order, skipping the aggregate entries, recording each
      dimension's level and collecting those that are not good. */
  method GenerateAnalysis(s: Scoring.Scores) returns (a: Analysis)
    ensures a.riskLevel == RiskOf(s.averageScore)
    ensures a.dimensions == DimensionAnalyses(s.groups)
    ensures a.concerns == Concerns(s.groups)
    ensures a.recommendations == RecommendationsFor(a.concerns)
  {
    var riskLevel := if s.averageScore < 1.5 then Low else if s.averageScore < 2.5 then Moderate else High;
    var dimensions: seq<(string, DimensionAnalysis)> := [];
    var concerns: seq<string> := [];
    var k := 0;
    while k < |s.groups|
      invariant 0 <= k <= |s.groups|
      invariant dimensions == DimensionAnalyses(s.groups[..k])
      invariant concerns == Concerns(s.groups[..k])
    {
      var (name, data) := s.groups[k];
      assert s.groups[..k + 1][..k] == s.groups[..k];
      if !IsAggregateKey(name) {
        var level: Level;
        if data.average < 1.5 {
          level := Good;
        } else if data.average < 2.5 {
          level := Warning;
          concerns := concerns + [name];
        } else {
          level := Concern;
          concerns := concerns + [name];
        }
        dimensions := dimensions + [(name, DimensionAnalysis(level, data.average))];
      }
      k := k + 1;
    }
    assert s.groups[..k] == s.groups;
    var recommendations: seq<Recommendation> := [];
    if |concerns| > 0 {
      recommendations := recommendations + [Professional];
    }
    recommendations := recommendations + [Lifestyle];
    recommendations := recommendations + [StressManagement];
    a := Analysis(riskLevel, dimensions, concerns, recommendations);
  }

  // ---------------------------------------------------------------------
  // Lemmas about the analysis
  // ---------------------------------------------------------------------

  /** Higher averages never give a lower level or risk. */
  lemma LevelMonotone(x: real, y: real)
    requires x <= y
    ensures LevelOf(x) == Warning ==> LevelOf(y) != Good
    ensures LevelOf(x) == Concern ==> LevelOf(y) == Concern
    ensures RiskOf(x) == Moderate ==> RiskOf(y) != Low
    ensures RiskOf(x) == High ==> RiskOf(y) == High
  {
  }

  /** The risk level and the dimension level use the same bands. */
  lemma RiskMatchesLevel(average: real)
    ensures RiskOf(average) == Low <==> LevelOf(average) == Good
    ensures RiskOf(average) == High <==> LevelOf(average) == Concern
  {
  }

  /** When no dimension is named like an aggregate, the analysis has one
      entry per dimension, in order, each with the level of its average. */
  lemma {:induction false} DimensionAnalysesPointwise(groups: seq<(string, Scoring.GroupScore)>)
    requires forall i :: 0 <= i < |groups| ==> !IsAggregateKey(groups[i].0)
    ensures |DimensionAnalyses(groups)| == |groups|
    ensures forall i :: 0 <= i < |groups| ==>
              DimensionAnalyses(groups)[i] == (groups[i].0, DimensionAnalysis(LevelOf(groups[i].1.average), groups[i].1.average))
  {
    if groups != [] {
      DimensionAnalysesPointwise(groups[..|groups| - 1]);
    }
  }

  /** A name is among the concerns exactly when some dimension of that name,
      not an aggregate key, has an average of 1.5 or more. */
  lemma {:induction false} ConcernsMembership(groups: seq<(string, Scoring.GroupScore)>, name: string)
    ensures name in Concerns(groups) <==>
              !IsAggregateKey(name) &&
              exists i :: 0 <= i < |groups| && groups[i].0 == name && groups[i].1.average >= 1.5
  {
    if groups != [] {
      var init := groups[..|groups| - 1];
      ConcernsMembership(init, name);
      if !IsAggregateKey(name) && exists i :: 0 <= i < |init| && init[i].0 == name && init[i].1.average >= 1.5 {
        var i :| 0 <= i < |init| && init[i].0 == name && init[i].1.average >= 1.5;
        assert groups[i] == init[i];
      }
      if !IsAggregateKey(name) && exists i :: 0 <= i < |groups| && groups[i].0 == name && groups[i].1.average >= 1.5 {
        var i :| 0 <= i < |groups| && groups[i].0 == name && groups[i].1.average >= 1.5;
        if i < |init| {
          assert init[i] == groups[i];
        }
      }
    }
  }

  /** Every concern is a dimension analysed at level warning or concern, and
      there are never more concerns than analysed dimensions. */
  lemma {:induction false} ConcernsAreFlagged(groups: seq<(string, Scoring.GroupScore)>)
    ensures |Concerns(groups)| <= |DimensionAnalyses(groups)| <= |groups|
    ensures forall c :: c in Concerns(groups) ==>
              exists j :: 0 <= j < |DimensionAnalyses(groups)| &&
                DimensionAnalyses(groups)[j].0 == c && DimensionAnalyses(groups)[j].1.level != Good
  {
    if groups != [] {
      var init := groups[..|groups| - 1];
      ConcernsAreFlagged(init);
      var da, da' := DimensionAnalyses(init), DimensionAnalyses(groups);
      assert da'[..|da|] == da;
      forall c | c in Concerns(groups)
        ensures exists j :: 0 <= j < |da'| && da'[j].0 == c && da'[j].1.level != Good
      {
        if c in Concerns(init) {
          var j :| 0 <= j < |da| && da[j].0 == c && da[j].1.level != Good;
          assert da'[j] == da[j];
        } else {
          assert da'[|da'| - 1].0 == c;
        }
      }
    }
  }

  /** Two or three own recommendations; professional help, the only
      high-priority one, comes first exactly when there are concerns. */
  lemma RecommendationsShape(concerns: seq<string>)
    ensures var r := RecommendationsFor(concerns);
      (|r| == 3 <==> |concerns| > 0) && (|r| == 2 <==> |concerns| == 0) &&
      ((exists i :: 0 <= i < |r| && r[i].priority == HighPriority) <==> |concerns| > 0) &&
      (|concerns| > 0 ==> r[0] == Professional) &&
      r[|r| - 2..] == [Lifestyle, StressManagement]
  {
    var r := RecommendationsFor(concerns);
    if |concerns| == 0 {
      assert r == [Lifestyle, StressManagement];
      assert forall i :: 0 <= i < |r| ==> r[i].priority == MediumPriority;
    } else {
      assert r == [Professional, Lifestyle, StressManagement];
      assert r[0].priority == HighPriority;
    }
  }

  /** With every dimension average under 1.5 nothing is of concern and the
      shown list holds the six medium-priority cards. */
  lemma {:induction false} AllGoodNoConcerns(groups: seq<(string, Scoring.GroupScore)>)
    requires forall i :: 0 <= i < |groups| ==> groups[i].1.average < 1.5
    ensures Concerns(groups) == []
    ensures |RecommendationsFor(Concerns(groups)) + BaseRecommendations| == 6
  {
    if groups != [] {
      AllGoodNoConcerns(groups[..|groups| - 1]);
    }
  }

  /** The catalog's dimension names never collide with the aggregate keys,
      so the SCL-90 analysis covers all ten dimensions. */
  lemma CatalogNamesAreNotAggregate(g: int)
    requires 0 <= g < |Catalog.Dimensions|
    ensures !IsAggregateKey(Catalog.Dimensions[g].name)
  {
  }

  // ---------------------------------------------------------------------
  // Health score (the gauge)
  // ---------------------------------------------------------------------

  /** The 0..10 score shown on the gauge: 10 minus twice the overall
      average, never below 0. */
  function HealthScore(average: real): (h: real)
    ensures h >= 0.0 && (average >= 0.0 ==> h <= 10.0)
    ensures average <= 5.0 ==> h == 10.0 - 2.0 * average
  {
    if 10.0 - average * 2.0 > 0.0 then 10.0 - average * 2.0 else 0.0
  }

  /** The gauge label as the page computes it from an average that may be
      NaN (None): `Math.max(0, 10 - NaN)` is NaN, and NaN fails both
      threshold tests, so it gets the last label. */
  function HealthLabelAsWritten(average: Option<real>): (r: string)
    ensures average.None? ==> r == "需要关注"
    ensures average.Some? ==> r == HealthLabel(HealthScore(average.value))
  {
    match average
    case None => "需要关注"
    case Some(v) => HealthLabel(HealthScore(v))
  }

  function HealthLabel(h: real): (r: string)
    ensures r in {"良好", "一般", "需要关注"}
    ensures r == "良好" <==> h >= 7.0
    ensures r == "需要关注" <==> h < 5.0
  {
    if h >= 7.0 then "良好" else if h >= 5.0 then "一般" else "需要关注"
  }

  /** The label read back on the average: good up to 1.5, fair up to 2.5,
      "needs attention" above. */
  lemma HealthLabelByAverage(average: real)
    ensures HealthLabel(HealthScore(average)) == "良好" <==> average <= 1.5
    ensures HealthLabel(HealthScore(average)) == "一般" <==> 1.5 < average <= 2.5
    ensures HealthLabel(HealthScore(average)) == "需要关注" <==> average > 2.5
  {
  }

  /** The gauge label and the risk level agree except on the two cut-points
      themselves, where the gauge is one band kinder. */
  lemma HealthLabelVersusRisk(average: real)
    ensures average != 1.5 && average != 2.5 ==>
              (HealthLabel(HealthScore(average)) == "良好" <==> RiskOf(average) == Low) &&
              (HealthLabel(HealthScore(average)) == "需要关注" <==> RiskOf(average) == High)
    ensures HealthLabel(HealthScore(1.5)) == "良好" && RiskOf(1.5) == Moderate
    ensures HealthLabel(HealthScore(2.5)) == "一般" && RiskOf(2.5) == High
  {
    HealthLabelByAverage(average);
    HealthLabelByAverage(1.5);
    HealthLabelByAverage(2.5);
  }

  /** A full sheet answered "1" (not at all) everywhere is rated low risk and
      scores 8 on the gauge. */
  lemma HealthScoreOfAllOnes(answers: Scoring.Answers)
    requires |answers| == Catalog.QuestionCount
    requires forall i :: 0 <= i < |answers| ==> answers[i] == Some(1)
    ensures Scoring.AllWithin(Catalog.Dimensions, |answers|)
    ensures RiskOf(Scoring.AverageScore(Scoring.GroupsTally(Catalog.Dimensions, answers, Scoring.Value), answers)) == Low
    ensures HealthScore(Scoring.AverageScore(Scoring.GroupsTally(Catalog.Dimensions, answers, Scoring.Value), answers)) == 8.0
  {
    Scoring.UniformSheetAverage(answers, 1);
  }

  /** A higher average never gives a higher gauge score. */
  lemma HealthScoreNonIncreasing(x: real, y: real)
    requires x <= y
    ensures HealthScore(y) <= HealthScore(x)
  {
  }

  // ---------------------------------------------------------------------
  // Score interpretation and risk colours
  // ---------------------------------------------------------------------

  function ScoreInterpretation(score: real): (r: string)
    ensures r in {"正常范围", "轻度异常", "中度异常", "重度异常"}
    ensures r == "正常范围" <==> score < 1.5
    ensures r == "重度异常" <==> score >= 3.5
  {
    if score < 1.5 then "正常范围"
    else if score < 2.5 then "轻度异常"
    else if score < 3.5 then "中度异常"
    else "重度异常"
  }

  /** The interpretation refines the level: normal is exactly good, mild is
      exactly warning, and the two upper bands split concern at 3.5. */
  lemma InterpretationRefinesLevel(score: real)
    ensures ScoreInterpretation(score) == "正常范围" <==> LevelOf(score) == Good
    ensures ScoreInterpretation(score) == "轻度异常" <==> LevelOf(score) == Warning
    ensures ScoreInterpretation(score) in {"中度异常", "重度异常"} <==> LevelOf(score) == Concern
    ensures ScoreInterpretation(score) == "重度异常" <==> score >= 3.5
  {
  }

  /** The colour of a risk-level string; unknown strings are grey. */
  function RiskLevelColor(level: string): (r: string)
    ensures r == "#6B7280" <==> level !in {"low", "moderate", "high"}
  {
    if level == "low" then "#48BB78"
    else if level == "moderate" then "#F59E0B"
    else if level == "high" then "#EF4444"
    else "#6B7280"
  }

  function RiskName(r: Risk): string {
    match r
    case Low => "low"
    case Moderate => "moderate"
    case High => "high"
  }

  /** Every risk level has its own colour, and none is the fallback grey. */
  lemma RiskColorsDistinct(r: Risk, q: Risk)
    ensures RiskLevelColor(RiskName(r)) != "#6B7280"
    ensures r != q ==> RiskLevelColor(RiskName(r)) != RiskLevelColor(RiskName(q))
  {
  }

  // ---------------------------------------------------------------------
  // The unanswered sheet
  // ---------------------------------------------------------------------

  /** A 90-slot sheet on which no item was answered, as the page gets it when
      the user presses "next" through every item: the page's average is NaN,
      its risk is high and its gauge label '需要关注', although the corrected
      average is 0, the risk low and the gauge 10, '良好'. */
  lemma EmptySheetRisk(answers: Scoring.Answers)
    requires |answers| == Catalog.QuestionCount
    requires forall i :: 0 <= i < |answers| ==> answers[i].None?
    ensures Scoring.AllWithin(Catalog.Dimensions, |answers|)
    ensures Scoring.GroupsTally(Catalog.Dimensions, answers, Scoring.Value) == 0
    ensures RiskAsWritten(Scoring.AverageScoreAsWritten(0, answers)) == High
    ensures Scoring.AverageScore(0, answers) == 0.0
    ensures RiskOf(Scoring.AverageScore(0, answers)) == Low
    ensures HealthLabelAsWritten(Scoring.AverageScoreAsWritten(0, answers)) == "需要关注"
    ensures HealthScore(Scoring.AverageScore(0, answers)) == 10.0
    ensures HealthLabel(HealthScore(Scoring.AverageScore(0, answers))) == "良好"
  {
    Scoring.DimensionsCoverSheet(answers, Scoring.Value);
    Scoring.SheetTallyNoAnswers(answers, Scoring.Value);
    Scoring.SheetTallyNoAnswers(answers, Scoring.Answered);
  }
}
