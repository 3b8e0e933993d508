/** The scoring step of the report page for SCL-90: per-dimension sums,
    answered counts and averages over an answer sheet, the overall total, the
    count of positive items (answer 2 or more) and the overall average. */
module Scoring {
  import opened Wrappers
  import opened SeqLemmas
  import Catalog

  /** An answer sheet: slot i holds the answer to item i+1, or null. */
  type Answers = seq<Option<int>>

  datatype GroupScore = GroupScore(total: int, average: real, questionCount: int)

  /** The scores object: the dimension entries in declaration order, then the
      three aggregate entries. */
  datatype Scores = Scores(
    groups: seq<(string, GroupScore)>,
    totalScore: int,
    positiveSymptomCount: int,
    averageScore: real)

  // What one answer slot contributes to a sum, to an answered count and to
  // the positive-item count.
  function Value(a: Option<int>): int { if a.Some? then a.value else 0 }
  function Answered(a: Option<int>): int { if a.Some? then 1 else 0 }
  function Positive(a: Option<int>): int { if a.Some? && a.value >= 2 then 1 else 0 }

  /** Every 1-based item number names a slot of a sheet of n answers. */
  predicate ItemsWithin(items: seq<int>, n: int) {
    forall i :: 0 <= i < |items| ==> 1 <= items[i] <= n
  }

  predicate AllWithin(dims: seq<Catalog.Dimension>, n: int) {
    forall g :: 0 <= g < |dims| ==> ItemsWithin(dims[g].questions, n)
  }

  /** The sum of w over the slots that the item numbers name. */
  function Tally(items: seq<int>, answers: Answers, w: Option<int> -> int): int
    requires ItemsWithin(items, |answers|)
  {
    if items == [] then 0
    else Tally(items[..|items| - 1], answers, w) + w(answers[items[|items| - 1] - 1])
  }

  /** The sum of w over every slot of the sheet. */
  function SheetTally(answers: Answers, w: Option<int> -> int): int {
    if answers == [] then 0
    else SheetTally(answers[..|answers| - 1], w) + w(answers[|answers| - 1])
  }

  /** The sum of the dimension tallies, dimension by dimension. */
  function GroupsTally(dims: seq<Catalog.Dimension>, answers: Answers, w: Option<int> -> int): int
    requires AllWithin(dims, |answers|)
  {
    if dims == [] then 0
    else GroupsTally(dims[..|dims| - 1], answers, w) + Tally(dims[|dims| - 1].questions, answers, w)
  }

  /** A dimension's entry: the sum of its answered items, how many were
      answered, and their average (0 when none was). */
  function GroupScoreOf(items: seq<int>, answers: Answers): GroupScore
    requires ItemsWithin(items, |answers|)
  {
    var total := Tally(items, answers, Value);
    var count := Tally(items, answers, Answered);
    GroupScore(total, if count > 0 then total as real / count as real else 0.0, count)
  }

  /** The overall average: the total over the number of answered slots of the
      whole sheet, 0 when no slot is answered. */
  function AverageScore(total: int, answers: Answers): real {
    var n := SheetTally(answers, Answered);
    if n > 0 then total as real / n as real else 0.0
  }

  /** The overall average exactly as the report page computes it: the guard
      tests the sheet's length, not the number of answered slots, so a
      non-empty sheet without answers divides 0 by 0. None stands for the
      resulting NaN. */
  function AverageScoreAsWritten(total: int, answers: Answers): (r: Option<real>)
    ensures r.None? <==> |answers| > 0 && SheetTally(answers, Answered) == 0
    ensures r.Some? ==> r.value == AverageScore(total, answers)
  {
    AnsweredCountNonNegative(answers);
    if |answers| > 0 then
      var n := SheetTally(answers, Answered);
      if n > 0 then Some(total as real / n as real) else None
    else Some(0.0)
  }

  /** The scores of an answer sheet under a dimension table (the report page
      passes the SCL-90 one): one loop over the dimensions, an inner loop over
      each dimension's item numbers, and running counters. */
  method CalculateScores(dims: seq<Catalog.Dimension>, answers: Answers) returns (s: Scores)
    requires AllWithin(dims, |answers|)
    ensures |s.groups| == |dims|
    ensures forall g :: 0 <= g < |s.groups| ==>
              s.groups[g] == (dims[g].name, GroupScoreOf(dims[g].questions, answers))
    ensures s.totalScore == GroupsTally(dims, answers, Value)
    ensures s.positiveSymptomCount == GroupsTally(dims, answers, Positive)
    ensures s.averageScore == AverageScore(s.totalScore, answers)
  {
    var groups: seq<(string, GroupScore)> := [];
    var totalScore, positiveSymptomCount := 0, 0;
    var g := 0;
    while g < |dims|
      invariant 0 <= g <= |dims|
      invariant AllWithin(dims[..g], |answers|)
      invariant |groups| == g
      invariant forall j :: 0 <= j < g ==> groups[j] == (dims[j].name, GroupScoreOf(dims[j].questions, answers))
      invariant totalScore == GroupsTally(dims[..g], answers, Value)
      invariant positiveSymptomCount == GroupsTally(dims[..g], answers, Positive)
    {
      var items := dims[g].questions;
      var dimensionScore, validQuestions := 0, 0;
      var k := 0;
      while k < |items|
        invariant 0 <= k <= |items|
        invariant ItemsWithin(items[..k], |answers|)
        invariant dimensionScore == Tally(items[..k], answers, Value)
        invariant validQuestions == Tally(items[..k], answers, Answered)
        invariant totalScore == GroupsTally(dims[..g], answers, Value) + dimensionScore
        invariant positiveSymptomCount == GroupsTally(dims[..g], answers, Positive) + Tally(items[..k], answers, Positive)
      {
        var answer := answers[items[k] - 1];
        if answer.Some? {
          dimensionScore := dimensionScore + answer.value;
          if answer.value >= 2 {
            positiveSymptomCount := positiveSymptomCount + 1;
          }
          validQuestions := validQuestions + 1;
          totalScore := totalScore + answer.value;
        }
        assert items[..k + 1][..k] == items[..k];
        k := k + 1;
      }
      assert items[..k] == items;
      assert dims[..g + 1][..g] == dims[..g] && dims[..g + 1][g] == dims[g];
      assert GroupsTally(dims[..g + 1], answers, Value) == GroupsTally(dims[..g], answers, Value) + Tally(items, answers, Value);
      assert GroupsTally(dims[..g + 1], answers, Positive) == GroupsTally(dims[..g], answers, Positive) + Tally(items, answers, Positive);
      var average := if validQuestions > 0 then dimensionScore as real / validQuestions as real else 0.0;
      groups := groups + [(dims[g].name, GroupScore(dimensionScore, average, validQuestions))];
      g := g + 1;
    }
    assert dims[..g] == dims;
    var answeredCount := SheetTally(answers, Answered);
    var averageScore := if answeredCount > 0 then totalScore as real / answeredCount as real else 0.0;
    s := Scores(groups, totalScore, positiveSymptomCount, averageScore);
  }

  // ---------------------------------------------------------------------
  // Lemmas
  // ---------------------------------------------------------------------

  /** Item lists whose concatenation stays within 1..n each stay within it. */
  lemma {:induction false} AllWithinOfAllItems(dims: seq<Catalog.Dimension>, n: int)
    requires forall x :: x in Catalog.AllItems(dims) ==> 1 <= x <= n
    ensures AllWithin(dims, n)
  {
    if dims != [] {
      var all := Catalog.AllItems(dims);
      assert all == dims[0].questions + Catalog.AllItems(dims[1..]);
      assert forall x :: x in Catalog.AllItems(dims[1..]) ==> x in all;
      AllWithinOfAllItems(dims[1..], n);
      forall g | 0 <= g < |dims| ensures ItemsWithin(dims[g].questions, n) {
        if g == 0 {
          forall i | 0 <= i < |dims[0].questions| ensures 1 <= dims[0].questions[i] <= n {
            assert all[i] == dims[0].questions[i];
            assert all[i] in all;
          }
        } else {
          assert dims[g] == dims[1..][g - 1];
        }
      }
    }
  }

  lemma CatalogItemsWithin(n: int)
    requires n >= Catalog.QuestionCount
    ensures AllWithin(Catalog.Dimensions, n)
  {
    Catalog.SCL90Partition();
    AllWithinOfAllItems(Catalog.Dimensions, n);
  }

  lemma {:induction false} TallyConcat(s: seq<int>, t: seq<int>, answers: Answers, w: Option<int> -> int)
    requires ItemsWithin(s, |answers|) && ItemsWithin(t, |answers|)
    ensures ItemsWithin(s + t, |answers|)
    ensures Tally(s + t, answers, w) == Tally(s, answers, w) + Tally(t, answers, w)
    decreases |t|
  {
    if t == [] {
      assert s + t == s;
    } else {
      var t' := t[..|t| - 1];
      TallyConcat(s, t', answers, w);
      assert (s + t)[..|s + t| - 1] == s + t';
    }
  }

  /** Taking one item number out of a list takes its slot's weight out of the tally. */
  lemma TallyRemove(t: seq<int>, j: int, answers: Answers, w: Option<int> -> int)
    requires ItemsWithin(t, |answers|) && 0 <= j < |t|
    ensures ItemsWithin(t[..j] + t[j + 1..], |answers|)
    ensures Tally(t, answers, w) == Tally(t[..j] + t[j + 1..], answers, w) + w(answers[t[j] - 1])
  {
    var t1, t2 := t[..j], t[j + 1..];
    var x := [t[j]];
    assert t == (t1 + x) + t2;
    TallyConcat(t1 + x, t2, answers, w);
    TallyConcat(t1, x, answers, w);
    TallyConcat(t1, t2, answers, w);
    TallySingleton(t[j], answers, w);
  }

  lemma TallySingleton(item: int, answers: Answers, w: Option<int> -> int)
    requires 1 <= item <= |answers|
    ensures ItemsWithin([item], |answers|)
    ensures Tally([item], answers, w) == w(answers[item - 1])
  {
    assert [item][..0] == [];
  }

  /** A tally does not depend on the order of the item numbers. */
  lemma {:induction false} TallyPermutation(s: seq<int>, t: seq<int>, answers: Answers, w: Option<int> -> int)
    requires ItemsWithin(s, |answers|) && ItemsWithin(t, |answers|)
    requires multiset(s) == multiset(t)
    ensures Tally(s, answers, w) == Tally(t, answers, w)
    decreases |s|
  {
    if s == [] {
      assert |t| == |multiset(t)| == 0;
    } else {
      var s', x := s[..|s| - 1], s[|s| - 1];
      assert s == s' + [x];
      assert x in multiset(t);
      var j :| 0 <= j < |t| && t[j] == x;
      var u := t[..j] + t[j + 1..];
      RemoveOne(s', x, t, j);
      TallyRemove(t, j, answers, w);
      TallyPermutation(s', u, answers, w);
      assert Tally(s, answers, w) == Tally(s', answers, w) + w(answers[x - 1]);
    }
  }

  /** A tally reads only the slots its item numbers name. */
  lemma {:induction false} TallyOnlyReads(items: seq<int>, answers: Answers, prefix: Answers, w: Option<int> -> int)
    requires |prefix| <= |answers| && prefix == answers[..|prefix|]
    requires ItemsWithin(items, |prefix|)
    ensures Tally(items, answers, w) == Tally(items, prefix, w)
  {
    if items != [] {
      TallyOnlyReads(items[..|items| - 1], answers, prefix, w);
    }
  }

  /** Tallying the item numbers 1..n of an n-slot sheet visits every slot. */
  lemma {:induction false} TallyOfRange(answers: Answers, w: Option<int> -> int)
    ensures ItemsWithin(Range(1, |answers| + 1), |answers|)
    ensures Tally(Range(1, |answers| + 1), answers, w) == SheetTally(answers, w)
  {
    var n := |answers|;
    if n > 0 {
      var prefix := answers[..n - 1];
      TallyOfRange(prefix, w);
      RangeSnoc(1, n);
      assert Range(1, n + 1)[..n - 1] == Range(1, n);
      TallyOnlyReads(Range(1, n), answers, prefix, w);
    }
  }

  lemma {:induction false} AllItemsSnoc(dims: seq<Catalog.Dimension>, d: Catalog.Dimension)
    ensures Catalog.AllItems(dims + [d]) == Catalog.AllItems(dims) + d.questions
  {
    if dims != [] {
      assert (dims + [d])[1..] == dims[1..] + [d];
      AllItemsSnoc(dims[1..], d);
    } else {
      assert Catalog.AllItems([d]) == d.questions + Catalog.AllItems([]);
    }
  }

  /** Summing the dimension tallies is tallying the concatenated item lists. */
  lemma {:induction false} GroupsTallyIsTallyOfAll(dims: seq<Catalog.Dimension>, answers: Answers, w: Option<int> -> int)
    requires AllWithin(dims, |answers|)
    ensures ItemsWithin(Catalog.AllItems(dims), |answers|)
    ensures GroupsTally(dims, answers, w) == Tally(Catalog.AllItems(dims), answers, w)
  {
    if dims != [] {
      var init, last := dims[..|dims| - 1], dims[|dims| - 1];
      assert AllWithin(init, |answers|) by {
        forall g | 0 <= g < |init| ensures ItemsWithin(init[g].questions, |answers|) {
          assert init[g] == dims[g];
        }
      }
      GroupsTallyIsTallyOfAll(init, answers, w);
      assert dims == init + [last];
      AllItemsSnoc(init, last);
      TallyConcat(Catalog.AllItems(init), last.questions, answers, w);
    }
  }

  /** Because the ten dimensions partition the items 1..90, summing any
      per-answer quantity dimension by dimension gives its sum over the whole
      90-slot sheet. */
  lemma DimensionsCoverSheet(answers: Answers, w: Option<int> -> int)
    requires |answers| == Catalog.QuestionCount
    ensures AllWithin(Catalog.Dimensions, |answers|)
    ensures GroupsTally(Catalog.Dimensions, answers, w) == SheetTally(answers, w)
  {
    var all, range := Catalog.AllItems(Catalog.Dimensions), Range(1, |answers| + 1);
    CatalogItemsWithin(|answers|);
    Catalog.SCL90Partition();
    GroupsTallyIsTallyOfAll(Catalog.Dimensions, answers, w);
    TallyOfRange(answers, w);
    forall x ensures x in all <==> x in range {
      RangeMembership(1, |answers| + 1, x);
    }
    SameElemsSameMultiset(all, range);
    TallyPermutation(all, range, answers, w);
  }

  /** On a 90-slot sheet the total is the sum of all answers, the positive
      count counts every answer of 2 or more, the dimension counts add up to
      the number of answered slots, and the average is total over that number. */
  lemma ScoresOfFullSheet(answers: Answers, s: Scores)
    requires |answers| == Catalog.QuestionCount
    requires AllWithin(Catalog.Dimensions, |answers|)
    requires s.totalScore == GroupsTally(Catalog.Dimensions, answers, Value)
    requires s.positiveSymptomCount == GroupsTally(Catalog.Dimensions, answers, Positive)
    requires s.averageScore == AverageScore(s.totalScore, answers)
    ensures s.totalScore == SheetTally(answers, Value)
    ensures s.positiveSymptomCount == SheetTally(answers, Positive)
    ensures GroupsTally(Catalog.Dimensions, answers, Answered) == SheetTally(answers, Answered)
    ensures SheetTally(answers, Answered) > 0 ==>
              s.averageScore == SheetTally(answers, Value) as real / SheetTally(answers, Answered) as real
  {
    DimensionsCoverSheet(answers, Value);
    DimensionsCoverSheet(answers, Positive);
    DimensionsCoverSheet(answers, Answered);
  }

  /** Answers on the 1..5 scale keep every non-empty average within 1..5. */
  predicate OnScale(answers: Answers) {
    forall i :: 0 <= i < |answers| && answers[i].Some? ==> 1 <= answers[i].value <= 5
  }

  lemma {:induction false} TallyValueBounds(items: seq<int>, answers: Answers)
    requires ItemsWithin(items, |answers|) && OnScale(answers)
    ensures Tally(items, answers, Answered) <= Tally(items, answers, Value) <= 5 * Tally(items, answers, Answered)
    ensures 0 <= Tally(items, answers, Answered)
  {
    if items != [] {
      TallyValueBounds(items[..|items| - 1], answers);
    }
  }

  lemma GroupAverageOnScale(items: seq<int>, answers: Answers)
    requires ItemsWithin(items, |answers|) && OnScale(answers)
    ensures var gs := GroupScoreOf(items, answers);
      (gs.questionCount > 0 ==> 1.0 <= gs.average <= 5.0) &&
      (gs.questionCount == 0 ==> gs.average == 0.0)
  {
    TallyValueBounds(items, answers);
    var total, count := Tally(items, answers, Value), Tally(items, answers, Answered);
    if count > 0 {
      RatioOnScale(total, count);
    }
  }

  lemma RatioOnScale(total: int, count: int)
    requires 0 < count && count <= total <= 5 * count
    ensures 1.0 <= total as real / count as real <= 5.0
  {
    QuotientAtMost(total as real, count as real, 5.0);
    QuotientAtLeast(total as real, count as real, 1.0);
  }

  lemma QuotientAtMost(t: real, c: real, k: real)
    requires 0.0 < c && t <= k * c
    ensures t / c <= k
  {
    assert t / c - k == (t - k * c) / c;
  }

  lemma QuotientAtLeast(t: real, c: real, k: real)
    requires 0.0 < c && k * c <= t
    ensures k <= t / c
  {
    assert t / c - k == (t - k * c) / c;
  }

  lemma {:induction false} SheetTallyNoAnswers(answers: Answers, w: Option<int> -> int)
    requires forall i :: 0 <= i < |answers| ==> answers[i].None?
    ensures SheetTally(answers, w) == |answers| * w(None)
  {
    if answers != [] {
      SheetTallyNoAnswers(answers[..|answers| - 1], w);
    }
  }

  lemma {:induction false} SheetTallyAllEqual(answers: Answers, v: int)
    requires forall i :: 0 <= i < |answers| ==> answers[i] == Some(v)
    ensures SheetTally(answers, Value) == |answers| * v
    ensures SheetTally(answers, Answered) == |answers|
  {
    if answers != [] {
      SheetTallyAllEqual(answers[..|answers| - 1], v);
    }
  }

  /** A full sheet answered with the same value everywhere has that value as
      its overall average. */
  lemma UniformSheetAverage(answers: Answers, v: int)
    requires |answers| == Catalog.QuestionCount
    requires forall i :: 0 <= i < |answers| ==> answers[i] == Some(v)
    ensures AllWithin(Catalog.Dimensions, |answers|)
    ensures AverageScore(GroupsTally(Catalog.Dimensions, answers, Value), answers) == v as real
  {
    DimensionsCoverSheet(answers, Value);
    SheetTallyAllEqual(answers, v);
    assert (90 * v) as real / 90 as real == v as real;
  }

  /** The number of answered slots is never negative. */
  lemma {:induction false} AnsweredCountNonNegative(answers: Answers)
    ensures SheetTally(answers, Answered) >= 0
  {
    if answers != [] {
      AnsweredCountNonNegative(answers[..|answers| - 1]);
    }
  }
}
