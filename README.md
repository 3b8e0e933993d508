# SCL-90 self-assessment: a verified model

This project models the core of a browser-based psychological self-assessment
site built around the SCL-90 symptom checklist. The model has three parts.

- **The assessment catalog** (`js/data.js`), modelled in `catalog.dfy`:
  - the SCL-90 record: 90 items, answer options 1 to 5, and ten named
    symptom dimensions that list 1-based item numbers;
  - the registry lookup, which falls back to SCL-90 for any unknown type;
  - the lookup of an item's category;
  - the configuration object built for a type.

  `catalog.dfy` proves that the ten dimensions partition the items 1..90. It
  uses helper lemmas about sequences from `seqlemmas.dfy`.
- **The assessment page's state machine** (`AssessmentManager` in
  `js/assessment.js`), modelled in `session.dfy`:
  - the index of the current item;
  - an answer sheet with one nullable slot per item, updated in place;
  - the completion flag;
  - the saved-progress and completion records kept in browser storage;
  - the steps: start, select, next, previous, clear, complete, save,
    autosave, exit, the keyboard handler and the resume decision when the
    page opens.

  The steps are defined as pure functions on a `PageState` value. The class
  `Session.AssessmentManager` performs them in place: it has an `array`
  field, `modifies` clauses, and postconditions that tie the new state to
  the pure step applied to the old one. Lemmas then prove the pure steps'
  properties.
- **The report page's SCL-90 engine** (`js/report.js`):
  - per-dimension sums, answered counts and averages, plus the overall
    total, the positive-item count and the overall average
    (`scoring.dfy`);
  - the three-band analysis, the concern list, the risk level, the
    recommendations, the 0..10 gauge score and its label, the four-band
    interpretation and the risk colours (`analysis.dfy`);
  - the simplified MBTI letter count (`mbti.dfy`);
  - the radar chart's data: axes, radial scaling, rings and legend bands
    (`radar.dfy`);
  - the assembly of the SCL-90 report from one set of scores
    (`report.dfy`).

  The counting loops are methods whose loop invariants relate the running
  counters to recursive specification functions. Averages and cut-points
  use Dafny's exact `real` numbers, not floating point.

A null answer is `None` in an `Option<int>`. The report's scores object is a
JavaScript object whose string keys iterate in insertion order. It becomes:

- an ordered sequence of (dimension name, score) pairs;
- the three aggregate fields `totalScore`, `positiveSymptomCount` and
  `averageScore`.

Browser storage becomes fields of the page state. A confirmation dialog's
answer is a boolean argument, and the clock is an integer argument.

## Model

| member | source | states |
|---|---|---|
| Catalog.GetAssessmentData | js/data.js:154-161 | Every type name yields the SCL-90 record, the registry's only entry. |
| Catalog.FindCategory | js/data.js:167-171 | The result is None exactly when no dimension lists the item. Otherwise it names a dimension that lists the item, and no earlier dimension lists it. |
| Catalog.GetQuestionCategory | js/data.js:164-174 | The label is either the generic '综合测评' or, for the type name "scl90" only, the name of a SCL-90 dimension that lists item q+1. |
| Catalog.CategoryByFind | js/data.js:164-174 | Only the type name "scl90" consults the dimensions, through the first-match lookup of item q+1. Every other name gets the generic label '综合测评'. |
| Catalog.GetAssessmentConfig | js/data.js:177-190 | The configuration echoes the requested type name even on fallback. It carries the SCL-90 content, and its question count (90) equals the length of the question list. |
| Catalog.ConfigDefaultsDimensions | js/data.js:186 | A record without dimensions is configured with an empty dimension table. |
| Catalog.AnswerOptionValues | js/data.js:144-150 | There are five answer options with values 1, 2, 3, 4, 5 in that order. |
| Catalog.QuestionListLength | js/data.js:52-143 | The question list has exactly questionCount = 90 entries. |
| Catalog.AllItemsMembership | js/data.js:10-51 | An item number is in the concatenated item lists exactly when some dimension lists it. |
| Catalog.DisjointDimensions | js/data.js:10-51 | When the concatenated lists have no duplicates, no item number belongs to two dimensions. |
| Catalog.SCL90Partition | js/data.js:10-51 | The ten SCL-90 item lists together name every number 1..90 exactly once, and nothing else. |
| Catalog.FindOwner | js/data.js:167-171 | Over a partition, the first-match lookup returns the one dimension that lists the item. |
| Catalog.CategoryOfEveryQuestion | js/data.js:164-174 | For "scl90", question index q in 0..89 is labelled with the dimension that lists q+1, never with the generic label. |
| Catalog.GenericCategoryExactly | js/data.js:164-174 | The generic label appears exactly when the type is not "scl90" or the index is outside 0..89. |
| Scoring.CalculateScores | js/report.js:139-174 | The loop yields one entry per dimension, in order. Each entry holds the sum of the dimension's answered slots, how many were answered, and their quotient (0 when none). The method also yields the total and the count of answers of 2 or more over all dimensions, and the guarded overall average. |
| Scoring.AllWithinOfAllItems | js/data.js:10-51 | When the concatenated item lists stay within 1..n, every dimension's list does. |
| Scoring.CatalogItemsWithin | js/report.js:150-152 | Every SCL-90 item number, minus one, indexes a slot of a sheet of 90 or more answers. |
| Scoring.TallyConcat | js/report.js:150-158 | Tallying two item lists one after the other adds their tallies. |
| Scoring.TallyPermutation | js/report.js:150-158 | A tally does not depend on the order of the item numbers. |
| Scoring.TallyOfRange | js/report.js:171 | Tallying the item numbers 1..n of an n-slot sheet counts every slot once. |
| Scoring.GroupsTallyIsTallyOfAll | js/report.js:147-166 | Summing the dimension tallies is tallying the concatenated item lists. |
| Scoring.DimensionsCoverSheet | js/report.js:147-171 | On a 90-slot sheet, summing any per-answer quantity dimension by dimension gives its sum over the whole sheet, because the dimensions partition the items. |
| Scoring.ScoresOfFullSheet | js/report.js:169-171 | On a 90-slot sheet the total is the sum of all answers and the positive count counts every answer of 2 or more. The dimension counts add up to the number of answered slots, and the average is the total over that number. |
| Scoring.TallyValueBounds | js/report.js:153-157 | With answers on the 1..5 scale, a dimension's sum lies between its answered count and five times that count. |
| Scoring.GroupAverageOnScale | js/report.js:162-166 | With answers on the 1..5 scale, a dimension average is within 1..5 when something was answered, and 0 otherwise. |
| Scoring.SheetTallyNoAnswers | js/report.js:171 | On a sheet with no answer, every tally is the length times the weight of a null slot. |
| Scoring.UniformSheetAverage | js/report.js:169-171 | A full sheet answered with the same value everywhere has that value as its overall average. |
| Scoring.AverageScoreAsWritten | js/report.js:171 | The page's average is NaN (None) exactly on a non-empty sheet with no answer. Otherwise it equals the guarded average. |
| Analysis.GenerateAnalysis | js/report.js:177-263 | Computes the risk from the overall average. One pass over the entries, skipping the aggregate keys, yields each dimension's level and the concerns in order. The recommendations follow from the concerns. |
| Analysis.LevelOf | js/report.js:218-229 | A dimension is good exactly below 1.5 and of concern exactly from 2.5; in between it is a warning. |
| Analysis.RiskOf | js/report.js:187-196 | The risk is low exactly below 1.5 and high exactly from 2.5; in between it is moderate. |
| Analysis.RiskAsWritten | js/report.js:187-196 | With a NaN average both comparisons fail, so the risk is high exactly when the average is NaN or at least 2.5; a number gets its ordinary risk. |
| Analysis.RecommendationsFor | js/report.js:239-260 | The lifestyle and stress-management recommendations are always given; professional help is given exactly when there are concerns. |
| Analysis.LevelMonotone | js/report.js:187-196 | A higher average never yields a lower dimension level or risk level. |
| Analysis.RiskMatchesLevel | js/report.js:187-229 | The risk level and the dimension level use the same bands: low is good and high is concern. |
| Analysis.DimensionAnalysesPointwise | js/report.js:218-235 | When no dimension is named like an aggregate key, the analysis has one entry per dimension, in order, each with the level of its average. |
| Analysis.ConcernsMembership | js/report.js:218-229 | A name is a concern exactly when a dimension of that name, not an aggregate key, has an average of 1.5 or more. |
| Analysis.ConcernsAreFlagged | js/report.js:218-235 | Every concern is an analysed dimension at level warning or concern. There are never more concerns than analysed dimensions. |
| Analysis.RecommendationsShape | js/report.js:239-260 | There are three recommendations, the first being the only high-priority one (professional help), exactly when there are concerns. Otherwise there are two medium ones, which are always the last two. |
| Analysis.DisplayedRecommendations | js/report.js:358-393 | The four base cards always follow the analysis's own. When the analysis's recommendations follow from its concerns, seven cards are shown exactly when there are concerns, led by the only high-priority card (professional help); otherwise six. |
| Analysis.AllGoodNoConcerns | js/report.js:218-260 | With every dimension average under 1.5 there are no concerns, and six cards are shown. |
| Analysis.CatalogNamesAreNotAggregate | js/report.js:219 | No SCL-90 dimension name is one of the three aggregate keys. |
| Analysis.HealthScore | js/report.js:267 | The gauge score is never negative. It is at most 10 for a non-negative average, and equals 10 minus twice the average for averages up to 5. |
| Analysis.HealthLabel | js/report.js:268 | The label is one of three; '良好' exactly from a gauge score of 7 and '需要关注' exactly below 5. |
| Analysis.HealthLabelAsWritten | js/report.js:267-268 | With a NaN average the gauge value is NaN and the label is '需要关注'; with a number it is the ordinary label. |
| Analysis.HealthScoreNonIncreasing | js/report.js:267 | A higher average never gives a higher gauge score. |
| Analysis.HealthScoreOfAllOnes | js/report.js:169-267 | A full sheet answered 1 everywhere is rated low risk and scores 8 on the gauge. |
| Analysis.HealthLabelByAverage | js/report.js:267-268 | The label is '良好' exactly when the average is at most 1.5, '一般' when it is in (1.5, 2.5], and '需要关注' above 2.5. |
| Analysis.HealthLabelVersusRisk | js/report.js:187-268 | The gauge label and the risk level agree except at the cut-points 1.5 and 2.5, where the gauge is one band milder. |
| Analysis.ScoreInterpretation | js/report.js:1660-1665 | The text is one of four bands; normal exactly below 1.5 and severe exactly from 3.5. |
| Analysis.InterpretationRefinesLevel | js/report.js:1660-1665 | The four-band interpretation is normal exactly at level good and mild exactly at level warning. Its two upper bands split level concern at 3.5. |
| Analysis.RiskLevelColor | js/report.js:1668-1675 | The grey fallback is used exactly for strings other than 'low', 'moderate' and 'high'. |
| Analysis.RiskColorsDistinct | js/report.js:1668-1675 | Each risk level has its own colour, and none is the fallback grey. |
| Analysis.EmptySheetRisk | js/report.js:171-268 | On a 90-slot sheet with no answer, the page's risk is high and its gauge label '需要关注', while the corrected average is 0, its risk low and its gauge 10, '良好'. |
| Mbti.CalculateMbtiType | js/report.js:487-535 | The counts are the votes among the first min(length, 60) slots: slot i votes on axis i mod 4, for the first pole when its answer is 3 or more. Null slots are skipped. The type code is the concatenation of the four letters. |
| Mbti.VotesAddUp | js/report.js:495-510 | The eight counts add up to the number of non-null slots read. |
| Mbti.OnlyFirstSixtyRead | js/report.js:495 | Sheets that agree on their first 60 slots get the same counts. |
| Mbti.VotesOnOtherAxesUnchanged | js/report.js:499-508 | A slot votes only on the axis of its position mod 4. |
| Mbti.LetterMeansMajority | js/report.js:512-516 | Each letter is the first of its pair exactly when that pole has strictly more votes, so ties give I, N, F or P. |
| Mbti.UnansweredIsINFP | js/report.js:495-516 | With nothing answered every count is 0 and the type is INFP. |
| Radar.PrepareRadarData | js/report.js:1731-1746 | The axes are the non-aggregate entries in order, with their averages as values. The chart is drawn exactly when there is an axis. |
| Radar.AxesMatchValues | js/report.js:1736-1741 | There is one value per axis, and the axes and values are exactly the analysis's dimensions and scores, in order. |
| Radar.AxesAreAllDimensions | js/report.js:1736-1741 | When no dimension is named like an aggregate key, the axes are all the dimensions, in order, with their averages. |
| Radar.Radius | js/report.js:1790-1800 | On the 400 by 400 canvas the chart radius is 150. |
| Radar.PointDistance | js/report.js:1855 | A value of 0 is drawn at the centre and a value of 5 on the rim. |
| Radar.PointWithinRadius | js/report.js:1855 | A value in 0..5 is drawn between the centre and the radius. Scaling is monotone, and 5 is drawn on the rim. |
| Radar.AveragesDrawnInside | js/report.js:1855 | Every dimension average of a sheet on the 1..5 scale is drawn inside the chart. |
| Radar.RingRadius | js/report.js:1827 | Ring 0 would be the centre and ring 5 is the rim. |
| Radar.RingsEvenlySpaced | js/report.js:1825-1828 | The five rings are evenly spaced and strictly growing, and the fifth is the rim. |
| Radar.RingMarksValue | js/report.js:1827 | Ring i sits where a value of i is drawn. |
| Radar.AxisAngleDegrees | js/report.js:1834 | Axis 0 points straight up (-90 degrees) and n steps make one full turn (270 degrees). |
| Radar.AxisAnglesSpread | js/report.js:1834 | Axis 0 points up (-90 degrees), and the axes have distinct increasing angles below 270 degrees. |
| Radar.LegendLevel | js/report.js:1928-1936 | The legend band of a value is its analysis level. |
| Radar.LegendColor | js/report.js:1922-1939 | The legend colour of a value is the colour of the risk level of that value. |
| Radar.LegendAgreesWithAnalysis | js/report.js:1918-1939 | The legend's bands equal the analysis level for every value, and its colours are the matching risk colours. |
| Report.DimensionNames | js/report.js:1736-1741 | The list holds the dimension names in declaration order. |
| Report.GenerateSCL90Report | js/report.js:115-136 | The report has ten dimension entries in catalog order, each the sum, answered count and average of its own item list. The analysis gives each dimension that average as its score and the level of it; the concerns and the recommendations are derived from those entries, and the radar plots their names and averages in that order. The total and the positive count are the sums over the ten dimensions, and the risk and the gauge come from the guarded overall average: that total over the number of answered slots, 0 when none is. On a full sheet the total and positive count are those of the whole sheet. |
| Session.AssessmentManager.constructor | js/assessment.js:4-20 | The page opens on an empty state with the configuration of the requested type, then makes the resume decision on what storage holds. |
| Session.AssessmentManager.StartAssessment | js/assessment.js:242-256 | Starting sets the first item, a fresh sheet of empty slots and the start time, shows the question screen and saves progress. |
| Session.AssessmentManager.RecordAnswer | js/assessment.js:318-319 | The current slot of the same array is overwritten, and nothing else changes. |
| Session.AssessmentManager.AdvanceAfterSelection | js/assessment.js:332-338 | The deferred step after a selection moves on below the last item and completes on it. |
| Session.AssessmentManager.SelectAnswer | js/assessment.js:318-339 | A selection is the recording followed by the deferred step. |
| Session.AssessmentManager.NextQuestion | js/assessment.js:342-349 | Moves to the next item and saves progress, or completes on the last item. The sheet is not touched. |
| Session.AssessmentManager.PreviousQuestion | js/assessment.js:352-357 | Moves to the previous item and saves progress, or does nothing on the first item. |
| Session.AssessmentManager.ClearCurrentAnswer | js/assessment.js:390-393 | The current slot is set to null in place, and nothing else changes. |
| Session.AssessmentManager.HasCurrentAnswer | js/assessment.js:385-387 | On an existing slot, the item counts as answered exactly when the slot is not null; an index off the sheet reads as undefined and counts as answered. |
| Session.AssessmentManager.CompleteAssessment | js/assessment.js:396-416 | Completion sets the flag and the end time, writes the completion record with the sheet, removes the progress record and shows the completion screen. |
| Session.AssessmentManager.SaveProgress | js/assessment.js:455-473 | The progress record becomes the current item index, sheet, start time and flag. |
| Session.AssessmentManager.AutoSaveTick | js/assessment.js:232-239 | The autosave writes progress only while a sheet exists and the assessment is open. |
| Session.AssessmentManager.GenerateReport | js/assessment.js:431-446 | The report data carries the type, the sheet and both times, and the page moves to the report. |
| Session.AssessmentManager.ExitAssessment | js/assessment.js:546-551 | On confirmation, progress is saved and the page goes home. Otherwise nothing changes. |
| Session.AssessmentManager.CheckSavedProgress | js/assessment.js:491-525 | Applies the resume decision of `Session.Resume` in place; accepting saved progress installs a newly allocated array for the restored sheet. |
| Session.AssessmentManager.HandleKey | js/assessment.js:196-229 | The keyboard handler performs exactly the step of `Session.OnKey`, on the same answer array. |
| Session.MovesPreserveValid | js/assessment.js:242-357 | Start, next, previous, record, clear and select keep the current index in 0..n-1 and the sheet either absent or n slots long, in the state and in saved progress. |
| Session.RecordsPreserveValid | js/assessment.js:396-525 | Complete, autosave, exit and the resume decision keep the same invariant. |
| Session.KeysPreserveValid | js/assessment.js:196-229 | Every key press keeps the same invariant. |
| Session.StartResets | js/assessment.js:242-256 | After starting, the current index is 0 and the sheet is n null slots, saved as progress. The completion flag keeps its value. |
| Session.RecordChangesOneSlot | js/assessment.js:318-319 | Recording sets the current slot and keeps the length, every other slot, the current index and all other state. The item then counts as answered. |
| Session.ClearEmptiesOneSlot | js/assessment.js:390-393 | Clearing nulls the current slot and keeps everything else. The item then counts as unanswered. |
| Session.HasAnswerMeaning | js/assessment.js:385-387 | On an existing sheet, the item counts as answered exactly when its slot is non-null. |
| Session.NextAdvancesOrCompletes | js/assessment.js:342-349 | Below the last item, moving on advances by one and saves progress. On the last item it completes, records the sheet and removes progress. The sheet is never changed. |
| Session.PreviousStepsBack | js/assessment.js:352-357 | Moving back decrements above the first item and is a no-op on it. |
| Session.PreviousUndoesNext | js/assessment.js:342-357 | Below the last item, moving back after moving on restores the current index and the sheet. |
| Session.SelectIsRecordThenNext | js/assessment.js:332-349 | The deferred step after a selection is exactly a move on. |
| Session.KeyboardGuards | js/assessment.js:196-229 | Once completed, no key does anything. Right and Enter move on only from an answered item, and Left moves back. S without Ctrl and unknown keys do nothing. |
| Session.NumberKeySelects | js/assessment.js:212-218 | Number keys 1 to 5 select their value on an open sheet. |
| Session.AutoSaveGuard | js/assessment.js:234-238 | The autosave changes only the progress record, and only with a non-empty sheet on an open assessment. |
| Session.ResumeWithProgress | js/assessment.js:495-512 | Saved progress takes priority over the completion record, which it never touches. Accepting it restores the current index, sheet and flag, and the start time (the epoch, 0, when the record has none), then shows the completion or question screen. Declining deletes it. |
| Session.ResumeWithCompletion | js/assessment.js:513-521 | Without saved progress, accepting a fresh start deletes the completion record, and declining goes to the report. |
| Session.Progress | js/assessment.js:361 | The bar is at 100% on the last item and at 100/n % on the first. |
| Session.ProgressBounds | js/assessment.js:361 | The progress percentage lies in (0, 100], equals 100 exactly on the last item, and grows with the current index. |
| Session.NextTimesWalks | js/assessment.js:342-349 | k moves on that stay below the last item advance the current index by k and keep the sheet, the flag and the start time. |
| Session.SkippingEveryItem | js/assessment.js:242-349 | Starting and moving on 90 times without answering completes the assessment with an all-null sheet. The report page then rates that sheet high risk, though the corrected average rates it low. |
| Session.UnstartedWalk | js/assessment.js:205-210 | With no sheet yet, Enter is handled as moving on, because the missing slot is not null. Pressing it walks the current index forward and, on reaching the last item, completes the assessment with the empty sheet. |
| Session.EnterNinetyTimesBeforeStart | js/assessment.js:385-387 | Ninety presses of Enter on a freshly opened SCL-90 page complete the assessment with an empty sheet. |

## Left out

- Catalog.GetAssessmentData: a type name that is a member every JavaScript
  object inherits (for example "constructor") finds that member instead of
  falling back. The model treats the registry as a plain map with one
  entry.
- Report.GenerateSCL90Report: requires a sheet of at least 90 slots. The
  page reaches a shorter one: Enter pressed 90 times before the start
  completes the assessment with an empty sheet
  (`Session.EnterNinetyTimesBeforeStart`). On that sheet every dimension
  sum and average is NaN, because `undefined` passes the null test. Each
  dimension is therefore rated 'concern' and listed as a concern, and
  professional help is recommended. The overall average is 0 (the sheet is
  empty), so the risk is 'low' and the gauge reads 10, '良好'. The model does
  not compute this report. The page also disagrees with itself there: the
  radar legend tests with `>=`, so a NaN value shows as 'good' ('正常'),
  while the analysis tests with `<` and rates the same value 'concern'.
  `Radar.LegendAgreesWithAnalysis` holds for every number, not for NaN.
- Scoring.CalculateScores: requires every item number to index a slot of
  the sheet. On a shorter sheet the page reads `undefined`, which passes
  the null test and turns the sums into NaN. The model does not represent
  that NaN.
- Session.AssessmentManager.SelectAnswer: requires an answer sheet of
  `questionCount` slots. On the page the sheet can be the empty array:
  before the start, and also on the question screen after resuming progress
  saved before the start (Enter pressed once, the page reloaded, the resume
  accepted), since `Session.Resume` restores the empty sheet and shows the
  questions. Writing into that array grows it with holes.
- Session.AssessmentManager.RecordAnswer: requires an answer sheet of
  `questionCount` slots, for the same reason.
- Session.AssessmentManager.ClearCurrentAnswer: requires an answer sheet of
  `questionCount` slots, for the same reason.
- Session.AssessmentManager.HandleKey: a number key pressed before any
  sheet exists is ignored. The page would grow its empty array with holes
  there.
- Session.AssessmentManager.constructor: requires the stored progress
  record to be well-formed, as the modelled page writes it. The page can
  also store a shorter sheet: number keys pressed before the start write
  into its empty array, and the delayed step saves that. That path is
  dropped (see HandleKey). JSON parsing and corrupted storage are not
  modelled.
- Timers:
  - The 500 ms delay after a selection is the immediate step
    `AdvanceAfterSelection`.
  - The 30-second autosave interval is a call of `AutoSaveTick`. Clearing
    that interval on completion is not modelled; the completion flag
    already makes later ticks do nothing.
  - The radar's 100 ms delay and the simulated analysis delay
    (js/report.js:73-101) are not modelled.
- Dates: times are plain integers. Restoring a progress record without a
  start time gives the epoch, time 0, as `new Date(null)` does. The
  following are not modelled:
  - the duration in minutes;
  - the ISO completion date;
  - locale date strings;
  - the random report id (js/report.js:58).
- All DOM work is not modelled:
  - screens beyond the `screen` field;
  - option highlighting, navigation button text and notifications;
  - the help text and the answer-review placeholder;
  - the floating menu;
  - welcome-screen text;
  - the gauge rotation and the number animation (js/report.js:1678-1716);
  - the dimension cards' progress bars (js/report.js:285-320);
  - the risk-assessment panel (js/report.js:412-464);
  - the detailed-analysis text (js/report.js:322-356).
- Narrative Chinese text is not modelled: the overall verdict, the
  per-dimension descriptions and their display names, and the
  recommendations' descriptions, icons and tags. A recommendation keeps
  only its title and priority.
- `toFixed` formatting: a dimension's analysed score is the exact
  average, not its two-decimal string.
- How the report page loads its data (js/report.js:19-36) is not modelled.
  Neither is its dispatch to the MBTI narrative report with its
  description table, or to the generic report, whose average
  (js/report.js:848) is not modelled.
- Radar trigonometry: cosine and sine placement of points and labels, and
  label alignment, are not modelled. Axis angles are stated in degrees.
  Canvas drawing is not modelled either.
- Printing, PDF export, sharing and clipboard (js/report.js:866-1645) are
  not modelled.
- js/homepage.js is not part of this model.

## Findings

| source | as written | input that shows it | evidently intended | confidence | as-written member | corrected member |
|---|---|---|---|---|---|---|
| js/report.js:171 | The overall average divides the total by the number of non-null answers. The guard tests only the sheet's length, so a non-empty sheet without answers divides 0 by 0 (NaN). NaN fails both comparisons and yields risk level 'high'. The gauge is `Math.max(0, 10 - NaN)`, also NaN, so its label is '需要关注'. | A 90-slot sheet of nulls. The assessment page produces it when the user starts and presses "next" 90 times without answering (`Session.SkippingEveryItem`). | An average of 0 when nothing was answered: risk level 'low', and a gauge of 10 labelled '良好'. | not executed | Scoring.AverageScoreAsWritten, with Analysis.RiskAsWritten, Analysis.HealthLabelAsWritten and Analysis.EmptySheetRisk | Scoring.AverageScore |
