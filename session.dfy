/** The assessment page's answer-sheet state machine. The pure part describes
    each step on a value of the page state; the class `AssessmentManager`
    performs the same steps in place, with the answer sheet held in an array
    whose slots are overwritten one at a time. Saved progress and the
    completion record, which the page keeps in browser storage, are fields
    of the state; a confirmation dialog's answer is a boolean argument, the
    clock an integer argument. */
module Session {
  import opened Wrappers
  import Catalog
  import Scoring
  import Analysis

  datatype Screen = Welcome | Questions | Completion | Report | Home

  /** The saved in-progress record. */
  datatype Snapshot = Snapshot(
    currentQuestion: int,
    answers: seq<Option<int>>,
    startTime: Option<int>,
    isCompleted: bool)

  /** The saved completion record. */
  datatype CompletionRecord = CompletionRecord(
    answers: seq<Option<int>>,
    startTime: Option<int>,
    endTime: int)

  /** What the page hands over to the report page. */
  datatype ReportData = ReportData(
    kind: string,
    answers: seq<Option<int>>,
    startTime: Option<int>,
    endTime: Option<int>)

  datatype PageState = PageState(
    currentQuestion: int,
    answers: seq<Option<int>>,
    isCompleted: bool,
    startTime: Option<int>,
    endTime: Option<int>,
    screen: Screen,
    progress: Option<Snapshot>,
    completed: Option<CompletionRecord>,
    report: Option<ReportData>)

  // ---------------------------------------------------------------------
  // Well-formed states
  // ---------------------------------------------------------------------

  /** A sheet either does not exist yet or has one slot per item. */
  predicate SheetShape(answers: seq<Option<int>>, n: int) {
    |answers| == 0 || |answers| == n
  }

  predicate WellFormedSnapshot(p: Snapshot, n: int) {
    0 <= p.currentQuestion < n && SheetShape(p.answers, n)
  }

  /** The current index names an item and the sheet has its shape, in the state and
      in the saved progress. */
  predicate ValidState(s: PageState, n: int) {
    n > 0 && 0 <= s.currentQuestion < n && SheetShape(s.answers, n) &&
    (s.progress.Some? ==> WellFormedSnapshot(s.progress.value, n))
  }

  // ---------------------------------------------------------------------
  // The steps, on values
  // ---------------------------------------------------------------------

  function Initial(progress: Option<Snapshot>, completed: Option<CompletionRecord>): PageState {
    PageState(0, [], false, None, None, Welcome, progress, completed, None)
  }

  function SnapshotOf(s: PageState): Snapshot {
    Snapshot(s.currentQuestion, s.answers, s.startTime, s.isCompleted)
  }

  /** Saving writes the progress record from the current state. */
  function Save(s: PageState): PageState {
    s.(progress := Some(SnapshotOf(s)))
  }

  function EmptySheet(n: nat): seq<Option<int>> {
    seq(n, _ => None)
  }

  /** Starting: first item, an empty n-slot sheet, the start time, the
      question screen, and the progress saved. */
  function Start(s: PageState, n: nat, now: int): PageState {
    Save(s.(startTime := Some(now), currentQuestion := 0, answers := EmptySheet(n), screen := Questions))
  }

  /** Writing an answer into the current slot. */
  function Record(s: PageState, v: int): PageState
    requires 0 <= s.currentQuestion < |s.answers|
  {
    s.(answers := s.answers[s.currentQuestion := Some(v)])
  }

  function Clear(s: PageState): PageState
    requires 0 <= s.currentQuestion < |s.answers|
  {
    s.(answers := s.answers[s.currentQuestion := None])
  }

  /** Completion: the flag, the end time, the completion record written,
      the progress record removed, the completion screen. */
  function Complete(s: PageState, now: int): PageState {
    s.(isCompleted := true, endTime := Some(now), screen := Completion,
       completed := Some(CompletionRecord(s.answers, s.startTime, now)), progress := None)
  }

  /** Moving on: the next item (saving progress), or completion on the last. */
  function Next(s: PageState, n: int, now: int): PageState {
    if s.currentQuestion < n - 1 then Save(s.(currentQuestion := s.currentQuestion + 1))
    else Complete(s, now)
  }

  /** Moving back: the previous item (saving progress); nothing on the first. */
  function Previous(s: PageState): PageState {
    if s.currentQuestion > 0 then Save(s.(currentQuestion := s.currentQuestion - 1)) else s
  }

  /** The step that follows a selection: the same test as moving on. */
  function AfterSelection(s: PageState, n: int, now: int): PageState {
    if s.currentQuestion < n - 1 then Next(s, n, now) else Complete(s, now)
  }

  function Select(s: PageState, n: int, v: int, now: int): PageState
    requires 0 <= s.currentQuestion < |s.answers|
  {
    AfterSelection(Record(s, v), n, now)
  }

  /** Whether the current item counts as answered. A slot beyond the end of
      the sheet reads as undefined on the page, which is not null, so it
      counts as answered. */
  predicate HasAnswer(s: PageState) {
    s.currentQuestion < 0 || s.currentQuestion >= |s.answers| || s.answers[s.currentQuestion].Some?
  }

  /** The periodic autosave: only with a sheet and before completion. */
  function AutoSave(s: PageState): PageState {
    if |s.answers| > 0 && !s.isCompleted then Save(s) else s
  }

  function MakeReport(s: PageState, kind: string): PageState {
    s.(report := Some(ReportData(kind, s.answers, s.startTime, s.endTime)), screen := Report)
  }

  /** Leaving the page: on confirmation, progress is saved and the home page
      shown. */
  function Exit(s: PageState, confirmed: bool): PageState {
    if confirmed then Save(s).(screen := Home) else s
  }

  /** The decision on opening the page. Saved progress is considered first:
      accepting it restores the current index, the sheet, the start time and the
      flag (a record saved before the start has no start time, which the page
      turns into the epoch, time 0); declining it deletes it. Only without saved progress is a
      completion record considered: accepting a fresh start deletes it,
      declining goes to the report. */
  function Resume(s: PageState, confirmed: bool): PageState {
    if s.progress.Some? then
      if confirmed then
        var p := s.progress.value;
        var r := s.(currentQuestion := p.currentQuestion, answers := p.answers,
                    startTime := Some(p.startTime.GetOr(0)), isCompleted := p.isCompleted);
        if p.isCompleted then r.(screen := Completion) else Save(r.(screen := Questions))
      else s.(progress := None)
    else if s.completed.Some? then
      if confirmed then s.(completed := None) else s.(screen := Report)
    else s
  }

  /** The number keys that select an answer, and their values. */
  function KeyValue(key: string): Option<int> {
    if key == "1" then Some(1)
    else if key == "2" then Some(2)
    else if key == "3" then Some(3)
    else if key == "4" then Some(4)
    else if key == "5" then Some(5)
    else None
  }

  /** The keyboard handler. */
  function OnKey(s: PageState, n: int, key: string, ctrl: bool, now: int): PageState {
    if s.isCompleted then s
    else if key == "ArrowLeft" then Previous(s)
    else if key == "ArrowRight" || key == "Enter" then
      if HasAnswer(s) then Next(s, n, now) else s
    else if KeyValue(key).Some? then
      if 0 <= s.currentQuestion < |s.answers| && |s.answers| == n then Select(s, n, KeyValue(key).value, now) else s
    else if (key == "s" || key == "S") && ctrl then Save(s)
    else s
  }

  /** The progress bar's percentage. */
  function Progress(currentQuestion: int, n: int): (r: real)
    requires n > 0
    ensures currentQuestion == n - 1 ==> r == 100.0
    ensures currentQuestion == 0 ==> r * n as real == 100.0
  {
    ((currentQuestion + 1) as real / n as real) * 100.0
  }

  // ---------------------------------------------------------------------
  // The page object
  // ---------------------------------------------------------------------

  class AssessmentManager {
    const kind: string
    const config: Catalog.AssessmentConfig
    const questionCount: int
    var currentQuestion: int
    var answers: array<Option<int>>
    var isCompleted: bool
    var startTime: Option<int>
    var endTime: Option<int>
    var screen: Screen
    var progressRecord: Option<Snapshot>
    var completedRecord: Option<CompletionRecord>
    var currentReport: Option<ReportData>

    /** The page state as a value. */
    function State(): PageState
      reads this, answers
    {
      PageState(currentQuestion, answers[..], isCompleted, startTime, endTime, screen,
                    progressRecord, completedRecord, currentReport)
    }

    ghost predicate Valid()
      reads this, answers
    {
      config == Catalog.GetAssessmentConfig(kind) && questionCount == config.questionCount &&
      ValidState(State(), questionCount)
    }

    /** Opening the page: the configuration of the requested type, an empty
        state, then the decision about what storage holds. */
    constructor(kind: string, progress: Option<Snapshot>, completed: Option<CompletionRecord>, confirmed: bool)
      requires progress.Some? ==> WellFormedSnapshot(progress.value, Catalog.QuestionCount)
      ensures Valid()
      ensures this.kind == kind && questionCount == Catalog.QuestionCount
      ensures State() == Resume(Initial(progress, completed), confirmed)
    {
      this.kind := kind;
      config := Catalog.GetAssessmentConfig(kind);
      questionCount := Catalog.GetAssessmentConfig(kind).questionCount;
      currentQuestion := 0;
      answers := new Option<int>[0];
      isCompleted := false;
      startTime := None;
      endTime := None;
      screen := Welcome;
      progressRecord := progress;
      completedRecord := completed;
      currentReport := None;
      new;
      CheckSavedProgress(confirmed);
    }

    method StartAssessment(now: int)
      requires Valid()
      modifies this
      ensures Valid() && fresh(answers)
      ensures State() == Start(old(State()), questionCount, now)
    {
      startTime := Some(now);
      currentQuestion := 0;
      answers := new Option<int>[questionCount](_ => None);
      assert answers[..] == EmptySheet(questionCount);
      SaveProgress();
      screen := Questions;
      SaveProgress();
    }

    /** The synchronous half of a selection: the current slot is written in
        place and nothing else changes. */
    method RecordAnswer(value: int)
      requires Valid() && answers.Length == questionCount
      modifies answers
      ensures Valid()
      ensures State() == Record(old(State()), value)
    {
      answers[currentQuestion] := Some(value);
    }

    /** The deferred half of a selection. */
    method AdvanceAfterSelection(now: int)
      requires Valid()
      modifies this
      ensures Valid() && answers == old(answers)
      ensures State() == AfterSelection(old(State()), questionCount, now)
    {
      if currentQuestion < questionCount - 1 {
        NextQuestion(now);
      } else {
        CompleteAssessment(now);
      }
    }

    method SelectAnswer(value: int, now: int)
      requires Valid() && answers.Length == questionCount
      modifies this, answers
      ensures Valid() && answers == old(answers)
      ensures State() == Select(old(State()), questionCount, value, now)
    {
      RecordAnswer(value);
      AdvanceAfterSelection(now);
    }

    method NextQuestion(now: int)
      requires Valid()
      modifies this
      ensures Valid() && answers == old(answers)
      ensures State() == Next(old(State()), questionCount, now)
    {
      if currentQuestion < questionCount - 1 {
        currentQuestion := currentQuestion + 1;
        SaveProgress();
      } else {
        CompleteAssessment(now);
      }
    }

    method PreviousQuestion()
      requires Valid()
      modifies this
      ensures Valid() && answers == old(answers)
      ensures State() == Previous(old(State()))
    {
      if currentQuestion > 0 {
        currentQuestion := currentQuestion - 1;
        SaveProgress();
      }
    }

    /** Whether the current item may be left with Enter or the right arrow:
        an index off the sheet reads as undefined, which is not null. */
    function HasCurrentAnswer(): (r: bool)
      reads this, answers
      ensures 0 <= currentQuestion < answers.Length ==> (r <==> answers[currentQuestion].Some?)
      ensures !(0 <= currentQuestion < answers.Length) ==> r
    {
      HasAnswer(State())
    }

    method ClearCurrentAnswer()
      requires Valid() && answers.Length == questionCount
      modifies answers
      ensures Valid()
      ensures State() == Clear(old(State()))
    {
      answers[currentQuestion] := None;
    }

    method CompleteAssessment(now: int)
      requires Valid()
      modifies this
      ensures Valid() && answers == old(answers)
      ensures State() == Complete(old(State()), now)
    {
      isCompleted := true;
      endTime := Some(now);
      screen := Completion;
      completedRecord := Some(CompletionRecord(answers[..], startTime, now));
      progressRecord := None;
    }

    method SaveProgress()
      requires ValidState(State(), questionCount)
      modifies this
      ensures ValidState(State(), questionCount)
      ensures answers == old(answers)
      ensures State() == Save(old(State()))
    {
      progressRecord := Some(Snapshot(currentQuestion, answers[..], startTime, isCompleted));
    }

    method AutoSaveTick()
      requires Valid()
      modifies this
      ensures Valid() && answers == old(answers)
      ensures State() == AutoSave(old(State()))
    {
      if answers.Length > 0 && !isCompleted {
        SaveProgress();
      }
    }

    method GenerateReport()
      requires Valid()
      modifies this
      ensures Valid() && answers == old(answers)
      ensures State() == MakeReport(old(State()), kind)
    {
      currentReport := Some(ReportData(kind, answers[..], startTime, endTime));
      screen := Report;
    }

    method ExitAssessment(confirmed: bool)
      requires Valid()
      modifies this
      ensures Valid() && answers == old(answers)
      ensures State() == Exit(old(State()), confirmed)
    {
      if confirmed {
        SaveProgress();
        screen := Home;
      }
    }

    method CheckSavedProgress(confirmed: bool)
      requires Valid()
      modifies this
      ensures Valid()
      ensures State() == Resume(old(State()), confirmed)
      ensures old(progressRecord).Some? && confirmed ==> fresh(answers)
    {
      if progressRecord.Some? {
        var state := progressRecord.value;
        if confirmed {
          currentQuestion := state.currentQuestion;
          answers := new Option<int>[|state.answers|](i requires 0 <= i < |state.answers| => state.answers[i]);
          assert answers[..] == state.answers;
          startTime := Some(state.startTime.GetOr(0));
          isCompleted := state.isCompleted;
          if isCompleted {
            screen := Completion;
          } else {
            screen := Questions;
            SaveProgress();
          }
        } else {
          progressRecord := None;
        }
      } else if completedRecord.Some? {
        if confirmed {
          completedRecord := None;
        } else {
          screen := Report;
        }
      }
    }

    method HandleKey(key: string, ctrl: bool, now: int)
      requires Valid()
      modifies this, answers
      ensures Valid() && answers == old(answers)
      ensures State() == OnKey(old(State()), questionCount, key, ctrl, now)
    {
      if isCompleted {
        return;
      }
      if key == "ArrowLeft" {
        PreviousQuestion();
      } else if key == "ArrowRight" || key == "Enter" {
        if HasCurrentAnswer() {
          NextQuestion(now);
        }
      } else if KeyValue(key).Some? {
        if answers.Length == questionCount {
          SelectAnswer(KeyValue(key).value, now);
        }
      } else if (key == "s" || key == "S") && ctrl {
        SaveProgress();
      }
    }
  }

  // ---------------------------------------------------------------------
  // Lemmas about the steps
  // ---------------------------------------------------------------------

  /** Every move keeps the current index on an item and the sheet in shape. */
  lemma MovesPreserveValid(s: PageState, n: nat, v: int, now: int)
    requires ValidState(s, n)
    ensures ValidState(Start(s, n, now), n)
    ensures ValidState(Next(s, n, now), n) && ValidState(Previous(s), n)
    ensures |s.answers| == n ==> ValidState(Record(s, v), n) && ValidState(Clear(s), n) && ValidState(Select(s, n, v, now), n)
  {
  }

  /** So does every step that writes or reads the saved records. */
  lemma RecordsPreserveValid(s: PageState, n: nat, now: int, confirmed: bool)
    requires ValidState(s, n)
    ensures ValidState(Complete(s, now), n) && ValidState(AutoSave(s), n) && ValidState(Exit(s, confirmed), n)
    ensures ValidState(Resume(s, confirmed), n)
  {
  }

  /** And so does every key press. */
  lemma KeysPreserveValid(s: PageState, n: nat, key: string, ctrl: bool, now: int)
    requires ValidState(s, n)
    ensures ValidState(OnKey(s, n, key, ctrl, now), n)
  {
    if !s.isCompleted && KeyValue(key).Some? && 0 <= s.currentQuestion < |s.answers| && |s.answers| == n {
      MovesPreserveValid(s, n, KeyValue(key).value, now);
    }
  }

  /** Starting gives the first item and a sheet of n empty slots, saved as
      progress; the completion flag is left as it was. */
  lemma StartResets(s: PageState, n: nat, now: int)
    ensures var t := Start(s, n, now);
      t.currentQuestion == 0 && |t.answers| == n &&
      (forall i :: 0 <= i < n ==> t.answers[i].None?) &&
      t.isCompleted == s.isCompleted && t.startTime == Some(now) &&
      t.progress == Some(Snapshot(0, t.answers, Some(now), s.isCompleted))
  {
  }

  /** Recording changes exactly one slot of the sheet: the current one. */
  lemma RecordChangesOneSlot(s: PageState, v: int)
    requires 0 <= s.currentQuestion < |s.answers|
    ensures var t := Record(s, v);
      |t.answers| == |s.answers| && t.answers[s.currentQuestion] == Some(v) &&
      (forall i :: 0 <= i < |s.answers| && i != s.currentQuestion ==> t.answers[i] == s.answers[i]) &&
      t.(answers := s.answers) == s && HasAnswer(t)
  {
  }

  /** Clearing empties exactly the current slot, and the item then counts as
      unanswered. */
  lemma ClearEmptiesOneSlot(s: PageState)
    requires 0 <= s.currentQuestion < |s.answers|
    ensures var t := Clear(s);
      |t.answers| == |s.answers| && t.answers[s.currentQuestion] == None &&
      (forall i :: 0 <= i < |s.answers| && i != s.currentQuestion ==> t.answers[i] == s.answers[i]) &&
      t.(answers := s.answers) == s && !HasAnswer(t)
  {
  }

  /** On an existing sheet, the item counts as answered exactly when its slot
      holds an answer. */
  lemma HasAnswerMeaning(s: PageState)
    requires 0 <= s.currentQuestion < |s.answers|
    ensures HasAnswer(s) <==> s.answers[s.currentQuestion] != None
  {
  }

  /** Moving on from any item but the last advances by one and keeps the
      sheet; from the last item it completes, recording the sheet and
      removing the progress record. */
  lemma NextAdvancesOrCompletes(s: PageState, n: int, now: int)
    requires 0 <= s.currentQuestion < n
    ensures var t := Next(s, n, now);
      t.answers == s.answers &&
      (s.currentQuestion < n - 1 ==> t.currentQuestion == s.currentQuestion + 1 && t.isCompleted == s.isCompleted &&
                                     t.progress == Some(SnapshotOf(t))) &&
      (s.currentQuestion == n - 1 ==> t.currentQuestion == s.currentQuestion && t.isCompleted &&
                                      t.progress.None? && t.completed == Some(CompletionRecord(s.answers, s.startTime, now)))
  {
  }

  /** Moving back decrements above the first item and does nothing on it. */
  lemma PreviousStepsBack(s: PageState)
    ensures s.currentQuestion > 0 ==> Previous(s).currentQuestion == s.currentQuestion - 1 && Previous(s).answers == s.answers
    ensures s.currentQuestion <= 0 ==> Previous(s) == s
  {
  }

  /** Moving back undoes moving on, as far as the current index and the sheet go. */
  lemma PreviousUndoesNext(s: PageState, n: int, now: int)
    requires 0 <= s.currentQuestion < n - 1
    ensures Previous(Next(s, n, now)).currentQuestion == s.currentQuestion
    ensures Previous(Next(s, n, now)).answers == s.answers
  {
  }

  /** The step after a selection is exactly a move on; a selection is a
      recording followed by a move on. */
  lemma SelectIsRecordThenNext(s: PageState, n: int, v: int, now: int)
    requires 0 <= s.currentQuestion < |s.answers|
    ensures AfterSelection(s, n, now) == Next(s, n, now)
    ensures Select(s, n, v, now) == Next(Record(s, v), n, now)
  {
  }

  /** The keyboard guards: nothing happens once completed; Right and Enter
      move on only from an answered item; unknown keys and an S without
      Ctrl do nothing. */
  lemma KeyboardGuards(s: PageState, n: int, key: string, ctrl: bool, now: int)
    ensures s.isCompleted ==> OnKey(s, n, key, ctrl, now) == s
    ensures !s.isCompleted && (key == "ArrowRight" || key == "Enter") ==>
              OnKey(s, n, key, ctrl, now) == (if HasAnswer(s) then Next(s, n, now) else s)
    ensures !s.isCompleted && key == "ArrowLeft" ==> OnKey(s, n, key, ctrl, now) == Previous(s)
    ensures (key == "s" || key == "S") && !ctrl ==> OnKey(s, n, key, ctrl, now) == s
    ensures key !in {"ArrowLeft", "ArrowRight", "Enter", "1", "2", "3", "4", "5", "s", "S"} ==>
              OnKey(s, n, key, ctrl, now) == s
  {
  }

  /** A number key on an open sheet selects that value for the current item. */
  lemma NumberKeySelects(s: PageState, n: int, d: int, now: int)
    requires !s.isCompleted && 1 <= d <= 5 && |s.answers| == n && 0 <= s.currentQuestion < n
    ensures var key := ["12345"[d - 1]];
      OnKey(s, n, key, false, now) == Select(s, n, d, now)
  {
    var key := ["12345"[d - 1]];
    assert KeyValue(key) == Some(d);
  }

  /** The autosave writes progress only while a sheet exists and the
      assessment is open, and changes nothing else. */
  lemma AutoSaveGuard(s: PageState)
    ensures AutoSave(s).(progress := s.progress) == s
    ensures AutoSave(s).progress == (if |s.answers| > 0 && !s.isCompleted then Some(SnapshotOf(s)) else s.progress)
  {
  }

  /** Saved progress takes priority over the completion record, which it
      never touches; accepting it restores its fields, declining deletes it. */
  lemma ResumeWithProgress(s: PageState, confirmed: bool)
    requires s.progress.Some?
    ensures var t, p := Resume(s, confirmed), s.progress.value;
      t.completed == s.completed &&
      (confirmed ==> t.currentQuestion == p.currentQuestion && t.answers == p.answers &&
                     t.startTime == Some(p.startTime.GetOr(0)) && t.isCompleted == p.isCompleted &&
                     t.progress == Some(if p.isCompleted then p else p.(startTime := t.startTime)) &&
                     t.screen == (if p.isCompleted then Completion else Questions)) &&
      (!confirmed ==> t == s.(progress := None))
  {
  }

  /** Without saved progress, a completion record is deleted on a fresh
      start or leads to the report. */
  lemma ResumeWithCompletion(s: PageState, confirmed: bool)
    requires s.progress.None? && s.completed.Some?
    ensures confirmed ==> Resume(s, confirmed) == s.(completed := None)
    ensures !confirmed ==> Resume(s, confirmed) == s.(screen := Report)
  {
  }

  /** The progress bar lies in (0, 100] and is full exactly on the last
      item; it grows with the current index. */
  lemma ProgressBounds(currentQuestion: int, n: int)
    requires 0 <= currentQuestion < n
    ensures 0.0 < Progress(currentQuestion, n) <= 100.0
    ensures Progress(currentQuestion, n) == 100.0 <==> currentQuestion == n - 1
    ensures currentQuestion < n - 1 ==> Progress(currentQuestion, n) < Progress(currentQuestion + 1, n)
  {
    var c, m := (currentQuestion + 1) as real, n as real;
    assert Progress(currentQuestion, n) == 100.0 * (c / m);
    if currentQuestion < n - 1 {
      assert Progress(currentQuestion + 1, n) - Progress(currentQuestion, n) == 100.0 / m;
    }
    assert 100.0 - Progress(currentQuestion, n) == 100.0 * ((m - c) / m);
  }

  // ---------------------------------------------------------------------
  // Skipping every item
  // ---------------------------------------------------------------------

  /** k moves on in a row. */
  function NextTimes(s: PageState, n: int, k: nat, now: int): PageState
    decreases k
  {
    if k == 0 then s else NextTimes(Next(s, n, now), n, k - 1, now)
  }

  lemma {:induction false} NextTimesWalks(s: PageState, n: int, k: nat, now: int)
    requires 0 <= s.currentQuestion && s.currentQuestion + k <= n - 1
    ensures k > 0 ==> NextTimes(s, n, k, now) == Save(s.(currentQuestion := s.currentQuestion + k))
    ensures NextTimes(s, n, k, now).currentQuestion == s.currentQuestion + k
    ensures NextTimes(s, n, k, now).answers == s.answers
    ensures NextTimes(s, n, k, now).isCompleted == s.isCompleted
    ensures NextTimes(s, n, k, now).startTime == s.startTime
    decreases k
  {
    if k > 0 {
      NextTimesWalks(Next(s, n, now), n, k - 1, now);
    }
  }

  /** Before the start there is no sheet, so the current item reads as
      answered and Enter moves on: pressing it n times on the welcome screen
      completes the assessment with an empty sheet. */
  lemma {:induction false} UnstartedWalk(s: PageState, n: int, k: nat, now: int)
    requires s.answers == [] && !s.isCompleted && 0 <= s.currentQuestion && s.currentQuestion + k <= n
    ensures k > 0 ==> OnKey(s, n, "Enter", false, now) == Next(s, n, now)
    ensures var t := NextTimes(s, n, k, now);
      t.answers == [] &&
      (s.currentQuestion + k < n ==> !t.isCompleted && t.currentQuestion == s.currentQuestion + k) &&
      (s.currentQuestion + k == n && k > 0 ==> t.isCompleted && t.completed.Some? && t.completed.value.answers == [])
    decreases k
  {
    if k > 0 && s.currentQuestion < n - 1 {
      UnstartedWalk(Next(s, n, now), n, k - 1, now);
    }
  }

  /** For SCL-90, ninety presses of Enter on a freshly opened page complete
      the assessment with an empty sheet. */
  lemma EnterNinetyTimesBeforeStart(now: int)
    ensures var t := NextTimes(Initial(None, None), Catalog.QuestionCount, Catalog.QuestionCount, now);
      t.isCompleted && t.completed.Some? && t.completed.value.answers == []
  {
    UnstartedWalk(Initial(None, None), Catalog.QuestionCount, Catalog.QuestionCount, now);
  }

  /** Starting and moving on n times without answering completes the
      assessment with a sheet of n empty slots, and for SCL-90 the report's
      risk computed as the page does it is then high, although no item was
      answered. */
  lemma SkippingEveryItem(s: PageState, now: int)
    ensures var t := NextTimes(Start(s, Catalog.QuestionCount, now), Catalog.QuestionCount, Catalog.QuestionCount, now);
      t.isCompleted && t.completed.Some? &&
      t.completed.value.answers == EmptySheet(Catalog.QuestionCount) &&
      Analysis.RiskAsWritten(Scoring.AverageScoreAsWritten(0, t.completed.value.answers)) == Analysis.High &&
      Analysis.RiskOf(Scoring.AverageScore(0, t.completed.value.answers)) == Analysis.Low
  {
    var n := Catalog.QuestionCount;
    var s0 := Start(s, n, now);
    NextTimesWalks(s0, n, n - 1, now);
    var last := NextTimes(s0, n, n - 1, now);
    NextTimesSplit(s0, n, n - 1, now);
    assert NextTimes(s0, n, n, now) == Next(last, n, now);
    Analysis.EmptySheetRisk(EmptySheet(n));
  }

  lemma {:induction false} NextTimesSplit(s: PageState, n: int, k: nat, now: int)
    ensures NextTimes(s, n, k + 1, now) == Next(NextTimes(s, n, k, now), n, now)
    decreases k
  {
    if k > 0 {
      NextTimesSplit(Next(s, n, now), n, k - 1, now);
    }
  }
}
