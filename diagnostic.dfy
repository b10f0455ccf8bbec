/** The quick diagnostic: the user picks a profile, answers that profile's
    questions one at a time, and gets a score, the question texts sorted into
    critical issues, warnings and compliant points, and a level. */
module Diagnostic {
  import opened Common
  import Data
  import AppContext

  datatype Step = UserTypeStep | QuestionsStep | ResultStep | WorkerInfo | GeneralInfo

  /** `DIAGNOSTIC_QUESTIONS.filter(q => q.forUserTypes.includes(selectedUserType))`,
      and nothing while no user type is selected. */
  function QuestionsFor(t: Option<Data.UserType>): (qs: seq<Data.DiagnosticQuestion>)
    ensures t.None? ==> qs == []
  {
    if t.None? then [] else Filter(Data.DIAGNOSTIC_QUESTIONS, ForType(t.value))
  }

  /** A profile's questions are exactly the catalog's questions for that
      profile. */
  lemma QuestionsForMembers(t: Data.UserType)
    ensures forall q :: q in QuestionsFor(Some(t)) <==> q in Data.DIAGNOSTIC_QUESTIONS && t in q.forUserTypes
  {
  }

  function ForType(t: Data.UserType): Data.DiagnosticQuestion -> bool
  {
    (q: Data.DiagnosticQuestion) => t in q.forUserTypes
  }

  /** Every question offers at least one option. */
  predicate HasOptions(qs: seq<Data.DiagnosticQuestion>)
  {
    forall i :: 0 <= i < |qs| ==> |qs[i].options| > 0
  }

  /** Every question's best option scores at least 0. */
  predicate BestNonNegative(qs: seq<Data.DiagnosticQuestion>)
    requires HasOptions(qs)
  {
    forall i :: 0 <= i < |qs| ==> Data.MaxOptionScore(qs[i].options) >= 0
  }

  /** Every catalog question offers options. */
  lemma CatalogHasOptions(t: Option<Data.UserType>)
    ensures HasOptions(QuestionsFor(t))
  {
    var qs := QuestionsFor(t);
    forall i | 0 <= i < |qs|
      ensures |qs[i].options| > 0
    {
      var q := qs[i];
      assert q in Data.DIAGNOSTIC_QUESTIONS by {
        if t.Some? { QuestionsForMembers(t.value); }
      }
      var j :| 0 <= j < |Data.DIAGNOSTIC_QUESTIONS| && Data.DIAGNOSTIC_QUESTIONS[j] == q;
      Data.BestScoreAt(j);
    }
  }

  lemma BestScoresPositive()
    ensures forall j :: 0 <= j < |Data.BEST_SCORES| ==> Data.BEST_SCORES[j] > 0
  {
  }

  /** Every catalog question's best option scores above 0. */
  lemma CatalogBestNonNegative(t: Option<Data.UserType>)
    ensures HasOptions(QuestionsFor(t)) && BestNonNegative(QuestionsFor(t))
  {
    CatalogHasOptions(t);
    BestScoresPositive();
    var qs := QuestionsFor(t);
    forall i | 0 <= i < |qs|
      ensures Data.MaxOptionScore(qs[i].options) >= 0
    {
      var q := qs[i];
      assert q in Data.DIAGNOSTIC_QUESTIONS by {
        if t.Some? { QuestionsForMembers(t.value); }
      }
      var j :| 0 <= j < |Data.DIAGNOSTIC_QUESTIONS| && Data.DIAGNOSTIC_QUESTIONS[j] == q;
      Data.BestScoreAt(j);
    }
  }

  /** Workers and general readers get no questions: their selection leads to
      an information page instead. */
  lemma NoQuestionsForWorkersOrGeneral()
    ensures QuestionsFor(Some(Data.Trabajador)) == []
    ensures QuestionsFor(Some(Data.General)) == []
  {
    Data.DiagnosticQuestionsSingleProfile();
    FilterNone(Data.DIAGNOSTIC_QUESTIONS, ForType(Data.Trabajador));
    FilterNone(Data.DIAGNOSTIC_QUESTIONS, ForType(Data.General));
  }

  // ---------------------------------------------------------------------
  // Scoring

  function HasValue(v: string): Data.DiagnosticOption -> bool
  {
    (o: Data.DiagnosticOption) => o.value == v
  }

  /** `question.options.find(o => o.value === finalAnswers[question.id])`;
      an unanswered question selects nothing. */
  function SelectedOption(q: Data.DiagnosticQuestion, answers: map<string, string>): Option<Data.DiagnosticOption>
  {
    if q.id in answers then Find(q.options, HasValue(answers[q.id])) else None
  }

  /** The selected option is one of the question's options carrying the
      answered value, and an answer naming one of the options selects one. */
  lemma SelectedOptionSpec(q: Data.DiagnosticQuestion, answers: map<string, string>)
    ensures var o := SelectedOption(q, answers);
      (o.Some? ==> q.id in answers && o.value in q.options && o.value.value == answers[q.id]) &&
      (q.id in answers && (exists i :: 0 <= i < |q.options| && q.options[i].value == answers[q.id]) ==> o.Some?)
  {
    if q.id in answers {
      var o := Find(q.options, HasValue(answers[q.id]));
      if o.None? {
        assert forall i :: 0 <= i < |q.options| ==> q.options[i].value != answers[q.id];
      }
    }
  }

  /** Where an answered question is listed. */
  datatype Verdict = Critical | Warning | Compliant | Unlisted

  /** The list a question's answer puts it in: critical when the option is
      marked critical, otherwise a warning when it scores above zero but below
      the question's best, otherwise compliant when it scores the best. */
  function VerdictOf(q: Data.DiagnosticQuestion, answers: map<string, string>): Verdict
    requires |q.options| > 0
  {
    match SelectedOption(q, answers)
    case None => Unlisted
    case Some(o) =>
      var best := Data.MaxOptionScore(q.options);
      if o.isCritical then Critical
      else if 0 < o.score < best then Warning
      else if o.score == best then Compliant
      else Unlisted
  }

  function VerdictIn(answers: map<string, string>, v: Verdict): Data.DiagnosticQuestion -> bool
  {
    (q: Data.DiagnosticQuestion) => |q.options| > 0 && VerdictOf(q, answers) == v
  }

  /** What `calculateResult`'s loop accumulates. */
  datatype DiagnosticTally = DiagnosticTally(
    score: int,
    maxScore: int,
    criticalIssues: seq<string>,
    warnings: seq<string>,
    compliant: seq<string>)

  const EMPTY_TALLY: DiagnosticTally := DiagnosticTally(0, 0, [], [], [])

  /** One question of the loop, as the source writes it. */
  function DiagnosticStep(acc: DiagnosticTally, q: Data.DiagnosticQuestion, answers: map<string, string>): DiagnosticTally
    requires |q.options| > 0
  {
    var best := Data.MaxOptionScore(q.options);
    var acc1 := acc.(maxScore := acc.maxScore + best);
    match SelectedOption(q, answers)
    case None => acc1
    case Some(o) =>
      var acc2 := acc1.(score := acc1.score + o.score);
      if o.isCritical then acc2.(criticalIssues := acc2.criticalIssues + [q.text])
      else if o.score < best && o.score > 0 then acc2.(warnings := acc2.warnings + [q.text])
      else if o.score == best then acc2.(compliant := acc2.compliant + [q.text])
      else acc2
  }

  function ScoreDiagnostic(qs: seq<Data.DiagnosticQuestion>, answers: map<string, string>): DiagnosticTally
    requires HasOptions(qs)
    decreases |qs|
  {
    if qs == [] then EMPTY_TALLY
    else DiagnosticStep(ScoreDiagnostic(qs[..|qs| - 1], answers), qs[|qs| - 1], answers)
  }

  /** The texts of the questions, in order. */
  function Texts(qs: seq<Data.DiagnosticQuestion>): seq<string>
    decreases |qs|
  {
    if qs == [] then [] else Texts(qs[..|qs| - 1]) + [qs[|qs| - 1].text]
  }

  lemma TextsSnoc(qs: seq<Data.DiagnosticQuestion>, q: Data.DiagnosticQuestion)
    ensures Texts(qs + [q]) == Texts(qs) + [q.text]
  {
    assert (qs + [q])[..|qs|] == qs;
  }

  /** The best score a question offers; the sum over `qs` is the diagnostic's
      maximum. */
  function SumBest(qs: seq<Data.DiagnosticQuestion>): int
    requires HasOptions(qs)
    decreases |qs|
  {
    if qs == [] then 0 else SumBest(qs[..|qs| - 1]) + Data.MaxOptionScore(qs[|qs| - 1].options)
  }

  lemma ScoreDiagnosticNext(qs: seq<Data.DiagnosticQuestion>, i: nat, answers: map<string, string>)
    requires HasOptions(qs) && i < |qs|
    ensures HasOptions(qs[..i]) && HasOptions(qs[..i + 1])
    ensures ScoreDiagnostic(qs[..i + 1], answers) == DiagnosticStep(ScoreDiagnostic(qs[..i], answers), qs[i], answers)
  {
    assert qs[..i + 1][..i] == qs[..i];
  }

  /** The maximum is the sum of the questions' best scores whatever the
      answers, and the score never exceeds it. */
  lemma {:induction false} ScoreDiagnosticMax(qs: seq<Data.DiagnosticQuestion>, answers: map<string, string>)
    requires HasOptions(qs) && BestNonNegative(qs)
    ensures ScoreDiagnostic(qs, answers).maxScore == SumBest(qs)
    ensures ScoreDiagnostic(qs, answers).score <= ScoreDiagnostic(qs, answers).maxScore
    decreases |qs|
  {
    if qs != [] {
      var init, q := qs[..|qs| - 1], qs[|qs| - 1];
      assert HasOptions(init);
      assert BestNonNegative(init);
      ScoreDiagnosticMax(init, answers);
      SelectedOptionSpec(q, answers);
      var o := SelectedOption(q, answers);
      if o.Some? {
        var j :| 0 <= j < |q.options| && q.options[j] == o.value;
        assert o.value.score <= Data.MaxOptionScore(q.options);
      }
    }
  }

  /** The list a verdict names. */
  function ListOf(t: DiagnosticTally, v: Verdict): seq<string>
    requires v != Unlisted
  {
    match v
    case Critical => t.criticalIssues
    case Warning => t.warnings
    case Compliant => t.compliant
  }

  /** One question adds its text to the list of its verdict and to no other. */
  lemma DiagnosticStepLists(acc: DiagnosticTally, q: Data.DiagnosticQuestion, answers: map<string, string>, v: Verdict)
    requires |q.options| > 0 && v != Unlisted
    ensures ListOf(DiagnosticStep(acc, q, answers), v) ==
            ListOf(acc, v) + (if VerdictOf(q, answers) == v then [q.text] else [])
  {
  }

  /** Each list holds the texts of the questions whose answer earns that
      verdict, in question order; as a question has one verdict, no question
      is listed twice. */
  lemma {:induction false} ScoreDiagnosticLists(qs: seq<Data.DiagnosticQuestion>, answers: map<string, string>, v: Verdict)
    requires HasOptions(qs) && v != Unlisted
    ensures ListOf(ScoreDiagnostic(qs, answers), v) == Texts(Filter(qs, VerdictIn(answers, v)))
    decreases |qs|
  {
    if qs != [] {
      var init, q := qs[..|qs| - 1], qs[|qs| - 1];
      assert HasOptions(init);
      ScoreDiagnosticLists(init, answers, v);
      DiagnosticStepLists(ScoreDiagnostic(init, answers), q, answers, v);
      var p := VerdictIn(answers, v);
      FilterLast(qs, p);
      if VerdictOf(q, answers) == v {
        assert Filter([q], p) == [q];
        TextsSnoc(Filter(init, p), q);
      } else {
        assert Filter([q], p) == [];
        assert Filter(qs, p) == Filter(init, p);
      }
    }
  }

  /** With no answers the score is 0 and every list is empty. */
  lemma {:induction false} NoAnswersScoreNothing(qs: seq<Data.DiagnosticQuestion>)
    requires HasOptions(qs)
    ensures ScoreDiagnostic(qs, map[]) == DiagnosticTally(0, SumBest(qs), [], [], [])
    decreases |qs|
  {
    if qs != [] {
      assert HasOptions(qs[..|qs| - 1]);
      NoAnswersScoreNothing(qs[..|qs| - 1]);
    }
  }

  /** The contractor's five questions and the client's four, in catalog
      order. */
  const CONTRACTOR_DIAGNOSTIC: seq<Data.DiagnosticQuestion> := [
    Data.DQ_REPSE_REGISTRO, Data.DQ_CONTRATOS_ACTIVOS, Data.DQ_IMSS_TRABAJADORES,
    Data.DQ_CONTRATOS_ESCRITOS, Data.DQ_ICSOE_SISUB]
  const CLIENT_DIAGNOSTIC: seq<Data.DiagnosticQuestion> := [
    Data.DQ_PROVEEDOR_REPSE, Data.DQ_ACTIVIDAD_PRINCIPAL, Data.DQ_DOCUMENTACION_MENSUAL,
    Data.DQ_CONTRATOS_BENEFICIARIO]

  lemma DiagnosticCatalogSplit()
    ensures Data.DIAGNOSTIC_QUESTIONS == CONTRACTOR_DIAGNOSTIC + CLIENT_DIAGNOSTIC
    ensures forall i :: 0 <= i < |CONTRACTOR_DIAGNOSTIC| ==> CONTRACTOR_DIAGNOSTIC[i].forUserTypes == [Data.Contratista]
    ensures forall i :: 0 <= i < |CLIENT_DIAGNOSTIC| ==> CLIENT_DIAGNOSTIC[i].forUserTypes == [Data.Beneficiario]
  {
  }

  /** A contractor answers the first five catalog questions. */
  lemma ContractorQuestions()
    ensures QuestionsFor(Some(Data.Contratista)) == CONTRACTOR_DIAGNOSTIC
  {
    var p := ForType(Data.Contratista);
    DiagnosticCatalogSplit();
    FilterAppend(CONTRACTOR_DIAGNOSTIC, CLIENT_DIAGNOSTIC, p);
    FilterAll(CONTRACTOR_DIAGNOSTIC, p);
    FilterNone(CLIENT_DIAGNOSTIC, p);
  }

  /** A client answers the last four. */
  lemma ClientQuestions()
    ensures QuestionsFor(Some(Data.Beneficiario)) == CLIENT_DIAGNOSTIC
  {
    var p := ForType(Data.Beneficiario);
    DiagnosticCatalogSplit();
    FilterAppend(CONTRACTOR_DIAGNOSTIC, CLIENT_DIAGNOSTIC, p);
    FilterNone(CONTRACTOR_DIAGNOSTIC, p);
    FilterAll(CLIENT_DIAGNOSTIC, p);
  }

  /** Whatever the answers, a contractor's diagnostic is out of 80 points
      and a client's out of 100. */
  lemma CompanyMaxScores(answers: map<string, string>)
    ensures QuestionsFor(Some(Data.Contratista)) == CONTRACTOR_DIAGNOSTIC && HasOptions(CONTRACTOR_DIAGNOSTIC)
    ensures QuestionsFor(Some(Data.Beneficiario)) == CLIENT_DIAGNOSTIC && HasOptions(CLIENT_DIAGNOSTIC)
    ensures ScoreDiagnostic(QuestionsFor(Some(Data.Contratista)), answers).maxScore == 80
    ensures ScoreDiagnostic(QuestionsFor(Some(Data.Beneficiario)), answers).maxScore == 100
  {
    ContractorQuestions();
    ClientQuestions();
    CatalogBestNonNegative(Some(Data.Contratista));
    CatalogBestNonNegative(Some(Data.Beneficiario));
    ScoreDiagnosticMax(CONTRACTOR_DIAGNOSTIC, answers);
    ScoreDiagnosticMax(CLIENT_DIAGNOSTIC, answers);
    ContractorSumBest();
    ClientSumBest();
  }

  function SumInts(xs: seq<int>): int
    decreases |xs|
  {
    if xs == [] then 0 else xs[0] + SumInts(xs[1..])
  }

  lemma {:induction false} SumIntsSnoc(xs: seq<int>, x: int)
    ensures SumInts(xs + [x]) == SumInts(xs) + x
    decreases |xs|
  {
    if xs != [] {
      assert (xs + [x])[1..] == xs[1..] + [x];
      SumIntsSnoc(xs[1..], x);
    }
  }

  /** Questions whose best scores are `bests` have a maximum of their sum. */
  lemma {:induction false} SumBestIs(qs: seq<Data.DiagnosticQuestion>, bests: seq<int>)
    requires HasOptions(qs) && |bests| == |qs|
    requires forall i :: 0 <= i < |qs| ==> Data.MaxOptionScore(qs[i].options) == bests[i]
    ensures SumBest(qs) == SumInts(bests)
    decreases |qs|
  {
    if qs != [] {
      var n := |qs| - 1;
      var init, binit := qs[..n], bests[..n];
      assert HasOptions(init);
      assert forall i :: 0 <= i < |init| ==> Data.MaxOptionScore(init[i].options) == binit[i] by {
        forall i | 0 <= i < |init|
          ensures Data.MaxOptionScore(init[i].options) == binit[i]
        {
          assert init[i] == qs[i] && binit[i] == bests[i];
        }
      }
      SumBestIs(init, binit);
      SumIntsSnoc(binit, bests[n]);
      assert binit + [bests[n]] == bests;
      assert SumBest(qs) == SumBest(init) + Data.MaxOptionScore(qs[n].options);
    }
  }

  lemma ContractorSumBest()
    ensures HasOptions(CONTRACTOR_DIAGNOSTIC) && SumBest(CONTRACTOR_DIAGNOSTIC) == 80
  {
    var s, bests := CONTRACTOR_DIAGNOSTIC, [20, 10, 20, 15, 15];
    forall i | 0 <= i < 5
      ensures |s[i].options| > 0 && Data.MaxOptionScore(s[i].options) == bests[i]
    {
      assert s[i] == Data.DIAGNOSTIC_QUESTIONS[i];
      Data.BestScoreAt(i);
    }
    SumBestIs(s, bests);
  }

  lemma ClientSumBest()
    ensures HasOptions(CLIENT_DIAGNOSTIC) && SumBest(CLIENT_DIAGNOSTIC) == 100
  {
    var s, bests := CLIENT_DIAGNOSTIC, [25, 25, 25, 25];
    forall i | 0 <= i < 4
      ensures |s[i].options| > 0 && Data.MaxOptionScore(s[i].options) == bests[i]
    {
      assert s[i] == Data.DIAGNOSTIC_QUESTIONS[i + 5];
      Data.BestScoreAt(i + 5);
    }
    SumBestIs(s, bests);
  }

  /** The result `calculateResult` builds. */
  function ResultFor(qs: seq<Data.DiagnosticQuestion>, answers: map<string, string>, t: Data.UserType,
                     completedAt: string): AppContext.DiagnosticResult
    requires HasOptions(qs)
  {
    var tally := ScoreDiagnostic(qs, answers);
    AppContext.DiagnosticResult(tally.score, tally.maxScore, tally.criticalIssues, tally.warnings,
                                tally.compliant, t, completedAt, answers)
  }

  /** `calculateResult`: the current question's answer merged into the
      answers given so far, then one pass over the questions. The screen's
      state it reads is passed in. */
  method CalculateResult(questions: seq<Data.DiagnosticQuestion>, answers: map<string, string>,
                         currentQuestion: Data.DiagnosticQuestion, lastAnswerValue: string,
                         userType: Data.UserType, completedAt: string) returns (r: AppContext.DiagnosticResult)
    requires HasOptions(questions)
    ensures r == ResultFor(questions, answers[currentQuestion.id := lastAnswerValue], userType, completedAt)
  {
    var finalAnswers := answers[currentQuestion.id := lastAnswerValue];
    var score, maxScore := 0, 0;
    var criticalIssues, warnings, compliant := [], [], [];
    for i := 0 to |questions|
      invariant HasOptions(questions[..i])
      invariant DiagnosticTally(score, maxScore, criticalIssues, warnings, compliant)
                == ScoreDiagnostic(questions[..i], finalAnswers)
    {
      var question := questions[i];
      ScoreDiagnosticNext(questions, i, finalAnswers);
      ghost var before := DiagnosticTally(score, maxScore, criticalIssues, warnings, compliant);
      var selectedOption := SelectedOption(question, finalAnswers);
      var questionMaxScore := Data.MaxOptionScore(question.options);
      maxScore := maxScore + questionMaxScore;
      if selectedOption.Some? {
        score := score + selectedOption.value.score;
        if selectedOption.value.isCritical {
          criticalIssues := criticalIssues + [question.text];
        } else if selectedOption.value.score < questionMaxScore && selectedOption.value.score > 0 {
          warnings := warnings + [question.text];
        } else if selectedOption.value.score == questionMaxScore {
          compliant := compliant + [question.text];
        }
      }
      assert DiagnosticTally(score, maxScore, criticalIssues, warnings, compliant)
             == DiagnosticStep(before, question, finalAnswers);
    }
    assert questions[..|questions|] == questions;
    r := AppContext.DiagnosticResult(score, maxScore, criticalIssues, warnings, compliant,
                                     userType, completedAt, finalAnswers);
  }

  // ---------------------------------------------------------------------
  // The level

  datatype ResultLevel = High | Medium | Low

  function LevelRank(l: ResultLevel): nat
  {
    match l
    case Low => 0
    case Medium => 1
    case High => 2
  }

  /** `(score / maxScore) * 100 >= limit`, over the rationals: a zero
      maximum gives an infinite percentage for a positive score and NaN
      (never at least anything) for a zero score. */
  predicate PercentageAtLeast(score: int, maxScore: int, limit: int)
  {
    if maxScore > 0 then 100 * score >= limit * maxScore
    else if maxScore < 0 then 100 * score <= limit * maxScore
    else score > 0
  }

  /** `getResultLevel`: high from 80%, medium from 50%, low below. */
  function GetResultLevel(score: int, maxScore: int): (l: ResultLevel)
    ensures maxScore > 0 ==> (l == High <==> 100 * score >= 80 * maxScore)
    ensures maxScore > 0 ==> (l == Low <==> 100 * score < 50 * maxScore)
    ensures maxScore == 0 ==> (l == High <==> score > 0) && (l == Low <==> score <= 0)
  {
    if PercentageAtLeast(score, maxScore, 80) then High
    else if PercentageAtLeast(score, maxScore, 50) then Medium
    else Low
  }

  /** For a positive maximum, a higher score never gives a lower level. */
  lemma ResultLevelMonotone(s1: int, s2: int, maxScore: int)
    requires maxScore > 0 && s1 <= s2
    ensures LevelRank(GetResultLevel(s1, maxScore)) <= LevelRank(GetResultLevel(s2, maxScore))
  {
  }

  // ---------------------------------------------------------------------
  // The screen

  class DiagnosticScreen {
    var step: Step
    var selectedUserType: Option<Data.UserType>
    var currentQuestionIndex: nat
    var answers: map<string, string>
    var result: Option<AppContext.DiagnosticResult>
    /** The provider `saveDiagnosticResult` writes to. */
    const app: AppContext.AppStore

    constructor(app: AppContext.AppStore)
      ensures this.app == app
      ensures step == UserTypeStep && selectedUserType.None? && currentQuestionIndex == 0
      ensures answers == map[] && result.None?
    {
      this.app := app;
      step := UserTypeStep;
      selectedUserType := None;
      currentQuestionIndex := 0;
      answers := map[];
      result := None;
    }

    /** `questions`. */
    function Questions(): seq<Data.DiagnosticQuestion>
      reads this`selectedUserType
    {
      QuestionsFor(selectedUserType)
    }

    /** `handleUserTypeSelect`: a worker goes to the worker page, a general
        reader to the general page, a company to the questions. */
    method HandleUserTypeSelect(t: Data.UserType)
      modifies `selectedUserType, `step
      ensures selectedUserType == Some(t)
      ensures step == match t
                      case Trabajador => WorkerInfo
                      case General => GeneralInfo
                      case _ => QuestionsStep
    {
      selectedUserType := Some(t);
      if t == Data.Trabajador {
        step := WorkerInfo;
        return;
      }
      if t == Data.General {
        step := GeneralInfo;
        return;
      }
      step := QuestionsStep;
    }

    /** The result `calculateResult` gives when the current question is
        answered with `lastAnswerValue`: the catalog questions scored against
        the answers so far plus that one. */
    function PendingResult(lastAnswerValue: string, completedAt: string): AppContext.DiagnosticResult
      reads this`selectedUserType, this`answers, this`currentQuestionIndex
      requires currentQuestionIndex < |Questions()|
    {
      var questions := QuestionsFor(selectedUserType);
      CatalogHasOptions(selectedUserType);
      ResultFor(questions, answers[questions[currentQuestionIndex].id := lastAnswerValue],
                selectedUserType.value, completedAt)
    }

    /** `handleAnswer`: the answer is stored under the question's id; before
        the last question the cursor moves on, on the last one the result is
        computed, saved to the provider and shown. */
    method HandleAnswer(questionId: string, value: string, completedAt: string, savedAt: string)
      requires currentQuestionIndex < |Questions()|
      modifies `answers, `currentQuestionIndex, `result, `step, app`data
      ensures answers == old(answers)[questionId := value]
      ensures old(currentQuestionIndex) < |Questions()| - 1 ==>
        currentQuestionIndex == old(currentQuestionIndex) + 1 &&
        result == old(result) && step == old(step) && app.data == old(app.data)
      ensures old(currentQuestionIndex) == |Questions()| - 1 ==>
        var r := old(PendingResult(value, completedAt));
        currentQuestionIndex == old(currentQuestionIndex) && result == Some(r) && step == ResultStep &&
        app.data == old(app.data).(diagnosticResult := Some(r), userType := Some(r.userType), lastUpdated := savedAt)
    {
      if currentQuestionIndex < |Questions()| - 1 {
        answers := answers[questionId := value];
        currentQuestionIndex := currentQuestionIndex + 1;
      } else {
        var r := PendingResultOf(value, completedAt);
        answers := answers[questionId := value];
        result := Some(r);
        app.SaveDiagnosticResult(r, savedAt);
        step := ResultStep;
      }
    }

    /** `calculateResult` run on the screen's state. */
    method PendingResultOf(lastAnswerValue: string, completedAt: string) returns (r: AppContext.DiagnosticResult)
      requires currentQuestionIndex < |Questions()|
      ensures r == PendingResult(lastAnswerValue, completedAt)
    {
      var questions := QuestionsFor(selectedUserType);
      CatalogHasOptions(selectedUserType);
      r := CalculateResult(questions, answers, questions[currentQuestionIndex], lastAnswerValue,
                           selectedUserType.value, completedAt);
    }

    /** `handlePrevious`: back one question, or from the first question back
        to the profile choice with the profile and the answers cleared. */
    method HandlePrevious()
      modifies `currentQuestionIndex, `step, `selectedUserType, `answers
      ensures old(currentQuestionIndex) > 0 ==>
        currentQuestionIndex == old(currentQuestionIndex) - 1 &&
        step == old(step) && selectedUserType == old(selectedUserType) && answers == old(answers)
      ensures old(currentQuestionIndex) == 0 ==>
        currentQuestionIndex == 0 && step == UserTypeStep && selectedUserType.None? && answers == map[]
    {
      if currentQuestionIndex > 0 {
        currentQuestionIndex := currentQuestionIndex - 1;
      } else {
        step := UserTypeStep;
        selectedUserType := None;
        answers := map[];
      }
    }

    /** `handleRestart`: back to the profile choice with everything cleared. */
    method HandleRestart()
      modifies `step, `selectedUserType, `currentQuestionIndex, `answers, `result
      ensures step == UserTypeStep && selectedUserType.None? && currentQuestionIndex == 0
      ensures answers == map[] && result.None?
    {
      step := UserTypeStep;
      selectedUserType := None;
      currentQuestionIndex := 0;
      answers := map[];
      result := None;
    }
  }
}
