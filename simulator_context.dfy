/** The inspection simulator's session: the state the provider keeps and the
    handlers the screens call, one method per handler. Times and ids that the
    source reads from the clock are parameters. */
module SimulatorContext {
  import opened Common
  import opened Catalog
  import opened Engine
  import AP = ActionPlan

  class Simulator {
    /** The documents, questions and verification points the session reads. */
    const catalog: SimulatorCatalog
    var phase: Phase
    var inspectionType: Option<InspectionType>
    var profile: Option<ProfileType>
    var dialogueIndex: nat
    var documentResults: seq<DocumentResult>
    var questionIndex: nat
    var questionResults: seq<QuestionResult>
    var verificationResults: seq<VerificationResult>
    var simulationResult: Option<SimulationResult>
    var actionItems: seq<AP.ActionItem>
    var startTime: Option<int>
    var history: seq<SimulationResult>

    /** Each document and each verification point has at most one result,
        and the plan on screen is ordered by priority. */
    predicate Valid()
      reads this
    {
      ResultsValid() && PlanValid()
    }

    predicate ResultsValid()
      reads this`documentResults, this`verificationResults
    {
      UniqueKeys(documentResults, DocumentKey) &&
      UniqueKeys(verificationResults, VerificationKey)
    }

    /** Only relevant documents and relevant verification points have
        results. The recorders keep this, and so do the selections while
        nothing has been recorded. */
    predicate ResultsRelevant()
      reads this`documentResults, this`verificationResults, this`profile, this`inspectionType
    {
      DocumentsAmong(documentResults, RelevantDocuments(catalog, profile, inspectionType)) &&
      PointsAmong(verificationResults, RelevantVerificationPoints(catalog, profile, inspectionType))
    }

    predicate PlanValid()
      reads this`actionItems
    {
      AP.SortedByPriority(actionItems)
    }

    /** A fresh session; the history is whatever the store holds. */
    constructor(stored: AP.StoredHistory)
      ensures catalog == SIMULATOR_CATALOG
      ensures Valid()
      ensures phase == Selection && inspectionType.None? && profile.None?
      ensures dialogueIndex == 0 && questionIndex == 0
      ensures documentResults == [] && questionResults == [] && verificationResults == []
      ensures simulationResult.None? && actionItems == [] && startTime.None?
      ensures history == AP.LoadHistory(stored)
      ensures ResultsRelevant()
    {
      catalog := SIMULATOR_CATALOG;
      phase := Selection;
      inspectionType := None;
      profile := None;
      dialogueIndex := 0;
      documentResults := [];
      questionIndex := 0;
      questionResults := [];
      verificationResults := [];
      simulationResult := None;
      actionItems := [];
      startTime := None;
      history := AP.LoadHistory(stored);
    }

    /** `currentQuestion`: the question at the current index, if any. */
    function CurrentQuestion(): (q: Option<QuestionRule>)
      reads this
      ensures q.Some? <==> questionIndex < |RelevantQuestions(catalog, profile, inspectionType)|
      ensures q.Some? ==> q.value == RelevantQuestions(catalog, profile, inspectionType)[questionIndex]
    {
      var qs := RelevantQuestions(catalog, profile, inspectionType);
      if questionIndex < |qs| then Some(qs[questionIndex]) else None
    }

    /** `resetSimulator`: back to the selection screen with nothing recorded;
        the history is kept. */
    method ResetSimulator()
      modifies this
      ensures Valid()
      ensures phase == Selection && inspectionType.None? && profile.None?
      ensures dialogueIndex == 0 && questionIndex == 0
      ensures documentResults == [] && questionResults == [] && verificationResults == []
      ensures simulationResult.None? && actionItems == [] && startTime.None?
      ensures history == old(history)
      ensures ResultsRelevant()
    {
      phase := Selection;
      inspectionType := None;
      profile := None;
      dialogueIndex := 0;
      documentResults := [];
      questionIndex := 0;
      questionResults := [];
      verificationResults := [];
      simulationResult := None;
      actionItems := [];
      startTime := None;
    }

    /** `selectInspectionType`. */
    method SelectInspectionType(t: InspectionType)
      requires Valid()
      modifies this
      ensures Valid()
      ensures inspectionType == Some(t) && phase == Profile
      ensures profile == old(profile) && dialogueIndex == old(dialogueIndex)
      ensures documentResults == old(documentResults) && questionIndex == old(questionIndex)
      ensures questionResults == old(questionResults) && verificationResults == old(verificationResults)
      ensures simulationResult == old(simulationResult) && actionItems == old(actionItems)
      ensures startTime == old(startTime) && history == old(history)
      ensures documentResults == [] && verificationResults == [] ==> ResultsRelevant()
    {
      inspectionType := Some(t);
      phase := Profile;
    }

    /** `selectProfile`: the session clock starts at `now`. */
    method SelectProfile(p: ProfileType, now: int)
      requires Valid()
      modifies this
      ensures Valid()
      ensures profile == Some(p) && phase == Intro && startTime == Some(now)
      ensures inspectionType == old(inspectionType) && dialogueIndex == old(dialogueIndex)
      ensures documentResults == old(documentResults) && questionIndex == old(questionIndex)
      ensures questionResults == old(questionResults) && verificationResults == old(verificationResults)
      ensures simulationResult == old(simulationResult) && actionItems == old(actionItems)
      ensures history == old(history)
      ensures documentResults == [] && verificationResults == [] ==> ResultsRelevant()
    {
      profile := Some(p);
      phase := Intro;
      startTime := Some(now);
    }

    /** `advanceDialogue`. */
    method AdvanceDialogue()
      modifies `dialogueIndex
      ensures dialogueIndex == old(dialogueIndex) + 1
    {
      dialogueIndex := dialogueIndex + 1;
    }

    /** `startDocumentPhase`. */
    method StartDocumentPhase()
      modifies `phase, `dialogueIndex
      ensures phase == Documents && dialogueIndex == 0
    {
      phase := Documents;
      dialogueIndex := 0;
    }

    /** `handleDocumentResponse`: record the inspector's verdict on one
        relevant document, replacing any earlier verdict on it. */
    method HandleDocumentResponse(id: string, presented: bool, valid: bool)
      requires Valid()
      modifies `documentResults
      ensures Valid()
      ensures documentResults ==
        RecordDocument(old(documentResults), RelevantDocuments(catalog, profile, inspectionType), id, presented, valid)
      ensures old(ResultsRelevant()) ==> ResultsRelevant()
    {
      var relevant := RelevantDocuments(catalog, profile, inspectionType);
      var updated := RecordDocument(documentResults, relevant, id, presented, valid);
      if exists i :: 0 <= i < |relevant| && relevant[i].id == id {
        UpsertKeepsUniqueKeys(documentResults, DocumentKey, updated[|updated| - 1]);
      }
      if ResultsRelevant() {
        RecordDocumentStaysAmong(documentResults, relevant, id, presented, valid);
      }
      documentResults := updated;
    }

    /** `startInterrogationPhase`. */
    method StartInterrogationPhase()
      modifies `phase, `dialogueIndex, `questionIndex
      ensures phase == Interrogation && dialogueIndex == 0 && questionIndex == 0
    {
      phase := Interrogation;
      dialogueIndex := 0;
      questionIndex := 0;
    }

    /** `startVerificationPhase`. */
    method StartVerificationPhase()
      modifies `phase, `dialogueIndex
      ensures phase == Verification && dialogueIndex == 0
    {
      phase := Verification;
      dialogueIndex := 0;
    }

    /** `handleVerificationResponse`: record the status of one relevant
        verification point, replacing any earlier one. */
    method HandleVerificationResponse(id: string, status: VerificationStatus)
      requires Valid()
      modifies `verificationResults
      ensures Valid()
      ensures verificationResults ==
        RecordVerification(old(verificationResults), RelevantVerificationPoints(catalog, profile, inspectionType), id, status)
      ensures old(ResultsRelevant()) ==> ResultsRelevant()
    {
      var relevant := RelevantVerificationPoints(catalog, profile, inspectionType);
      var updated := RecordVerification(verificationResults, relevant, id, status);
      if exists i :: 0 <= i < |relevant| && relevant[i].id == id {
        UpsertKeepsUniqueKeys(verificationResults, VerificationKey, updated[|updated| - 1]);
      }
      if ResultsRelevant() {
        RecordVerificationStaysAmong(verificationResults, relevant, id, status);
      }
      verificationResults := updated;
    }

    /** `generateActionPlan`: push the actions the result calls for, then
        sort them by priority. */
    method GenerateActionPlan(result: SimulationResult)
      modifies `actionItems
      ensures actionItems == AP.ActionPlanFor(result)
      ensures AP.SortedByPriority(actionItems)
    {
      var actions: seq<AP.ActionItem> := [];
      ghost var pushed := AP.PushIf(actions, AP.NeedsRepse(result), AP.GET_REPSE);
      if AP.NeedsRepse(result) {
        actions := actions + [AP.GET_REPSE];
      }
      assert actions == pushed;
      pushed := AP.PushIf(actions, AP.NeedsContracts(result), AP.FORMALIZE_CONTRACTS);
      if AP.NeedsContracts(result) {
        actions := actions + [AP.FORMALIZE_CONTRACTS];
      }
      assert actions == pushed;
      pushed := AP.PushIf(actions, AP.NeedsImss(result), AP.REGISTER_IMSS);
      if AP.NeedsImss(result) {
        actions := actions + [AP.REGISTER_IMSS];
      }
      assert actions == pushed;
      pushed := AP.PushIf(actions, AP.NeedsIcsoe(result), AP.UPDATE_ICSOE_SISUB);
      if AP.NeedsIcsoe(result) {
        actions := actions + [AP.UPDATE_ICSOE_SISUB];
      }
      assert actions == pushed;
      assert actions == AP.Candidates(result);
      AP.SortSorted(actions);
      actionItems := AP.SortByPriority(actions);
    }

    /** `saveResult`: the new result goes first and the history keeps the
        ten most recent; the write to the store is taken to succeed. */
    method SaveResult(result: SimulationResult)
      modifies `history
      ensures history == AP.SaveToHistory(result, old(history))
      ensures history[0] == result && |history| <= AP.HISTORY_LIMIT
    {
      history := AP.SaveToHistory(result, history);
    }

    /** The tail of `calculateFinalResult`: show the result, build its plan
        and save it. */
    method Conclude(result: SimulationResult)
      requires Valid()
      modifies `simulationResult, `actionItems, `history, `phase
      ensures Valid()
      ensures simulationResult == Some(result) && actionItems == AP.ActionPlanFor(result)
      ensures history == AP.SaveToHistory(result, old(history)) && phase == Results
    {
      simulationResult := Some(result);
      GenerateActionPlan(result);
      SaveResult(result);
      phase := Results;
    }

    /** `calculateFinalResult`: with a type and a profile chosen, score the
        session, build the plan, save the result and show it; otherwise do
        nothing. */
    method CalculateFinalResult(id: string, date: string)
      requires Valid()
      modifies `simulationResult, `actionItems, `history, `phase
      ensures Valid()
      ensures inspectionType.None? || profile.None? ==>
        phase == old(phase) && simulationResult == old(simulationResult) &&
        actionItems == old(actionItems) && history == old(history)
      ensures inspectionType.Some? && profile.Some? ==>
        var r := FinalResult(catalog, id, date, inspectionType.value, profile.value,
                             documentResults, questionResults, verificationResults);
        simulationResult == Some(r) && actionItems == AP.ActionPlanFor(r) &&
        history == AP.SaveToHistory(r, old(history)) && phase == Results
    {
      if inspectionType.None? || profile.None? {
        return;
      }
      var result := ScoreSimulation(catalog, id, date, inspectionType.value, profile.value,
                                    documentResults, questionResults, verificationResults);
      Conclude(result);
    }

    /** `handleQuestionAnswer`, as intended: record the answer to the current
        question, then move on (see `MoveOnFromQuestion`). */
    method HandleQuestionAnswer(answerId: Option<string>, id: string, date: string)
      requires Valid()
      modifies `questionResults, `questionIndex, `phase, `dialogueIndex,
               `simulationResult, `actionItems, `history
      ensures Valid()
      ensures old(CurrentQuestion()).None? ==>
        questionResults == old(questionResults) && questionIndex == old(questionIndex) &&
        phase == old(phase) && dialogueIndex == old(dialogueIndex) &&
        simulationResult == old(simulationResult) &&
        actionItems == old(actionItems) && history == old(history)
      ensures old(CurrentQuestion()).Some? ==>
        questionResults == old(questionResults) + [AnswerQuestion(old(CurrentQuestion()).value, answerId)] &&
        MovedOn(old(questionIndex), old(phase), old(dialogueIndex), old(simulationResult),
                old(actionItems), old(history), id, date)
    {
      var current := CurrentQuestion();
      if current.None? {
        return;
      }
      questionResults := questionResults + [AnswerQuestion(current.value, answerId)];
      MoveOnFromQuestion(id, date);
    }

    /** Where the session stands after an answer to question `index`: on the
        next question; past the last one, in the verification phase when the
        inspection type has one, and otherwise on the final result, scored
        with every answer given, with its plan built and saved to the
        history. Whatever a path does not mention keeps its earlier value. */
    predicate MovedOn(index: nat, phase0: Phase, dialogue0: nat, result0: Option<SimulationResult>,
                      items0: seq<AP.ActionItem>, history0: seq<SimulationResult>, id: string, date: string)
      reads this
    {
      var count := |RelevantQuestions(catalog, profile, inspectionType)|;
      (index + 1 < count ==>
         questionIndex == index + 1 && phase == phase0 && dialogueIndex == dialogue0 &&
         simulationResult == result0 && actionItems == items0 && history == history0) &&
      (index + 1 >= count && HasVerificationPhase(inspectionType) ==>
         questionIndex == index && phase == Verification && dialogueIndex == 0 &&
         simulationResult == result0 && actionItems == items0 && history == history0) &&
      (index + 1 >= count && !HasVerificationPhase(inspectionType) ==>
         questionIndex == index && phase == Results && dialogueIndex == dialogue0 &&
         inspectionType.Some? && profile.Some? &&
         var r := FinalResult(catalog, id, date, inspectionType.value, profile.value,
                              documentResults, questionResults, verificationResults);
         simulationResult == Some(r) && actionItems == AP.ActionPlanFor(r) &&
         history == AP.SaveToHistory(r, history0))
    }

    /** The branch at the end of `handleQuestionAnswer`. */
    method MoveOnFromQuestion(id: string, date: string)
      requires Valid()
      requires questionIndex < |RelevantQuestions(catalog, profile, inspectionType)|
      modifies `questionIndex, `phase, `dialogueIndex, `simulationResult, `actionItems, `history
      ensures Valid()
      ensures MovedOn(old(questionIndex), old(phase), old(dialogueIndex), old(simulationResult),
                      old(actionItems), old(history), id, date)
    {
      ghost var index, phase0, dialogue0 := questionIndex, phase, dialogueIndex;
      ghost var result0, items0, history0 := simulationResult, actionItems, history;
      var count := |RelevantQuestions(catalog, profile, inspectionType)|;
      var verification := HasVerificationPhase(inspectionType);
      if questionIndex < count - 1 {
        questionIndex := questionIndex + 1;
      } else if verification {
        StartVerificationPhase();
      } else {
        RelevantQuestionsNeedSelection(catalog, profile, inspectionType);
        CalculateFinalResult(id, date);
      }
      assert count == |RelevantQuestions(catalog, profile, inspectionType)|;
      assert MovedOn(index, phase0, dialogue0, result0, items0, history0, id, date);
    }

    /** `showResults`. */
    method ShowResults(id: string, date: string)
      requires Valid()
      modifies `simulationResult, `actionItems, `history, `phase
      ensures Valid()
      ensures inspectionType.Some? && profile.Some? ==>
        var r := FinalResult(catalog, id, date, inspectionType.value, profile.value,
                             documentResults, questionResults, verificationResults);
        simulationResult == Some(r) && actionItems == AP.ActionPlanFor(r) &&
        history == AP.SaveToHistory(r, old(history)) && phase == Results
      ensures inspectionType.None? || profile.None? ==>
        phase == old(phase) && simulationResult == old(simulationResult) &&
        actionItems == old(actionItems) && history == old(history)
    {
      CalculateFinalResult(id, date);
    }

    /** `showActionPlan`. */
    method ShowActionPlan()
      modifies `phase
      ensures phase == Phase.ActionPlan
    {
      phase := Phase.ActionPlan;
    }

    /** `toggleActionComplete`: flip one action's completion mark; the plan
        keeps its order. */
    method ToggleActionComplete(actionId: string)
      requires Valid()
      modifies `actionItems
      ensures Valid()
      ensures actionItems == AP.ToggleActionComplete(old(actionItems), actionId)
    {
      AP.ToggleTwice(actionItems, actionId);
      actionItems := AP.ToggleActionComplete(actionItems, actionId);
    }
  }

  /** Questions are only relevant once a profile and a type are chosen. */
  lemma RelevantQuestionsNeedSelection(cat: SimulatorCatalog, p: Option<ProfileType>, t: Option<InspectionType>)
    requires |RelevantQuestions(cat, p, t)| > 0
    ensures p.Some? && t.Some?
  {
  }
}
