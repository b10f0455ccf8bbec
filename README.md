# REPSE compliance app — verified model of the core

This project models the logic core of a mobile app that helps Mexican
companies comply with the REPSE outsourcing rules (the register of
specialised-service providers and the obligations in the labour law,
the social-security law and the tax code that come with it):

- **the inspection simulator** (`SimulatorContext`, `Engine`, `Catalog`):
  - the user picks an inspection type (ordinaria, extraordinaria,
    constatación) and a profile (contratista, beneficiario);
  - the user then answers three phases: the documents an inspector asks
    for, an interrogation, and an on-site verification (not in a
    constatación);
  - the session is scored: points normalised to 0–100, a compliance
    level, the infractions with their fine range in UMA, crime and
    REPSE-cancellation risk flags, and counts;
  - an action plan is built from the result and sorted by priority;
  - the result is kept in a history of at most ten sessions;
- **the simulator screen's helpers** (`SimulatorScreen`):
  - the `mm:ss` timer text and the intro dialogue script;
  - the lookup of the inspector's dialogue for a phase;
  - the guards that open "continue" once every document or point is
    answered;
  - the split of infractions into grave and minor ones;
- **the diagnostic questionnaire** (`Diagnostic`, `Data`):
  - the questions shown for a user type;
  - navigation back and forth, restart;
  - scoring against the best option of each question, with critical
    issues, warnings and compliant items;
  - the result level;
- **the app store** (`AppContext`): the persisted user type, diagnostic
  result and checklist state, checklist toggling and notes, and the
  checklist progress of a profile.

Modelling conventions:

- Money is in integer centavos. One UMA is 113.14 pesos = 11314 centavos.
- JavaScript's `Math.round(a / b)` with `b > 0` is `Catalog.RoundHalfUp`:
  it rounds half up, exactly.
- The React state of a context or a screen is a `class` whose fields its
  handlers reassign. Each handler is a `method` whose `ensures` gives the
  whole new state.
- Pure computations are functions, with lemmas about them:
  - the relevant subsets, the score fold, the fines, the action plan;
  - the checklist state, the questionnaire fold, the time text.
- The three scoring loops of `calculateFinalResult` and the loop of the
  questionnaire's `calculateResult` are methods with `for` loops. Each
  one is proved equal to the fold that specifies it.
- Clocks (`Date.now`, `toISOString`) and generated ids are parameters.

Two details the model keeps from the code:

- the compliance level of a simulation comes from the normalised score
  against 100 (contexts/SimulatorContext.tsx:415), not from the raw points;
- the action plan is built when the result is computed
  (contexts/SimulatorContext.tsx:456-459), not when the plan screen is
  opened.

## Model

| member | source | states |
|---|---|---|
| Catalog.VerificationPhaseIffNotConstatacion | constants/simulator.ts:22-65 | every inspection type has a configuration, and its phases include verification exactly when it is not a constatación |
| Catalog.RoundHalfUp | contexts/SimulatorContext.tsx:414 | `Math.round(a/b)`: the result is within half a unit of a/b, rounding halves up |
| Catalog.CalculateFineAmount | constants/simulator.ts:736-741 | both bounds are whole pesos and within half a peso of the UMA count times 113.14 |
| Catalog.FineAmountOrdered | constants/simulator.ts:736-741 | a range with min ≤ max in UMA gives min ≤ max in money; a multiple of 50 UMA converts exactly |
| Catalog.GetComplianceLevel | constants/simulator.ts:743-748 | alto iff the score is at least 80 % of the maximum, bajo iff below 60 %, otherwise medio; bajo when the maximum is not positive |
| Catalog.DocumentRulesWellFormed | constants/simulator.ts:81-251 | every document is worth positive points and has an ordered fine range whose minimum is a multiple of 50 UMA; only the training record (capacitacion) is not obligatory |
| Catalog.CrimeImpliesGrave | constants/simulator.ts:276-590 | every option or verification point flagged as a crime is also a grave infraction |
| Catalog.VerificationPointSigns | constants/simulator.ts:525-590 | every verification point gives positive points for complies, negative for does not comply, zero for not applicable |
| SimulatorScreen.CatalogIdsDistinct | constants/simulator.ts:81-590 | no two catalog documents share an id, nor do two verification points |
| Data.MaxOptionScore | app/diagnostic.tsx:124 | the best option score of a question bounds every option and is reached by one |
| Data.DiagnosticQuestionsSingleProfile | constants/data.ts:24-120 | every diagnostic question is asked of exactly one profile, contratista or beneficiario |
| Data.DiagnosticOptionValuesUnique | constants/data.ts:24-120 | within a question no two options share a value, so an answer selects at most one option |
| Data.BestScoreAt | constants/data.ts:24-120 | the best score of each diagnostic question, and every critical option scores below it |
| Data.CriticalBelowMaximum | constants/data.ts:24-120 | every question has options, and a critical option never has the best score |
| Data.ChecklistOnlyCompanyProfiles | constants/data.ts:133-234 | no checklist item is meant for the worker or general profile |
| Engine.RelevantDocuments | contexts/SimulatorContext.tsx:150-155 | empty without a profile and type; otherwise every listed document is a catalog document for that profile and type, and every such document is listed |
| Engine.RelevantQuestions | contexts/SimulatorContext.tsx:157-162 | empty without a profile and type; otherwise every listed question is a catalog question for that profile and type, and every such question is listed |
| Engine.RelevantVerificationPoints | contexts/SimulatorContext.tsx:164-168 | empty without a profile or a verification phase; otherwise every listed point is a catalog point for the profile, and every such point is listed |
| Engine.RelevantDocumentsInOrder | contexts/SimulatorContext.tsx:150-155 | the relevant documents are the catalog documents at strictly increasing positions, exactly the positions whose document applies to the profile and type: each once, in catalog order |
| Engine.RelevantQuestionsInOrder | contexts/SimulatorContext.tsx:157-162 | the relevant questions are the applicable catalog questions, each once and in catalog order, so the question asked at each step is the next applicable one |
| Engine.RelevantVerificationPointsInOrder | contexts/SimulatorContext.tsx:164-168 | with a verification phase, the relevant points are the catalog points for the profile, each once and in catalog order |
| Engine.ConstatacionHasNoVerificationPoints | contexts/SimulatorContext.tsx:164-168 | a constatación has no verification points for either profile, an ordinaria has some |
| Engine.DocumentOutcome | contexts/SimulatorContext.tsx:211-236 | a document's result keeps the response; presented and valid it earns the document's points, presented with defects half of them rounded down (`Math.floor(points * 0.5)`), missing it costs the points if obligatory and nothing if recommended; the observation is absent iff presented valid, otherwise "Documento con observaciones", "Falta documento obligatorio: " + the name, or "Documento recomendado no presentado"; points are negative iff an obligatory document is missing |
| Engine.DocumentOutcomeMonotone | contexts/SimulatorContext.tsx:214-228 | presenting a document never scores less than missing it, and a valid one never less than an invalid one |
| Engine.RecordDocument | contexts/SimulatorContext.tsx:211-242 | a response for an irrelevant document changes nothing; otherwise the result is upserted by document id at the end of the list |
| Engine.RecordDocumentReplaces | contexts/SimulatorContext.tsx:238-241 | after a response exactly one result for that document remains, the latest, and other documents' results are untouched |
| Engine.RecordDocumentStaysAmong | contexts/SimulatorContext.tsx:211-241 | if every document result is for a relevant document, it stays so after a response |
| Engine.AnswerQuestion | contexts/SimulatorContext.tsx:250-282 | a skipped answer or one without options scores −2 with the not-answered note; otherwise the chosen option's points, observation and flags, or 0 points and no flag when the id names no option |
| Engine.AnswerCrimeIsGrave | constants/simulator.ts:276-509 | for every catalog question, an answer flagged as a crime is also a grave infraction |
| Engine.VerificationOutcome | contexts/SimulatorContext.tsx:303-327 | a point's result keeps the status, takes its points from the point's value for that status (complies, not complies, not applicable), and carries the point's observation iff it does not comply |
| Engine.VerificationOutcomeOrdered | contexts/SimulatorContext.tsx:310-320 | for every catalog point: not complying scores below zero, not applicable zero, complying above zero |
| Engine.RecordVerification | contexts/SimulatorContext.tsx:303-333 | a response for an irrelevant point changes nothing; otherwise the result is upserted by point id at the end of the list |
| Engine.RecordVerificationReplaces | contexts/SimulatorContext.tsx:329-332 | after a response exactly one result for that point remains, the latest, and other points' results are untouched |
| Engine.RecordVerificationStaysAmong | contexts/SimulatorContext.tsx:303-332 | if every verification result is for a relevant point, it stays so after a response |
| Engine.BestCorrectPoints | contexts/SimulatorContext.tsx:370-372 | none iff no option is correct; otherwise the largest points among the correct options |
| Engine.QuestionMaxPoints | contexts/SimulatorContext.tsx:368-372 | a question's share of the maximum is positive when it has options, the best correct option's points when those are positive |
| Engine.CatalogQuestionsHaveCorrectOption | constants/simulator.ts:276-509 | every catalog question has options and a correct one with positive points, which is its share of the maximum |
| Engine.NormalizedScore | contexts/SimulatorContext.tsx:414 | the score is clamped to 0–100, is the rounded percentage in between, 100 from the maximum up, 0 from zero down |
| Engine.DocumentPass | contexts/SimulatorContext.tsx:344-366 | the document loop computes the document fold: points, maximum, infractions, REPSE flag |
| Engine.QuestionPass | contexts/SimulatorContext.tsx:368-391 | the question loop computes the question fold: points, maximum, infractions, crime and REPSE flags |
| Engine.VerificationPass | contexts/SimulatorContext.tsx:393-412 | the verification loop computes the verification fold: points, maximum, infractions, crime flag |
| Engine.ScoreSimulation | contexts/SimulatorContext.tsx:335-456 | the whole computation returns the specified final result |
| Engine.ScoreDocumentsInfractions | contexts/SimulatorContext.tsx:344-366 | the document pass appends exactly one infraction per missing obligatory document and keeps earlier ones |
| Engine.ScoreDocumentsFlags | contexts/SimulatorContext.tsx:361-363 | the document pass raises the REPSE flag iff the REPSE registration is missing, and never the crime flag |
| Engine.ScoreQuestionsInfractions | contexts/SimulatorContext.tsx:375-389 | the question pass appends one infraction per answer flagged as an infraction or grave |
| Engine.ScoreQuestionsCrime | contexts/SimulatorContext.tsx:386-388 | the question pass raises the crime flag iff some relevant answer is a crime |
| Engine.ScoreQuestionsRepse | contexts/SimulatorContext.tsx:386-389 | the question pass raises the REPSE flag iff the REPSE question got a grave answer |
| Engine.ScoreVerificationsInfractions | contexts/SimulatorContext.tsx:397-409 | the verification pass appends one infraction per point that does not comply |
| Engine.ScoreVerificationsFlags | contexts/SimulatorContext.tsx:406-408 | the verification pass raises the crime flag iff a crime point does not comply, and never the REPSE flag |
| Engine.SumFinesOrdered | contexts/SimulatorContext.tsx:417-418 | summing infractions whose ranges are ordered gives 0 ≤ total min ≤ total max |
| Engine.CatalogScoringSound | constants/simulator.ts:81-590 | the catalog's documents, questions and points have the signs and fine ranges the scoring relies on |
| Engine.MaxScorePositive | contexts/SimulatorContext.tsx:344-414 | for every profile and inspection type the maximum score is positive, so the percentage is defined and is the rounded ratio |
| Engine.InfractionCount | contexts/SimulatorContext.tsx:344-412 | the number of infractions is missing documents plus flagged answers plus points not complied |
| Engine.CrimeRiskIff | contexts/SimulatorContext.tsx:335-412 | crime risk iff a relevant answer is a crime or a crime verification point does not comply |
| Engine.RepseRiskIff | contexts/SimulatorContext.tsx:335-389 | REPSE-cancellation risk iff the REPSE registration is missing or the REPSE question got a grave answer |
| Engine.TotalFinesOrdered | contexts/SimulatorContext.tsx:417-418 | the total fine range of a result is ordered and not negative |
| Engine.PerfectSessionScoresFull | contexts/SimulatorContext.tsx:335-456 | presenting every document valid, answering every question with a best correct option and complying everywhere scores 100 at level alto with no infraction, fine or risk |
| Engine.SkippingEveryQuestionCountsIncorrect | contexts/SimulatorContext.tsx:420-424 | skipping every question counts all of them incorrect and none skipped or correct |
| Engine.LastAnswerScoredAsWritten | contexts/SimulatorContext.tsx:284-296 | the result computed as written holds the answers given before the last one only: compared with the result over every answer, it lacks exactly the last answer and counts one more question skipped |
| Engine.StaleResultMissesLastAnswer | contexts/SimulatorContext.tsx:284-296 | as written, the last answer counts as skipped, while the intended result counts none skipped |
| Engine.StaleResultDropsGraveAnswer | contexts/SimulatorContext.tsx:284-296 | a beneficiario in a constatación answering b1 "a", b2 "a", b4 "c" (grave): whatever the documents presented, the result as written has one infraction fewer than intended and counts b4 as skipped |
| ActionPlan.CandidatesContents | contexts/SimulatorContext.tsx:466-564 | each of the four actions is proposed iff its condition on the result holds |
| ActionPlan.CandidatesAreTemplates | contexts/SimulatorContext.tsx:466-564 | the proposed actions are the four templates, none completed |
| ActionPlan.InsertByPriority | contexts/SimulatorContext.tsx:566-569 | inserting into the plan adds exactly that one item |
| ActionPlan.SortSpec | contexts/SimulatorContext.tsx:566-569 | the priority sort is ordered by priority, a permutation, and stable within each priority |
| ActionPlan.ActionPlanSorted | contexts/SimulatorContext.tsx:466-572 | the plan is sorted by priority and is a stable permutation of the proposed actions |
| ActionPlan.ActionPlanContents | contexts/SimulatorContext.tsx:466-572 | each action is in the plan iff its condition holds |
| ActionPlan.ActionPlanNotCompleted | contexts/SimulatorContext.tsx:466-572 | no action of a fresh plan is completed |
| ActionPlan.FullPlanOrder | contexts/SimulatorContext.tsx:466-572 | when all four conditions hold the plan is: REPSE, IMSS, contracts, ICSOE/SISUB |
| ActionPlan.CleanResultNeedsNoAction | contexts/SimulatorContext.tsx:466-572 | every document presented, no flagged answer and no REPSE risk give an empty plan |
| ActionPlan.ToggleActionComplete | contexts/SimulatorContext.tsx:582-586 | the items with that id flip their completion; nothing else changes |
| ActionPlan.ToggleTwice | contexts/SimulatorContext.tsx:582-586 | toggling twice restores the plan, and toggling keeps it sorted |
| ActionPlan.SaveToHistory | contexts/SimulatorContext.tsx:134-144 | the new result comes first, followed by the previous history, capped at ten |
| ActionPlan.HistoryKeepsMostRecent | contexts/SimulatorContext.tsx:137 | saving results one by one keeps the ten most recent, newest first |
| ActionPlan.LoadHistory | contexts/SimulatorContext.tsx:120-131 | a parsed stored history is loaded as is, anything else gives an empty history |
| SimulatorContext.Simulator.constructor | contexts/SimulatorContext.tsx:103-131 | a new session starts in selection with nothing chosen or answered and the stored history loaded |
| SimulatorContext.Simulator.CurrentQuestion | contexts/SimulatorContext.tsx:170-172 | the relevant question at the current index, or none past the end |
| SimulatorContext.Simulator.ResetSimulator | contexts/SimulatorContext.tsx:174-189 | every session field returns to its initial value; the history is kept |
| SimulatorContext.Simulator.SelectInspectionType | contexts/SimulatorContext.tsx:191-194 | records the type and moves to profile selection; nothing else changes |
| SimulatorContext.Simulator.SelectProfile | contexts/SimulatorContext.tsx:196-200 | records the profile and start time and moves to the intro; nothing else changes |
| SimulatorContext.Simulator.AdvanceDialogue | contexts/SimulatorContext.tsx:202-204 | moves to the next dialogue message |
| SimulatorContext.Simulator.StartDocumentPhase | contexts/SimulatorContext.tsx:206-209 | moves to the document phase at its first message |
| SimulatorContext.Simulator.HandleDocumentResponse | contexts/SimulatorContext.tsx:211-242 | the document results become the recorded response for that document; at most one result per document, and only relevant documents have results |
| SimulatorContext.Simulator.StartInterrogationPhase | contexts/SimulatorContext.tsx:244-248 | moves to the interrogation at its first question and message |
| SimulatorContext.Simulator.StartVerificationPhase | contexts/SimulatorContext.tsx:298-301 | moves to the verification phase at its first message |
| SimulatorContext.Simulator.HandleVerificationResponse | contexts/SimulatorContext.tsx:303-333 | the verification results become the recorded response for that point; at most one result per point, and only relevant points have results |
| SimulatorContext.Simulator.GenerateActionPlan | contexts/SimulatorContext.tsx:466-572 | the action items become the plan for the result, sorted by priority |
| SimulatorContext.Simulator.SaveResult | contexts/SimulatorContext.tsx:134-144 | the result is prepended to the history, which stays within ten |
| SimulatorContext.Simulator.Conclude | contexts/SimulatorContext.tsx:456-459 | stores the result, its plan and the history entry, and shows the results |
| SimulatorContext.Simulator.CalculateFinalResult | contexts/SimulatorContext.tsx:335-459 | without a type and profile nothing changes; otherwise the final result, its plan and history entry are stored and the results shown |
| SimulatorContext.Simulator.HandleQuestionAnswer | contexts/SimulatorContext.tsx:250-296 | with no current question nothing changes; otherwise the answer is appended and the session moves on: next question, or verification, or the final result over every answer with its plan built and saved to the history; fields a path does not set keep their values |
| SimulatorContext.Simulator.MoveOnFromQuestion | contexts/SimulatorContext.tsx:286-294 | next question with nothing else changed; after the last, the verification phase at its first message when the type has it, otherwise the final result with every answer, its action plan and its history entry |
| SimulatorContext.Simulator.ShowResults | contexts/SimulatorContext.tsx:574-576 | same effect as computing the final result |
| SimulatorContext.Simulator.ShowActionPlan | contexts/SimulatorContext.tsx:578-580 | moves to the action plan |
| SimulatorContext.Simulator.ToggleActionComplete | contexts/SimulatorContext.tsx:582-586 | the action items become the toggled plan |
| SimulatorContext.RelevantQuestionsNeedSelection | contexts/SimulatorContext.tsx:157-159 | questions are only relevant once a profile and a type are chosen |
| SimulatorScreen.DecimalRoundTrip | app/simulator.tsx:85-87 | the decimal text of a number is all digits and reads back as the number |
| SimulatorScreen.PadStart2 | app/simulator.tsx:87 | padding to two places prefixes zeros only, keeping the text at the end |
| SimulatorScreen.PadKeepsValue | app/simulator.tsx:87 | zero padding does not change the number a digit string denotes |
| SimulatorScreen.FieldsReadBack | app/simulator.tsx:84-88 | the minutes and seconds fields are digits, seconds stay below 60, and minutes × 60 + seconds gives back the elapsed seconds |
| SimulatorScreen.FormatTimeReadsBack | app/simulator.tsx:84-88 | the timer text is the minutes field, a colon, and the two-digit seconds field |
| SimulatorScreen.IsLastMessage | app/simulator.tsx:214 | the current message is the last iff there is no further message |
| SimulatorScreen.CurrentMessage | app/simulator.tsx:213 | the message at the index, or empty text past the end |
| SimulatorScreen.ContinueIntro | app/simulator.tsx:248-254 | on the last message the document phase starts, otherwise the next message is shown |
| SimulatorScreen.MessagesShownFrom | app/simulator.tsx:211-254 | continuing from a message shows the rest of the script in order |
| SimulatorScreen.IntroShowsScript | app/simulator.tsx:211-254 | the intro shows the whole script, or one empty message when there is none |
| SimulatorScreen.CurrentDialogue | app/simulator.tsx:101-107 | no dialogue iff no inspection type is chosen |
| SimulatorScreen.CurrentDialogueSpec | app/simulator.tsx:101-107 | the messages of the first dialogue for that type and phase, or none when no dialogue matches |
| SimulatorScreen.CompleteIffAllAnswered | app/simulator.tsx:361 | with distinct ids, as many results as relevant items iff every relevant item has a result |
| SimulatorScreen.RelevantDocumentIdsDistinct | contexts/SimulatorContext.tsx:150-155 | for every selection, no two relevant documents share an id |
| SimulatorScreen.RelevantPointIdsDistinct | contexts/SimulatorContext.tsx:164-168 | for every selection, no two relevant verification points share an id |
| SimulatorScreen.DocumentsGuard | app/simulator.tsx:361 | in every session state the model reaches (one result per document, only relevant documents answered), the document phase's continue guard opens iff every relevant document has a response |
| SimulatorScreen.VerificationGuard | app/simulator.tsx:537 | in every session state the model reaches, the verification phase's results guard opens iff every relevant point has a response |
| SimulatorScreen.InfractionPartition | app/simulator.tsx:554-555 | the grave and minor lists split the infractions: together a permutation, each with its own kind only |
| Diagnostic.QuestionsFor | app/diagnostic.tsx:79-84 | no user type, no questions |
| Diagnostic.QuestionsForMembers | app/diagnostic.tsx:79-84 | a question is shown iff it is in the catalog and meant for the user type |
| Diagnostic.NoQuestionsForWorkersOrGeneral | app/diagnostic.tsx:79-84 | workers and the general public get no questions |
| Diagnostic.ContractorQuestions | app/diagnostic.tsx:79-84 | a contractor gets exactly the contractor block of the catalog |
| Diagnostic.ClientQuestions | app/diagnostic.tsx:79-84 | a client company gets exactly the client block of the catalog |
| Diagnostic.SelectedOptionSpec | app/diagnostic.tsx:121-122 | the selected option is one of the question's options with the answered value, and one is found whenever such an option exists |
| Diagnostic.ScoreDiagnosticMax | app/diagnostic.tsx:119-125 | the maximum is the sum of each question's best score, and the score never exceeds it |
| Diagnostic.ScoreDiagnosticLists | app/diagnostic.tsx:119-137 | the critical, warning and compliant lists hold the texts of exactly the questions with that verdict, in order |
| Diagnostic.NoAnswersScoreNothing | app/diagnostic.tsx:119-137 | without answers the score is 0, the maximum is the full sum and every list is empty |
| Diagnostic.CompanyMaxScores | app/diagnostic.tsx:111-137 | the maximum is 80 for a contractor and 100 for a client company, whatever the answers |
| Diagnostic.CalculateResult | app/diagnostic.tsx:111-154 | the loop computes the result of the fold over the questions with the last answer included |
| Diagnostic.GetResultLevel | app/diagnostic.tsx:174-179 | high iff at least 80 % of the maximum, low iff below 50 %; with a zero maximum, high iff the score is positive |
| Diagnostic.ResultLevelMonotone | app/diagnostic.tsx:174-179 | a higher score never gets a lower level |
| Diagnostic.DiagnosticScreen.constructor | app/diagnostic.tsx:73-77 | the screen starts on user-type selection with no answers or result |
| Diagnostic.DiagnosticScreen.HandleUserTypeSelect | app/diagnostic.tsx:88-99 | records the type; workers and the general public go to their info pages, companies to the questions |
| Diagnostic.DiagnosticScreen.HandleAnswer | app/diagnostic.tsx:101-109 | records the answer; before the last question moves to the next, on the last computes and saves the result |
| Diagnostic.DiagnosticScreen.HandlePrevious | app/diagnostic.tsx:156-164 | goes back one question, or from the first back to user-type selection, clearing the type and the answers |
| Diagnostic.DiagnosticScreen.HandleRestart | app/diagnostic.tsx:166-172 | everything returns to its initial value |
| AppContext.DefaultAppData | contexts/AppContext.tsx:36-42 | no user type, no diagnostic, an empty checklist, the intro not seen |
| AppContext.LoadOrDefault | contexts/AppContext.tsx:48-70 | a stored record is loaded as is; a missing or unreadable one gives the defaults |
| AppContext.ToggleChecklist | contexts/AppContext.tsx:94-106 | the item flips its done state, gets a completion time iff now done, keeps its notes; other items are untouched |
| AppContext.UpdateNotes | contexts/AppContext.tsx:108-116 | the item's notes are set, its done state and completion time kept; other items are untouched |
| AppContext.ToggleTwice | contexts/AppContext.tsx:94-106 | toggling an item twice restores its done state and notes, and other items |
| AppContext.ToggleChangesOneItem | contexts/AppContext.tsx:94-106 | toggling changes the done state of that item only |
| AppContext.PercentageBounds | contexts/AppContext.tsx:134 | the rounded percentage is between 0 and 100, and 100 iff everything is done |
| AppContext.ChecklistProgress | contexts/AppContext.tsx:124-137 | counts the relevant items and the done ones; the percentage is `Math.round(100 · done / total)`, 0 with no items, lies in 0–100 and is 100 iff all are done |
| AppContext.NotesKeepProgress | contexts/AppContext.tsx:108-137 | editing notes never changes the progress |
| AppContext.NoCompanyProfileNoProgress | contexts/AppContext.tsx:124-137 | without a company profile there are no relevant items and the progress is zero |
| AppContext.AppStore.constructor | contexts/AppContext.tsx:46 | the store starts with the default data |
| AppContext.AppStore.Load | contexts/AppContext.tsx:48-70 | the data becomes the stored record, or the defaults |
| AppContext.AppStore.Save | contexts/AppContext.tsx:72-82 | the data becomes the new record stamped with the save time |
| AppContext.AppStore.SetUserType | contexts/AppContext.tsx:84-87 | only the user type changes, and the save time |
| AppContext.AppStore.SaveDiagnosticResult | contexts/AppContext.tsx:89-92 | stores the result and its user type, and the save time |
| AppContext.AppStore.ToggleChecklistItem | contexts/AppContext.tsx:94-106 | the checklist becomes the toggled one, and the save time is stamped |
| AppContext.AppStore.UpdateChecklistNotes | contexts/AppContext.tsx:108-116 | the checklist becomes the one with the new notes, and the save time is stamped |
| AppContext.AppStore.ClearAllData | contexts/AppContext.tsx:118-122 | the data returns to the defaults |
| AppContext.AppStore.CompleteIntro | contexts/AppContext.tsx:147-153 | marks the intro as seen and stamps the save time |

## Left out

- Storage I/O (AsyncStorage), JSON parsing and the react-query cache are not modelled. A stored value is a parameter: a parsed record, or nothing.
- `exportData` of contexts/AppContext.tsx is not modelled. It only serialises the store.
- The elapsed-time ticker of the simulator screen is not modelled. `formatTime` is modelled on its argument.
- Clocks and generated ids (`Date.now`, `toISOString`, `sim_<time>`) are parameters of the operations that use them.
- Floating point is not modelled. Amounts are exact integer centavos and `Math.round` is exact half-up rounding. Fines that the source leaves unrounded (2000 UMA = 226280 pesos) are exact in centavos too.
- Engine.NormalizedScore: for a maximum ≤ 0 the model stores 0, while the source stores NaN (0/0), 100 (a positive total over 0), 0 (a negative total over 0) or the clamped rounded ratio (a negative maximum). `Engine.MaxScorePositive` proves no maximum ≤ 0 arises with the app's catalog.
- Display-only data is not modelled: icons, colours of inspection types, difficulty labels, question categories and the dialogue texts' formatting. `Catalog.ComplianceLevel` keeps the level colour and text.
- The company name, worker count and REPSE-status fields of the simulator state are not modelled. No scoring or plan logic reads them.
- The screens' rendering, navigation and haptics are not modelled. Only the values they compute are.
- React's scheduling of state updates is not modelled. Each handler's updates take effect at once and in order. Where handlers read state from an earlier render, the code can behave differently: the stale simulator result described under Findings, and the app store's saves below.
- AppContext.AppStore: in the code the stored record changes only when the asynchronous save succeeds (contexts/AppContext.tsx:72-82), and `setUserType`, `saveDiagnosticResult`, `toggleChecklistItem` and `updateChecklistNotes` build the new record from the last rendered one (contexts/AppContext.tsx:84-116). Two changes made before the first save completes therefore keep only the second, and a failed save loses its change. The model applies each save at once, in order, and takes it to succeed.
- SimulatorContext.Simulator.SaveResult: the asynchronous write of the history to storage is assumed to succeed and is not modelled.

## Findings

| source | as written | input that shows it | evidently intended | confidence | as-written member | corrected member |
|---|---|---|---|---|---|---|
| contexts/SimulatorContext.tsx:284-296 | after the last question of an inspection with no verification phase, `handleQuestionAnswer` calls `calculateFinalResult` from the same callback. That closure still holds the question results from before the answer, so the result is scored without the last answer | a beneficiario in a constatación, whatever documents were presented, answers b1 "a", b2 "a" and b4 "c" (grave): the result lacks the b4 infraction, listing one infraction fewer, and counts b4 as skipped | the final result includes the last answer: the grave b4 infraction is listed and nothing is skipped | not executed | Engine.StaleResultDropsGraveAnswer | SimulatorContext.Simulator.HandleQuestionAnswer |
