/** The scoring engine of the inspection simulator: which catalog entries a
    session faces, how each response is turned into a result, and how the
    final result is computed from the recorded results. Everything here is a
    value computation; the session state that drives it lives in
    `SimulatorContext`. */
module Engine {
  import opened Common
  import opened Catalog
  import Data

  // ---------------------------------------------------------------------
  // Results recorded during a session

  datatype DocumentResult = DocumentResult(
    documentId: string,
    presented: bool,
    valid: bool,
    points: int,
    observation: Option<string>)

  /** `answerId: string | null`; an empty string is kept as given. */
  datatype QuestionResult = QuestionResult(
    questionId: string,
    answerId: Option<string>,
    points: int,
    observation: Option<string>,
    isInfraction: bool,
    isGraveInfraction: bool,
    isCrime: bool)

  datatype VerificationStatus = Complies | NotComplies | NotApplicable

  datatype VerificationResult = VerificationResult(
    pointId: string,
    status: VerificationStatus,
    points: int,
    observation: Option<string>)

  /** Fines are in centavos. */
  datatype Infraction = Infraction(
    id: string,
    description: string,
    legalBasis: string,
    isGrave: bool,
    isCrime: bool,
    fineMin: int,
    fineMax: int,
    fineUnit: string)

  /** The final result. `levelColor` and `levelText` are `level.Color()` and
      `level.Text()`. */
  datatype SimulationResult = SimulationResult(
    id: string,
    date: string,
    inspectionType: InspectionType,
    profile: ProfileType,
    score: int,
    maxScore: int,
    percentage: int,
    level: ComplianceLevel,
    documentResults: seq<DocumentResult>,
    questionResults: seq<QuestionResult>,
    verificationResults: seq<VerificationResult>,
    infractions: seq<Infraction>,
    totalFineMin: int,
    totalFineMax: int,
    documentsPresented: int,
    documentsMissing: int,
    questionsCorrect: int,
    questionsIncorrect: int,
    questionsSkipped: int,
    verificationComplied: int,
    verificationNotComplied: int,
    hasCrimeRisk: bool,
    hasREPSECancellationRisk: bool)

  // ---------------------------------------------------------------------
  // What a session faces

  predicate DocumentApplies(d: DocumentRule, p: ProfileType, t: InspectionType)
  {
    p in d.forProfiles && t in d.forInspectionTypes
  }

  predicate QuestionApplies(q: QuestionRule, p: ProfileType, t: InspectionType)
  {
    p in q.forProfiles && t in q.forInspectionTypes
  }

  /** The catalog documents tagged for both the profile and the inspection
      type, each once and in catalog order; nothing until both are chosen. */
  function RelevantDocuments(cat: SimulatorCatalog, profile: Option<ProfileType>, t: Option<InspectionType>): (r: seq<DocumentRule>)
    ensures profile.None? || t.None? ==> r == []
    ensures profile.Some? && t.Some? ==>
      (forall i :: 0 <= i < |r| ==> r[i] in cat.documents && DocumentApplies(r[i], profile.value, t.value)) &&
      (forall i :: 0 <= i < |cat.documents| && DocumentApplies(cat.documents[i], profile.value, t.value) ==>
         cat.documents[i] in r)
  {
    if profile.None? || t.None? then []
    else Filter(cat.documents, (d: DocumentRule) => DocumentApplies(d, profile.value, t.value))
  }

  /** The relevant documents are the applicable catalog documents, each
      once and in catalog order: `f` gives their catalog positions. */
  lemma RelevantDocumentsInOrder(cat: SimulatorCatalog, p: ProfileType, t: InspectionType)
    ensures exists f ::
      PickedInOrder(cat.documents, RelevantDocuments(cat, Some(p), Some(t)), f) &&
      forall k :: 0 <= k < |cat.documents| ==> (DocumentApplies(cat.documents[k], p, t) <==> k in f)
  {
    var applies := (d: DocumentRule) => DocumentApplies(d, p, t);
    FilterPicksInOrder(cat.documents, applies);
    FilterCongruent(cat.documents, applies, (d: DocumentRule) => DocumentApplies(d, Some(p).value, Some(t).value));
    assert PickedInOrder(cat.documents, RelevantDocuments(cat, Some(p), Some(t)), Positions(cat.documents, applies));
  }

  /** The catalog questions tagged for both the profile and the inspection
      type, each once and in catalog order; nothing until both are chosen. */
  function RelevantQuestions(cat: SimulatorCatalog, profile: Option<ProfileType>, t: Option<InspectionType>): (r: seq<QuestionRule>)
    ensures profile.None? || t.None? ==> r == []
    ensures profile.Some? && t.Some? ==>
      (forall i :: 0 <= i < |r| ==> r[i] in cat.questions && QuestionApplies(r[i], profile.value, t.value)) &&
      (forall i :: 0 <= i < |cat.questions| && QuestionApplies(cat.questions[i], profile.value, t.value) ==>
         cat.questions[i] in r)
  {
    if profile.None? || t.None? then []
    else Filter(cat.questions, (q: QuestionRule) => QuestionApplies(q, profile.value, t.value))
  }

  /** The relevant questions are the applicable catalog questions, each once
      and in catalog order, so the question asked at each step is the next
      applicable one in the catalog. */
  lemma RelevantQuestionsInOrder(cat: SimulatorCatalog, p: ProfileType, t: InspectionType)
    ensures exists f ::
      PickedInOrder(cat.questions, RelevantQuestions(cat, Some(p), Some(t)), f) &&
      forall k :: 0 <= k < |cat.questions| ==> (QuestionApplies(cat.questions[k], p, t) <==> k in f)
  {
    var applies := (q: QuestionRule) => QuestionApplies(q, p, t);
    FilterPicksInOrder(cat.questions, applies);
    FilterCongruent(cat.questions, applies, (q: QuestionRule) => QuestionApplies(q, Some(p).value, Some(t).value));
    assert PickedInOrder(cat.questions, RelevantQuestions(cat, Some(p), Some(t)), Positions(cat.questions, applies));
  }

  /** The verification points for the profile, each once and in catalog
      order, and none at all when the inspection type has no verification
      phase. */
  function RelevantVerificationPoints(cat: SimulatorCatalog, profile: Option<ProfileType>, t: Option<InspectionType>): (r: seq<VerificationPoint>)
    ensures profile.None? || !HasVerificationPhase(t) ==> r == []
    ensures profile.Some? && HasVerificationPhase(t) ==>
      (forall i :: 0 <= i < |r| ==> r[i] in cat.points && profile.value in r[i].forProfiles) &&
      (forall i :: 0 <= i < |cat.points| && profile.value in cat.points[i].forProfiles ==>
         cat.points[i] in r)
  {
    if profile.None? || t.None? then []
    else if !HasVerificationPhase(t) then []
    else Filter(cat.points, (v: VerificationPoint) => profile.value in v.forProfiles)
  }

  /** With a verification phase, the relevant points are the catalog points
      for the profile, each once and in catalog order. */
  lemma RelevantVerificationPointsInOrder(cat: SimulatorCatalog, p: ProfileType, t: InspectionType)
    requires HasVerificationPhase(Some(t))
    ensures exists f ::
      PickedInOrder(cat.points, RelevantVerificationPoints(cat, Some(p), Some(t)), f) &&
      forall k :: 0 <= k < |cat.points| ==> (p in cat.points[k].forProfiles <==> k in f)
  {
    var applies := (v: VerificationPoint) => p in v.forProfiles;
    FilterPicksInOrder(cat.points, applies);
    FilterCongruent(cat.points, applies, (v: VerificationPoint) => Some(p).value in v.forProfiles);
    assert PickedInOrder(cat.points, RelevantVerificationPoints(cat, Some(p), Some(t)), Positions(cat.points, applies));
  }

  /** The registration-verification visit never reaches the physical
      verification points, whatever the profile. */
  lemma ConstatacionHasNoVerificationPoints(p: ProfileType)
    ensures RelevantVerificationPoints(SIMULATOR_CATALOG, Some(p), Some(Constatacion)) == []
    ensures RelevantVerificationPoints(SIMULATOR_CATALOG, Some(p), Some(Ordinaria)) != []
  {
    VerificationPhaseIffNotConstatacion(Constatacion);
    VerificationPhaseIffNotConstatacion(Ordinaria);
    assert p in SIMULATOR_CATALOG.points[0].forProfiles;
  }

  // ---------------------------------------------------------------------
  // Turning a response into a result

  /** The result of presenting (or not) a document: full points when valid,
      half (rounded down) with an observation when presented with defects, and
      when missing a penalty of the full points if obligatory, nothing if
      only recommended. */
  function DocumentOutcome(doc: DocumentRule, presented: bool, valid: bool): (r: DocumentResult)
    ensures r.documentId == doc.id && r.presented == presented && r.valid == valid
    ensures doc.points >= 0 ==> -doc.points <= r.points <= doc.points
    ensures doc.points > 0 ==> (r.points < 0 <==> !presented && doc.obligatory)
    ensures doc.points >= 0 && presented ==> r.points >= 0
    ensures r.points == doc.points || r.observation.Some?
    ensures r.observation.None? <==> presented && valid
    ensures presented && valid ==> r.points == doc.points
    ensures presented && !valid ==> 2 * r.points <= doc.points < 2 * r.points + 2
    ensures !presented ==> r.points == (if doc.obligatory then -doc.points else 0)
    ensures presented && !valid ==> r.observation == Some("Documento con observaciones")
    ensures !presented && doc.obligatory ==> r.observation == Some("Falta documento obligatorio: " + doc.name)
    ensures !presented && !doc.obligatory ==> r.observation == Some("Documento recomendado no presentado")
  {
    if presented && valid then DocumentResult(doc.id, true, true, doc.points, None)
    else if presented then DocumentResult(doc.id, true, false, doc.points / 2, Some("Documento con observaciones"))
    else if doc.obligatory then
      DocumentResult(doc.id, false, valid, -doc.points, Some("Falta documento obligatorio: " + doc.name))
    else DocumentResult(doc.id, false, valid, 0, Some("Documento recomendado no presentado"))
  }

  /** Presenting a document never scores worse than withholding it, and a
      valid document never worse than one with observations. */
  lemma DocumentOutcomeMonotone(doc: DocumentRule, v1: bool, v2: bool)
    requires doc.points >= 0
    ensures DocumentOutcome(doc, false, v1).points <= DocumentOutcome(doc, true, v2).points
    ensures DocumentOutcome(doc, true, false).points <= DocumentOutcome(doc, true, true).points
  {
  }

  function DocumentKey(r: DocumentResult): string { r.documentId }

  /** `handleDocumentResponse`: a response about a document that is not
      relevant to the session is ignored; otherwise its result replaces any
      earlier result for the same document, at the end of the list. */
  function RecordDocument(results: seq<DocumentResult>, relevant: seq<DocumentRule>,
                          id: string, presented: bool, valid: bool): (r: seq<DocumentResult>)
    ensures (forall i :: 0 <= i < |relevant| ==> relevant[i].id != id) ==> r == results
    ensures (exists i :: 0 <= i < |relevant| && relevant[i].id == id) ==>
      |r| >= 1 && r == Upsert(results, DocumentKey, r[|r| - 1]) &&
      r[|r| - 1].documentId == id && r[|r| - 1].presented == presented && r[|r| - 1].valid == valid
  {
    match Find(relevant, (d: DocumentRule) => d.id == id)
    case None => results
    case Some(doc) => Upsert(results, DocumentKey, DocumentOutcome(doc, presented, valid))
  }

  /** Every result is for one of the `relevant` documents. */
  predicate DocumentsAmong(results: seq<DocumentResult>, relevant: seq<DocumentRule>)
  {
    forall i :: 0 <= i < |results| ==>
      exists j :: 0 <= j < |relevant| && relevant[j].id == results[i].documentId
  }

  /** Recording a response never adds a result for a document outside the
      relevant ones. */
  lemma RecordDocumentStaysAmong(results: seq<DocumentResult>, relevant: seq<DocumentRule>,
                                 id: string, presented: bool, valid: bool)
    requires DocumentsAmong(results, relevant)
    ensures DocumentsAmong(RecordDocument(results, relevant, id, presented, valid), relevant)
  {
    var found := Find(relevant, (d: DocumentRule) => d.id == id);
    if found.Some? {
      var doc := found.value;
      var last := DocumentOutcome(doc, presented, valid);
      var r := RecordDocument(results, relevant, id, presented, valid);
      assert r == Upsert(results, DocumentKey, last);
      UpsertMembers(results, DocumentKey, last);
      forall i | 0 <= i < |r|
        ensures exists j :: 0 <= j < |relevant| && relevant[j].id == r[i].documentId
      {
        if i < |r| - 1 {
          var k :| 0 <= k < |results| && results[k] == r[i];
        } else {
          var j :| 0 <= j < |relevant| && relevant[j] == doc;
        }
      }
    }
  }

  /** Once a document is recorded it has exactly one result, the latest;
      results for other documents are untouched; and answering again
      overrides the earlier answer as if it had never been given. */
  lemma RecordDocumentReplaces(results: seq<DocumentResult>, relevant: seq<DocumentRule>,
                               id: string, p1: bool, v1: bool, p2: bool, v2: bool, other: string)
    requires exists i :: 0 <= i < |relevant| && relevant[i].id == id
    requires other != id
    ensures Filter(RecordDocument(results, relevant, id, p1, v1), HasKey(DocumentKey, id))
            == [DocumentOutcome(Find(relevant, (d: DocumentRule) => d.id == id).value, p1, v1)]
    ensures Filter(RecordDocument(results, relevant, id, p1, v1), HasKey(DocumentKey, other))
            == Filter(results, HasKey(DocumentKey, other))
    ensures RecordDocument(RecordDocument(results, relevant, id, p1, v1), relevant, id, p2, v2)
            == RecordDocument(results, relevant, id, p2, v2)
  {
    var doc := Find(relevant, (d: DocumentRule) => d.id == id).value;
    var x1 := DocumentOutcome(doc, p1, v1);
    var x2 := DocumentOutcome(doc, p2, v2);
    UpsertSingle(results, DocumentKey, x1);
    UpsertOthers(results, DocumentKey, x1, other);
    UpsertTwice(results, DocumentKey, x1, x2);
  }

  /** `answerId && question.options`: a real choice needs a non-empty answer
      id and a question that has options. */
  predicate Answered(q: QuestionRule, answerId: Option<string>)
  {
    answerId.Some? && answerId.value != "" && q.options.Some?
  }

  /** `handleQuestionAnswer`'s result: a skip costs 2 points; a choice copies
      the chosen option's points, observation and flags; an answer id that
      names no option of the question scores 0 with no flags. */
  function AnswerQuestion(q: QuestionRule, answerId: Option<string>): (r: QuestionResult)
    ensures r.questionId == q.id && r.answerId == answerId
    ensures !Answered(q, answerId) ==>
      r.points == -2 && r.observation == Some("Pregunta no respondida") &&
      !r.isInfraction && !r.isGraveInfraction && !r.isCrime
    ensures Answered(q, answerId) ==>
      var o := Find(q.options.value, (o: QuestionOption) => o.id == answerId.value);
      (o.Some? ==>
         o.value in q.options.value && o.value.id == answerId.value &&
         r.points == o.value.points && r.observation == o.value.observation &&
         r.isInfraction == o.value.isInfraction && r.isGraveInfraction == o.value.isGraveInfraction &&
         r.isCrime == o.value.isCrime) &&
      (o.None? ==> r.points == 0 && r.observation.None? && !r.isInfraction && !r.isGraveInfraction && !r.isCrime)
  {
    if Answered(q, answerId) then
      match Find(q.options.value, (o: QuestionOption) => o.id == answerId.value)
      case Some(o) => QuestionResult(q.id, answerId, o.points, o.observation, o.isInfraction, o.isGraveInfraction, o.isCrime)
      case None => QuestionResult(q.id, answerId, 0, None, false, false, false)
    else QuestionResult(q.id, answerId, -2, Some("Pregunta no respondida"), false, false, false)
  }

  /** On a catalog question, an answer carrying criminal exposure is always a
      grave infraction too. */
  lemma AnswerCrimeIsGrave(i: nat, answerId: Option<string>)
    requires i < |SIMULATOR_QUESTIONS|
    ensures AnswerQuestion(SIMULATOR_QUESTIONS[i], answerId).isCrime ==>
            AnswerQuestion(SIMULATOR_QUESTIONS[i], answerId).isGraveInfraction
  {
    var q := SIMULATOR_QUESTIONS[i];
    if Answered(q, answerId) {
      var o := Find(q.options.value, (o: QuestionOption) => o.id == answerId.value);
      if o.Some? {
        CrimeImpliesGrave();
        var j :| 0 <= j < |q.options.value| && q.options.value[j] == o.value;
      }
    }
  }

  /** `handleVerificationResponse`'s result: the point's value for the status,
      with the point's observation exactly when it is not complied with. */
  function VerificationOutcome(vp: VerificationPoint, status: VerificationStatus): (r: VerificationResult)
    ensures r.pointId == vp.id && r.status == status
    ensures r.observation.Some? <==> status == NotComplies
    ensures r.observation.Some? ==> r.observation.value == vp.observationIfNotComplies
    ensures status == Complies ==> r.points == vp.points.complies
    ensures status == NotComplies ==> r.points == vp.points.notComplies
    ensures status == NotApplicable ==> r.points == vp.points.notApplicable
  {
    match status
    case Complies => VerificationResult(vp.id, status, vp.points.complies, None)
    case NotComplies => VerificationResult(vp.id, status, vp.points.notComplies, Some(vp.observationIfNotComplies))
    case NotApplicable => VerificationResult(vp.id, status, vp.points.notApplicable, None)
  }

  /** On the catalog points, the score orders the statuses: complying earns,
      "not applicable" is neutral, not complying costs. */
  lemma VerificationOutcomeOrdered(i: nat)
    requires i < |VERIFICATION_POINTS|
    ensures VerificationOutcome(VERIFICATION_POINTS[i], NotComplies).points < 0
    ensures VerificationOutcome(VERIFICATION_POINTS[i], NotApplicable).points == 0
    ensures VerificationOutcome(VERIFICATION_POINTS[i], Complies).points > 0
  {
    VerificationPointSigns();
  }

  function VerificationKey(r: VerificationResult): string { r.pointId }

  function QuestionKey(r: QuestionResult): string { r.questionId }

  /** `handleVerificationResponse`: a point that is not relevant is ignored;
      otherwise its result replaces any earlier one, at the end of the list. */
  function RecordVerification(results: seq<VerificationResult>, relevant: seq<VerificationPoint>,
                              id: string, status: VerificationStatus): (r: seq<VerificationResult>)
    ensures (forall i :: 0 <= i < |relevant| ==> relevant[i].id != id) ==> r == results
    ensures (exists i :: 0 <= i < |relevant| && relevant[i].id == id) ==>
      |r| >= 1 && r == Upsert(results, VerificationKey, r[|r| - 1]) &&
      r[|r| - 1].pointId == id && r[|r| - 1].status == status
  {
    match Find(relevant, (v: VerificationPoint) => v.id == id)
    case None => results
    case Some(vp) => Upsert(results, VerificationKey, VerificationOutcome(vp, status))
  }

  /** Every result is for one of the `relevant` points. */
  predicate PointsAmong(results: seq<VerificationResult>, relevant: seq<VerificationPoint>)
  {
    forall i :: 0 <= i < |results| ==>
      exists j :: 0 <= j < |relevant| && relevant[j].id == results[i].pointId
  }

  /** Recording a status never adds a result for a point outside the
      relevant ones. */
  lemma RecordVerificationStaysAmong(results: seq<VerificationResult>, relevant: seq<VerificationPoint>,
                                     id: string, status: VerificationStatus)
    requires PointsAmong(results, relevant)
    ensures PointsAmong(RecordVerification(results, relevant, id, status), relevant)
  {
    var found := Find(relevant, (v: VerificationPoint) => v.id == id);
    if found.Some? {
      var vp := found.value;
      var last := VerificationOutcome(vp, status);
      var r := RecordVerification(results, relevant, id, status);
      assert r == Upsert(results, VerificationKey, last);
      UpsertMembers(results, VerificationKey, last);
      forall i | 0 <= i < |r|
        ensures exists j :: 0 <= j < |relevant| && relevant[j].id == r[i].pointId
      {
        if i < |r| - 1 {
          var k :| 0 <= k < |results| && results[k] == r[i];
        } else {
          var j :| 0 <= j < |relevant| && relevant[j] == vp;
        }
      }
    }
  }

  /** A recorded point has exactly one result, the latest; the others are
      untouched; answering again overrides the earlier answer. */
  lemma RecordVerificationReplaces(results: seq<VerificationResult>, relevant: seq<VerificationPoint>,
                                   id: string, s1: VerificationStatus, s2: VerificationStatus, other: string)
    requires exists i :: 0 <= i < |relevant| && relevant[i].id == id
    requires other != id
    ensures Filter(RecordVerification(results, relevant, id, s1), HasKey(VerificationKey, id))
            == [VerificationOutcome(Find(relevant, (v: VerificationPoint) => v.id == id).value, s1)]
    ensures Filter(RecordVerification(results, relevant, id, s1), HasKey(VerificationKey, other))
            == Filter(results, HasKey(VerificationKey, other))
    ensures RecordVerification(RecordVerification(results, relevant, id, s1), relevant, id, s2)
            == RecordVerification(results, relevant, id, s2)
  {
    var vp := Find(relevant, (v: VerificationPoint) => v.id == id).value;
    var x1 := VerificationOutcome(vp, s1);
    var x2 := VerificationOutcome(vp, s2);
    UpsertSingle(results, VerificationKey, x1);
    UpsertOthers(results, VerificationKey, x1, other);
    UpsertTwice(results, VerificationKey, x1, x2);
  }

  // ---------------------------------------------------------------------
  // Scoring a session

  /** The running state of `calculateFinalResult`'s three passes: the points
      earned, the points available, the infractions pushed so far and the two
      risk flags. */
  datatype Tally = Tally(total: int, max: int, infractions: seq<Infraction>, crime: bool, repse: bool)

  const EMPTY_TALLY: Tally := Tally(0, 0, [], false, false)

  /** Fine bands for question and verification infractions, in centavos. */
  const GRAVE_FINE_MIN: int := 2000 * Data.UMA_CENTS
  const GRAVE_FINE_MAX: int := 50000 * Data.UMA_CENTS
  const MINOR_FINE_MIN: int := 250 * Data.UMA_CENTS
  const MINOR_FINE_MAX: int := 5000 * Data.UMA_CENTS

  function DocumentResultFor(results: seq<DocumentResult>, id: string): Option<DocumentResult>
  {
    Find(results, HasKey(DocumentKey, id))
  }

  function QuestionResultFor(results: seq<QuestionResult>, id: string): Option<QuestionResult>
  {
    Find(results, HasKey(QuestionKey, id))
  }

  function VerificationResultFor(results: seq<VerificationResult>, id: string): Option<VerificationResult>
  {
    Find(results, HasKey(VerificationKey, id))
  }

  /** The document has a recorded result saying it was not presented, and it
      is obligatory. */
  predicate MissingObligatory(doc: DocumentRule, results: seq<DocumentResult>)
  {
    var f := DocumentResultFor(results, doc.id);
    f.Some? && !f.value.presented && doc.obligatory
  }

  /** The question's recorded result carries an infraction, minor or grave. */
  predicate QuestionFlagged(q: QuestionRule, results: seq<QuestionResult>)
  {
    var f := QuestionResultFor(results, q.id);
    f.Some? && (f.value.isInfraction || f.value.isGraveInfraction)
  }

  /** The point's recorded result is "does not comply". */
  predicate PointNotComplied(vp: VerificationPoint, results: seq<VerificationResult>)
  {
    var f := VerificationResultFor(results, vp.id);
    f.Some? && f.value.status == NotComplies
  }

  function MissingIn(results: seq<DocumentResult>): DocumentRule -> bool
  {
    (d: DocumentRule) => MissingObligatory(d, results)
  }

  function FlaggedIn(results: seq<QuestionResult>): QuestionRule -> bool
  {
    (q: QuestionRule) => QuestionFlagged(q, results)
  }

  function NotCompliedIn(results: seq<VerificationResult>): VerificationPoint -> bool
  {
    (v: VerificationPoint) => PointNotComplied(v, results)
  }

  function MissingDocumentInfraction(doc: DocumentRule): Infraction
  {
    var fine := CalculateFineAmount(doc.fineIfMissing.min, doc.fineIfMissing.max);
    Infraction("doc_" + doc.id, "Falta documento: " + doc.name, doc.legalBasis, doc.obligatory, false,
               fine.min, fine.max, doc.fineIfMissing.unit)
  }

  /** `result.observation || 'Infracción detectada'`: an absent or empty
      observation falls back to the default text. */
  function QuestionInfraction(q: QuestionRule, r: QuestionResult): Infraction
  {
    var description := if r.observation.Some? && r.observation.value != "" then r.observation.value
                       else "Infracción detectada";
    Infraction("q_" + q.id, description, q.legalBasis, r.isGraveInfraction, r.isCrime,
               if r.isGraveInfraction then GRAVE_FINE_MIN else MINOR_FINE_MIN,
               if r.isGraveInfraction then GRAVE_FINE_MAX else MINOR_FINE_MAX, "MXN")
  }

  function VerificationInfraction(vp: VerificationPoint, r: VerificationResult): Infraction
  {
    var description := if r.observation.Some? && r.observation.value != "" then r.observation.value
                       else vp.observationIfNotComplies;
    Infraction("v_" + vp.id, description, vp.legalBasis, vp.isGraveInfraction, vp.isCrime,
               if vp.isGraveInfraction then GRAVE_FINE_MIN else MINOR_FINE_MIN,
               if vp.isGraveInfraction then GRAVE_FINE_MAX else MINOR_FINE_MAX, "MXN")
  }

  /** One step of the document pass. */
  function DocumentStep(acc: Tally, doc: DocumentRule, results: seq<DocumentResult>): Tally
  {
    var acc1 := acc.(max := acc.max + doc.points);
    match DocumentResultFor(results, doc.id)
    case None => acc1
    case Some(r) =>
      if !r.presented && doc.obligatory then
        acc1.(total := acc1.total + r.points,
              infractions := acc1.infractions + [MissingDocumentInfraction(doc)],
              repse := acc1.repse || doc.id == "repse")
      else acc1.(total := acc1.total + r.points)
  }

  /** The step spelled out field by field, in the order the loop updates them. */
  lemma DocumentStepUnfold(acc: Tally, doc: DocumentRule, results: seq<DocumentResult>)
    ensures var found := DocumentResultFor(results, doc.id);
            var flagged := found.Some? && !found.value.presented && doc.obligatory;
            DocumentStep(acc, doc, results) ==
              Tally(if found.Some? then acc.total + found.value.points else acc.total,
                    acc.max + doc.points,
                    if flagged then acc.infractions + [MissingDocumentInfraction(doc)] else acc.infractions,
                    acc.crime,
                    if flagged && doc.id == "repse" then true else acc.repse)
  {
  }

  function ScoreDocuments(acc: Tally, docs: seq<DocumentRule>, results: seq<DocumentResult>): Tally
    decreases |docs|
  {
    if docs == [] then acc
    else DocumentStep(ScoreDocuments(acc, docs[..|docs| - 1], results), docs[|docs| - 1], results)
  }

  /** `Math.max` of the points of the options marked `correct === true`;
      `None` when there are none (where `Math.max()` gives `-Infinity`). */
  function BestCorrectPoints(opts: seq<QuestionOption>): (r: Option<int>)
    ensures r.None? <==> forall i :: 0 <= i < |opts| ==> opts[i].correct != Correct
    ensures r.Some? ==>
      (forall i :: 0 <= i < |opts| && opts[i].correct == Correct ==> opts[i].points <= r.value) &&
      (exists i :: 0 <= i < |opts| && opts[i].correct == Correct && opts[i].points == r.value)
    decreases |opts|
  {
    if opts == [] then None
    else
      var rest := BestCorrectPoints(opts[1..]);
      if opts[0].correct != Correct then rest
      else if rest.None? then Some(opts[0].points)
      else Some(Max(opts[0].points, rest.value))
  }

  /** The points a question adds to the maximum: its best correct option when
      that is positive, 10 otherwise, and nothing for a question without
      options. */
  function QuestionMaxPoints(q: QuestionRule): (m: int)
    ensures q.options.None? ==> m == 0
    ensures q.options.Some? ==> m > 0
    ensures q.options.Some? && BestCorrectPoints(q.options.value).Some? && BestCorrectPoints(q.options.value).value > 0 ==>
      m == BestCorrectPoints(q.options.value).value
  {
    match q.options
    case None => 0
    case Some(opts) =>
      var best := BestCorrectPoints(opts);
      if best.Some? && best.value > 0 then best.value else 10
  }

  /** On the simulator's catalog every question offers a fully correct
      option worth points, so the fallback of 10 never applies: each
      question adds its best correct option to the maximum. */
  lemma CatalogQuestionsHaveCorrectOption(i: nat)
    requires i < |SIMULATOR_QUESTIONS|
    ensures SIMULATOR_QUESTIONS[i].options.Some?
    ensures var best := BestCorrectPoints(SIMULATOR_QUESTIONS[i].options.value);
            best.Some? && best.value > 0 && QuestionMaxPoints(SIMULATOR_QUESTIONS[i]) == best.value
  {
    var q := SIMULATOR_QUESTIONS[i];
    var j := if i == 1 then 1 else 0;
    assert q.options.Some? && j < |q.options.value|;
    assert q.options.value[j].correct == Correct && q.options.value[j].points > 0;
  }

  /** One step of the question pass. */
  function QuestionStep(acc: Tally, q: QuestionRule, results: seq<QuestionResult>): Tally
  {
    var acc1 := acc.(max := acc.max + QuestionMaxPoints(q));
    match QuestionResultFor(results, q.id)
    case None => acc1
    case Some(r) =>
      if r.isInfraction || r.isGraveInfraction then
        acc1.(total := acc1.total + r.points,
              infractions := acc1.infractions + [QuestionInfraction(q, r)],
              crime := acc1.crime || r.isCrime,
              repse := acc1.repse || (r.isGraveInfraction && q.id == "q1"))
      else acc1.(total := acc1.total + r.points)
  }

  function ScoreQuestions(acc: Tally, qs: seq<QuestionRule>, results: seq<QuestionResult>): Tally
    decreases |qs|
  {
    if qs == [] then acc
    else QuestionStep(ScoreQuestions(acc, qs[..|qs| - 1], results), qs[|qs| - 1], results)
  }

  /** One step of the verification pass. */
  function VerificationStep(acc: Tally, vp: VerificationPoint, results: seq<VerificationResult>): Tally
  {
    var acc1 := acc.(max := acc.max + vp.points.complies);
    match VerificationResultFor(results, vp.id)
    case None => acc1
    case Some(r) =>
      if r.status == NotComplies then
        acc1.(total := acc1.total + r.points,
              infractions := acc1.infractions + [VerificationInfraction(vp, r)],
              crime := acc1.crime || vp.isCrime)
      else acc1.(total := acc1.total + r.points)
  }

  function ScoreVerifications(acc: Tally, vps: seq<VerificationPoint>, results: seq<VerificationResult>): Tally
    decreases |vps|
  {
    if vps == [] then acc
    else VerificationStep(ScoreVerifications(acc, vps[..|vps| - 1], results), vps[|vps| - 1], results)
  }

  /** The three passes in order, over the session's relevant entries. */
  function ScoreTally(cat: SimulatorCatalog, p: ProfileType, t: InspectionType, dr: seq<DocumentResult>,
                      qr: seq<QuestionResult>, vr: seq<VerificationResult>): Tally
  {
    var afterDocs := ScoreDocuments(EMPTY_TALLY, RelevantDocuments(cat, Some(p), Some(t)), dr);
    var afterQuestions := ScoreQuestions(afterDocs, RelevantQuestions(cat, Some(p), Some(t)), qr);
    ScoreVerifications(afterQuestions, RelevantVerificationPoints(cat, Some(p), Some(t)), vr)
  }

  /** Where the rounded percentage `round(100 * total / max)` can land. */
  lemma RoundedPercentageBounds(total: int, max: int)
    requires max > 0
    ensures total >= 0 ==> RoundHalfUp(100 * total, max) >= 0
    ensures total <= max ==> RoundHalfUp(100 * total, max) <= 100
    ensures total >= max ==> RoundHalfUp(100 * total, max) >= 100
    ensures total <= 0 ==> RoundHalfUp(100 * total, max) <= 0
  {
    var r := RoundHalfUp(100 * total, max);
    if total >= 0 && r < 0 {
      MulLeft(max, r, -1);
      assert false;
    }
    if total <= max && r > 100 {
      MulLeft(max, 101, r);
      assert false;
    }
    if total >= max && r < 100 {
      MulLeft(max, r, 99);
      assert false;
    }
    if total <= 0 && r > 0 {
      MulLeft(max, 1, r);
      assert false;
    }
  }

  /** `Math.max(0, Math.min(100, Math.round(total / max * 100)))`, computed
      exactly: the percentage rounded to the nearest integer (halves up),
      clamped to 0..100. */
  function NormalizedScore(total: int, max: int): (s: int)
    ensures 0 <= s <= 100
    ensures max > 0 && 0 <= total <= max ==> -max <= 200 * total - 2 * s * max < max
    ensures max > 0 && total >= max ==> s == 100
    ensures max > 0 && total <= 0 ==> s == 0
  {
    if max <= 0 then 0
    else
      var rounded := RoundHalfUp(100 * total, max);
      RoundedPercentageBounds(total, max);
      if rounded < 0 then 0 else if rounded > 100 then 100 else rounded
  }

  function SumFineMin(infs: seq<Infraction>): int
    decreases |infs|
  {
    if infs == [] then 0 else infs[0].fineMin + SumFineMin(infs[1..])
  }

  function SumFineMax(infs: seq<Infraction>): int
    decreases |infs|
  {
    if infs == [] then 0 else infs[0].fineMax + SumFineMax(infs[1..])
  }

  predicate IsPresented(r: DocumentResult) { r.presented }
  predicate EarnedPoints(r: QuestionResult) { r.points > 0 }
  predicate LostPoints(r: QuestionResult) { r.points < 0 }
  predicate IsComplied(r: VerificationResult) { r.status == Complies }
  predicate IsNotComplied(r: VerificationResult) { r.status == NotComplies }

  /** `calculateFinalResult`'s result for a session whose type and profile
      are chosen; `id` and `date` come from the clock. */
  function FinalResult(cat: SimulatorCatalog, id: string, date: string, t: InspectionType, p: ProfileType,
                       dr: seq<DocumentResult>, qr: seq<QuestionResult>, vr: seq<VerificationResult>): SimulationResult
  {
    var tally := ScoreTally(cat, p, t, dr, qr, vr);
    var score := NormalizedScore(tally.total, tally.max);
    var presented := Count(dr, IsPresented);
    SimulationResult(
      id, date, t, p, score, 100, score, GetComplianceLevel(score, 100),
      dr, qr, vr, tally.infractions,
      SumFineMin(tally.infractions), SumFineMax(tally.infractions),
      presented, |RelevantDocuments(cat, Some(p), Some(t))| - presented,
      Count(qr, EarnedPoints), Count(qr, LostPoints),
      |RelevantQuestions(cat, Some(p), Some(t))| - |qr|,
      Count(vr, IsComplied), Count(vr, IsNotComplied),
      tally.crime, tally.repse)
  }

  /** Extending the scored prefix by one entry is one more step. */
  lemma ScoreDocumentsNext(acc: Tally, docs: seq<DocumentRule>, i: nat, results: seq<DocumentResult>)
    requires i < |docs|
    ensures ScoreDocuments(acc, docs[..i + 1], results) == DocumentStep(ScoreDocuments(acc, docs[..i], results), docs[i], results)
  {
    assert docs[..i + 1][..i] == docs[..i];
  }

  lemma ScoreQuestionsNext(acc: Tally, qs: seq<QuestionRule>, i: nat, results: seq<QuestionResult>)
    requires i < |qs|
    ensures ScoreQuestions(acc, qs[..i + 1], results) == QuestionStep(ScoreQuestions(acc, qs[..i], results), qs[i], results)
  {
    assert qs[..i + 1][..i] == qs[..i];
  }

  lemma ScoreVerificationsNext(acc: Tally, vps: seq<VerificationPoint>, i: nat, results: seq<VerificationResult>)
    requires i < |vps|
    ensures ScoreVerifications(acc, vps[..i + 1], results) == VerificationStep(ScoreVerifications(acc, vps[..i], results), vps[i], results)
  {
    assert vps[..i + 1][..i] == vps[..i];
  }

  /** The document pass of `calculateFinalResult`. */
  method DocumentPass(acc: Tally, docs: seq<DocumentRule>, dr: seq<DocumentResult>) returns (out: Tally)
    ensures out == ScoreDocuments(acc, docs, dr)
  {
    var totalScore, maxScore, infractions := acc.total, acc.max, acc.infractions;
    var hasREPSECancellationRisk := acc.repse;
    for i := 0 to |docs|
      invariant Tally(totalScore, maxScore, infractions, acc.crime, hasREPSECancellationRisk)
                == ScoreDocuments(acc, docs[..i], dr)
    {
      var doc := docs[i];
      ghost var before := Tally(totalScore, maxScore, infractions, acc.crime, hasREPSECancellationRisk);
      ScoreDocumentsNext(acc, docs, i, dr);
      assert ScoreDocuments(acc, docs[..i + 1], dr) == DocumentStep(before, doc, dr);
      maxScore := maxScore + doc.points;
      var found := DocumentResultFor(dr, doc.id);
      if found.Some? {
        totalScore := totalScore + found.value.points;
        if !found.value.presented && doc.obligatory {
          infractions := infractions + [MissingDocumentInfraction(doc)];
          if doc.id == "repse" {
            hasREPSECancellationRisk := true;
          }
        }
      }
      DocumentStepUnfold(before, doc, dr);
    }
    assert docs[..|docs|] == docs;
    out := Tally(totalScore, maxScore, infractions, acc.crime, hasREPSECancellationRisk);
  }

  /** The question pass of `calculateFinalResult`. */
  method QuestionPass(acc: Tally, qs: seq<QuestionRule>, qr: seq<QuestionResult>) returns (out: Tally)
    ensures out == ScoreQuestions(acc, qs, qr)
  {
    var totalScore, maxScore, infractions := acc.total, acc.max, acc.infractions;
    var hasCrimeRisk, hasREPSECancellationRisk := acc.crime, acc.repse;
    for i := 0 to |qs|
      invariant Tally(totalScore, maxScore, infractions, hasCrimeRisk, hasREPSECancellationRisk)
                == ScoreQuestions(acc, qs[..i], qr)
    {
      var q := qs[i];
      ScoreQuestionsNext(acc, qs, i, qr);
      ghost var before := Tally(totalScore, maxScore, infractions, hasCrimeRisk, hasREPSECancellationRisk);
      maxScore := maxScore + QuestionMaxPoints(q);
      var found := QuestionResultFor(qr, q.id);
      if found.Some? {
        var r := found.value;
        totalScore := totalScore + r.points;
        if r.isInfraction || r.isGraveInfraction {
          infractions := infractions + [QuestionInfraction(q, r)];
          if r.isCrime {
            hasCrimeRisk := true;
          }
          if r.isGraveInfraction && q.id == "q1" {
            hasREPSECancellationRisk := true;
          }
        }
      }
      assert Tally(totalScore, maxScore, infractions, hasCrimeRisk, hasREPSECancellationRisk) == QuestionStep(before, q, qr);
    }
    assert qs[..|qs|] == qs;
    out := Tally(totalScore, maxScore, infractions, hasCrimeRisk, hasREPSECancellationRisk);
  }

  /** The verification pass of `calculateFinalResult`. */
  method VerificationPass(acc: Tally, vps: seq<VerificationPoint>, vr: seq<VerificationResult>) returns (out: Tally)
    ensures out == ScoreVerifications(acc, vps, vr)
  {
    var totalScore, maxScore, infractions := acc.total, acc.max, acc.infractions;
    var hasCrimeRisk := acc.crime;
    for i := 0 to |vps|
      invariant Tally(totalScore, maxScore, infractions, hasCrimeRisk, acc.repse)
                == ScoreVerifications(acc, vps[..i], vr)
    {
      var vp := vps[i];
      ScoreVerificationsNext(acc, vps, i, vr);
      ghost var before := Tally(totalScore, maxScore, infractions, hasCrimeRisk, acc.repse);
      maxScore := maxScore + vp.points.complies;
      var found := VerificationResultFor(vr, vp.id);
      if found.Some? {
        totalScore := totalScore + found.value.points;
        if found.value.status == NotComplies {
          infractions := infractions + [VerificationInfraction(vp, found.value)];
          if vp.isCrime {
            hasCrimeRisk := true;
          }
        }
      }
      assert Tally(totalScore, maxScore, infractions, hasCrimeRisk, acc.repse) == VerificationStep(before, vp, vr);
    }
    assert vps[..|vps|] == vps;
    out := Tally(totalScore, maxScore, infractions, hasCrimeRisk, acc.repse);
  }

  /** `calculateFinalResult`'s computation: the three passes, then the
      normalized score, the fine totals and the counts. */
  method ScoreSimulation(cat: SimulatorCatalog, id: string, date: string, t: InspectionType, p: ProfileType,
                         dr: seq<DocumentResult>, qr: seq<QuestionResult>, vr: seq<VerificationResult>)
    returns (result: SimulationResult)
    ensures result == FinalResult(cat, id, date, t, p, dr, qr, vr)
  {
    var docs := RelevantDocuments(cat, Some(p), Some(t));
    var qs := RelevantQuestions(cat, Some(p), Some(t));
    var tally := DocumentPass(EMPTY_TALLY, docs, dr);
    tally := QuestionPass(tally, qs, qr);
    tally := VerificationPass(tally, RelevantVerificationPoints(cat, Some(p), Some(t)), vr);
    var score := NormalizedScore(tally.total, tally.max);
    var documentsPresented := Count(dr, IsPresented);
    result := SimulationResult(
      id, date, t, p, score, 100, score, GetComplianceLevel(score, 100),
      dr, qr, vr, tally.infractions,
      SumFineMin(tally.infractions), SumFineMax(tally.infractions),
      documentsPresented, |docs| - documentsPresented,
      Count(qr, EarnedPoints), Count(qr, LostPoints), |qs| - |qr|,
      Count(vr, IsComplied), Count(vr, IsNotComplied),
      tally.crime, tally.repse);
  }

  // ---------------------------------------------------------------------
  // What the passes accumulate

  predicate QuestionGrave(q: QuestionRule, results: seq<QuestionResult>)
  {
    var f := QuestionResultFor(results, q.id);
    f.Some? && f.value.isGraveInfraction
  }

  predicate QuestionCrime(q: QuestionRule, results: seq<QuestionResult>)
  {
    var f := QuestionResultFor(results, q.id);
    f.Some? && (f.value.isInfraction || f.value.isGraveInfraction) && f.value.isCrime
  }

  /** The REPSE registration notice is relevant, obligatory and recorded as
      not presented. */
  predicate RepseDocumentMissing(docs: seq<DocumentRule>, dr: seq<DocumentResult>)
  {
    exists i :: 0 <= i < |docs| && docs[i].id == "repse" && MissingObligatory(docs[i], dr)
  }

  /** The question about the REPSE registration was answered with a grave
      infraction. */
  predicate RepseAnswerGrave(qs: seq<QuestionRule>, qr: seq<QuestionResult>)
  {
    exists i :: 0 <= i < |qs| && qs[i].id == "q1" && QuestionGrave(qs[i], qr)
  }

  predicate CrimeAnswerRecorded(qs: seq<QuestionRule>, qr: seq<QuestionResult>)
  {
    exists i :: 0 <= i < |qs| && QuestionCrime(qs[i], qr)
  }

  predicate CrimePointNotComplied(vps: seq<VerificationPoint>, vr: seq<VerificationResult>)
  {
    exists i :: 0 <= i < |vps| && vps[i].isCrime && PointNotComplied(vps[i], vr)
  }

  /** One document step: at most one infraction, pushed exactly when the
      document is recorded missing and obligatory. */
  lemma DocumentStepInfractions(acc: Tally, d: DocumentRule, dr: seq<DocumentResult>)
    ensures DocumentStep(acc, d, dr).infractions ==
            acc.infractions + (if MissingObligatory(d, dr) then [MissingDocumentInfraction(d)] else [])
  {
  }

  /** One document step raises the REPSE flag for the registration notice
      recorded missing, and never the crime flag. */
  lemma DocumentStepFlags(acc: Tally, d: DocumentRule, dr: seq<DocumentResult>)
    ensures DocumentStep(acc, d, dr).crime == acc.crime
    ensures DocumentStep(acc, d, dr).repse == (acc.repse || (d.id == "repse" && MissingObligatory(d, dr)))
  {
  }

  lemma QuestionStepInfractions(acc: Tally, q: QuestionRule, qr: seq<QuestionResult>)
    ensures QuestionStep(acc, q, qr).infractions ==
            acc.infractions + (if QuestionFlagged(q, qr) then [QuestionInfraction(q, QuestionResultFor(qr, q.id).value)] else [])
  {
  }

  lemma QuestionStepFlags(acc: Tally, q: QuestionRule, qr: seq<QuestionResult>)
    ensures QuestionStep(acc, q, qr).crime == (acc.crime || QuestionCrime(q, qr))
    ensures QuestionStep(acc, q, qr).repse == (acc.repse || (q.id == "q1" && QuestionGrave(q, qr)))
  {
  }

  lemma VerificationStepInfractions(acc: Tally, v: VerificationPoint, vr: seq<VerificationResult>)
    ensures VerificationStep(acc, v, vr).infractions ==
            acc.infractions + (if PointNotComplied(v, vr) then [VerificationInfraction(v, VerificationResultFor(vr, v.id).value)] else [])
  {
  }

  lemma VerificationStepFlags(acc: Tally, v: VerificationPoint, vr: seq<VerificationResult>)
    ensures VerificationStep(acc, v, vr).crime == (acc.crime || (v.isCrime && PointNotComplied(v, vr)))
    ensures VerificationStep(acc, v, vr).repse == acc.repse
  {
  }

  /** The document pass appends one infraction per obligatory document
      recorded missing. */
  lemma {:induction false} ScoreDocumentsInfractions(acc: Tally, docs: seq<DocumentRule>, dr: seq<DocumentResult>)
    ensures |ScoreDocuments(acc, docs, dr).infractions| == |acc.infractions| + Count(docs, MissingIn(dr))
    ensures ScoreDocuments(acc, docs, dr).infractions[..|acc.infractions|] == acc.infractions
    decreases |docs|
  {
    if docs != [] {
      var init, d := docs[..|docs| - 1], docs[|docs| - 1];
      ScoreDocumentsInfractions(acc, init, dr);
      DocumentStepInfractions(ScoreDocuments(acc, init, dr), d, dr);
      FilterLast(docs, MissingIn(dr));
    }
  }

  /** The registration notice is recorded missing among `docs` exactly when
      it is among all but the last, or the last is it. */
  lemma RepseDocumentSplit(docs: seq<DocumentRule>, dr: seq<DocumentResult>)
    requires docs != []
    ensures RepseDocumentMissing(docs, dr) <==>
      RepseDocumentMissing(docs[..|docs| - 1], dr) || (docs[|docs| - 1].id == "repse" && MissingObligatory(docs[|docs| - 1], dr))
  {
    var init, x := docs[..|docs| - 1], docs[|docs| - 1];
    if RepseDocumentMissing(init, dr) {
      var i :| 0 <= i < |init| && init[i].id == "repse" && MissingObligatory(init[i], dr);
      assert docs[i] == init[i];
    }
    if RepseDocumentMissing(docs, dr) && !(x.id == "repse" && MissingObligatory(x, dr)) {
      var i :| 0 <= i < |docs| && docs[i].id == "repse" && MissingObligatory(docs[i], dr);
      assert i < |init| && init[i] == docs[i];
    }
  }

  /** The document pass raises the REPSE flag exactly for the registration
      notice recorded missing, and leaves the crime flag alone. */
  lemma {:induction false} ScoreDocumentsFlags(acc: Tally, docs: seq<DocumentRule>, dr: seq<DocumentResult>)
    ensures ScoreDocuments(acc, docs, dr).crime == acc.crime
    ensures ScoreDocuments(acc, docs, dr).repse == (acc.repse || RepseDocumentMissing(docs, dr))
    decreases |docs|
  {
    if docs != [] {
      var init, d := docs[..|docs| - 1], docs[|docs| - 1];
      ScoreDocumentsFlags(acc, init, dr);
      DocumentStepFlags(ScoreDocuments(acc, init, dr), d, dr);
      RepseDocumentSplit(docs, dr);
    }
  }

  /** The question pass appends one infraction per flagged answer. */
  lemma {:induction false} ScoreQuestionsInfractions(acc: Tally, qs: seq<QuestionRule>, qr: seq<QuestionResult>)
    ensures |ScoreQuestions(acc, qs, qr).infractions| == |acc.infractions| + Count(qs, FlaggedIn(qr))
    ensures ScoreQuestions(acc, qs, qr).infractions[..|acc.infractions|] == acc.infractions
    decreases |qs|
  {
    if qs != [] {
      var init, q := qs[..|qs| - 1], qs[|qs| - 1];
      ScoreQuestionsInfractions(acc, init, qr);
      QuestionStepInfractions(ScoreQuestions(acc, init, qr), q, qr);
      FilterLast(qs, FlaggedIn(qr));
    }
  }

  /** A flagged answer with criminal exposure is among `qs` exactly when it
      is among all but the last, or the last is one. */
  lemma CrimeAnswerSplit(qs: seq<QuestionRule>, qr: seq<QuestionResult>)
    requires qs != []
    ensures CrimeAnswerRecorded(qs, qr) <==>
      CrimeAnswerRecorded(qs[..|qs| - 1], qr) || (QuestionCrime(qs[|qs| - 1], qr))
  {
    var init, x := qs[..|qs| - 1], qs[|qs| - 1];
    if CrimeAnswerRecorded(init, qr) {
      var i :| 0 <= i < |init| && QuestionCrime(init[i], qr);
      assert qs[i] == init[i];
    }
    if CrimeAnswerRecorded(qs, qr) && !(QuestionCrime(x, qr)) {
      var i :| 0 <= i < |qs| && QuestionCrime(qs[i], qr);
      assert i < |init| && init[i] == qs[i];
    }
  }

  /** The question pass raises the crime flag exactly for a flagged answer
      with criminal exposure. */
  lemma {:induction false} ScoreQuestionsCrime(acc: Tally, qs: seq<QuestionRule>, qr: seq<QuestionResult>)
    ensures ScoreQuestions(acc, qs, qr).crime == (acc.crime || CrimeAnswerRecorded(qs, qr))
    decreases |qs|
  {
    if qs != [] {
      var init, q := qs[..|qs| - 1], qs[|qs| - 1];
      ScoreQuestionsCrime(acc, init, qr);
      QuestionStepFlags(ScoreQuestions(acc, init, qr), q, qr);
      CrimeAnswerSplit(qs, qr);
    }
  }

  /** The registration question is answered gravely among `qs` exactly when
      it is among all but the last, or the last is it. */
  lemma RepseAnswerSplit(qs: seq<QuestionRule>, qr: seq<QuestionResult>)
    requires qs != []
    ensures RepseAnswerGrave(qs, qr) <==>
      RepseAnswerGrave(qs[..|qs| - 1], qr) || (qs[|qs| - 1].id == "q1" && QuestionGrave(qs[|qs| - 1], qr))
  {
    var init, x := qs[..|qs| - 1], qs[|qs| - 1];
    if RepseAnswerGrave(init, qr) {
      var i :| 0 <= i < |init| && init[i].id == "q1" && QuestionGrave(init[i], qr);
      assert qs[i] == init[i];
    }
    if RepseAnswerGrave(qs, qr) && !(x.id == "q1" && QuestionGrave(x, qr)) {
      var i :| 0 <= i < |qs| && qs[i].id == "q1" && QuestionGrave(qs[i], qr);
      assert i < |init| && init[i] == qs[i];
    }
  }

  /** The question pass raises the REPSE flag exactly for a grave answer to
      the registration question. */
  lemma {:induction false} ScoreQuestionsRepse(acc: Tally, qs: seq<QuestionRule>, qr: seq<QuestionResult>)
    ensures ScoreQuestions(acc, qs, qr).repse == (acc.repse || RepseAnswerGrave(qs, qr))
    decreases |qs|
  {
    if qs != [] {
      var init, q := qs[..|qs| - 1], qs[|qs| - 1];
      ScoreQuestionsRepse(acc, init, qr);
      QuestionStepFlags(ScoreQuestions(acc, init, qr), q, qr);
      RepseAnswerSplit(qs, qr);
    }
  }

  /** The verification pass appends one infraction per point not complied
      with. */
  lemma {:induction false} ScoreVerificationsInfractions(acc: Tally, vps: seq<VerificationPoint>, vr: seq<VerificationResult>)
    ensures |ScoreVerifications(acc, vps, vr).infractions| == |acc.infractions| + Count(vps, NotCompliedIn(vr))
    ensures ScoreVerifications(acc, vps, vr).infractions[..|acc.infractions|] == acc.infractions
    decreases |vps|
  {
    if vps != [] {
      var init, v := vps[..|vps| - 1], vps[|vps| - 1];
      ScoreVerificationsInfractions(acc, init, vr);
      VerificationStepInfractions(ScoreVerifications(acc, init, vr), v, vr);
      FilterLast(vps, NotCompliedIn(vr));
    }
  }

  /** A point with criminal exposure is not complied with among `vps`
      exactly when one is among all but the last, or the last is one. */
  lemma CrimePointSplit(vps: seq<VerificationPoint>, vr: seq<VerificationResult>)
    requires vps != []
    ensures CrimePointNotComplied(vps, vr) <==>
      CrimePointNotComplied(vps[..|vps| - 1], vr) ||
      (vps[|vps| - 1].isCrime && PointNotComplied(vps[|vps| - 1], vr))
  {
    var init, v := vps[..|vps| - 1], vps[|vps| - 1];
    if CrimePointNotComplied(init, vr) {
      var i :| 0 <= i < |init| && init[i].isCrime && PointNotComplied(init[i], vr);
      assert vps[i] == init[i];
    }
    if CrimePointNotComplied(vps, vr) && !(v.isCrime && PointNotComplied(v, vr)) {
      var i :| 0 <= i < |vps| && vps[i].isCrime && PointNotComplied(vps[i], vr);
      assert i < |init| && init[i] == vps[i];
    }
  }

  /** The verification pass raises the crime flag exactly for a point with
      criminal exposure not complied with, and leaves the REPSE flag alone. */
  lemma {:induction false} ScoreVerificationsFlags(acc: Tally, vps: seq<VerificationPoint>, vr: seq<VerificationResult>)
    ensures ScoreVerifications(acc, vps, vr).crime == (acc.crime || CrimePointNotComplied(vps, vr))
    ensures ScoreVerifications(acc, vps, vr).repse == acc.repse
    decreases |vps|
  {
    if vps != [] {
      var init, v := vps[..|vps| - 1], vps[|vps| - 1];
      ScoreVerificationsFlags(acc, init, vr);
      VerificationStepFlags(ScoreVerifications(acc, init, vr), v, vr);
      CrimePointSplit(vps, vr);
    }
  }

  // ---------------------------------------------------------------------
  // Fines

  predicate FinesOrdered(infs: seq<Infraction>)
  {
    forall i :: 0 <= i < |infs| ==> 0 <= infs[i].fineMin <= infs[i].fineMax
  }

  /** Summing ordered, non-negative fine ranges gives an ordered,
      non-negative total. */
  lemma {:induction false} SumFinesOrdered(infs: seq<Infraction>)
    requires FinesOrdered(infs)
    ensures 0 <= SumFineMin(infs) <= SumFineMax(infs)
    decreases |infs|
  {
    if infs != [] {
      SumFinesOrdered(infs[1..]);
    }
  }

  /** A missing document's fine is an ordered, non-negative range whenever
      its range in UMAs is. */
  lemma MissingDocumentFineOrdered(d: DocumentRule)
    requires 0 <= d.fineIfMissing.min <= d.fineIfMissing.max
    ensures 0 <= MissingDocumentInfraction(d).fineMin <= MissingDocumentInfraction(d).fineMax
  {
    FineAmountOrdered(d.fineIfMissing.min, d.fineIfMissing.max);
  }

  lemma {:induction false} ScoreDocumentsFinesOrdered(acc: Tally, docs: seq<DocumentRule>, dr: seq<DocumentResult>)
    requires FinesOrdered(acc.infractions)
    requires forall i :: 0 <= i < |docs| ==> 0 <= docs[i].fineIfMissing.min <= docs[i].fineIfMissing.max
    ensures FinesOrdered(ScoreDocuments(acc, docs, dr).infractions)
    decreases |docs|
  {
    if docs != [] {
      var init, d := docs[..|docs| - 1], docs[|docs| - 1];
      ScoreDocumentsFinesOrdered(acc, init, dr);
      DocumentStepInfractions(ScoreDocuments(acc, init, dr), d, dr);
      MissingDocumentFineOrdered(d);
    }
  }

  lemma {:induction false} ScoreQuestionsFinesOrdered(acc: Tally, qs: seq<QuestionRule>, qr: seq<QuestionResult>)
    requires FinesOrdered(acc.infractions)
    ensures FinesOrdered(ScoreQuestions(acc, qs, qr).infractions)
    decreases |qs|
  {
    if qs != [] {
      var init, q := qs[..|qs| - 1], qs[|qs| - 1];
      ScoreQuestionsFinesOrdered(acc, init, qr);
      QuestionStepInfractions(ScoreQuestions(acc, init, qr), q, qr);
    }
  }

  lemma {:induction false} ScoreVerificationsFinesOrdered(acc: Tally, vps: seq<VerificationPoint>, vr: seq<VerificationResult>)
    requires FinesOrdered(acc.infractions)
    ensures FinesOrdered(ScoreVerifications(acc, vps, vr).infractions)
    decreases |vps|
  {
    if vps != [] {
      var init, v := vps[..|vps| - 1], vps[|vps| - 1];
      ScoreVerificationsFinesOrdered(acc, init, vr);
      VerificationStepInfractions(ScoreVerifications(acc, init, vr), v, vr);
    }
  }

  // ---------------------------------------------------------------------
  // The maximum score

  /** Each relevant document adds at least one point to the maximum. */
  lemma {:induction false} ScoreDocumentsMax(acc: Tally, docs: seq<DocumentRule>, dr: seq<DocumentResult>)
    requires forall i :: 0 <= i < |docs| ==> docs[i].points > 0
    ensures ScoreDocuments(acc, docs, dr).max >= acc.max + |docs|
    decreases |docs|
  {
    if docs != [] {
      ScoreDocumentsMax(acc, docs[..|docs| - 1], dr);
    }
  }

  lemma {:induction false} ScoreQuestionsMax(acc: Tally, qs: seq<QuestionRule>, qr: seq<QuestionResult>)
    ensures ScoreQuestions(acc, qs, qr).max >= acc.max
    decreases |qs|
  {
    if qs != [] {
      ScoreQuestionsMax(acc, qs[..|qs| - 1], qr);
    }
  }

  lemma {:induction false} ScoreVerificationsMax(acc: Tally, vps: seq<VerificationPoint>, vr: seq<VerificationResult>)
    requires forall i :: 0 <= i < |vps| ==> vps[i].points.complies >= 0
    ensures ScoreVerifications(acc, vps, vr).max >= acc.max
    decreases |vps|
  {
    if vps != [] {
      ScoreVerificationsMax(acc, vps[..|vps| - 1], vr);
    }
  }

  /** What scoring relies on in a catalog: every document is worth points
      and carries an ordered, non-negative fine range, complying with a point
      never costs, and one document is asked of every session. */
  predicate ScoringSound(cat: SimulatorCatalog)
  {
    (forall i :: 0 <= i < |cat.documents| ==>
       cat.documents[i].points > 0 &&
       0 <= cat.documents[i].fineIfMissing.min <= cat.documents[i].fineIfMissing.max) &&
    (forall i :: 0 <= i < |cat.points| ==> cat.points[i].points.complies >= 0) &&
    (exists i :: 0 <= i < |cat.documents| && AskedOfEverySession(cat.documents[i]))
  }

  predicate AskedOfEverySession(d: DocumentRule)
  {
    forall p, t :: DocumentApplies(d, p, t)
  }

  /** The simulator's catalog is sound for scoring: the RFC document is asked
      of every profile on every inspection type. */
  lemma CatalogScoringSound()
    ensures ScoringSound(SIMULATOR_CATALOG)
  {
    DocumentRulesWellFormed();
    VerificationPointSigns();
    assert SIMULATOR_CATALOG.documents[8] == DOC_RFC;
    forall p, t
      ensures DocumentApplies(DOC_RFC, p, t)
    {
      var i := if p == Contratista then 0 else 1;
      var j := match t case Extraordinaria => 0 case Ordinaria => 1 case Constatacion => 2;
      assert DOC_RFC.forProfiles[i] == p && DOC_RFC.forInspectionTypes[j] == t;
    }
    assert AskedOfEverySession(SIMULATOR_CATALOG.documents[8]);
  }

  /** In a sound catalog every session faces at least one document, so the
      maximum score is positive and the percentage is always the rounded ratio
      of the points earned to the points available (before clamping). */
  lemma MaxScorePositive(cat: SimulatorCatalog, id: string, date: string, t: InspectionType, p: ProfileType,
                         dr: seq<DocumentResult>, qr: seq<QuestionResult>, vr: seq<VerificationResult>)
    requires ScoringSound(cat)
    ensures ScoreTally(cat, p, t, dr, qr, vr).max > 0
    ensures var tally := ScoreTally(cat, p, t, dr, qr, vr);
            0 <= tally.total <= tally.max ==>
            -tally.max <= 200 * tally.total - 2 * FinalResult(cat, id, date, t, p, dr, qr, vr).score * tally.max < tally.max
  {
    var docs := RelevantDocuments(cat, Some(p), Some(t));
    var qs := RelevantQuestions(cat, Some(p), Some(t));
    var vps := RelevantVerificationPoints(cat, Some(p), Some(t));
    var k :| 0 <= k < |cat.documents| && AskedOfEverySession(cat.documents[k]);
    assert DocumentApplies(cat.documents[k], p, t);
    assert cat.documents[k] in docs;
    ScoreDocumentsMax(EMPTY_TALLY, docs, dr);
    var afterDocs := ScoreDocuments(EMPTY_TALLY, docs, dr);
    ScoreQuestionsMax(afterDocs, qs, qr);
    ScoreVerificationsMax(ScoreQuestions(afterDocs, qs, qr), vps, vr);
  }

  // ---------------------------------------------------------------------
  // The final result

  /** One infraction per obligatory document recorded missing, per flagged
      answer and per point not complied with. */
  lemma InfractionCount(cat: SimulatorCatalog, id: string, date: string, t: InspectionType, p: ProfileType,
                        dr: seq<DocumentResult>, qr: seq<QuestionResult>, vr: seq<VerificationResult>)
    ensures |FinalResult(cat, id, date, t, p, dr, qr, vr).infractions| ==
            Count(RelevantDocuments(cat, Some(p), Some(t)), MissingIn(dr)) +
            Count(RelevantQuestions(cat, Some(p), Some(t)), FlaggedIn(qr)) +
            Count(RelevantVerificationPoints(cat, Some(p), Some(t)), NotCompliedIn(vr))
  {
    var afterDocs := ScoreDocuments(EMPTY_TALLY, RelevantDocuments(cat, Some(p), Some(t)), dr);
    ScoreDocumentsInfractions(EMPTY_TALLY, RelevantDocuments(cat, Some(p), Some(t)), dr);
    ScoreQuestionsInfractions(afterDocs, RelevantQuestions(cat, Some(p), Some(t)), qr);
    ScoreVerificationsInfractions(ScoreQuestions(afterDocs, RelevantQuestions(cat, Some(p), Some(t)), qr),
                                  RelevantVerificationPoints(cat, Some(p), Some(t)), vr);
  }

  /** Criminal exposure is reported exactly when a flagged answer or a point
      not complied with carries it. */
  lemma CrimeRiskIff(cat: SimulatorCatalog, id: string, date: string, t: InspectionType, p: ProfileType,
                     dr: seq<DocumentResult>, qr: seq<QuestionResult>, vr: seq<VerificationResult>)
    ensures FinalResult(cat, id, date, t, p, dr, qr, vr).hasCrimeRisk <==>
            CrimeAnswerRecorded(RelevantQuestions(cat, Some(p), Some(t)), qr) ||
            CrimePointNotComplied(RelevantVerificationPoints(cat, Some(p), Some(t)), vr)
  {
    var afterDocs := ScoreDocuments(EMPTY_TALLY, RelevantDocuments(cat, Some(p), Some(t)), dr);
    ScoreDocumentsFlags(EMPTY_TALLY, RelevantDocuments(cat, Some(p), Some(t)), dr);
    ScoreQuestionsCrime(afterDocs, RelevantQuestions(cat, Some(p), Some(t)), qr);
    ScoreVerificationsFlags(ScoreQuestions(afterDocs, RelevantQuestions(cat, Some(p), Some(t)), qr),
                            RelevantVerificationPoints(cat, Some(p), Some(t)), vr);
  }

  /** The REPSE cancellation risk is reported exactly when the registration
      notice is recorded missing or the registration question drew a grave
      answer. */
  lemma RepseRiskIff(cat: SimulatorCatalog, id: string, date: string, t: InspectionType, p: ProfileType,
                     dr: seq<DocumentResult>, qr: seq<QuestionResult>, vr: seq<VerificationResult>)
    ensures FinalResult(cat, id, date, t, p, dr, qr, vr).hasREPSECancellationRisk <==>
            RepseDocumentMissing(RelevantDocuments(cat, Some(p), Some(t)), dr) ||
            RepseAnswerGrave(RelevantQuestions(cat, Some(p), Some(t)), qr)
  {
    var afterDocs := ScoreDocuments(EMPTY_TALLY, RelevantDocuments(cat, Some(p), Some(t)), dr);
    ScoreDocumentsFlags(EMPTY_TALLY, RelevantDocuments(cat, Some(p), Some(t)), dr);
    ScoreQuestionsRepse(afterDocs, RelevantQuestions(cat, Some(p), Some(t)), qr);
    ScoreVerificationsFlags(ScoreQuestions(afterDocs, RelevantQuestions(cat, Some(p), Some(t)), qr),
                            RelevantVerificationPoints(cat, Some(p), Some(t)), vr);
  }

  /** The total fine range is ordered and non-negative. */
  lemma TotalFinesOrdered(cat: SimulatorCatalog, id: string, date: string, t: InspectionType, p: ProfileType,
                          dr: seq<DocumentResult>, qr: seq<QuestionResult>, vr: seq<VerificationResult>)
    requires ScoringSound(cat)
    ensures 0 <= FinalResult(cat, id, date, t, p, dr, qr, vr).totalFineMin <= FinalResult(cat, id, date, t, p, dr, qr, vr).totalFineMax
  {
    var docs := RelevantDocuments(cat, Some(p), Some(t));
    var afterDocs := ScoreDocuments(EMPTY_TALLY, docs, dr);
    ScoreDocumentsFinesOrdered(EMPTY_TALLY, docs, dr);
    ScoreQuestionsFinesOrdered(afterDocs, RelevantQuestions(cat, Some(p), Some(t)), qr);
    ScoreVerificationsFinesOrdered(ScoreQuestions(afterDocs, RelevantQuestions(cat, Some(p), Some(t)), qr),
                                   RelevantVerificationPoints(cat, Some(p), Some(t)), vr);
    SumFinesOrdered(ScoreTally(cat, p, t, dr, qr, vr).infractions);
  }

  // ---------------------------------------------------------------------
  // A perfect session

  predicate DocumentsPerfect(docs: seq<DocumentRule>, dr: seq<DocumentResult>)
  {
    forall i :: 0 <= i < |docs| ==>
      var f := DocumentResultFor(dr, docs[i].id);
      f.Some? && f.value.presented && f.value.points == docs[i].points
  }

  predicate QuestionsPerfect(qs: seq<QuestionRule>, qr: seq<QuestionResult>)
  {
    forall i :: 0 <= i < |qs| ==>
      var f := QuestionResultFor(qr, qs[i].id);
      f.Some? && f.value.points == QuestionMaxPoints(qs[i]) && !f.value.isInfraction && !f.value.isGraveInfraction
  }

  predicate VerificationsPerfect(vps: seq<VerificationPoint>, vr: seq<VerificationResult>)
  {
    forall i :: 0 <= i < |vps| ==>
      var f := VerificationResultFor(vr, vps[i].id);
      f.Some? && f.value.status == Complies && f.value.points == vps[i].points.complies
  }

  lemma {:induction false} ScoreDocumentsPerfect(acc: Tally, docs: seq<DocumentRule>, dr: seq<DocumentResult>)
    requires DocumentsPerfect(docs, dr)
    ensures var r := ScoreDocuments(acc, docs, dr);
            r.total - r.max == acc.total - acc.max && r.infractions == acc.infractions &&
            r.crime == acc.crime && r.repse == acc.repse
    decreases |docs|
  {
    if docs != [] {
      var init := docs[..|docs| - 1];
      assert forall i :: 0 <= i < |init| ==> init[i] == docs[i];
      ScoreDocumentsPerfect(acc, init, dr);
    }
  }

  lemma {:induction false} ScoreQuestionsPerfect(acc: Tally, qs: seq<QuestionRule>, qr: seq<QuestionResult>)
    requires QuestionsPerfect(qs, qr)
    ensures var r := ScoreQuestions(acc, qs, qr);
            r.total - r.max == acc.total - acc.max && r.infractions == acc.infractions &&
            r.crime == acc.crime && r.repse == acc.repse
    decreases |qs|
  {
    if qs != [] {
      var init := qs[..|qs| - 1];
      assert forall i :: 0 <= i < |init| ==> init[i] == qs[i];
      ScoreQuestionsPerfect(acc, init, qr);
    }
  }

  lemma {:induction false} ScoreVerificationsPerfect(acc: Tally, vps: seq<VerificationPoint>, vr: seq<VerificationResult>)
    requires VerificationsPerfect(vps, vr)
    ensures var r := ScoreVerifications(acc, vps, vr);
            r.total - r.max == acc.total - acc.max && r.infractions == acc.infractions &&
            r.crime == acc.crime && r.repse == acc.repse
    decreases |vps|
  {
    if vps != [] {
      var init := vps[..|vps| - 1];
      assert forall i :: 0 <= i < |init| ==> init[i] == vps[i];
      ScoreVerificationsPerfect(acc, init, vr);
    }
  }

  /** Presenting every document valid, giving every question its best
      answer and complying with every point scores 100 ("Excelente
      cumplimiento") with no infraction, no fine and no risk. */
  lemma PerfectSessionScoresFull(cat: SimulatorCatalog, id: string, date: string, t: InspectionType, p: ProfileType,
                                 dr: seq<DocumentResult>, qr: seq<QuestionResult>, vr: seq<VerificationResult>)
    requires ScoringSound(cat)
    requires DocumentsPerfect(RelevantDocuments(cat, Some(p), Some(t)), dr)
    requires QuestionsPerfect(RelevantQuestions(cat, Some(p), Some(t)), qr)
    requires VerificationsPerfect(RelevantVerificationPoints(cat, Some(p), Some(t)), vr)
    ensures var r := FinalResult(cat, id, date, t, p, dr, qr, vr);
            r.score == 100 && r.level == Alto && r.infractions == [] &&
            r.totalFineMin == 0 && r.totalFineMax == 0 && !r.hasCrimeRisk && !r.hasREPSECancellationRisk
  {
    var afterDocs := ScoreDocuments(EMPTY_TALLY, RelevantDocuments(cat, Some(p), Some(t)), dr);
    ScoreDocumentsPerfect(EMPTY_TALLY, RelevantDocuments(cat, Some(p), Some(t)), dr);
    ScoreQuestionsPerfect(afterDocs, RelevantQuestions(cat, Some(p), Some(t)), qr);
    ScoreVerificationsPerfect(ScoreQuestions(afterDocs, RelevantQuestions(cat, Some(p), Some(t)), qr),
                              RelevantVerificationPoints(cat, Some(p), Some(t)), vr);
    MaxScorePositive(cat, id, date, t, p, dr, qr, vr);
  }

  /** Skipping every question records a result for each of them: none counts
      as skipped, every one counts as incorrect. */
  lemma SkippingEveryQuestionCountsIncorrect(cat: SimulatorCatalog, id: string, date: string, t: InspectionType, p: ProfileType,
                                             dr: seq<DocumentResult>, qr: seq<QuestionResult>, vr: seq<VerificationResult>)
    requires |qr| == |RelevantQuestions(cat, Some(p), Some(t))|
    requires forall i :: 0 <= i < |qr| ==> qr[i] == AnswerQuestion(RelevantQuestions(cat, Some(p), Some(t))[i], None)
    ensures FinalResult(cat, id, date, t, p, dr, qr, vr).questionsSkipped == 0
    ensures FinalResult(cat, id, date, t, p, dr, qr, vr).questionsIncorrect == |qr|
    ensures FinalResult(cat, id, date, t, p, dr, qr, vr).questionsCorrect == 0
  {
    FilterAll(qr, LostPoints);
    FilterNone(qr, EarnedPoints);
  }

  // ---------------------------------------------------------------------
  // The last answer of a session without a verification phase

  /** As written, the answer handler keeps the scoring callback of the
      render in which it was created, which has not yet seen the answer being
      recorded: the final result is computed from the answers before it.
      Compared with the result over every answer, it lacks exactly the last
      answer and counts one more question as skipped. */
  function LastAnswerScoredAsWritten(cat: SimulatorCatalog, id: string, date: string, t: InspectionType, p: ProfileType,
                                     dr: seq<DocumentResult>, qrBefore: seq<QuestionResult>, last: QuestionResult,
                                     vr: seq<VerificationResult>): (r: SimulationResult)
    ensures r.questionResults == qrBefore
    ensures r.questionResults + [last] == FinalResult(cat, id, date, t, p, dr, qrBefore + [last], vr).questionResults
    ensures r.questionsSkipped == FinalResult(cat, id, date, t, p, dr, qrBefore + [last], vr).questionsSkipped + 1
  {
    FinalResult(cat, id, date, t, p, dr, qrBefore, vr)
  }

  /** The stale result loses the last answer: with every question answered
      it still reports one question skipped, and a grave last answer leaves
      no infraction for it. */
  lemma StaleResultMissesLastAnswer(cat: SimulatorCatalog, id: string, date: string, t: InspectionType, p: ProfileType,
                                    dr: seq<DocumentResult>, qrBefore: seq<QuestionResult>, last: QuestionResult,
                                    vr: seq<VerificationResult>)
    requires |qrBefore| + 1 == |RelevantQuestions(cat, Some(p), Some(t))|
    ensures LastAnswerScoredAsWritten(cat, id, date, t, p, dr, qrBefore, last, vr).questionsSkipped == 1
    ensures FinalResult(cat, id, date, t, p, dr, qrBefore + [last], vr).questionsSkipped == 0
  {
  }

  const CONTRACTOR_QUESTIONS: seq<QuestionRule> := [Q1, Q2, Q3, Q4, Q5, Q6, Q7, Q8, Q9, Q10]
  const CLIENT_QUESTIONS: seq<QuestionRule> := [B1, B2, B3, B4, B5]

  lemma QuestionCatalogSplit()
    ensures SIMULATOR_QUESTIONS == CONTRACTOR_QUESTIONS + CLIENT_QUESTIONS
    ensures forall i :: 0 <= i < |CONTRACTOR_QUESTIONS| ==> Beneficiario !in CONTRACTOR_QUESTIONS[i].forProfiles
  {
  }

  lemma ClientConstatacionQuestions()
    ensures Filter(CLIENT_QUESTIONS, (q: QuestionRule) => QuestionApplies(q, Beneficiario, Constatacion)) == [B1, B2, B4]
  {
    var p := (q: QuestionRule) => QuestionApplies(q, Beneficiario, Constatacion);
    assert Filter(CLIENT_QUESTIONS[4..], p) == [];
    assert Filter(CLIENT_QUESTIONS[3..], p) == [B4];
    assert Filter(CLIENT_QUESTIONS[2..], p) == [B4];
    assert Filter(CLIENT_QUESTIONS[1..], p) == [B2, B4];
  }

  /** The registration-verification visit asks a client company three
      questions. */
  lemma BeneficiarioConstatacionQuestions()
    ensures RelevantQuestions(SIMULATOR_CATALOG, Some(Beneficiario), Some(Constatacion)) == [B1, B2, B4]
  {
    var p := (q: QuestionRule) => QuestionApplies(q, Beneficiario, Constatacion);
    QuestionCatalogSplit();
    ClientConstatacionQuestions();
    FilterNone(CONTRACTOR_QUESTIONS, p);
    FilterAppend(CONTRACTOR_QUESTIONS, CLIENT_QUESTIONS, p);
  }

  lemma ClientAnswers()
    ensures var a1, a2, c4 := AnswerQuestion(B1, Some("a")), AnswerQuestion(B2, Some("a")), AnswerQuestion(B4, Some("c"));
            a1.questionId == "b1" && !a1.isInfraction && !a1.isGraveInfraction &&
            a2.questionId == "b2" && !a2.isInfraction && !a2.isGraveInfraction &&
            c4.questionId == "b4" && c4.isGraveInfraction
  {
    assert B1.options.value[0].id == "a";
    assert B2.options.value[0].id == "a";
    assert B4.options.value[0].id != "c" && B4.options.value[1].id != "c" && B4.options.value[2].id == "c";
  }

  lemma ClientFlaggedCounts(a1: QuestionResult, a2: QuestionResult, last: QuestionResult)
    requires a1.questionId == "b1" && !a1.isInfraction && !a1.isGraveInfraction
    requires a2.questionId == "b2" && !a2.isInfraction && !a2.isGraveInfraction
    requires last.questionId == "b4" && (last.isInfraction || last.isGraveInfraction)
    ensures Count([B1, B2, B4], FlaggedIn([a1, a2])) == 0
    ensures Count([B1, B2, B4], FlaggedIn([a1, a2, last])) == 1
  {
    var before, after := [a1, a2], [a1, a2, last];
    HasKeyApply(QuestionKey, "b1", a1);
    HasKeyApply(QuestionKey, "b2", a1);
    HasKeyApply(QuestionKey, "b2", a2);
    HasKeyApply(QuestionKey, "b4", a1);
    HasKeyApply(QuestionKey, "b4", a2);
    HasKeyApply(QuestionKey, "b4", last);
    FindFirst(before, HasKey(QuestionKey, "b1"), 0);
    FindFirst(before, HasKey(QuestionKey, "b2"), 1);
    FindFirst(after, HasKey(QuestionKey, "b1"), 0);
    FindFirst(after, HasKey(QuestionKey, "b2"), 1);
    FindFirst(after, HasKey(QuestionKey, "b4"), 2);
    var flaggedBefore, flaggedAfter := FlaggedIn(before), FlaggedIn(after);
    assert !flaggedBefore(B1) && !flaggedBefore(B2) && !flaggedBefore(B4);
    assert !flaggedAfter(B1) && !flaggedAfter(B2) && flaggedAfter(B4);
    FilterNone([B1, B2, B4], flaggedBefore);
    assert [B1, B2, B4][1..] == [B2, B4] && [B2, B4][1..] == [B4];
    assert Filter([B4], flaggedAfter) == [B4];
    assert Filter([B2, B4], flaggedAfter) == [B4];
  }

  /** On that visit, two answers without infraction followed by a flagged
      last answer: whatever the documents' results, the stale result lists
      one infraction fewer than the intended one. */
  lemma StaleClientResultMissesFlaggedAnswer(id: string, date: string, dr: seq<DocumentResult>,
                                             a1: QuestionResult, a2: QuestionResult, last: QuestionResult)
    requires a1.questionId == "b1" && !a1.isInfraction && !a1.isGraveInfraction
    requires a2.questionId == "b2" && !a2.isInfraction && !a2.isGraveInfraction
    requires last.questionId == "b4" && (last.isInfraction || last.isGraveInfraction)
    ensures |FinalResult(SIMULATOR_CATALOG, id, date, Constatacion, Beneficiario, dr, [a1, a2, last], []).infractions| ==
            |LastAnswerScoredAsWritten(SIMULATOR_CATALOG, id, date, Constatacion, Beneficiario, dr, [a1, a2], last, []).infractions| + 1
  {
    BeneficiarioConstatacionQuestions();
    VerificationPhaseIffNotConstatacion(Constatacion);
    ClientFlaggedCounts(a1, a2, last);
    InfractionCount(SIMULATOR_CATALOG, id, date, Constatacion, Beneficiario, dr, [a1, a2], []);
    InfractionCount(SIMULATOR_CATALOG, id, date, Constatacion, Beneficiario, dr, [a1, a2, last], []);
  }

  /** Concretely: a client company on a registration-verification visit
      answers the first two questions correctly and admits, on the last one,
      to having no written contract (a grave infraction). Whatever the
      documents presented, the stale result misses that infraction: it lists
      one fewer than the intended result, and counts the question skipped. */
  lemma StaleResultDropsGraveAnswer(id: string, date: string, dr: seq<DocumentResult>)
    ensures var a1, a2, last := AnswerQuestion(B1, Some("a")), AnswerQuestion(B2, Some("a")), AnswerQuestion(B4, Some("c"));
            var asWritten := LastAnswerScoredAsWritten(SIMULATOR_CATALOG, id, date, Constatacion, Beneficiario, dr, [a1, a2], last, []);
            var intended := FinalResult(SIMULATOR_CATALOG, id, date, Constatacion, Beneficiario, dr, [a1, a2, last], []);
            last.isGraveInfraction &&
            |intended.infractions| == |asWritten.infractions| + 1 &&
            asWritten.questionsSkipped == 1 && intended.questionsSkipped == 0
  {
    var a1, a2, last := AnswerQuestion(B1, Some("a")), AnswerQuestion(B2, Some("a")), AnswerQuestion(B4, Some("c"));
    ClientAnswers();
    StaleClientResultMissesFlaggedAnswer(id, date, dr, a1, a2, last);
    BeneficiarioConstatacionQuestions();
  }
}
