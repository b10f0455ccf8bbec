/** The rule tables of the inspection simulator (`constants/simulator.ts`):
    inspection types and their phases, the document, question and
    verification-point rules with their applicability tags, the inspector's
    dialogue script, and the two helpers `calculateFineAmount` and
    `getComplianceLevel`. */
module Catalog {
  import opened Common
  import Data

  datatype InspectionType = Extraordinaria | Ordinaria | Constatacion

  datatype ProfileType = Contratista | Beneficiario

  datatype Phase = Selection | Profile | Intro | Documents | Interrogation | Verification | Results | ActionPlan

  /** The string tag the source uses for each phase (dialogue rows are keyed by it). */
  function PhaseName(p: Phase): string
  {
    match p
    case Selection => "selection"
    case Profile => "profile"
    case Intro => "intro"
    case Documents => "documents"
    case Interrogation => "interrogation"
    case Verification => "verification"
    case Results => "results"
    case ActionPlan => "action-plan"
  }

  /** Only the fields the logic reads; difficulty, duration, icon, colour and
      the informational counts are display metadata. */
  datatype InspectionTypeConfig = InspectionTypeConfig(id: InspectionType, name: string, phases: seq<Phase>)

  const EXTRAORDINARIA_CONFIG: InspectionTypeConfig := InspectionTypeConfig(Extraordinaria, "EXTRAORDINARIA",
    [Selection, Profile, Intro, Documents, Interrogation, Verification, Results, ActionPlan])
  const ORDINARIA_CONFIG: InspectionTypeConfig := InspectionTypeConfig(Ordinaria, "ORDINARIA",
    [Selection, Profile, Intro, Documents, Interrogation, Verification, Results, ActionPlan])
  const CONSTATACION_CONFIG: InspectionTypeConfig := InspectionTypeConfig(Constatacion, "CONSTATACIÓN REPSE",
    [Selection, Profile, Intro, Documents, Interrogation, Results, ActionPlan])

  const INSPECTION_TYPES: seq<InspectionTypeConfig> := [EXTRAORDINARIA_CONFIG, ORDINARIA_CONFIG, CONSTATACION_CONFIG]

  /** `INSPECTION_TYPES.find(t => t.id === inspectionType)`. */
  function ConfigOf(t: InspectionType): Option<InspectionTypeConfig>
  {
    Find(INSPECTION_TYPES, (c: InspectionTypeConfig) => c.id == t)
  }

  /** `inspectionConfig?.phases.includes('verification')`; false while no
      inspection type is selected. */
  predicate HasVerificationPhase(t: Option<InspectionType>)
  {
    t.Some? && ConfigOf(t.value).Some? && Verification in ConfigOf(t.value).value.phases
  }

  /** The registration-verification visit is the only type without a
      physical-verification walk-through. */
  lemma VerificationPhaseIffNotConstatacion(t: InspectionType)
    ensures ConfigOf(t).Some? && ConfigOf(t).value.id == t
    ensures HasVerificationPhase(Some(t)) <==> t != Constatacion
  {
    var p := (c: InspectionTypeConfig) => c.id == t;
    match t
    case Extraordinaria => FindFirst(INSPECTION_TYPES, p, 0);
    case Ordinaria => FindFirst(INSPECTION_TYPES, p, 1);
    case Constatacion =>
      FindFirst(INSPECTION_TYPES, p, 2);
      assert CONSTATACION_CONFIG.phases[5] == Results;
  }

  datatype FineRange = FineRange(min: int, max: int, unit: string)

  /** A document the inspector asks for. Category, icon and the list of
      things the inspector checks on it are display text. */
  datatype DocumentRule = DocumentRule(
    id: string,
    name: string,
    obligatory: bool,
    legalBasis: string,
    points: int,
    fineIfMissing: FineRange,
    forProfiles: seq<ProfileType>,
    forInspectionTypes: seq<InspectionType>)

  const ALL_TYPES: seq<InspectionType> := [Extraordinaria, Ordinaria, Constatacion]
  const ON_SITE_TYPES: seq<InspectionType> := [Extraordinaria, Ordinaria]

  const DOC_REPSE: DocumentRule := DocumentRule("repse", "Aviso de Registro REPSE", true, "Art. 15 LFT", 15,
    FineRange(2000, 50000, "UMAs"), [Contratista], ALL_TYPES)
  const DOC_CONTRATOS_SERVICIOS: DocumentRule := DocumentRule("contratos_servicios", "Contratos con Beneficiarios", true, "Art. 12-15 LFT", 12,
    FineRange(250, 5000, "UMAs"), [Contratista], ALL_TYPES)
  const DOC_ALTAS_IMSS: DocumentRule := DocumentRule("altas_imss", "Altas IMSS de Trabajadores", true, "Art. 132 fracc. XXIV LFT", 15,
    FineRange(250, 5000, "UMAs"), [Contratista], ALL_TYPES)
  const DOC_NOMINA: DocumentRule := DocumentRule("nomina", "Recibos de Nómina", true, "Art. 132 LFT", 10,
    FineRange(250, 2500, "UMAs"), [Contratista], ON_SITE_TYPES)
  const DOC_ICSOE: DocumentRule := DocumentRule("icsoe", "Acuses ICSOE (últimos 3)", true, "Art. Quinto Disposiciones REPSE", 8,
    FineRange(250, 2500, "UMAs"), [Contratista], ALL_TYPES)
  const DOC_SISUB: DocumentRule := DocumentRule("sisub", "Declaraciones SISUB", true, "Art. Quinto Disposiciones REPSE", 8,
    FineRange(250, 2500, "UMAs"), [Contratista], ON_SITE_TYPES)
  const DOC_CONTRATOS_INDIVIDUALES: DocumentRule := DocumentRule("contratos_individuales", "Contratos Individuales de Trabajo", true, "Art. 24-26 LFT", 10,
    FineRange(250, 5000, "UMAs"), [Contratista], ON_SITE_TYPES)
  const DOC_CAPACITACION: DocumentRule := DocumentRule("capacitacion", "Constancias de Capacitación", false, "Art. 132 fracc. XV LFT", 5,
    FineRange(250, 2500, "UMAs"), [Contratista], ON_SITE_TYPES)
  const DOC_RFC: DocumentRule := DocumentRule("rfc", "RFC Activo", true, "Disposiciones REPSE", 5,
    FineRange(2000, 10000, "UMAs"), [Contratista, Beneficiario], ALL_TYPES)
  const DOC_CEDULA_SUA: DocumentRule := DocumentRule("cedula_sua", "Cédula de Determinación SUA", true, "LSS Art. 15-A", 7,
    FineRange(250, 2500, "UMAs"), [Contratista], ON_SITE_TYPES)
  const DOC_VERIFICACION_REPSE_PROVEEDOR: DocumentRule := DocumentRule("verificacion_repse_proveedor", "Verificación REPSE del Proveedor", true, "Art. 15 LFT", 15,
    FineRange(2000, 50000, "UMAs"), [Beneficiario], ALL_TYPES)
  const DOC_CONTRATO_PROVEEDOR: DocumentRule := DocumentRule("contrato_proveedor", "Contrato con Proveedor", true, "Art. 15 LFT", 12,
    FineRange(250, 5000, "UMAs"), [Beneficiario], ALL_TYPES)
  const DOC_DOCUMENTACION_MENSUAL: DocumentRule := DocumentRule("documentacion_mensual", "Documentación Mensual del Contratista", true, "Art. Décimo Tercero-C Disposiciones REPSE", 10,
    FineRange(250, 5000, "UMAs"), [Beneficiario], ON_SITE_TYPES)

  const SIMULATOR_DOCUMENTS: seq<DocumentRule> := [
    DOC_REPSE, DOC_CONTRATOS_SERVICIOS, DOC_ALTAS_IMSS, DOC_NOMINA, DOC_ICSOE, DOC_SISUB,
    DOC_CONTRATOS_INDIVIDUALES, DOC_CAPACITACION, DOC_RFC, DOC_CEDULA_SUA,
    DOC_VERIFICACION_REPSE_PROVEEDOR, DOC_CONTRATO_PROVEEDOR, DOC_DOCUMENTACION_MENSUAL
  ]

  /** `correct: boolean | 'partial'`: three distinct outcomes, not a boolean. */
  datatype Correctness = Correct | Incorrect | Partial

  /** An answer option; an absent `isInfraction`/`isGraveInfraction`/`isCrime`
      in the source reads as false (`option.isInfraction || false`). */
  datatype QuestionOption = QuestionOption(
    id: string,
    correct: Correctness,
    points: int,
    observation: Option<string>,
    isInfraction: bool,
    isGraveInfraction: bool,
    isCrime: bool)

  /** A question; `options` is optional in the source's type. The question
      and option wording, category and obligatory flag are display text. */
  datatype QuestionRule = QuestionRule(
    id: string,
    options: Option<seq<QuestionOption>>,
    legalBasis: string,
    forProfiles: seq<ProfileType>,
    forInspectionTypes: seq<InspectionType>)

  function Opt(id: string, correct: Correctness, points: int): QuestionOption
  {
    QuestionOption(id, correct, points, None, false, false, false)
  }
  function Minor(id: string, correct: Correctness, points: int, observation: string): QuestionOption
  {
    QuestionOption(id, correct, points, Some(observation), true, false, false)
  }
  function Grave(id: string, points: int, observation: string, crime: bool): QuestionOption
  {
    QuestionOption(id, Incorrect, points, Some(observation), false, true, crime)
  }
  function Noted(id: string, correct: Correctness, points: int, observation: string): QuestionOption
  {
    QuestionOption(id, correct, points, Some(observation), false, false, false)
  }

  const Q1: QuestionRule := QuestionRule("q1", Some([
      Opt("a", Correct, 10),
      Grave("b", -15, "CRÍTICO: REPSE vencido - Multa 2,000-50,000 UMAs", false),
      Grave("c", -20, "CRÍTICO: Sin REPSE - Subcontratación ilegal", true),
      Grave("d", -20, "CRÍTICO: Opera sin registro", false)
    ]), "Art. 15 LFT", [Contratista], ALL_TYPES)
  const Q2: QuestionRule := QuestionRule("q2", Some([
      Minor("a", Incorrect, -15, "Sin contratos pero presta servicios - Irregular"),
      Opt("b", Correct, 5),
      Opt("c", Correct, 5),
      Opt("d", Correct, 5)
    ]), "Art. 15 LFT - Contratos por escrito", [Contratista], ALL_TYPES)
  const Q3: QuestionRule := QuestionRule("q3", Some([
      Opt("a", Correct, 10),
      Minor("b", Incorrect, -5, "Contratos incompletos"),
      Grave("c", -15, "CRÍTICO: Sin contratos escritos", false),
      Minor("d", Incorrect, -8, "Contratos sin formalizar")
    ]), "Art. 15 LFT - Requisito de contrato escrito", [Contratista], ALL_TYPES)
  const Q4: QuestionRule := QuestionRule("q4", Some([
      Opt("a", Correct, 10),
      Grave("b", -12, "GRAVE: Trabajadores sin seguridad social", false),
      Grave("c", -15, "GRAVE: Mayoría sin IMSS - Multa por c/trabajador", false),
      Grave("d", -20, "CRÍTICO: Ningún trabajador asegurado - Delito", true)
    ]), "Art. 132 fracc. XXIV LFT", [Contratista], ALL_TYPES)
  const Q5: QuestionRule := QuestionRule("q5", Some([
      Opt("a", Correct, 8),
      Minor("b", Incorrect, -5, "Declaraciones atrasadas"),
      Grave("c", -10, "GRAVE: Incumplimiento obligaciones informativas", false),
      Grave("d", -12, "CRÍTICO: Sin declaraciones informativas", false)
    ]), "Art. Quinto Disposiciones REPSE", [Contratista], ALL_TYPES)
  const Q6: QuestionRule := QuestionRule("q6", Some([
      Opt("a", Correct, 10),
      Minor("b", Incorrect, -10, "INCONSISTENCIA: Presta servicios no registrados"),
      Minor("c", Incorrect, -8, "Desconoce actividades registradas")
    ]), "Verificación de objeto social", [Contratista], ALL_TYPES)
  const Q7: QuestionRule := QuestionRule("q7", Some([
      Opt("a", Correct, 5),
      Noted("b", Partial, 2, "Identificación irregular"),
      Minor("c", Incorrect, -5, "Sin identificación de trabajadores")
    ]), "Art. Octavo Disposiciones REPSE", [Contratista], ON_SITE_TYPES)
  const Q8: QuestionRule := QuestionRule("q8", Some([
      Opt("a", Correct, 5),
      Noted("b", Partial, 2, "Capacitación sin constancias"),
      Opt("c", Partial, 1),
      Minor("d", Incorrect, -5, "Sin programa de capacitación")
    ]), "Art. 132 fracc. XV LFT", [Contratista], ON_SITE_TYPES)
  const Q9: QuestionRule := QuestionRule("q9", Some([
      Opt("a", Correct, 10),
      Opt("b", Partial, 0),
      Grave("c", -15, "GRAVE: Cascada de subcontratación prohibida", false)
    ]), "Prohibición de subcontratación en cascada", [Contratista], ALL_TYPES)
  const Q10: QuestionRule := QuestionRule("q10", Some([
      Opt("a", Correct, 10),
      Minor("b", Incorrect, -5, "Discrepancia salarial"),
      Grave("c", -15, "GRAVE: Salarios no coinciden - Posible evasión", true)
    ]), "LSS Art. 27-30", [Contratista], ON_SITE_TYPES)
  const B1: QuestionRule := QuestionRule("b1", Some([
      Opt("a", Correct, 10),
      Grave("b", -15, "GRAVE: No verificó REPSE - Responsabilidad solidaria", false),
      Grave("c", -15, "CRÍTICO: Contrata sin verificar legalidad", false)
    ]), "Art. 15 LFT - Obligación de verificar REPSE", [Beneficiario], ALL_TYPES)
  const B2: QuestionRule := QuestionRule("b2", Some([
      Opt("a", Correct, 10),
      Grave("b", -20, "CRÍTICO: Subcontratación prohibida de actividad core", true),
      Minor("c", Incorrect, -10, "Desconoce naturaleza de la relación")
    ]), "Art. 13 LFT - Prohibición de subcontratar actividad preponderante", [Beneficiario], ALL_TYPES)
  const B3: QuestionRule := QuestionRule("b3", Some([
      Opt("a", Correct, 10),
      Noted("b", Partial, 3, "Documentación incompleta"),
      Grave("c", -12, "GRAVE: Sin documentación de respaldo fiscal", false),
      Minor("d", Incorrect, -10, "Desconoce obligaciones como beneficiario")
    ]), "Art. Décimo Tercero-C Disposiciones REPSE", [Beneficiario], ON_SITE_TYPES)
  const B4: QuestionRule := QuestionRule("b4", Some([
      Opt("a", Correct, 8),
      Noted("b", Partial, 3, "Contrato sin requisitos completos"),
      Grave("c", -12, "GRAVE: Sin contrato escrito", false)
    ]), "Art. 15 LFT - Contrato por escrito obligatorio", [Beneficiario], ALL_TYPES)
  const B5: QuestionRule := QuestionRule("b5", Some([
      Opt("a", Correct, 5),
      Opt("b", Partial, 2),
      Minor("c", Incorrect, -5, "Trabajadores sin identificación del contratista")
    ]), "Art. Octavo Disposiciones REPSE", [Beneficiario], ON_SITE_TYPES)

  const SIMULATOR_QUESTIONS: seq<QuestionRule> := [Q1, Q2, Q3, Q4, Q5, Q6, Q7, Q8, Q9, Q10, B1, B2, B3, B4, B5]

  datatype PointValues = PointValues(complies: int, notComplies: int, notApplicable: int)

  /** A point the inspector checks on the walk-through; title, icon and
      question wording are display text. */
  datatype VerificationPoint = VerificationPoint(
    id: string,
    points: PointValues,
    observationIfNotComplies: string,
    legalBasis: string,
    isInfraction: bool,
    isGraveInfraction: bool,
    isCrime: bool,
    forProfiles: seq<ProfileType>)

  const R1: VerificationPoint := VerificationPoint("r1", PointValues(5, -5, 0),
    "Trabajadores sin identificación visible del contratista", "Art. Octavo Disposiciones REPSE",
    true, false, false, [Contratista, Beneficiario])
  const R2: VerificationPoint := VerificationPoint("r2", PointValues(8, -10, 0),
    "INCONSISTENCIA: Número de trabajadores no coincide", "Verificación de consistencia",
    true, true, false, [Contratista, Beneficiario])
  const R3: VerificationPoint := VerificationPoint("r3", PointValues(10, -15, 0),
    "GRAVE: Trabajadores realizan actividades diferentes", "Art. 13-15 LFT",
    true, true, false, [Contratista, Beneficiario])
  const R4: VerificationPoint := VerificationPoint("r4", PointValues(10, -20, 0),
    "CRÍTICO: Subcontratación prohibida - Actividad core", "Art. 13 LFT",
    true, true, true, [Beneficiario])
  const R5: VerificationPoint := VerificationPoint("r5", PointValues(5, -8, 0),
    "Sin equipo de protección personal", "Art. 132 fracc. XVI LFT",
    true, false, false, [Contratista, Beneficiario])

  const VERIFICATION_POINTS: seq<VerificationPoint> := [R1, R2, R3, R4, R5]

  /** The three catalogs the simulator reads, as one value. */
  datatype SimulatorCatalog = SimulatorCatalog(
    documents: seq<DocumentRule>,
    questions: seq<QuestionRule>,
    points: seq<VerificationPoint>)

  const SIMULATOR_CATALOG: SimulatorCatalog := SimulatorCatalog(SIMULATOR_DOCUMENTS, SIMULATOR_QUESTIONS, VERIFICATION_POINTS)

  datatype InspectorDialogue = InspectorDialogue(phase: string, inspectionType: InspectionType, messages: seq<string>)

  const INSPECTOR_DIALOGUES: seq<InspectorDialogue> := [
    InspectorDialogue("intro", Extraordinaria, [
      "Buenos días. Soy inspector federal del trabajo.",
      "Vengo a realizar una inspección EXTRAORDINARIA en materia de subcontratación.",
      "Favor de mostrarme su identificación oficial y la de la persona que atenderá la inspección.",
      "¿Es usted el patrón, representante legal o persona autorizada para atender esta diligencia?"]),
    InspectorDialogue("intro", Ordinaria, [
      "Buenos días. Soy inspector federal del trabajo.",
      "Vengo a realizar la inspección ORDINARIA programada mediante citatorio.",
      "¿Recibieron el citatorio con 24 horas de anticipación?",
      "Procedemos a iniciar la inspección. Favor de identificarse."]),
    InspectorDialogue("intro", Constatacion, [
      "Buenos días. Soy inspector federal del trabajo.",
      "Vengo a realizar la visita de CONSTATACIÓN REPSE.",
      "Procedemos a verificar la información de su registro."]),
    InspectorDialogue("documents", Extraordinaria, [
      "Ahora procederé a solicitar la documentación requerida.",
      "Deberá presentar los documentos de manera inmediata.",
      "Cualquier documento faltante será registrado en el acta."]),
    InspectorDialogue("documents", Ordinaria, [
      "Procedamos con la revisión documental.",
      "Confío en que tuvieron tiempo para preparar la documentación."]),
    InspectorDialogue("documents", Constatacion, [
      "Verificaremos la documentación relacionada con su registro REPSE."]),
    InspectorDialogue("interrogation", Extraordinaria, [
      "Ahora realizaré algunas preguntas.",
      "Responda con la verdad. Proporcionar información falsa es una falta grave."]),
    InspectorDialogue("interrogation", Ordinaria, [
      "Procedamos con el interrogatorio.",
      "Responda con la verdad para que todo quede debidamente asentado."]),
    InspectorDialogue("interrogation", Constatacion, [
      "Tengo algunas preguntas sobre su operación."]),
    InspectorDialogue("verification", Extraordinaria, [
      "Realizaré un recorrido por las instalaciones.",
      "Verificaré las condiciones reales de trabajo."]),
    InspectorDialogue("verification", Ordinaria, [
      "Procederé a constatar físicamente algunos aspectos."]),
    InspectorDialogue("close_ok", Extraordinaria, [
      "La inspección ha concluido sin observaciones graves.",
      "Se emitirá acta en los próximos días hábiles."]),
    InspectorDialogue("close_ok", Ordinaria, [
      "La inspección ha concluido satisfactoriamente.",
      "Recibirá copia del acta."]),
    InspectorDialogue("close_ok", Constatacion, [
      "La visita de constatación ha concluido.",
      "Su registro REPSE se encuentra en orden."]),
    InspectorDialogue("close_infractions", Extraordinaria, [
      "Se detectaron infracciones durante la inspección.",
      "Se emitirá acta circunstanciada con las observaciones y posibles sanciones.",
      "Tiene derecho a presentar pruebas en los plazos establecidos."]),
    InspectorDialogue("close_infractions", Ordinaria, [
      "Se detectaron algunas irregularidades.",
      "Se asentarán en el acta correspondiente."]),
    InspectorDialogue("close_infractions", Constatacion, [
      "Se detectaron observaciones que deberá corregir.",
      "Recibirá notificación con los plazos para subsanar."])
  ]

  /** `Math.round(a / b)` for a positive divisor: the nearest integer, halves
      rounded up. */
  function RoundHalfUp(a: int, b: int): (r: int)
    requires b > 0
    ensures -b <= 2 * a - 2 * r * b < b
  {
    (2 * a + b) / (2 * b)
  }

  lemma MulLeft(d: int, a: int, b: int)
    requires d > 0 && a <= b
    ensures d * a <= d * b
  {
  }

  lemma DivMonotone(x: int, y: int, d: int)
    requires d > 0 && x <= y
    ensures x / d <= y / d
  {
    var qx, qy := x / d, y / d;
    assert d * qx <= x && y < d * qy + d;
    if qx > qy {
      MulLeft(d, qy + 1, qx);
      assert false;
    }
  }

  /** Rounding never reverses the order of two quotients over the same divisor. */
  lemma RoundHalfUpMonotone(a1: int, a2: int, b: int)
    requires b > 0 && a1 <= a2
    ensures RoundHalfUp(a1, b) <= RoundHalfUp(a2, b)
  {
    DivMonotone(2 * a1 + b, 2 * a2 + b, 2 * b);
  }

  /** A fine range in money: `calculateFineAmount` result in centavos. */
  datatype FineAmount = FineAmount(min: int, max: int)

  /** `calculateFineAmount(minUMA, maxUMA)`: each bound converted to pesos at
      the UMA value and rounded to a whole peso, independently; kept here in
      centavos. Both bounds are whole pesos, each within half a peso of the
      exact amount. */
  function CalculateFineAmount(minUMA: int, maxUMA: int): (r: FineAmount)
    ensures r.min % 100 == 0 && r.max % 100 == 0
    ensures -50 <= minUMA * Data.UMA_CENTS - r.min < 50
    ensures -50 <= maxUMA * Data.UMA_CENTS - r.max < 50
  {
    RoundToHundreds(minUMA * Data.UMA_CENTS);
    RoundToHundreds(maxUMA * Data.UMA_CENTS);
    FineAmount(100 * RoundHalfUp(minUMA * Data.UMA_CENTS, 100), 100 * RoundHalfUp(maxUMA * Data.UMA_CENTS, 100))
  }

  /** Rounding an amount of centavos to whole pesos moves it by less than
      half a peso and leaves a multiple of 100. */
  lemma RoundToHundreds(a: int)
    ensures (100 * RoundHalfUp(a, 100)) % 100 == 0
    ensures -50 <= a - 100 * RoundHalfUp(a, 100) < 50
  {
    var r := RoundHalfUp(a, 100);
    assert -100 <= 2 * a - 200 * r < 100;
  }

  /** An ordered range in UMAs gives an ordered range in money, and whole
      multiples of 50 UMAs convert without rounding. */
  lemma FineAmountOrdered(minUMA: int, maxUMA: int)
    requires minUMA <= maxUMA
    ensures CalculateFineAmount(minUMA, maxUMA).min <= CalculateFineAmount(minUMA, maxUMA).max
    ensures minUMA % 50 == 0 ==> CalculateFineAmount(minUMA, maxUMA).min == minUMA * Data.UMA_CENTS
  {
    RoundHalfUpMonotone(minUMA * Data.UMA_CENTS, maxUMA * Data.UMA_CENTS, 100);
    if minUMA % 50 == 0 {
      var k := minUMA / 50;
      assert minUMA * Data.UMA_CENTS == (k * 5657) * 100;
      RoundHalfUpExact(k * 5657, 100);
    }
  }

  /** A whole multiple of the divisor needs no rounding. */
  lemma RoundHalfUpExact(m: int, b: int)
    requires b > 0
    ensures RoundHalfUp(m * b, b) == m
  {
    var r := RoundHalfUp(m * b, b);
    assert -b <= 2 * (m * b) - 2 * r * b < b;
    assert 2 * (m * b) - 2 * r * b == 2 * b * (m - r);
    if m - r >= 1 {
      MulLeft(2 * b, 1, m - r);
      assert false;
    } else if m - r <= -1 {
      MulLeft(2 * b, m - r, -1);
      assert false;
    }
  }


  datatype ComplianceLevel = Alto | Medio | Bajo
  {
    function Color(): string
    {
      match this
      case Alto => "#10B981"
      case Medio => "#F59E0B"
      case Bajo => "#EF4444"
    }
    function Text(): string
    {
      match this
      case Alto => "Excelente cumplimiento"
      case Medio => "Cumplimiento regular"
      case Bajo => "Cumplimiento deficiente"
    }
  }

  /** `getComplianceLevel(score, maxScore)`: the percentage `100 * score / maxScore`
      (0 when `maxScore <= 0`) against the breakpoints 80 and 60. The
      comparisons are done exactly, multiplied out by the positive `maxScore`. */
  function GetComplianceLevel(score: int, maxScore: int): (l: ComplianceLevel)
    ensures maxScore <= 0 ==> l == Bajo
    ensures maxScore > 0 ==> (l == Alto <==> 100 * score >= 80 * maxScore)
    ensures maxScore > 0 ==> (l == Bajo <==> 100 * score < 60 * maxScore)
  {
    if maxScore > 0 && 100 * score >= 80 * maxScore then Alto
    else if maxScore > 0 && 100 * score >= 60 * maxScore then Medio
    else Bajo
  }

  /** Only the training certificates are optional; every document rule is
      worth a positive number of points and carries an ordered fine range in
      whole multiples of 50 UMAs. */
  lemma DocumentRulesWellFormed()
    ensures forall i :: 0 <= i < |SIMULATOR_DOCUMENTS| ==>
      (SIMULATOR_DOCUMENTS[i].obligatory <==> i != 7) &&
      SIMULATOR_DOCUMENTS[i].points > 0 &&
      0 <= SIMULATOR_DOCUMENTS[i].fineIfMissing.min <= SIMULATOR_DOCUMENTS[i].fineIfMissing.max &&
      SIMULATOR_DOCUMENTS[i].fineIfMissing.min % 50 == 0
    ensures SIMULATOR_DOCUMENTS[7].id == "capacitacion"
  {
  }

  /** Every option that carries criminal exposure is also a grave infraction. */
  lemma CrimeImpliesGrave()
    ensures forall i, j ::
      (0 <= i < |SIMULATOR_QUESTIONS| && SIMULATOR_QUESTIONS[i].options.Some? &&
       0 <= j < |SIMULATOR_QUESTIONS[i].options.value| && SIMULATOR_QUESTIONS[i].options.value[j].isCrime) ==>
      SIMULATOR_QUESTIONS[i].options.value[j].isGraveInfraction
    ensures forall i :: 0 <= i < |VERIFICATION_POINTS| && VERIFICATION_POINTS[i].isCrime ==>
      VERIFICATION_POINTS[i].isGraveInfraction
  {
  }

  /** Complying always earns, not complying always costs, and "not applicable"
      is neutral. */
  lemma VerificationPointSigns()
    ensures forall i :: 0 <= i < |VERIFICATION_POINTS| ==>
      VERIFICATION_POINTS[i].points.complies > 0 &&
      VERIFICATION_POINTS[i].points.notComplies < 0 &&
      VERIFICATION_POINTS[i].points.notApplicable == 0
  {
  }
}
