/** The read-only catalogs of `constants/data.ts`: the UMA value, the quick
    diagnostic's questions and the compliance checklist. */
module Data {

  /** The UMA (the daily legal unit fines are expressed in) is 113.14 pesos;
      every amount of money in this model is in centavos. */
  const UMA_CENTS: int := 11314

  datatype UserType = Contratista | Beneficiario | Trabajador | General

  datatype DiagnosticOption = DiagnosticOption(value: string, title: string, score: int, isCritical: bool)

  datatype DiagnosticQuestion = DiagnosticQuestion(
    id: string,
    text: string,
    options: seq<DiagnosticOption>,
    forUserTypes: seq<UserType>)

  const DQ_REPSE_REGISTRO: DiagnosticQuestion := DiagnosticQuestion("repse_registro", "¿Tienes registro REPSE vigente?", [
      DiagnosticOption("si", "Sí, vigente", 20, false),
      DiagnosticOption("vencido", "Sí, pero vencido", 5, true),
      DiagnosticOption("no", "No", 0, true),
      DiagnosticOption("no_se", "No sé qué es", 0, true)
    ], [Contratista])

  const DQ_CONTRATOS_ACTIVOS: DiagnosticQuestion := DiagnosticQuestion("contratos_activos", "¿Cuántos contratos activos tienes con clientes?", [
      DiagnosticOption("0", "0", 0, false),
      DiagnosticOption("1-5", "1 a 5", 10, false),
      DiagnosticOption("6-20", "6 a 20", 10, false),
      DiagnosticOption("+20", "Más de 20", 10, false)
    ], [Contratista])

  const DQ_IMSS_TRABAJADORES: DiagnosticQuestion := DiagnosticQuestion("imss_trabajadores", "¿Tus trabajadores están dados de alta en el IMSS?", [
      DiagnosticOption("todos", "Todos", 20, false),
      DiagnosticOption("algunos", "Algunos", 5, true),
      DiagnosticOption("ninguno", "Ninguno", 0, true),
      DiagnosticOption("no_se", "No sé", 0, true)
    ], [Contratista])

  const DQ_CONTRATOS_ESCRITOS: DiagnosticQuestion := DiagnosticQuestion("contratos_escritos", "¿Tienes contratos por escrito con tus clientes?", [
      DiagnosticOption("si_todos", "Sí, con todos", 15, false),
      DiagnosticOption("si_algunos", "Sí, con algunos", 5, false),
      DiagnosticOption("no", "No", 0, true)
    ], [Contratista])

  const DQ_ICSOE_SISUB: DiagnosticQuestion := DiagnosticQuestion("icsoe_sisub", "¿Tienes al día tus obligaciones ICSOE y SISUB?", [
      DiagnosticOption("si", "Sí, actualizados", 15, false),
      DiagnosticOption("parcial", "Parcialmente", 5, false),
      DiagnosticOption("no", "No", 0, true),
      DiagnosticOption("no_se", "No sé qué son", 0, true)
    ], [Contratista])

  const DQ_PROVEEDOR_REPSE: DiagnosticQuestion := DiagnosticQuestion("proveedor_repse", "¿Verificaste que tu proveedor tenga REPSE vigente?", [
      DiagnosticOption("si", "Sí, lo verifiqué", 25, false),
      DiagnosticOption("no", "No lo verifiqué", 0, true),
      DiagnosticOption("no_se", "No sé qué es REPSE", 0, true)
    ], [Beneficiario])

  const DQ_ACTIVIDAD_PRINCIPAL: DiagnosticQuestion := DiagnosticQuestion("actividad_principal", "¿Los servicios contratados forman parte de tu actividad principal?", [
      DiagnosticOption("no", "No, son servicios complementarios", 25, false),
      DiagnosticOption("si", "Sí, son parte de mi giro", 0, true),
      DiagnosticOption("no_seguro", "No estoy seguro", 5, false)
    ], [Beneficiario])

  const DQ_DOCUMENTACION_MENSUAL: DiagnosticQuestion := DiagnosticQuestion("documentacion_mensual", "¿Recibes documentación mensual del contratista?", [
      DiagnosticOption("si", "Sí, completa", 25, false),
      DiagnosticOption("parcial", "Sí, pero incompleta", 10, false),
      DiagnosticOption("no", "No", 0, true),
      DiagnosticOption("que_docs", "¿Qué documentación?", 0, true)
    ], [Beneficiario])

  const DQ_CONTRATOS_BENEFICIARIO: DiagnosticQuestion := DiagnosticQuestion("contratos_beneficiario", "¿Tienes contratos por escrito con tus proveedores de servicios?", [
      DiagnosticOption("si", "Sí, con todos", 25, false),
      DiagnosticOption("algunos", "Con algunos", 10, false),
      DiagnosticOption("no", "No", 0, true)
    ], [Beneficiario])

  const DIAGNOSTIC_QUESTIONS: seq<DiagnosticQuestion> := [
    DQ_REPSE_REGISTRO,
    DQ_CONTRATOS_ACTIVOS,
    DQ_IMSS_TRABAJADORES,
    DQ_CONTRATOS_ESCRITOS,
    DQ_ICSOE_SISUB,
    DQ_PROVEEDOR_REPSE,
    DQ_ACTIVIDAD_PRINCIPAL,
    DQ_DOCUMENTACION_MENSUAL,
    DQ_CONTRATOS_BENEFICIARIO
  ]

  datatype ChecklistPriority = High | Medium | Low

  datatype ChecklistItem = ChecklistItem(
    id: string,
    category: string,
    text: string,
    legalBasis: string,
    forUserTypes: seq<UserType>,
    priority: ChecklistPriority)

  const CHECKLIST_ITEMS: seq<ChecklistItem> := [
    ChecklistItem("repse_vigente", "Registro y Documentación", "Registro REPSE vigente", "Art. 15 LFT", [Contratista], High),
    ChecklistItem("rfc_activo", "Registro y Documentación", "RFC activo ante el SAT", "CFF Art. 27", [Contratista, Beneficiario], High),
    ChecklistItem("contratos_escritos", "Registro y Documentación", "Contratos escritos con clientes/proveedores", "Art. 15 LFT", [Contratista, Beneficiario], High),
    ChecklistItem("alta_imss", "Obligaciones con Trabajadores", "Alta IMSS de todos los trabajadores", "LSS Art. 15", [Contratista], High),
    ChecklistItem("contratos_individuales", "Obligaciones con Trabajadores", "Contratos individuales de trabajo", "Art. 24 LFT", [Contratista], High),
    ChecklistItem("recibos_nomina", "Obligaciones con Trabajadores", "Recibos de nómina timbrados (CFDI)", "Art. 99 LFT", [Contratista], Medium),
    ChecklistItem("icsoe", "Obligaciones de Información", "ICSOE actualizado", "Disposiciones REPSE", [Contratista], High),
    ChecklistItem("sisub", "Obligaciones de Información", "SISUB actualizado", "Disposiciones REPSE", [Contratista], High),
    ChecklistItem("verificar_repse_proveedor", "Verificación de Proveedores", "Verificación de REPSE del proveedor", "Art. 15 LFT", [Beneficiario], High),
    ChecklistItem("recibir_docs_mensuales", "Verificación de Proveedores", "Recepción de documentación mensual", "Art. 15 LFT", [Beneficiario], Medium)
  ]

  /** `Math.max(...question.options.map(o => o.score))`, the best score a
      question offers; every catalog question has at least one option. */
  function MaxOptionScore(options: seq<DiagnosticOption>): (r: int)
    requires |options| > 0
    ensures forall i :: 0 <= i < |options| ==> options[i].score <= r
    ensures exists i :: 0 <= i < |options| && options[i].score == r
  {
    if |options| == 1 then options[0].score
    else
      var rest := MaxOptionScore(options[1..]);
      assert forall i :: 1 <= i < |options| ==> options[i] == options[1..][i - 1];
      if options[0].score >= rest then options[0].score else rest
  }

  /** Every diagnostic question belongs to exactly one of the two company
      profiles, so 'trabajador' and 'general' get no questions. */
  lemma DiagnosticQuestionsSingleProfile()
    ensures forall i :: 0 <= i < |DIAGNOSTIC_QUESTIONS| ==>
      DIAGNOSTIC_QUESTIONS[i].forUserTypes == [Contratista] || DIAGNOSTIC_QUESTIONS[i].forUserTypes == [Beneficiario]
  {
  }

  /** Option values are unique inside each question, so looking an answer up
      by value is unambiguous. */
  lemma DiagnosticOptionValuesUnique()
    ensures forall i, j, k :: 0 <= i < |DIAGNOSTIC_QUESTIONS| && 0 <= j < k < |DIAGNOSTIC_QUESTIONS[i].options| ==>
      DIAGNOSTIC_QUESTIONS[i].options[j].value != DIAGNOSTIC_QUESTIONS[i].options[k].value
  {
  }

  /** The best score of each diagnostic question, in catalog order. */
  const BEST_SCORES: seq<int> := [20, 10, 20, 15, 15, 25, 25, 25, 25]

  /** A question whose option `k` scores `best`, no option scores more and
      every critical option scores less. */
  lemma BestOf(q: DiagnosticQuestion, k: nat, best: int)
    requires k < |q.options| && q.options[k].score == best
    requires forall j :: 0 <= j < |q.options| ==> q.options[j].score <= best
    requires forall j :: 0 <= j < |q.options| && q.options[j].isCritical ==> q.options[j].score < best
    ensures MaxOptionScore(q.options) == best
    ensures forall j :: 0 <= j < |q.options| && q.options[j].isCritical ==> q.options[j].score < best
  {
  }

  lemma {:induction false} BestScoreAt(i: nat)
    requires i < |DIAGNOSTIC_QUESTIONS|
    ensures |BEST_SCORES| == |DIAGNOSTIC_QUESTIONS|
    ensures MaxOptionScore(DIAGNOSTIC_QUESTIONS[i].options) == BEST_SCORES[i]
    ensures forall j :: 0 <= j < |DIAGNOSTIC_QUESTIONS[i].options| && DIAGNOSTIC_QUESTIONS[i].options[j].isCritical ==>
      DIAGNOSTIC_QUESTIONS[i].options[j].score < BEST_SCORES[i]
  {
    if i == 0 { assert DIAGNOSTIC_QUESTIONS[i] == DQ_REPSE_REGISTRO; BestOf(DQ_REPSE_REGISTRO, 0, 20); }
    else if i == 1 { assert DIAGNOSTIC_QUESTIONS[i] == DQ_CONTRATOS_ACTIVOS; BestOf(DQ_CONTRATOS_ACTIVOS, 1, 10); }
    else if i == 2 { assert DIAGNOSTIC_QUESTIONS[i] == DQ_IMSS_TRABAJADORES; BestOf(DQ_IMSS_TRABAJADORES, 0, 20); }
    else if i == 3 { assert DIAGNOSTIC_QUESTIONS[i] == DQ_CONTRATOS_ESCRITOS; BestOf(DQ_CONTRATOS_ESCRITOS, 0, 15); }
    else if i == 4 { assert DIAGNOSTIC_QUESTIONS[i] == DQ_ICSOE_SISUB; BestOf(DQ_ICSOE_SISUB, 0, 15); }
    else if i == 5 { assert DIAGNOSTIC_QUESTIONS[i] == DQ_PROVEEDOR_REPSE; BestOf(DQ_PROVEEDOR_REPSE, 0, 25); }
    else if i == 6 { assert DIAGNOSTIC_QUESTIONS[i] == DQ_ACTIVIDAD_PRINCIPAL; BestOf(DQ_ACTIVIDAD_PRINCIPAL, 0, 25); }
    else if i == 7 { assert DIAGNOSTIC_QUESTIONS[i] == DQ_DOCUMENTACION_MENSUAL; BestOf(DQ_DOCUMENTACION_MENSUAL, 0, 25); }
    else { assert DIAGNOSTIC_QUESTIONS[i] == DQ_CONTRATOS_BENEFICIARIO; BestOf(DQ_CONTRATOS_BENEFICIARIO, 0, 25); }
  }

  /** A critical option always scores strictly below its question's best
      option, so "critical" and "compliant" never describe the same answer. */
  lemma CriticalBelowMaximum()
    ensures forall i, j :: 0 <= i < |DIAGNOSTIC_QUESTIONS| && 0 <= j < |DIAGNOSTIC_QUESTIONS[i].options| ==>
      |DIAGNOSTIC_QUESTIONS[i].options| > 0 &&
      (DIAGNOSTIC_QUESTIONS[i].options[j].isCritical ==>
        DIAGNOSTIC_QUESTIONS[i].options[j].score < MaxOptionScore(DIAGNOSTIC_QUESTIONS[i].options))
  {
    forall i | 0 <= i < |DIAGNOSTIC_QUESTIONS|
      ensures MaxOptionScore(DIAGNOSTIC_QUESTIONS[i].options) == BEST_SCORES[i]
      ensures forall j :: 0 <= j < |DIAGNOSTIC_QUESTIONS[i].options| && DIAGNOSTIC_QUESTIONS[i].options[j].isCritical ==>
        DIAGNOSTIC_QUESTIONS[i].options[j].score < BEST_SCORES[i]
    {
      BestScoreAt(i);
    }
  }

  /** No checklist item is tagged for 'general' or 'trabajador'. */
  lemma ChecklistOnlyCompanyProfiles()
    ensures forall i :: 0 <= i < |CHECKLIST_ITEMS| ==>
      General !in CHECKLIST_ITEMS[i].forUserTypes && Trabajador !in CHECKLIST_ITEMS[i].forUserTypes
  {
  }
}
