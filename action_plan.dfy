/** The remediation plan drawn from a final result, the completion toggle on
    its items, and the capped history of past results. */
module ActionPlan {
  import opened Common
  import opened Engine

  datatype Priority = Urgent | High | Medium | Low

  /** `{ urgent: 0, high: 1, medium: 2, low: 3 }`. */
  function Rank(p: Priority): nat
  {
    match p
    case Urgent => 0
    case High => 1
    case Medium => 2
    case Low => 3
  }

  /** The fine range an action avoids, in pesos as the plan states it. */
  datatype FineAvoided = FineAvoided(min: int, max: int)

  datatype ActionItem = ActionItem(
    id: string,
    title: string,
    description: string,
    priority: Priority,
    steps: seq<string>,
    estimatedTime: string,
    estimatedCost: string,
    points: int,
    fineAvoided: Option<FineAvoided>,
    completed: bool)

  const GET_REPSE: ActionItem := ActionItem(
    "get_repse", "Obtener/Renovar Registro REPSE",
    "Sin registro REPSE no puedes operar legalmente. Es tu prioridad número 1.",
    Urgent,
    ["Ingresa a https://repse.stps.gob.mx",
     "Crea una cuenta con tu RFC y e.firma",
     "Completa el formulario con datos de tu empresa",
     "Adjunta documentos requeridos",
     "Espera resolución (5-10 días hábiles)",
     "Descarga tu aviso de registro"],
    "2-3 semanas", "Gratuito", 20, Some(FineAvoided(217000, 5428000)), false)

  const FORMALIZE_CONTRACTS: ActionItem := ActionItem(
    "formalize_contracts", "Formalizar Contratos por Escrito",
    "Todos los contratos deben estar por escrito y firmados.",
    High,
    ["Usa plantilla de contrato en sección Documentos",
     "Completa datos de ambas partes",
     "Especifica claramente el servicio",
     "Firma con tu cliente",
     "Guarda copias físicas y digitales"],
    "1-2 días por contrato", "Gratuito", 12, Some(FineAvoided(27000, 543000)), false)

  const REGISTER_IMSS: ActionItem := ActionItem(
    "register_imss", "Dar de Alta a Trabajadores en IMSS",
    "Tienes trabajadores sin seguridad social. Esto es GRAVE.",
    Urgent,
    ["Obtén tu registro patronal IMSS",
     "Reúne datos de trabajadores (CURP, RFC)",
     "Ingresa a IMSS Digital Patrón",
     "Registra movimientos de alta",
     "Genera cédula de determinación",
     "Paga cuotas obrero-patronales"],
    "1 semana", "~30% del salario mensual", 15, Some(FineAvoided(27000, 543000)), false)

  const UPDATE_ICSOE_SISUB: ActionItem := ActionItem(
    "update_icsoe_sisub", "Actualizar ICSOE y SISUB",
    "Tus declaraciones informativas no están al corriente.",
    High,
    ["Ingresa al portal REPSE",
     "Presenta ICSOE de períodos pendientes",
     "Actualiza información en SISUB",
     "Guarda acuses de presentación"],
    "1-2 días", "Gratuito", 8, Some(FineAvoided(27000, 271000)), false)

  // ---------------------------------------------------------------------
  // Which actions a result calls for

  predicate RepseNotPresented(d: DocumentResult)
  {
    d.documentId == "repse" && !d.presented
  }

  predicate ContractNotPresented(d: DocumentResult)
  {
    (d.documentId == "contratos_servicios" || d.documentId == "contrato_proveedor") && !d.presented
  }

  predicate ImssGrave(q: QuestionResult)
  {
    q.questionId == "q4" && q.isGraveInfraction
  }

  predicate IcsoeFlagged(q: QuestionResult)
  {
    q.questionId == "q5" && (q.isInfraction || q.isGraveInfraction)
  }

  predicate NeedsRepse(r: SimulationResult)
  {
    Find(r.documentResults, RepseNotPresented).Some? || r.hasREPSECancellationRisk
  }

  predicate NeedsContracts(r: SimulationResult)
  {
    Find(r.documentResults, ContractNotPresented).Some?
  }

  predicate NeedsImss(r: SimulationResult)
  {
    Find(r.questionResults, ImssGrave).Some?
  }

  predicate NeedsIcsoe(r: SimulationResult)
  {
    Find(r.questionResults, IcsoeFlagged).Some?
  }

  /** `if (cond) actions.push(x)`. */
  function PushIf(actions: seq<ActionItem>, cond: bool, x: ActionItem): seq<ActionItem>
  {
    if cond then actions + [x] else actions
  }

  /** The actions in the order `generateActionPlan` pushes them, before
      sorting. */
  function Candidates(r: SimulationResult): seq<ActionItem>
  {
    var c1 := PushIf([], NeedsRepse(r), GET_REPSE);
    var c2 := PushIf(c1, NeedsContracts(r), FORMALIZE_CONTRACTS);
    var c3 := PushIf(c2, NeedsImss(r), REGISTER_IMSS);
    PushIf(c3, NeedsIcsoe(r), UPDATE_ICSOE_SISUB)
  }

  lemma PushIfMembers(actions: seq<ActionItem>, cond: bool, x: ActionItem)
    ensures forall y :: y in PushIf(actions, cond, x) <==> y in actions || (cond && y == x)
  {
  }

  /** Each action is pushed exactly when the result calls for it. */
  lemma CandidatesContents(r: SimulationResult)
    ensures GET_REPSE in Candidates(r) <==> NeedsRepse(r)
    ensures FORMALIZE_CONTRACTS in Candidates(r) <==> NeedsContracts(r)
    ensures REGISTER_IMSS in Candidates(r) <==> NeedsImss(r)
    ensures UPDATE_ICSOE_SISUB in Candidates(r) <==> NeedsIcsoe(r)
  {
    var c1 := PushIf([], NeedsRepse(r), GET_REPSE);
    var c2 := PushIf(c1, NeedsContracts(r), FORMALIZE_CONTRACTS);
    var c3 := PushIf(c2, NeedsImss(r), REGISTER_IMSS);
    PushIfMembers([], NeedsRepse(r), GET_REPSE);
    PushIfMembers(c1, NeedsContracts(r), FORMALIZE_CONTRACTS);
    PushIfMembers(c2, NeedsImss(r), REGISTER_IMSS);
    PushIfMembers(c3, NeedsIcsoe(r), UPDATE_ICSOE_SISUB);
  }

  /** Every action pushed is one of the four templates, not yet done. */
  lemma CandidatesAreTemplates(r: SimulationResult)
    ensures forall x :: x in Candidates(r) ==>
      x in [GET_REPSE, FORMALIZE_CONTRACTS, REGISTER_IMSS, UPDATE_ICSOE_SISUB] && !x.completed
  {
    var c1 := PushIf([], NeedsRepse(r), GET_REPSE);
    var c2 := PushIf(c1, NeedsContracts(r), FORMALIZE_CONTRACTS);
    var c3 := PushIf(c2, NeedsImss(r), REGISTER_IMSS);
    PushIfMembers([], NeedsRepse(r), GET_REPSE);
    PushIfMembers(c1, NeedsContracts(r), FORMALIZE_CONTRACTS);
    PushIfMembers(c2, NeedsImss(r), REGISTER_IMSS);
    PushIfMembers(c3, NeedsIcsoe(r), UPDATE_ICSOE_SISUB);
  }

  // ---------------------------------------------------------------------
  // Sorting by priority

  predicate SortedByPriority(s: seq<ActionItem>)
  {
    forall i, j :: 0 <= i < j < |s| ==> Rank(s[i].priority) <= Rank(s[j].priority)
  }

  function HasPriority(p: Priority): ActionItem -> bool
  {
    (a: ActionItem) => a.priority == p
  }

  /** Insert `x` after every item of rank at most its own. */
  function InsertByPriority(x: ActionItem, s: seq<ActionItem>): (r: seq<ActionItem>)
    ensures |r| == |s| + 1
    ensures multiset(r) == multiset(s) + multiset{x}
    decreases |s|
  {
    if s == [] then [x]
    else if Rank(x.priority) < Rank(s[0].priority) then [x] + s
    else
      assert s == [s[0]] + s[1..];
      [s[0]] + InsertByPriority(x, s[1..])
  }

  /** `actions.sort((a, b) => rank(a) - rank(b))`: a stable sort, written as
      insertion of each item, in order, after the items of its rank already
      placed. */
  function SortByPriority(items: seq<ActionItem>): (r: seq<ActionItem>)
    decreases |items|
  {
    if items == [] then []
    else InsertByPriority(items[|items| - 1], SortByPriority(items[..|items| - 1]))
  }

  lemma SortedTail(s: seq<ActionItem>)
    requires s != [] && SortedByPriority(s)
    ensures SortedByPriority(s[1..])
    ensures forall i :: 0 <= i < |s| ==> Rank(s[0].priority) <= Rank(s[i].priority)
  {
    forall i, j | 0 <= i < j < |s| - 1
      ensures Rank(s[1..][i].priority) <= Rank(s[1..][j].priority)
    {
      assert s[1..][i] == s[i + 1] && s[1..][j] == s[j + 1];
    }
  }

  /** A rank bound that holds for `x` and every element holds after the
      insertion. */
  lemma {:induction false} InsertKeepsBound(x: ActionItem, s: seq<ActionItem>, b: nat)
    requires b <= Rank(x.priority)
    requires forall i :: 0 <= i < |s| ==> b <= Rank(s[i].priority)
    ensures forall i :: 0 <= i < |InsertByPriority(x, s)| ==> b <= Rank(InsertByPriority(x, s)[i].priority)
    decreases |s|
  {
    if s != [] && Rank(x.priority) >= Rank(s[0].priority) {
      InsertKeepsBound(x, s[1..], b);
    }
  }

  lemma {:induction false} InsertKeepsSorted(x: ActionItem, s: seq<ActionItem>)
    requires SortedByPriority(s)
    ensures SortedByPriority(InsertByPriority(x, s))
    decreases |s|
  {
    if s != [] && Rank(x.priority) >= Rank(s[0].priority) {
      InsertKeepsSorted(x, s[1..]);
      InsertKeepsBound(x, s[1..], Rank(s[0].priority));
    }
  }

  /** Inserting adds `x` at the end of its own priority class and leaves
      every other class as it was. */
  lemma {:induction false} InsertStable(x: ActionItem, s: seq<ActionItem>, p: Priority)
    requires SortedByPriority(s)
    ensures Filter(InsertByPriority(x, s), HasPriority(p)) ==
            Filter(s, HasPriority(p)) + (if x.priority == p then [x] else [])
    decreases |s|
  {
    var hp := HasPriority(p);
    if s == [] {
      assert InsertByPriority(x, s) == [x];
    } else if Rank(x.priority) < Rank(s[0].priority) {
      SortedTail(s);
      if x.priority == p {
        forall i | 0 <= i < |s|
          ensures !hp(s[i])
        {
        }
        FilterNone(s, hp);
      }
      FilterAppend([x], s, hp);
    } else {
      SortedTail(s);
      InsertStable(x, s[1..], p);
      var r := InsertByPriority(x, s);
      InsertUnfold(x, s);
      FilterHead(r, hp);
      assert r[0] == s[0] && r[1..] == InsertByPriority(x, s[1..]);
      FilterHead(s, hp);
      var tail: seq<ActionItem> := if x.priority == p then [x] else [];
      ConcatAssoc(Filter([s[0]], hp), Filter(s[1..], hp), tail);
    }
  }

  lemma FilterOne(x: ActionItem, p: Priority)
    ensures Filter([x], HasPriority(p)) == if x.priority == p then [x] else []
  {
    assert [x][1..] == [];
  }

  lemma InsertUnfold(x: ActionItem, s: seq<ActionItem>)
    requires s != [] && Rank(x.priority) >= Rank(s[0].priority)
    ensures InsertByPriority(x, s) == [s[0]] + InsertByPriority(x, s[1..])
  {
  }

  /** The sort orders the plan by priority. */
  lemma {:induction false} SortSorted(items: seq<ActionItem>)
    ensures SortedByPriority(SortByPriority(items))
    decreases |items|
  {
    if items != [] {
      SortSorted(items[..|items| - 1]);
      InsertKeepsSorted(items[|items| - 1], SortByPriority(items[..|items| - 1]));
    }
  }

  /** The sort is a permutation: nothing is added or dropped. */
  lemma {:induction false} SortPermutes(items: seq<ActionItem>)
    ensures multiset(SortByPriority(items)) == multiset(items)
    decreases |items|
  {
    if items != [] {
      SortPermutes(items[..|items| - 1]);
      assert items == items[..|items| - 1] + [items[|items| - 1]];
    }
  }

  /** The sort is stable: items of equal priority keep their relative order. */
  lemma {:induction false} SortStable(items: seq<ActionItem>, p: Priority)
    ensures Filter(SortByPriority(items), HasPriority(p)) == Filter(items, HasPriority(p))
    decreases |items|
  {
    if items != [] {
      var init, x := items[..|items| - 1], items[|items| - 1];
      SortStable(init, p);
      SortSorted(init);
      InsertStable(x, SortByPriority(init), p);
      FilterLast(items, HasPriority(p));
      FilterOne(x, p);
    }
  }

  /** `generateActionPlan`'s list. */
  function ActionPlanFor(r: SimulationResult): seq<ActionItem>
  {
    SortByPriority(Candidates(r))
  }

  /** Sorting orders by priority, keeps every item and keeps each
      priority class in its original order. */
  lemma SortSpec(items: seq<ActionItem>)
    ensures SortedByPriority(SortByPriority(items))
    ensures multiset(SortByPriority(items)) == multiset(items)
    ensures forall x :: x in SortByPriority(items) <==> x in items
    ensures forall p :: Filter(SortByPriority(items), HasPriority(p)) == Filter(items, HasPriority(p))
  {
    var sorted := SortByPriority(items);
    SortSorted(items);
    SortPermutes(items);
    forall p
      ensures Filter(sorted, HasPriority(p)) == Filter(items, HasPriority(p))
    {
      SortStable(items, p);
    }
    forall x
      ensures x in sorted <==> x in items
    {
      assert x in sorted <==> x in multiset(sorted);
      assert x in items <==> x in multiset(items);
    }
  }

  /** The plan is sorted by priority, a permutation of the actions pushed,
      and keeps each priority class in the order the actions were pushed. */
  lemma ActionPlanSorted(r: SimulationResult)
    ensures SortedByPriority(ActionPlanFor(r))
    ensures multiset(ActionPlanFor(r)) == multiset(Candidates(r))
    ensures forall p :: Filter(ActionPlanFor(r), HasPriority(p)) == Filter(Candidates(r), HasPriority(p))
  {
    SortSpec(Candidates(r));
  }

  /** The plan holds exactly the actions the result calls for. */
  lemma ActionPlanContents(r: SimulationResult)
    ensures GET_REPSE in ActionPlanFor(r) <==> NeedsRepse(r)
    ensures FORMALIZE_CONTRACTS in ActionPlanFor(r) <==> NeedsContracts(r)
    ensures REGISTER_IMSS in ActionPlanFor(r) <==> NeedsImss(r)
    ensures UPDATE_ICSOE_SISUB in ActionPlanFor(r) <==> NeedsIcsoe(r)
  {
    SortSpec(Candidates(r));
    CandidatesContents(r);
  }

  /** No action of a fresh plan is completed. */
  lemma ActionPlanNotCompleted(r: SimulationResult)
    ensures forall i :: 0 <= i < |ActionPlanFor(r)| ==> !ActionPlanFor(r)[i].completed
  {
    var plan := ActionPlanFor(r);
    SortSpec(Candidates(r));
    CandidatesAreTemplates(r);
    forall i | 0 <= i < |plan|
      ensures !plan[i].completed
    {
      assert plan[i] in Candidates(r);
    }
  }

  lemma SortSnoc(init: seq<ActionItem>, x: ActionItem)
    ensures SortByPriority(init + [x]) == InsertByPriority(x, SortByPriority(init))
  {
    assert (init + [x])[..|init|] == init;
  }

  lemma SortUrgentHigh(u1: ActionItem, h1: ActionItem)
    requires u1.priority == Urgent && h1.priority == High
    ensures SortByPriority([u1, h1]) == [u1, h1]
  {
    SortSnoc([], u1);
    assert [] + [u1] == [u1];
    SortSnoc([u1], h1);
    assert [u1] + [h1] == [u1, h1];
    InsertUnfold(h1, [u1]);
    assert [u1][1..] == [];
  }

  lemma SortUrgentHighUrgent(u1: ActionItem, h1: ActionItem, u2: ActionItem)
    requires u1.priority == Urgent && h1.priority == High && u2.priority == Urgent
    ensures SortByPriority([u1, h1, u2]) == [u1, u2, h1]
  {
    SortUrgentHigh(u1, h1);
    SortSnoc([u1, h1], u2);
    assert [u1, h1] + [u2] == [u1, h1, u2];
    InsertUnfold(u2, [u1, h1]);
    assert [u1, h1][1..] == [h1];
    assert InsertByPriority(u2, [h1]) == [u2, h1];
  }

  /** Two urgent and two high-priority actions pushed alternately come out
      urgent first, each pair in the order pushed. */
  lemma SortAlternating(u1: ActionItem, h1: ActionItem, u2: ActionItem, h2: ActionItem)
    requires u1.priority == Urgent && u2.priority == Urgent
    requires h1.priority == High && h2.priority == High
    ensures SortByPriority([u1, h1, u2, h2]) == [u1, u2, h1, h2]
  {
    SortThenInsert(u1, h1, u2, h2);
    InsertHighLast(u1, u2, h1, h2);
  }

  lemma SortThenInsert(u1: ActionItem, h1: ActionItem, u2: ActionItem, h2: ActionItem)
    requires u1.priority == Urgent && u2.priority == Urgent && h1.priority == High
    ensures SortByPriority([u1, h1, u2, h2]) == InsertByPriority(h2, [u1, u2, h1])
  {
    SortUrgentHighUrgent(u1, h1, u2);
    SortSnoc([u1, h1, u2], h2);
    assert [u1, h1, u2] + [h2] == [u1, h1, u2, h2];
  }

  lemma InsertHighLast(u1: ActionItem, u2: ActionItem, h1: ActionItem, h2: ActionItem)
    requires u1.priority == Urgent && u2.priority == Urgent
    requires h1.priority == High && h2.priority == High
    ensures InsertByPriority(h2, [u1, u2, h1]) == [u1, u2, h1, h2]
  {
    InsertAfterAll(h2, [u1, u2, h1]);
    assert [u1, u2, h1] + [h2] == [u1, u2, h1, h2];
  }

  /** An item ranked no higher than everything already placed goes last. */
  lemma {:induction false} InsertAfterAll(x: ActionItem, s: seq<ActionItem>)
    requires forall i :: 0 <= i < |s| ==> Rank(s[i].priority) <= Rank(x.priority)
    ensures InsertByPriority(x, s) == s + [x]
    decreases |s|
  {
    if s != [] {
      InsertUnfold(x, s);
      InsertAfterAll(x, s[1..]);
      assert s == [s[0]] + s[1..];
    }
  }

  /** When every kind of action is called for, the plan reads: REPSE
      registration, IMSS registration, contracts, ICSOE/SISUB. */
  lemma FullPlanOrder(r: SimulationResult)
    requires NeedsRepse(r) && NeedsContracts(r) && NeedsImss(r) && NeedsIcsoe(r)
    ensures ActionPlanFor(r) == [GET_REPSE, REGISTER_IMSS, FORMALIZE_CONTRACTS, UPDATE_ICSOE_SISUB]
  {
    assert Candidates(r) == [GET_REPSE, FORMALIZE_CONTRACTS, REGISTER_IMSS, UPDATE_ICSOE_SISUB];
    SortAlternating(GET_REPSE, FORMALIZE_CONTRACTS, REGISTER_IMSS, UPDATE_ICSOE_SISUB);
  }

  /** A result with every document presented and no infraction on the IMSS
      or ICSOE/SISUB questions, and no REPSE risk, calls for no action. */
  lemma CleanResultNeedsNoAction(r: SimulationResult)
    requires forall i :: 0 <= i < |r.documentResults| ==> r.documentResults[i].presented
    requires forall i :: 0 <= i < |r.questionResults| ==>
      !r.questionResults[i].isInfraction && !r.questionResults[i].isGraveInfraction
    requires !r.hasREPSECancellationRisk
    ensures ActionPlanFor(r) == []
  {
    SortPermutes(Candidates(r));
  }

  // ---------------------------------------------------------------------
  // Marking actions done

  function ToggleOne(item: ActionItem, id: string): ActionItem
  {
    if item.id == id then item.(completed := !item.completed) else item
  }

  /** `toggleActionComplete`: flip `completed` on the items with the given
      id; everything else, including order, stays. */
  function ToggleActionComplete(items: seq<ActionItem>, id: string): (r: seq<ActionItem>)
    ensures |r| == |items|
    ensures forall i :: 0 <= i < |r| ==>
      r[i].completed == (items[i].completed != (items[i].id == id)) &&
      r[i] == items[i].(completed := r[i].completed)
    decreases |items|
  {
    if items == [] then []
    else [ToggleOne(items[0], id)] + ToggleActionComplete(items[1..], id)
  }

  /** Toggling twice restores the plan, and toggling keeps it sorted. */
  lemma ToggleTwice(items: seq<ActionItem>, id: string)
    ensures ToggleActionComplete(ToggleActionComplete(items, id), id) == items
    ensures SortedByPriority(items) ==> SortedByPriority(ToggleActionComplete(items, id))
  {
    var once := ToggleActionComplete(items, id);
    var twice := ToggleActionComplete(once, id);
    assert forall i :: 0 <= i < |twice| ==> twice[i] == items[i];
  }

  // ---------------------------------------------------------------------
  // History of results

  const HISTORY_LIMIT: nat := 10

  /** `[result, ...history].slice(0, 10)`. */
  function SaveToHistory(result: SimulationResult, history: seq<SimulationResult>): (h: seq<SimulationResult>)
    ensures |h| == Min(HISTORY_LIMIT, |history| + 1)
    ensures h[0] == result
    ensures h[1..] == history[..|h| - 1]
  {
    ([result] + history)[..Min(HISTORY_LIMIT, |history| + 1)]
  }

  function Reverse<T>(s: seq<T>): (r: seq<T>)
    ensures |r| == |s|
    decreases |s|
  {
    if s == [] then [] else [s[|s| - 1]] + Reverse(s[..|s| - 1])
  }

  /** Saving the results `rs` one after another. */
  function SaveAll(history: seq<SimulationResult>, rs: seq<SimulationResult>): seq<SimulationResult>
    decreases |rs|
  {
    if rs == [] then history else SaveToHistory(rs[|rs| - 1], SaveAll(history, rs[..|rs| - 1]))
  }

  /** Starting from an empty history, the history holds the ten most recent
      results, newest first. */
  lemma {:induction false} HistoryKeepsMostRecent(rs: seq<SimulationResult>)
    ensures SaveAll([], rs) == Reverse(rs)[..Min(HISTORY_LIMIT, |rs|)]
    decreases |rs|
  {
    if rs != [] {
      var init := rs[..|rs| - 1];
      HistoryKeepsMostRecent(init);
      var prev := SaveAll([], init);
      var h := SaveToHistory(rs[|rs| - 1], prev);
      var want := Reverse(rs)[..Min(HISTORY_LIMIT, |rs|)];
      assert |h| == |want|;
      forall i | 0 <= i < |h|
        ensures h[i] == want[i]
      {
        if i > 0 {
          assert h[i] == h[1..][i - 1];
        }
      }
    }
  }

  /** What the history store holds when read: nothing, something that does
      not parse, or a list of results. */
  datatype StoredHistory = Absent | Unreadable | Parsed(results: seq<SimulationResult>)

  /** `historyQuery`: a missing or unreadable history reads as empty. */
  function LoadHistory(stored: StoredHistory): (h: seq<SimulationResult>)
    ensures stored.Parsed? ==> h == stored.results
    ensures !stored.Parsed? ==> h == []
  {
    match stored
    case Parsed(results) => results
    case _ => []
  }
}
