/** The application's stored record: the user type, the last quick-diagnostic
    result, the compliance checklist and the intro flag. Every handler builds a
    new record and saves it; the write to the store is taken to succeed, and
    the times the source reads from the clock are parameters. */
module AppContext {
  import opened Common
  import opened Data
  import Catalog

  /** `DiagnosticResult`: the quick diagnostic's score, the question texts
      sorted into three lists, and the answers given (question id to option
      value). */
  datatype DiagnosticResult = DiagnosticResult(
    score: int,
    maxScore: int,
    criticalIssues: seq<string>,
    warnings: seq<string>,
    compliant: seq<string>,
    userType: UserType,
    completedAt: string,
    answers: map<string, string>)

  /** One checklist entry; `completedAt` and `notes` may be absent. */
  datatype ChecklistEntry = ChecklistEntry(completed: bool, completedAt: Option<string>, notes: Option<string>)

  type ChecklistState = map<string, ChecklistEntry>

  datatype AppData = AppData(
    userType: Option<UserType>,
    diagnosticResult: Option<DiagnosticResult>,
    checklistState: ChecklistState,
    lastUpdated: string,
    hasSeenIntro: bool)

  /** `defaultAppData`, stamped with the time the module was loaded. */
  function DefaultAppData(createdAt: string): (d: AppData)
    ensures d.userType.None? && d.diagnosticResult.None? && d.checklistState == map[]
    ensures d.lastUpdated == createdAt && !d.hasSeenIntro
  {
    AppData(None, None, map[], createdAt, false)
  }

  /** What reading the store gave: no entry, an error (a failed read or a
      record that does not parse), or a record. */
  datatype StoredAppData = NoEntry | Unreadable | Entry(record: AppData)

  /** The load query: the stored record if there is one, the default record
      otherwise. */
  function LoadOrDefault(stored: StoredAppData, default: AppData): (d: AppData)
    ensures stored.Entry? ==> d == stored.record
    ensures !stored.Entry? ==> d == default
  {
    match stored
    case Entry(record) => record
    case _ => default
  }

  // ---------------------------------------------------------------------
  // The checklist

  /** `checklistState[id]?.completed`: a missing entry is not completed. */
  predicate IsDone(state: ChecklistState, id: string)
  {
    id in state && state[id].completed
  }

  /** `checklistState[id]?.notes`. */
  function NotesOf(state: ChecklistState, id: string): Option<string>
  {
    if id in state then state[id].notes else None
  }

  /** `toggleChecklistItem`'s new state: the entry's completion is negated,
      stamped with `now` when it becomes completed and cleared otherwise, its
      notes are kept, and no other entry changes. */
  function ToggleChecklist(state: ChecklistState, itemId: string, now: string): (r: ChecklistState)
    ensures r.Keys == state.Keys + {itemId}
    ensures IsDone(r, itemId) == !IsDone(state, itemId)
    ensures r[itemId].completedAt == if IsDone(r, itemId) then Some(now) else None
    ensures NotesOf(r, itemId) == NotesOf(state, itemId)
    ensures forall k :: k in state && k != itemId ==> r[k] == state[k]
  {
    var done := IsDone(state, itemId);
    state[itemId := ChecklistEntry(!done, if !done then Some(now) else None, NotesOf(state, itemId))]
  }

  /** `updateChecklistNotes`'s new state: only the entry's notes change; a
      new entry starts not completed, and no other entry changes. */
  function UpdateNotes(state: ChecklistState, itemId: string, notes: string): (r: ChecklistState)
    ensures r.Keys == state.Keys + {itemId}
    ensures r[itemId].notes == Some(notes)
    ensures IsDone(r, itemId) == IsDone(state, itemId)
    ensures itemId in state ==> r[itemId].completedAt == state[itemId].completedAt
    ensures itemId !in state ==> r[itemId].completedAt.None?
    ensures forall k :: k in state && k != itemId ==> r[k] == state[k]
  {
    var current := if itemId in state then state[itemId] else ChecklistEntry(false, None, None);
    state[itemId := current.(notes := Some(notes))]
  }

  /** Toggling the same item twice restores its completion and its notes,
      and leaves every other entry as it was. */
  lemma ToggleTwice(state: ChecklistState, itemId: string, t1: string, t2: string)
    ensures var r := ToggleChecklist(ToggleChecklist(state, itemId, t1), itemId, t2);
            IsDone(r, itemId) == IsDone(state, itemId) &&
            NotesOf(r, itemId) == NotesOf(state, itemId) &&
            forall k :: k in state && k != itemId ==> r[k] == state[k]
  {
  }

  /** Toggling changes whether an item is done for that item only. */
  lemma ToggleChangesOneItem(state: ChecklistState, itemId: string, now: string, k: string)
    ensures IsDone(ToggleChecklist(state, itemId, now), k) ==
            if k == itemId then !IsDone(state, k) else IsDone(state, k)
  {
  }

  /** `getChecklistProgress`'s result. */
  datatype Progress = Progress(completed: nat, total: nat, percentage: int)

  /** `item.forUserTypes.includes(userType) || item.forUserTypes.includes('general')`. */
  function ForUser(userType: UserType): ChecklistItem -> bool
  {
    (item: ChecklistItem) => userType in item.forUserTypes || General in item.forUserTypes
  }

  function DoneIn(state: ChecklistState): ChecklistItem -> bool
  {
    (item: ChecklistItem) => IsDone(state, item.id)
  }

  /** The items that count for a user type; no user type counts as 'general'. */
  function RelevantChecklistItems(userType: Option<UserType>): seq<ChecklistItem>
  {
    Filter(CHECKLIST_ITEMS, ForUser(if userType.Some? then userType.value else General))
  }

  /** The rounded percentage of `completed` out of `total` lies in
      [0, 100], and, with fewer than 200 items, is 100 exactly when all are
      done. */
  lemma PercentageBounds(completed: nat, total: nat)
    requires completed <= total && 0 < total < 200
    ensures 0 <= Catalog.RoundHalfUp(100 * completed, total) <= 100
    ensures Catalog.RoundHalfUp(100 * completed, total) == 100 <==> completed == total
  {
    Catalog.RoundHalfUpMonotone(0, 100 * completed, total);
    Catalog.RoundHalfUpMonotone(100 * completed, 100 * total, total);
    Catalog.RoundHalfUpExact(0, total);
    Catalog.RoundHalfUpExact(100, total);
    var r := Catalog.RoundHalfUp(100 * completed, total);
    if completed < total && r >= 100 {
      assert false;
    }
  }

  /** `getChecklistProgress`: the relevant items done, out of the relevant
      items, and the rounded percentage (0 when nothing is relevant). The
      percentage lies in [0, 100] and is 100 exactly when every relevant
      item is done; between those it is `Math.round` of the done share in
      percent. */
  function ChecklistProgress(d: AppData): (p: Progress)
    ensures p.total == |RelevantChecklistItems(d.userType)|
    ensures p.completed == Count(RelevantChecklistItems(d.userType), DoneIn(d.checklistState))
    ensures p.completed <= p.total
    ensures 0 <= p.percentage <= 100
    ensures p.total == 0 ==> p.percentage == 0
    ensures p.total > 0 ==> (p.percentage == 100 <==> p.completed == p.total)
    ensures p.total > 0 ==> p.percentage == Catalog.RoundHalfUp(100 * p.completed, p.total)
  {
    var relevant := RelevantChecklistItems(d.userType);
    var completed := Count(relevant, DoneIn(d.checklistState));
    var total := |relevant|;
    if total > 0 then
      PercentageBounds(completed, total);
      Progress(completed, total, Catalog.RoundHalfUp(100 * completed, total))
    else
      Progress(completed, total, 0)
  }

  /** Writing a note never changes the progress. */
  lemma NotesKeepProgress(d: AppData, itemId: string, notes: string)
    ensures ChecklistProgress(d.(checklistState := UpdateNotes(d.checklistState, itemId, notes))) == ChecklistProgress(d)
  {
    var relevant := RelevantChecklistItems(d.userType);
    var after := UpdateNotes(d.checklistState, itemId, notes);
    forall i | 0 <= i < |relevant|
      ensures DoneIn(after)(relevant[i]) == DoneIn(d.checklistState)(relevant[i])
    {
      var k := relevant[i].id;
      if k != itemId && k in d.checklistState {
        assert after[k] == d.checklistState[k];
      }
    }
    FilterCongruent(relevant, DoneIn(after), DoneIn(d.checklistState));
  }

  /** No checklist item is for workers or general readers, so with no user
      type (read as 'general') or either of those, nothing counts and the
      progress is 0 of 0 at 0%. */
  lemma NoCompanyProfileNoProgress(d: AppData)
    requires d.userType.None? || d.userType == Some(Trabajador) || d.userType == Some(General)
    ensures ChecklistProgress(d) == Progress(0, 0, 0)
  {
    ChecklistOnlyCompanyProfiles();
    FilterNone(CHECKLIST_ITEMS, ForUser(if d.userType.Some? then d.userType.value else General));
  }

  // ---------------------------------------------------------------------
  // The provider

  class AppStore {
    /** `defaultAppData`. */
    const defaultData: AppData
    /** `localData`. */
    var data: AppData

    /** The provider starts from the default record, stamped with the time
        the module was loaded. */
    constructor(createdAt: string)
      ensures defaultData == DefaultAppData(createdAt) && data == defaultData
    {
      defaultData := DefaultAppData(createdAt);
      data := DefaultAppData(createdAt);
    }

    /** The load query's answer replaces the record. */
    method Load(stored: StoredAppData)
      modifies `data
      ensures data == LoadOrDefault(stored, defaultData)
    {
      data := LoadOrDefault(stored, defaultData);
    }

    /** `saveData`: the record is saved stamped with `savedAt` and becomes
        the provider's record. */
    method Save(newData: AppData, savedAt: string)
      modifies `data
      ensures data == newData.(lastUpdated := savedAt)
    {
      data := newData.(lastUpdated := savedAt);
    }

    method SetUserType(t: UserType, savedAt: string)
      modifies `data
      ensures data == old(data).(userType := Some(t), lastUpdated := savedAt)
    {
      Save(data.(userType := Some(t)), savedAt);
    }

    /** The result is stored and its user type becomes the record's. */
    method SaveDiagnosticResult(result: DiagnosticResult, savedAt: string)
      modifies `data
      ensures data == old(data).(diagnosticResult := Some(result), userType := Some(result.userType),
                                 lastUpdated := savedAt)
    {
      Save(data.(diagnosticResult := Some(result), userType := Some(result.userType)), savedAt);
    }

    method ToggleChecklistItem(itemId: string, now: string, savedAt: string)
      modifies `data
      ensures data == old(data).(checklistState := ToggleChecklist(old(data.checklistState), itemId, now),
                                 lastUpdated := savedAt)
    {
      Save(data.(checklistState := ToggleChecklist(data.checklistState, itemId, now)), savedAt);
    }

    method UpdateChecklistNotes(itemId: string, notes: string, savedAt: string)
      modifies `data
      ensures data == old(data).(checklistState := UpdateNotes(old(data.checklistState), itemId, notes),
                                 lastUpdated := savedAt)
    {
      Save(data.(checklistState := UpdateNotes(data.checklistState, itemId, notes)), savedAt);
    }

    /** The stored key is removed and the record goes back to the default. */
    method ClearAllData()
      modifies `data
      ensures data == defaultData
    {
      data := defaultData;
    }

    method CompleteIntro(savedAt: string)
      modifies `data
      ensures data == old(data).(hasSeenIntro := true, lastUpdated := savedAt)
    {
      Save(data.(hasSeenIntro := true), savedAt);
    }
  }
}
