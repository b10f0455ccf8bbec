/** The helpers the simulator screen adds on top of the engine: the elapsed
    time display, the intro dialogue walk, the dialogue lookup, the guards
    that offer the next phase, and the grave/minor split of the results. */
module SimulatorScreen {
  import opened Common
  import opened Catalog
  import Engine
  import SC = SimulatorContext

  // ---------------------------------------------------------------------
  // formatTime

  predicate IsDigit(c: char)
  {
    '0' <= c <= '9'
  }

  predicate AllDigits(s: string)
  {
    forall i :: 0 <= i < |s| ==> IsDigit(s[i])
  }

  function DigitChar(d: nat): (c: char)
    requires d < 10
    ensures IsDigit(c) && c as int - '0' as int == d
  {
    ('0' as int + d) as char
  }

  /** The number a string of decimal digits denotes. */
  function DecimalValue(s: string): nat
    requires AllDigits(s)
    decreases |s|
  {
    if s == [] then 0 else DecimalValue(s[..|s| - 1]) * 10 + (s[|s| - 1] as int - '0' as int)
  }

  /** `n.toString()` for a non-negative integer. */
  function DecimalString(n: nat): string
    decreases n
  {
    if n < 10 then [DigitChar(n)] else DecimalString(n / 10) + [DigitChar(n % 10)]
  }

  /** `toString` writes digits that read back as the number, one digit
      below 10 and at most two below 100. */
  lemma {:induction false} DecimalRoundTrip(n: nat)
    ensures AllDigits(DecimalString(n)) && DecimalValue(DecimalString(n)) == n
    ensures 1 <= |DecimalString(n)|
    ensures n < 100 ==> |DecimalString(n)| <= 2
    decreases n
  {
    if n >= 10 {
      DecimalRoundTrip(n / 10);
      var s := DecimalString(n);
      assert s[..|s| - 1] == DecimalString(n / 10);
    }
  }

  /** `padStart(2, '0')`: zeros in front up to two characters; a longer
      string is left whole. */
  function PadStart2(s: string): (r: string)
    ensures |r| == if |s| < 2 then 2 else |s|
    ensures r[|r| - |s|..] == s
    ensures forall i :: 0 <= i < |r| - |s| ==> r[i] == '0'
  {
    if |s| >= 2 then s else if |s| == 1 then "0" + s else "00"
  }

  /** Leading zeros do not change the value. */
  lemma PadKeepsValue(s: string)
    requires AllDigits(s)
    ensures AllDigits(PadStart2(s)) && DecimalValue(PadStart2(s)) == DecimalValue(s)
  {
    var r := PadStart2(s);
    if |s| == 1 {
      assert r[..1] == "0";
      assert s[..0] == [];
    } else if |s| == 0 {
      assert r[..1] == "0";
    }
  }

  /** The minutes field of `formatTime`. */
  function MinutesField(seconds: nat): string
  {
    PadStart2(DecimalString(seconds / 60))
  }

  /** The seconds field of `formatTime`. */
  function SecondsField(seconds: nat): string
  {
    PadStart2(DecimalString(seconds % 60))
  }

  /** `formatTime`: minutes and seconds, each padded to two digits, joined
      by a colon. */
  function FormatTime(seconds: nat): string
  {
    MinutesField(seconds) + ":" + SecondsField(seconds)
  }

  /** The fields read back as the elapsed seconds, and the seconds field
      stays below 60 (their lengths are `FieldLengths`). */
  lemma FieldsReadBack(seconds: nat)
    ensures AllDigits(MinutesField(seconds)) && AllDigits(SecondsField(seconds))
    ensures DecimalValue(MinutesField(seconds)) * 60 + DecimalValue(SecondsField(seconds)) == seconds
    ensures DecimalValue(SecondsField(seconds)) < 60
  {
    DecimalRoundTrip(seconds / 60);
    DecimalRoundTrip(seconds % 60);
    PadKeepsValue(DecimalString(seconds / 60));
    PadKeepsValue(DecimalString(seconds % 60));
  }

  lemma FieldLengths(seconds: nat)
    ensures |MinutesField(seconds)| >= 2 && |SecondsField(seconds)| == 2
  {
    DecimalRoundTrip(seconds % 60);
  }

  /** The display cuts at the third character from the end into its two
      fields, so reading it back gives the elapsed seconds. */
  lemma FormatTimeReadsBack(seconds: nat)
    ensures var r := FormatTime(seconds);
      |r| >= 5 && r[|r| - 3] == ':' && r[..|r| - 3] == MinutesField(seconds) && r[|r| - 2..] == SecondsField(seconds)
  {
    FieldLengths(seconds);
    var m, s := MinutesField(seconds), SecondsField(seconds);
    var r := m + ":" + s;
    assert r[..|r| - 3] == m;
    assert r[|r| - 2..] == s;
  }

  // ---------------------------------------------------------------------
  // The intro

  /** `currentDialogueIndex >= dialogues.length - 1`. An empty script is
      last at once; otherwise there is a next message exactly when this is
      not the last. */
  function IsLastMessage(index: nat, dialogues: seq<string>): (b: bool)
    ensures dialogues == [] ==> b
    ensures !b <==> index + 1 < |dialogues|
  {
    index >= |dialogues| - 1
  }

  /** `dialogues[currentDialogueIndex] || ''`: past the script the bubble
      is empty. */
  function CurrentMessage(index: nat, dialogues: seq<string>): (m: string)
    ensures index < |dialogues| ==> m == dialogues[index]
    ensures index >= |dialogues| ==> m == ""
  {
    if index < |dialogues| then dialogues[index] else ""
  }

  /** The continue button: the document phase after the last message, the
      next message before it. */
  method ContinueIntro(sim: SC.Simulator, dialogues: seq<string>)
    modifies sim`phase, sim`dialogueIndex
    ensures IsLastMessage(old(sim.dialogueIndex), dialogues) ==> sim.phase == Documents && sim.dialogueIndex == 0
    ensures !IsLastMessage(old(sim.dialogueIndex), dialogues) ==>
      sim.phase == old(sim.phase) && sim.dialogueIndex == old(sim.dialogueIndex) + 1
  {
    if IsLastMessage(sim.dialogueIndex, dialogues) {
      sim.StartDocumentPhase();
    } else {
      sim.AdvanceDialogue();
    }
  }

  /** The messages shown from `index` on, one per press of continue, until
      the press that starts the document phase. */
  function MessagesShown(index: nat, dialogues: seq<string>): seq<string>
    decreases |dialogues| - index
  {
    if IsLastMessage(index, dialogues) then [CurrentMessage(index, dialogues)]
    else [CurrentMessage(index, dialogues)] + MessagesShown(index + 1, dialogues)
  }

  /** From message `index` on, the intro shows the rest of the script in
      order, each message once. */
  lemma {:induction false} MessagesShownFrom(index: nat, dialogues: seq<string>)
    requires index < |dialogues|
    ensures MessagesShown(index, dialogues) == dialogues[index..]
    decreases |dialogues| - index
  {
    if !IsLastMessage(index, dialogues) {
      MessagesShownFrom(index + 1, dialogues);
      assert dialogues[index..] == [dialogues[index]] + dialogues[index + 1..];
    }
  }

  /** The whole intro shows the script exactly; an empty script shows one
      empty bubble and the first press starts the documents. */
  lemma IntroShowsScript(dialogues: seq<string>)
    ensures MessagesShown(0, dialogues) == if dialogues == [] then [""] else dialogues
  {
    if dialogues != [] {
      MessagesShownFrom(0, dialogues);
    }
  }

  // ---------------------------------------------------------------------
  // The dialogue lookup

  function DialogueMatches(t: InspectionType, phase: Phase): InspectorDialogue -> bool
  {
    (d: InspectorDialogue) => d.inspectionType == t && d.phase == PhaseName(phase)
  }

  /** `currentDialogue`: nothing before an inspection type is chosen;
      otherwise the messages of the first row for that type and phase, or
      no messages when there is none. */
  function CurrentDialogue(t: Option<InspectionType>, phase: Phase, table: seq<InspectorDialogue>): (r: Option<seq<string>>)
    ensures t.None? <==> r.None?
  {
    if t.None? then None
    else
      var matching := Filter(table, DialogueMatches(t.value, phase));
      if matching == [] then Some([]) else Some(matching[0].messages)
  }

  lemma {:induction false} FilterFirst<T>(s: seq<T>, p: T -> bool, k: nat)
    requires k < |s| && p(s[k])
    requires forall i :: 0 <= i < k ==> !p(s[i])
    ensures Filter(s, p) != [] && Filter(s, p)[0] == s[k]
    decreases k
  {
    if k > 0 {
      assert !p(s[0]);
      FilterFirst(s[1..], p, k - 1);
    }
  }

  /** The lookup finds the first matching row, and gives no messages when
      no row matches. */
  lemma CurrentDialogueSpec(t: InspectionType, phase: Phase, table: seq<InspectorDialogue>, k: nat)
    ensures (forall i :: 0 <= i < |table| ==> !DialogueMatches(t, phase)(table[i])) ==>
      CurrentDialogue(Some(t), phase, table) == Some([])
    ensures (k < |table| && DialogueMatches(t, phase)(table[k]) &&
             (forall i :: 0 <= i < k ==> !DialogueMatches(t, phase)(table[i]))) ==>
      CurrentDialogue(Some(t), phase, table) == Some(table[k].messages)
  {
    var p := DialogueMatches(t, phase);
    if forall i :: 0 <= i < |table| ==> !p(table[i]) {
      FilterNone(table, p);
    }
    if k < |table| && p(table[k]) && (forall i :: 0 <= i < k ==> !p(table[i])) {
      FilterFirst(table, p, k);
    }
  }

  // ---------------------------------------------------------------------
  // The completion guards

  /** The keys of a list. */
  function Keys<T>(s: seq<T>, key: T -> string): set<string>
    decreases |s|
  {
    if s == [] then {} else Keys(s[..|s| - 1], key) + {key(s[|s| - 1])}
  }

  lemma {:induction false} KeysMembers<T>(s: seq<T>, key: T -> string, k: string)
    ensures k in Keys(s, key) <==> exists i :: 0 <= i < |s| && key(s[i]) == k
    decreases |s|
  {
    if s != [] {
      var init := s[..|s| - 1];
      KeysMembers(init, key, k);
      if k in Keys(init, key) {
        var i :| 0 <= i < |init| && key(init[i]) == k;
        assert key(s[i]) == k;
      }
      if exists i :: 0 <= i < |s| && key(s[i]) == k {
        var i :| 0 <= i < |s| && key(s[i]) == k;
        if i < |init| {
          assert key(init[i]) == k;
        }
      }
    }
  }

  /** Distinct keys: as many keys as entries. */
  lemma {:induction false} UniqueKeysCount<T>(s: seq<T>, key: T -> string)
    requires UniqueKeys(s, key)
    ensures |Keys(s, key)| == |s|
    decreases |s|
  {
    if s != [] {
      var init := s[..|s| - 1];
      assert UniqueKeys(init, key);
      UniqueKeysCount(init, key);
      KeysMembers(init, key, key(s[|s| - 1]));
      assert key(s[|s| - 1]) !in Keys(init, key);
    }
  }

  lemma {:induction false} SubsetSameSize(a: set<string>, b: set<string>)
    requires a <= b
    ensures |a| <= |b|
    ensures |a| == |b| ==> a == b
    decreases |b|
  {
    if b != {} {
      var x :| x in b;
      SubsetSameSize(a - {x}, b - {x});
      if x in a {
        assert a == (a - {x}) + {x};
        assert b == (b - {x}) + {x};
      } else {
        assert a - {x} == a;
      }
    }
  }

  /** The answered keys are among the relevant ones. */
  lemma AnsweredAmongRelevant<R, D>(results: seq<R>, relevant: seq<D>, rkey: R -> string, dkey: D -> string)
    requires forall i :: 0 <= i < |results| ==> rkey(results[i]) in Keys(relevant, dkey)
    ensures Keys(results, rkey) <= Keys(relevant, dkey)
  {
    forall k | k in Keys(results, rkey)
      ensures k in Keys(relevant, dkey)
    {
      KeysMembers(results, rkey, k);
    }
  }

  /** Every relevant item answered: the relevant keys are among the answered. */
  lemma RelevantAmongAnswered<R, D>(results: seq<R>, relevant: seq<D>, rkey: R -> string, dkey: D -> string)
    requires forall j :: 0 <= j < |relevant| ==> dkey(relevant[j]) in Keys(results, rkey)
    ensures Keys(relevant, dkey) <= Keys(results, rkey)
  {
    forall k | k in Keys(relevant, dkey)
      ensures k in Keys(results, rkey)
    {
      KeysMembers(relevant, dkey, k);
    }
  }

  /** Equal counts: every relevant item has been answered. */
  lemma CompleteMeansAllAnswered<R, D>(results: seq<R>, relevant: seq<D>, rkey: R -> string, dkey: D -> string)
    requires UniqueKeys(results, rkey) && UniqueKeys(relevant, dkey)
    requires forall i :: 0 <= i < |results| ==> rkey(results[i]) in Keys(relevant, dkey)
    requires |results| == |relevant|
    ensures Keys(relevant, dkey) == Keys(results, rkey)
  {
    UniqueKeysCount(results, rkey);
    UniqueKeysCount(relevant, dkey);
    AnsweredAmongRelevant(results, relevant, rkey, dkey);
    SubsetSameSize(Keys(results, rkey), Keys(relevant, dkey));
  }

  /** Every relevant item answered: the counts are equal. */
  lemma AllAnsweredMeansComplete<R, D>(results: seq<R>, relevant: seq<D>, rkey: R -> string, dkey: D -> string)
    requires UniqueKeys(results, rkey) && UniqueKeys(relevant, dkey)
    requires forall i :: 0 <= i < |results| ==> rkey(results[i]) in Keys(relevant, dkey)
    requires forall j :: 0 <= j < |relevant| ==> dkey(relevant[j]) in Keys(results, rkey)
    ensures |results| == |relevant|
  {
    UniqueKeysCount(results, rkey);
    UniqueKeysCount(relevant, dkey);
    var answered, wanted := Keys(results, rkey), Keys(relevant, dkey);
    AnsweredAmongRelevant(results, relevant, rkey, dkey);
    RelevantAmongAnswered(results, relevant, rkey, dkey);
    assert answered == wanted;
    assert |answered| == |wanted|;
  }

  /** With one result per answered item and only relevant items answered,
      the counts are equal exactly when every relevant item is answered. */
  lemma CompleteIffAllAnswered<R, D>(results: seq<R>, relevant: seq<D>, rkey: R -> string, dkey: D -> string)
    requires UniqueKeys(results, rkey) && UniqueKeys(relevant, dkey)
    requires forall i :: 0 <= i < |results| ==> rkey(results[i]) in Keys(relevant, dkey)
    ensures |results| == |relevant| <==> forall j :: 0 <= j < |relevant| ==> dkey(relevant[j]) in Keys(results, rkey)
  {
    if |results| == |relevant| {
      CompleteMeansAllAnswered(results, relevant, rkey, dkey);
      forall j | 0 <= j < |relevant|
        ensures dkey(relevant[j]) in Keys(results, rkey)
      {
        KeysMembers(relevant, dkey, dkey(relevant[j]));
      }
    }
    if forall j :: 0 <= j < |relevant| ==> dkey(relevant[j]) in Keys(results, rkey) {
      AllAnsweredMeansComplete(results, relevant, rkey, dkey);
    }
  }

  function DocumentId(d: DocumentRule): string { d.id }
  function PointId(v: VerificationPoint): string { v.id }

  /** "Continuar a Interrogatorio" is offered when as many documents are
      answered as are relevant. */
  predicate DocumentsComplete(sim: SC.Simulator)
    reads sim`documentResults, sim`profile, sim`inspectionType
  {
    |sim.documentResults| == |Engine.RelevantDocuments(sim.catalog, sim.profile, sim.inspectionType)|
  }

  /** "Ver Resultados" is offered when as many points are answered as are
      relevant. */
  predicate VerificationComplete(sim: SC.Simulator)
    reads sim`verificationResults, sim`profile, sim`inspectionType
  {
    |sim.verificationResults| == |Engine.RelevantVerificationPoints(sim.catalog, sim.profile, sim.inspectionType)|
  }

  /** The catalog's documents have pairwise distinct ids, and so do its
      verification points. */
  lemma CatalogIdsDistinct()
    ensures UniqueKeys(SIMULATOR_CATALOG.documents, DocumentId)
    ensures UniqueKeys(SIMULATOR_CATALOG.points, PointId)
  {
  }

  /** For every selection, the relevant documents have distinct ids. */
  lemma RelevantDocumentIdsDistinct(p: Option<ProfileType>, t: Option<InspectionType>)
    ensures UniqueKeys(Engine.RelevantDocuments(SIMULATOR_CATALOG, p, t), DocumentId)
  {
    if p.Some? && t.Some? {
      var docs := Engine.RelevantDocuments(SIMULATOR_CATALOG, p, t);
      CatalogIdsDistinct();
      Engine.RelevantDocumentsInOrder(SIMULATOR_CATALOG, p.value, t.value);
      var f :| PickedInOrder(SIMULATOR_CATALOG.documents, docs, f);
      PickedKeepsUniqueKeys(SIMULATOR_CATALOG.documents, docs, f, DocumentId);
    }
  }

  /** For every selection, the relevant verification points have distinct
      ids. */
  lemma RelevantPointIdsDistinct(p: Option<ProfileType>, t: Option<InspectionType>)
    ensures UniqueKeys(Engine.RelevantVerificationPoints(SIMULATOR_CATALOG, p, t), PointId)
  {
    if p.Some? && HasVerificationPhase(t) {
      var points := Engine.RelevantVerificationPoints(SIMULATOR_CATALOG, p, t);
      CatalogIdsDistinct();
      Engine.RelevantVerificationPointsInOrder(SIMULATOR_CATALOG, p.value, t.value);
      var f :| PickedInOrder(SIMULATOR_CATALOG.points, points, f);
      PickedKeepsUniqueKeys(SIMULATOR_CATALOG.points, points, f, PointId);
    }
  }

  /** The document guard opens exactly when every relevant document has a
      result: the relevant documents have distinct ids, each document has
      at most one result, and only relevant documents have results. */
  lemma DocumentsGuard(sim: SC.Simulator)
    requires sim.catalog == SIMULATOR_CATALOG
    requires sim.ResultsValid() && sim.ResultsRelevant()
    ensures DocumentsComplete(sim) <==>
      forall j :: 0 <= j < |Engine.RelevantDocuments(sim.catalog, sim.profile, sim.inspectionType)| ==>
        Engine.RelevantDocuments(sim.catalog, sim.profile, sim.inspectionType)[j].id in
          Keys(sim.documentResults, Engine.DocumentKey)
  {
    var docs := Engine.RelevantDocuments(sim.catalog, sim.profile, sim.inspectionType);
    RelevantDocumentIdsDistinct(sim.profile, sim.inspectionType);
    forall i | 0 <= i < |sim.documentResults|
      ensures Engine.DocumentKey(sim.documentResults[i]) in Keys(docs, DocumentId)
    {
      KeysMembers(docs, DocumentId, sim.documentResults[i].documentId);
    }
    CompleteIffAllAnswered(sim.documentResults, docs, Engine.DocumentKey, DocumentId);
  }

  /** The same for the verification points and their guard. */
  lemma VerificationGuard(sim: SC.Simulator)
    requires sim.catalog == SIMULATOR_CATALOG
    requires sim.ResultsValid() && sim.ResultsRelevant()
    ensures VerificationComplete(sim) <==>
      forall j :: 0 <= j < |Engine.RelevantVerificationPoints(sim.catalog, sim.profile, sim.inspectionType)| ==>
        Engine.RelevantVerificationPoints(sim.catalog, sim.profile, sim.inspectionType)[j].id in
          Keys(sim.verificationResults, Engine.VerificationKey)
  {
    var points := Engine.RelevantVerificationPoints(sim.catalog, sim.profile, sim.inspectionType);
    RelevantPointIdsDistinct(sim.profile, sim.inspectionType);
    forall i | 0 <= i < |sim.verificationResults|
      ensures Engine.VerificationKey(sim.verificationResults[i]) in Keys(points, PointId)
    {
      KeysMembers(points, PointId, sim.verificationResults[i].pointId);
    }
    CompleteIffAllAnswered(sim.verificationResults, points, Engine.VerificationKey, PointId);
  }

  // ---------------------------------------------------------------------
  // The results view

  function IsGrave(i: Engine.Infraction): bool { i.isGrave }
  function IsMinor(i: Engine.Infraction): bool { !i.isGrave }

  function GraveInfractions(infractions: seq<Engine.Infraction>): seq<Engine.Infraction>
  {
    Filter(infractions, IsGrave)
  }

  function MinorInfractions(infractions: seq<Engine.Infraction>): seq<Engine.Infraction>
  {
    Filter(infractions, IsMinor)
  }

  lemma {:induction false} GraveMinorMultiset(infractions: seq<Engine.Infraction>)
    ensures multiset(GraveInfractions(infractions)) + multiset(MinorInfractions(infractions)) == multiset(infractions)
    decreases |infractions|
  {
    if infractions != [] {
      GraveMinorMultiset(infractions[1..]);
      assert infractions == [infractions[0]] + infractions[1..];
    }
  }

  /** The two lists split the infractions: every infraction is in exactly
      one of them, as often as in the result, the grave list holds only
      grave ones and the minor list only the others. */
  lemma InfractionPartition(infractions: seq<Engine.Infraction>)
    ensures multiset(GraveInfractions(infractions)) + multiset(MinorInfractions(infractions)) == multiset(infractions)
    ensures |GraveInfractions(infractions)| + |MinorInfractions(infractions)| == |infractions|
    ensures forall x :: x in GraveInfractions(infractions) ==> x.isGrave
    ensures forall x :: x in MinorInfractions(infractions) ==> !x.isGrave
  {
    GraveMinorMultiset(infractions);
    assert |multiset(infractions)| == |infractions|;
  }
}
