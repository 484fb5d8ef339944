/** What a creation demands and leaves behind, and which operations a sync turns into automations. */
module AutomationCreation {
  import opened Common
  import opened AutomationModel
  import opened AutomationStore

  // ----- Blank and short texts -----

  predicate Blank(s: string) {
    forall i | 0 <= i < |s| :: IsSpace(s[i])
  }

  /** Fewer than three characters from the first that is not a space to the last. */
  predicate Short(s: string) {
    forall i, j | 0 <= i < |s| && 0 <= j < |s| && !IsSpace(s[i]) && !IsSpace(s[j]) :: j - i < 2
  }

  /** The twenty-five characters that trimming removes. */
  lemma SpacesInPlainTerms(c: char)
    ensures IsSpace(c) <==>
      c in "\U{9}\U{A}\U{B}\U{C}\U{D}\U{20}\U{A0}\U{1680}\U{2000}\U{2001}\U{2002}\U{2003}\U{2004}\U{2005}" ||
      c in "\U{2006}\U{2007}\U{2008}\U{2009}\U{200A}\U{2028}\U{2029}\U{202F}\U{205F}\U{3000}\U{FEFF}"
  {}

  lemma {:induction false} TrimLeftCuts(s: string) returns (i: nat)
    ensures i <= |s| && TrimLeft(s) == s[i..] && Blank(s[..i])
    ensures i < |s| ==> !IsSpace(s[i])
  {
    if s == "" || !IsSpace(s[0]) {
      i := 0;
    } else {
      var j := TrimLeftCuts(s[1..]);
      assert s[1..][j..] == s[j + 1..];
      assert s[..j + 1] == [s[0]] + s[1..][..j];
      i := j + 1;
    }
  }

  lemma {:induction false} TrimRightCuts(s: string) returns (j: nat)
    ensures j <= |s| && TrimRight(s) == s[..j] && Blank(s[j..])
    ensures j > 0 ==> !IsSpace(s[j - 1])
  {
    if s == "" || !IsSpace(s[|s| - 1]) {
      j := |s|;
    } else {
      var n := |s| - 1;
      j := TrimRightCuts(s[..n]);
      assert s[..n][..j] == s[..j];
      assert s[j..] == s[..n][j..] + [s[n]];
    }
  }

  lemma TrimInPlainTerms(s: string)
    ensures Trim(s) == "" <==> Blank(s)
    ensures |Trim(s)| < 3 <==> Short(s)
  {
    var i := TrimLeftCuts(s);
    var j := TrimRightCuts(s[i..]);
    forall k | 0 <= k < i ensures IsSpace(s[k]) {
      assert s[..i][k] == s[k];
    }
    forall k | i + j <= k < |s| ensures IsSpace(s[k]) {
      assert s[i..][j..][k - i - j] == s[k];
    }
    assert j > 0 ==> !IsSpace(s[i]) && s[i..][j - 1] == s[i + j - 1];
    assert |Trim(s)| == j;
  }

  // ----- The suggested template -----

  lemma {:induction false} FirstInSpec(candidates: seq<string>, pool: seq<string>, wanted: bool)
    ensures FirstIn(candidates, pool, wanted).None? <==>
      forall i | 0 <= i < |candidates| :: (candidates[i] in pool) != wanted
    ensures forall i | 0 <= i < |candidates| && (candidates[i] in pool) == wanted &&
      (forall j | 0 <= j < i :: (candidates[j] in pool) != wanted) ::
      FirstIn(candidates, pool, wanted) == Some(candidates[i])
  {
    if candidates != [] {
      FirstInSpec(candidates[1..], pool, wanted);
      assert candidates == [candidates[0]] + candidates[1..];
    }
  }

  predicate FirstThat(candidates: seq<string>, i: int, holds: string -> bool) {
    0 <= i < |candidates| && holds(candidates[i]) && forall j | 0 <= j < i :: !holds(candidates[j])
  }

  /** The first preferred candidate, or else the first that was not rejected, or else the first of all. */
  lemma SuggestionInPlainTerms(learning: Learning, candidates: seq<string>)
    ensures
      var suggested := SuggestTemplate(learning, candidates);
      var preferred, kept := t => t in learning.preferred, t => t !in learning.rejected;
      && (suggested.None? <==> candidates == [])
      && (forall i | FirstThat(candidates, i, preferred) :: suggested == Some(candidates[i]))
      && ((forall t | t in candidates :: !preferred(t)) ==>
            forall i | FirstThat(candidates, i, kept) :: suggested == Some(candidates[i]))
      && (candidates != [] && (forall t | t in candidates :: !preferred(t) && !kept(t)) ==>
            suggested == Some(candidates[0]))
  {
    FirstInSpec(candidates, learning.preferred, true);
    FirstInSpec(candidates, learning.rejected, false);
    assert forall i | 0 <= i < |candidates| :: candidates[i] in candidates;
  }

  // ----- Creation -----

  /** The template given, or else the one the title suggests. */
  function TemplateOf(input: CreateInput): string {
    if input.templateId.Some? then input.templateId.value else input.inferred
  }

  predicate Taken(s: Snapshot, input: CreateInput) {
    exists i | 0 <= i < |s.automations| ::
      && s.automations[i].key == Key(input.sourceType, input.sourceId, TemplateOf(input))
      && s.automations[i].status != Archived
  }

  /** Which error a creation ends in; none where every check passes. */
  lemma CreationIsRefusedIff(s: Snapshot, input: CreateInput, newId: string, now: int, rulesOf: string -> seq<Rule>)
    ensures
      var made := Create(s, input, newId, now, rulesOf);
      var ready := !Blank(input.storeId) && !Short(input.title) && !Blank(input.sourceId);
      && (made == NotCreated(MissingStore) <==> Blank(input.storeId))
      && (made == NotCreated(InvalidTitle) <==> !Blank(input.storeId) && Short(input.title))
      && (made == NotCreated(MissingSource) <==>
            !Blank(input.storeId) && !Short(input.title) && Blank(input.sourceId))
      && (made == NotCreated(Duplicate) <==> ready && Taken(s, input))
      && (made.CreatedRecord? <==> ready && !Taken(s, input))
  {
    TrimInPlainTerms(input.storeId);
    TrimInPlainTerms(input.title);
    TrimInPlainTerms(input.sourceId);
    TemplateIsChosen(s.learning, input);
  }

  lemma TemplateIsChosen(learning: Learning, input: CreateInput)
    ensures TemplateFor(learning, input) == TemplateOf(input)
  {
    SingleCandidateIsAlwaysChosen(learning, input.inferred);
  }

  /** A draft, not approved and not rejected, with the rules of its template. */
  predicate IsDraft(a: Automation, input: CreateInput, newId: string, now: int, rulesOf: string -> seq<Rule>) {
    && a.id == newId && a.status == Draft && !a.merchantApproved && !a.merchantRejected
    && a.changeRequestNote == None && a.executionResult == None && a.timeline == map[Draft := now]
    && a.key.sourceType == input.sourceType && a.key.sourceId == input.sourceId
    && a.key.templateId == TemplateOf(input) && a.rules == rulesOf(TemplateOf(input))
  }

  /** The draft, one event and one notice are put in front, history is cut at 500, and learning is kept. */
  lemma CreationInPlainTerms(s: Snapshot, input: CreateInput, newId: string, now: int, rulesOf: string -> seq<Rule>)
    ensures
      var made := Create(s, input, newId, now, rulesOf);
      made.CreatedRecord? ==>
        && IsDraft(made.automation, input, newId, now, rulesOf)
        && Find(made.snapshot.automations, newId) == Some(made.automation)
        && |made.snapshot.history| == (if |s.history| < 500 then |s.history| + 1 else 500)
        && made.snapshot.history[0] == HistoryEvent(newId, Created, now)
        && (forall i | 1 <= i < |made.snapshot.history| :: made.snapshot.history[i] == s.history[i - 1])
        && made.snapshot.notifications == [Notification(newId, AutomationCreated, now)] + s.notifications
        && made.snapshot.learning == s.learning
  {
    TemplateIsChosen(s.learning, input);
  }

  // ----- Which operations a sync prepares -----

  predicate Eligible(status: OperationStatus) {
    || status == OpApproved || status == InProgress || status == Verification
    || status == Completed || status == OpVerified
  }

  predicate HasAutomation(snapshots: Snapshots, op: StoreOperation) {
    && op.storeId in snapshots
    && exists i | 0 <= i < |snapshots[op.storeId].automations| ::
         && snapshots[op.storeId].automations[i].key == Key(Operation, op.id, op.inferred)
         && snapshots[op.storeId].automations[i].status != Archived
  }

  /** The sync made one draft, for the operation, in its store alone. */
  predicate MadeFor(
    snapshots: Snapshots, st: SyncState, op: StoreOperation, newId: string, now: int, rulesOf: string -> seq<Rule>)
  {
    && st.error == None && |st.created| == 1 && op.storeId in st.snapshots
    && st.created[0].id == newId && st.created[0].status == Draft
    && st.created[0].key == Key(Operation, op.id, op.inferred) && st.created[0].rules == rulesOf(op.inferred)
    && Find(st.snapshots[op.storeId].automations, newId) == Some(st.created[0])
    && (forall storeId | storeId in st.snapshots && storeId != op.storeId ::
          storeId in snapshots && st.snapshots[storeId] == snapshots[storeId])
    && (forall storeId | storeId in snapshots :: storeId in st.snapshots)
  }

  /** A sync of one operation, in every case. */
  lemma LoneOperation(
    snapshots: Snapshots, op: StoreOperation, ids: nat -> string, now: int, rulesOf: string -> seq<Rule>)
    ensures
      var st := Sync(snapshots, [op], ids, now, rulesOf);
      var ready := Eligible(op.status) && !Blank(op.storeId) && !Blank(op.id);
      && (ready && !HasAutomation(snapshots, op) ==> MadeFor(snapshots, st, op, ids(0), now, rulesOf))
      && (ready && HasAutomation(snapshots, op) ==> st == SyncState(snapshots, [], None))
      && (!Eligible(op.status) ==> st == SyncState(snapshots, [], None))
      && (Eligible(op.status) && Blank(op.storeId) ==> st == SyncState(snapshots, [], Some(MissingStore)))
      && (Eligible(op.status) && !Blank(op.storeId) && Blank(op.id) ==>
            st == SyncState(snapshots, [], Some(MissingSource)))
  {
    LoneIsOne(snapshots, op, ids, now, rulesOf);
    TitleIsLong(op);
    CreationIsRefusedIff(SnapshotOf(snapshots, op.storeId), InputFor(op), ids(0), now, rulesOf);
    CreationInPlainTerms(SnapshotOf(snapshots, op.storeId), InputFor(op), ids(0), now, rulesOf);
    assert HasAutomation(snapshots, op) <==> Taken(SnapshotOf(snapshots, op.storeId), InputFor(op));
  }

  /** A sync is its operations synced one by one: each adds to what is saved and to what is listed. */
  lemma SyncIsOneByOne(
    snapshots: Snapshots, ops: seq<StoreOperation>, op: StoreOperation, ids: nat -> string, now: int,
    rulesOf: string -> seq<Rule>)
    requires Sync(snapshots, ops, ids, now, rulesOf).error.None?
    ensures
      var before := Sync(snapshots, ops, ids, now, rulesOf);
      var lone := Sync(before.snapshots, [op], (i: nat) => ids(|ops| + i), now, rulesOf);
      Sync(snapshots, ops + [op], ids, now, rulesOf) ==
      SyncState(lone.snapshots, before.created + lone.created, lone.error)
  {
    var before := Sync(snapshots, ops, ids, now, rulesOf);
    assert (ops + [op])[..|ops|] == ops;
    LoneIsOne(before.snapshots, op, (i: nat) => ids(|ops| + i), now, rulesOf);
    OneIsAdded(before, op, ids(|ops|), now, rulesOf);
  }

  lemma LoneIsOne(snapshots: Snapshots, op: StoreOperation, ids: nat -> string, now: int, rulesOf: string -> seq<Rule>)
    ensures Sync(snapshots, [op], ids, now, rulesOf) ==
      SyncOne(SyncState(snapshots, [], None), op, ids(0), now, rulesOf)
  {
    assert [op][..0] == [];
  }

  lemma OneIsAdded(st: SyncState, op: StoreOperation, newId: string, now: int, rulesOf: string -> seq<Rule>)
    requires st.error == None
    ensures
      var lone := SyncOne(SyncState(st.snapshots, [], None), op, newId, now, rulesOf);
      SyncOne(st, op, newId, now, rulesOf) == SyncState(lone.snapshots, st.created + lone.created, lone.error)
  {}

  lemma TitleIsLong(op: StoreOperation)
    ensures !Short(InputFor(op).title)
  {
    var title := InputFor(op).title;
    assert title[0] == 'A' && title[8] == ':';
  }
}
