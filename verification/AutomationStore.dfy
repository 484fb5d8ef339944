/** The persisted automation snapshots and the operations that load, change and save them. */
module AutomationStore {
  import opened Common
  import opened AutomationModel
  import opened AutomationInvariants

  type Snapshots = map<string, Snapshot>

  function SnapshotOf(snapshots: Snapshots, storeId: string): Snapshot {
    if storeId in snapshots then snapshots[storeId] else EMPTY_SNAPSHOT
  }

  datatype OperationStatus =
    | Pending | OpApproved | InProgress | Paused | Blocked | Verification | Completed | OpVerified | OpArchived

  /** A store operation; `inferred` is the template its title and category suggest. */
  datatype StoreOperation = StoreOperation(
    id: string, storeId: string, title: string, status: OperationStatus, inferred: string)

  predicate ShouldPrepare(op: StoreOperation) {
    op.status in {OpApproved, InProgress, Verification, Completed, OpVerified}
  }

  function InputFor(op: StoreOperation): CreateInput {
    CreateInput(op.storeId, "Automate: " + op.title, Operation, op.id, Some(op.inferred), op.inferred)
  }

  function KeyFor(op: StoreOperation): Key {
    Key(Operation, op.id, op.inferred)
  }

  datatype SyncState = SyncState(snapshots: Snapshots, created: seq<Automation>, error: Option<CreateError>)

  /** One operation of a sync: duplicates are skipped, any other refusal stops the sync. */
  function SyncOne(st: SyncState, op: StoreOperation, newId: string, now: int,
    rulesOf: string -> seq<Rule>): SyncState {
    if !ShouldPrepare(op) then st
    else
      match Create(SnapshotOf(st.snapshots, op.storeId), InputFor(op), newId, now, rulesOf)
      case CreatedRecord(snapshot, a) => SyncState(st.snapshots[op.storeId := snapshot], st.created + [a], None)
      case NotCreated(error) => if error == Duplicate then st else st.(error := Some(error))
  }

  function Sync(snapshots: Snapshots, ops: seq<StoreOperation>, ids: nat -> string, now: int,
    rulesOf: string -> seq<Rule>): SyncState {
    if ops == [] then SyncState(snapshots, [], None)
    else
      var n := |ops| - 1;
      var before := Sync(snapshots, ops[..n], ids, now, rulesOf);
      if before.error.Some? then before else SyncOne(before, ops[n], ids(n), now, rulesOf)
  }

  class AutomationPersistence {
    var snapshots: Snapshots

    constructor ()
      ensures snapshots == map[]
    {
      snapshots := map[];
    }

    /** The loaded automation after the requested move, guard by guard. */
    method MoveAutomation(automation: Automation, request: Request, now: int, executor: Option<string>)
      returns (change: Change)
      ensures change == Moves(automation, request, now, executor)
    {
      if request.to !in AllowedFrom(automation.status) {
        return Refused(InvalidTransition);
      }
      var updated := automation.(status := request.to, timeline := automation.timeline[request.to := now]);
      if request.to == Approved {
        if automation.status != WaitingApproval && automation.status != Approved {
          return Refused(NotReadyForApproval);
        }
        updated := updated.(merchantApproved := true, merchantRejected := false, changeRequestNote := None);
      }
      if request.to == Cancelled {
        updated := updated.(merchantRejected := request.rejected, changeRequestNote := request.note,
          merchantApproved := false);
      }
      if request.to == Prepared && request.note.Some? && request.note.value != "" {
        updated := updated.(changeRequestNote := request.note, merchantApproved := false);
      }
      if request.to == Executing {
        if !automation.merchantApproved {
          return Refused(ApprovalRequired);
        }
        if automation.status != Approved {
          return Refused(NotApproved);
        }
      }
      if request.to == Executed {
        if !updated.merchantApproved {
          return Refused(ApprovalRequired);
        }
        if executor.None? {
          return Refused(ExecutionFailed);
        }
        updated := updated.(executionResult := executor);
      }
      if request.to == Verifying {
        updated := ApplySignals(updated, request.metrics);
      }
      if request.to == Verified {
        updated := ApplySignals(updated, request.metrics);
        if updated.rules == [] {
          return Refused(MissingRules);
        }
        if !AllSatisfied(updated.rules) {
          return Refused(NotSatisfied);
        }
      }
      return Change(updated);
    }

    /** What the learning profile takes from the move. */
    method LearnFrom(learned: Learning, updated: Automation, request: Request) returns (learning: Learning)
      ensures learning == LessonsOf(learned, updated, request)
    {
      learning := learned;
      if request.to == Approved {
        learning := UpdateLearning(learning, updated.key.templateId, LearnApproved);
      }
      if request.to == Cancelled && request.rejected {
        learning := UpdateLearning(learning, updated.key.templateId, LearnRejected);
      }
      if request.to == Verified {
        learning := UpdateLearning(learning, updated.key.templateId, LearnVerified);
      }
    }

    method TransitionAutomation(storeId: string, id: string, request: Request, now: int, executor: Option<string>)
      returns (result: TransitionResult)
      modifies this
      ensures result == Transition(SnapshotOf(old(snapshots), storeId), id, request, now, executor)
      ensures snapshots == if result.Done? then old(snapshots)[storeId := result.snapshot] else old(snapshots)
    {
      var snapshot := SnapshotOf(snapshots, storeId);
      var found := Find(snapshot.automations, id);
      if found.None? {
        return Failed(NotFound);
      }
      var change := MoveAutomation(found.value, request, now, executor);
      if change.Refused? {
        return Failed(change.error);
      }
      var updated := change.automation;
      var history := AppendHistory(snapshot.history, HistoryEvent(id, Moved(request.to), now));
      var notifications := snapshot.notifications;
      var kind := NotificationFor(updated);
      if kind.Some? {
        notifications := [Notification(id, kind.value, now)] + notifications;
      }
      var learning := LearnFrom(snapshot.learning, updated, request);
      snapshot := Snapshot(Upsert(snapshot.automations, updated), history, notifications, learning);
      snapshots := snapshots[storeId := snapshot];
      return Done(snapshot, updated);
    }

    method CreateAutomationRecordForStore(input: CreateInput, newId: string, now: int, rulesOf: string -> seq<Rule>)
      returns (result: CreateResult)
      modifies this
      ensures result == Create(SnapshotOf(old(snapshots), input.storeId), input, newId, now, rulesOf)
      ensures snapshots ==
        if result.CreatedRecord? then old(snapshots)[input.storeId := result.snapshot] else old(snapshots)
    {
      result := Create(SnapshotOf(snapshots, input.storeId), input, newId, now, rulesOf);
      if result.CreatedRecord? {
        snapshots := snapshots[input.storeId := result.snapshot];
      }
    }

    method SyncAutomationsFromOperations(ops: seq<StoreOperation>, ids: nat -> string, now: int,
      rulesOf: string -> seq<Rule>)
      returns (created: seq<Automation>, error: Option<CreateError>)
      modifies this
      ensures SyncState(snapshots, created, error) == Sync(old(snapshots), ops, ids, now, rulesOf)
    {
      created := [];
      error := None;
      var n := 0;
      while n < |ops|
        invariant n <= |ops|
        invariant error == None
        invariant SyncState(snapshots, created, None) == Sync(old(snapshots), ops[..n], ids, now, rulesOf)
      {
        ghost var before := SyncState(snapshots, created, None);
        if ShouldPrepare(ops[n]) {
          var result := CreateAutomationRecordForStore(InputFor(ops[n]), ids(n), now, rulesOf);
          if result.CreatedRecord? {
            created := created + [result.automation];
          } else if result.error != Duplicate {
            error := Some(result.error);
          }
        }
        SyncStep(old(snapshots), ops, ids, now, rulesOf, n);
        assert SyncState(snapshots, created, error) == SyncOne(before, ops[n], ids(n), now, rulesOf);
        if error.Some? {
          SyncStopsAtError(old(snapshots), ops, ids, now, rulesOf, n + 1);
          return;
        }
        n := n + 1;
      }
      assert ops[..n] == ops;
    }

    /** The metrics a verification uses when the caller gives none: every rule's metric, on. */
    method DefaultVerificationMetrics(storeId: string, id: string) returns (metrics: Signals)
      ensures
        var found := Find(SnapshotOf(snapshots, storeId).automations, id);
        metrics == if found.Some? then DefaultMetrics(found.value.rules) else map[]
    {
      metrics := map[];
      var found := Find(SnapshotOf(snapshots, storeId).automations, id);
      if found.Some? {
        var rules := found.value.rules;
        for i := 0 to |rules|
          invariant metrics == DefaultMetrics(rules[..i])
        {
          assert rules[..i + 1][..i] == rules[..i];
          metrics := metrics[rules[i].metric := Flag(true)];
        }
        assert rules[..|rules|] == rules;
      }
    }
  }

  lemma SyncStep(snapshots: Snapshots, ops: seq<StoreOperation>, ids: nat -> string, now: int,
    rulesOf: string -> seq<Rule>, n: nat)
    requires n < |ops| && Sync(snapshots, ops[..n], ids, now, rulesOf).error.None?
    ensures Sync(snapshots, ops[..n + 1], ids, now, rulesOf) ==
      SyncOne(Sync(snapshots, ops[..n], ids, now, rulesOf), ops[n], ids(n), now, rulesOf)
  {
    assert ops[..n + 1][..n] == ops[..n];
  }

  lemma {:induction false} SyncStopsAtError(
    snapshots: Snapshots, ops: seq<StoreOperation>, ids: nat -> string, now: int, rulesOf: string -> seq<Rule>, n: nat)
    requires n <= |ops|
    requires Sync(snapshots, ops[..n], ids, now, rulesOf).error.Some?
    ensures Sync(snapshots, ops, ids, now, rulesOf) == Sync(snapshots, ops[..n], ids, now, rulesOf)
  {
    if n < |ops| {
      var before := ops[..|ops| - 1];
      assert before[..n] == ops[..n];
      SyncStopsAtError(snapshots, before, ids, now, rulesOf, n);
    } else {
      assert ops[..n] == ops;
    }
  }

  // ----- What a sync guarantees -----

  ghost predicate AllInv(snapshots: Snapshots, clock: int) {
    forall storeId | storeId in snapshots :: SnapshotInv(snapshots[storeId], clock)
  }

  /** Random ids: none is in use, and no two are alike. */
  ghost predicate FreshIds(snapshots: Snapshots, ids: nat -> string, n: nat) {
    && (forall storeId, i: nat | storeId in snapshots && i < n :: FreshId(snapshots[storeId], ids(i)))
    && (forall i: nat, j: nat | i < j < n :: ids(i) != ids(j))
  }

  /** The operation's store and id are not blank. */
  predicate ValidOperation(op: StoreOperation) {
    Trim(op.storeId) != "" && Trim(op.id) != ""
  }

  lemma {:induction false} TrimRightKeeps(s: string, k: nat)
    requires k < |s| && !IsSpace(s[k])
    ensures |TrimRight(s)| > k
  {
    if IsSpace(s[|s| - 1]) {
      TrimRightKeeps(s[..|s| - 1], k);
    }
  }

  lemma InputIsValidIff(op: StoreOperation)
    ensures InputError(InputFor(op)) == None <==> ValidOperation(op)
  {
    var title := "Automate: " + op.title;
    assert title[0] == 'A' && title[8] == ':';
    assert TrimLeft(title) == title;
    TrimRightKeeps(title, 8);
  }

  predicate ExactlyOneLive(items: seq<Automation>, key: Key) {
    exists i :: 0 <= i < |items| && items[i].key == key && Live(items[i]) &&
      forall j | 0 <= j < |items| && items[j].key == key && Live(items[j]) :: j == i
  }

  lemma LiveIsUnique(s: Snapshot, clock: int, key: Key)
    requires SnapshotInv(s, clock) && HasLive(s.automations, key)
    ensures ExactlyOneLive(s.automations, key)
  {
    var i :| 0 <= i < |s.automations| && s.automations[i].key == key && s.automations[i].status != Archived;
    forall j | 0 <= j < |s.automations| && s.automations[j].key == key && Live(s.automations[j])
      ensures j == i
    {
      assert s.automations[i] in s.automations && s.automations[j] in s.automations;
    }
  }

  lemma CreateKeepsLive(s: Snapshot, input: CreateInput, newId: string, now: int, rulesOf: string -> seq<Rule>,
    key: Key)
    requires DistinctIds(s.automations) && FreshId(s, newId)
    requires Create(s, input, newId, now, rulesOf).CreatedRecord?
    ensures
      var result := Create(s, input, newId, now, rulesOf);
      && (HasLive(s.automations, key) ==> HasLive(result.snapshot.automations, key))
      && HasLive(result.snapshot.automations, result.automation.key)
      && (forall id | id != newId && FreshId(s, id) :: FreshId(result.snapshot, id))
  {
    var result := Create(s, input, newId, now, rulesOf);
    UpsertSpec(s.automations, result.automation);
    assert result.snapshot.automations[0] == result.automation;
    if HasLive(s.automations, key) {
      var i :| 0 <= i < |s.automations| && s.automations[i].key == key && s.automations[i].status != Archived;
      assert s.automations[i] in result.snapshot.automations;
    }
  }

  /** What holds after a prefix of a sync without errors. */
  ghost predicate SyncInv(st: SyncState, ops: seq<StoreOperation>, ids: nat -> string, total: nat, now: int) {
    && st.error == None
    && AllInv(st.snapshots, now)
    && (forall storeId, i: nat | storeId in st.snapshots && |ops| <= i < total ::
      FreshId(st.snapshots[storeId], ids(i)))
    && (forall i | 0 <= i < |ops| && ShouldPrepare(ops[i]) ::
          HasLive(SnapshotOf(st.snapshots, ops[i].storeId).automations, KeyFor(ops[i])))
  }

  lemma EmptySnapshotInv(clock: int)
    ensures SnapshotInv(EMPTY_SNAPSHOT, clock)
  {}

  lemma SyncOneKeepsInv(st: SyncState, ops: seq<StoreOperation>, op: StoreOperation, ids: nat -> string, total: nat,
    now: int, rulesOf: string -> seq<Rule>)
    requires SyncInv(st, ops, ids, total, now) && |ops| < total && ValidOperation(op)
    requires forall i: nat, j: nat | i < j < total :: ids(i) != ids(j)
    ensures SyncInv(SyncOne(st, op, ids(|ops|), now, rulesOf), ops + [op], ids, total, now)
  {
    if ShouldPrepare(op) {
      EmptySnapshotInv(now);
      InputIsValidIff(op);
      var s := SnapshotOf(st.snapshots, op.storeId);
      assert SnapshotInv(s, now) && FreshId(s, ids(|ops|));
      var result := Create(s, InputFor(op), ids(|ops|), now, rulesOf);
      if result.CreatedRecord? {
        CreatedOneKeepsInv(st, ops, op, ids, total, now, rulesOf, result.snapshot, result.automation);
      }
    }
  }

  /** What one creation of a sync leaves: the invariant, the operation's automation alive, and what
      was alive before still alive. */
  ghost predicate CreatedFor(s: Snapshot, s': Snapshot, op: StoreOperation, newId: string, now: int) {
    && SnapshotInv(s', now)
    && HasLive(s'.automations, KeyFor(op))
    && (forall key | HasLive(s.automations, key) :: HasLive(s'.automations, key))
    && (forall id | id != newId && FreshId(s, id) :: FreshId(s', id))
  }

  lemma CreationForOperation(s: Snapshot, op: StoreOperation, newId: string, now: int, rulesOf: string -> seq<Rule>)
    requires SnapshotInv(s, now) && FreshId(s, newId)
    requires Create(s, InputFor(op), newId, now, rulesOf).CreatedRecord?
    ensures CreatedFor(s, Create(s, InputFor(op), newId, now, rulesOf).snapshot, op, newId, now)
  {
    var result := Create(s, InputFor(op), newId, now, rulesOf);
    CreateKeepsInv(s, InputFor(op), newId, now, now, rulesOf);
    assert result.automation.key == KeyFor(op);
    CreateKeepsLive(s, InputFor(op), newId, now, rulesOf, KeyFor(op));
    forall key | HasLive(s.automations, key) ensures HasLive(result.snapshot.automations, key) {
      CreateKeepsLive(s, InputFor(op), newId, now, rulesOf, key);
    }
  }

  lemma CreatedOneKeepsInv(
    st: SyncState, ops: seq<StoreOperation>, op: StoreOperation, ids: nat -> string, total: nat, now: int,
    rulesOf: string -> seq<Rule>,
    s': Snapshot, a: Automation)
    requires SyncInv(st, ops, ids, total, now) && |ops| < total && ShouldPrepare(op)
    requires forall i: nat, j: nat | i < j < total :: ids(i) != ids(j)
    requires SnapshotInv(SnapshotOf(st.snapshots, op.storeId), now) &&
      FreshId(SnapshotOf(st.snapshots, op.storeId), ids(|ops|))
    requires Create(SnapshotOf(st.snapshots, op.storeId), InputFor(op), ids(|ops|), now, rulesOf) ==
      CreatedRecord(s', a)
    ensures SyncInv(SyncState(st.snapshots[op.storeId := s'], st.created + [a], None), ops + [op], ids, total, now)
  {
    CreationForOperation(SnapshotOf(st.snapshots, op.storeId), op, ids(|ops|), now, rulesOf);
    SavedKeepsInv(st, ops, op, ids, total, now, s', a);
  }

  lemma SavedKeepsInv(
    st: SyncState, ops: seq<StoreOperation>, op: StoreOperation, ids: nat -> string, total: nat, now: int,
    s': Snapshot, a: Automation)
    requires SyncInv(st, ops, ids, total, now) && |ops| < total && ShouldPrepare(op)
    requires forall i: nat, j: nat | i < j < total :: ids(i) != ids(j)
    requires CreatedFor(SnapshotOf(st.snapshots, op.storeId), s', op, ids(|ops|), now)
    ensures SyncInv(SyncState(st.snapshots[op.storeId := s'], st.created + [a], None), ops + [op], ids, total, now)
  {
    var s, snapshots := SnapshotOf(st.snapshots, op.storeId), st.snapshots[op.storeId := s'];
    forall i | 0 <= i < |ops + [op]| && ShouldPrepare((ops + [op])[i])
      ensures HasLive(SnapshotOf(snapshots, (ops + [op])[i].storeId).automations, KeyFor((ops + [op])[i]))
    {
      if i < |ops| {
        assert HasLive(SnapshotOf(st.snapshots, ops[i].storeId).automations, KeyFor(ops[i]));
      }
    }
    forall i: nat | |ops| + 1 <= i < total ensures FreshId(s', ids(i)) {
      assert FreshId(s, ids(i));
    }
  }

  /** A sync whose eligible operations are all valid succeeds and leaves exactly one automation
      that is not archived for each of them. */
  lemma {:induction false} SyncLeavesOneEach(
    snapshots: Snapshots, ops: seq<StoreOperation>, ids: nat -> string, total: nat, now: int,
    rulesOf: string -> seq<Rule>)
    requires AllInv(snapshots, now) && |ops| <= total && FreshIds(snapshots, ids, total)
    requires forall i | 0 <= i < |ops| && ShouldPrepare(ops[i]) :: ValidOperation(ops[i])
    ensures SyncInv(Sync(snapshots, ops, ids, now, rulesOf), ops, ids, total, now)
    ensures forall i | 0 <= i < |ops| && ShouldPrepare(ops[i]) ::
      ExactlyOneLive(SnapshotOf(Sync(snapshots, ops, ids, now, rulesOf).snapshots, ops[i].storeId).automations,
        KeyFor(ops[i]))
  {
    var st := Sync(snapshots, ops, ids, now, rulesOf);
    if ops != [] {
      var n := |ops| - 1;
      SyncLeavesOneEach(snapshots, ops[..n], ids, total, now, rulesOf);
      var before := Sync(snapshots, ops[..n], ids, now, rulesOf);
      assert ops[..n] + [ops[n]] == ops;
      if ShouldPrepare(ops[n]) {
        SyncOneKeepsInv(before, ops[..n], ops[n], ids, total, now, rulesOf);
      }
    }
    EachIsUnique(st, ops, ids, total, now);
  }

  lemma EachIsUnique(st: SyncState, ops: seq<StoreOperation>, ids: nat -> string, total: nat, now: int)
    requires SyncInv(st, ops, ids, total, now)
    ensures forall i | 0 <= i < |ops| && ShouldPrepare(ops[i]) ::
      ExactlyOneLive(SnapshotOf(st.snapshots, ops[i].storeId).automations, KeyFor(ops[i]))
  {
    EmptySnapshotInv(now);
    forall i | 0 <= i < |ops| && ShouldPrepare(ops[i])
      ensures ExactlyOneLive(SnapshotOf(st.snapshots, ops[i].storeId).automations, KeyFor(ops[i]))
    {
      LiveIsUnique(SnapshotOf(st.snapshots, ops[i].storeId), now, KeyFor(ops[i]));
    }
  }

  /** Running the same sync again, with any ids and at any time, creates and changes nothing. */
  lemma {:induction false} SyncAgainCreatesNothing(
    snapshots: Snapshots, ops: seq<StoreOperation>, ids: nat -> string, now: int, rulesOf: string -> seq<Rule>)
    requires forall i | 0 <= i < |ops| && ShouldPrepare(ops[i]) :: ValidOperation(ops[i])
    requires forall i | 0 <= i < |ops| && ShouldPrepare(ops[i]) ::
      HasLive(SnapshotOf(snapshots, ops[i].storeId).automations, KeyFor(ops[i]))
    ensures Sync(snapshots, ops, ids, now, rulesOf) == SyncState(snapshots, [], None)
  {
    if ops != [] {
      var n := |ops| - 1;
      SyncAgainCreatesNothing(snapshots, ops[..n], ids, now, rulesOf);
      InputIsValidIff(ops[n]);
    }
  }

  /** A sync stops with an error exactly when some eligible operation has a blank store or id. */
  lemma {:induction false} SyncFailsIff(
    snapshots: Snapshots, ops: seq<StoreOperation>, ids: nat -> string, now: int, rulesOf: string -> seq<Rule>)
    ensures Sync(snapshots, ops, ids, now, rulesOf).error.Some? <==>
      exists i | 0 <= i < |ops| :: ShouldPrepare(ops[i]) && !ValidOperation(ops[i])
  {
    if ops != [] {
      var n := |ops| - 1;
      SyncFailsIff(snapshots, ops[..n], ids, now, rulesOf);
      InputIsValidIff(ops[n]);
      assert forall i | 0 <= i < |ops| :: i == n || ops[i] == ops[..n][i];
    }
  }
}
