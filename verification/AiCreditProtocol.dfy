/** Concurrent debits of the shared AI budget as interleaved steps of serializable transactions.

    Each transaction reads the committed rows as of its own start (rows that do not exist
    included) and installs a value computed from that snapshot when it commits. Row locks are
    left out, which only allows more interleavings. Of serializability this model uses no more
    than its smallest consequence: the database never lets two concurrent transactions both
    commit when each of them read a row that the other one wrote. */
module AiCreditProtocol {
  import opened JsNumbers
  import opened AiCreditLedger

  datatype Phase =
    | Waiting(attempt: nat)
    | Running(attempt: nat, snapshot: Rows, since: nat)  // `since`: number of debits committed at its start
    | Done(result: DebitResult)

  datatype Call = Call(args: DebitArgs, phase: Phase)

  /** A committed writing transaction: what it read and the row it wrote. */
  datatype Commit = Commit(readSet: set<Key>, key: Key)

  datatype State = State(rows: Rows, log: seq<Commit>, calls: seq<Call>)

  datatype Event =
    | Invoke(args: DebitArgs)
    | Begin(id: nat)
    | TryCommit(id: nat)
    | Serialization(id: nat)  // the database aborts the attempt with a serialization failure
    | Failure(id: nat)        // any other database error ends the call
    | Record(storeId: string, metric: Metric, value: JsNumber, month: string)

  function Initial(rows: Rows): State {
    State(rows, [], [])
  }

  predicate IsRunning(s: State, id: nat) {
    id < |s.calls| && s.calls[id].phase.Running?
  }

  /** Some debit that committed after this one started wrote what this one read, and read the
      row this one is about to write. */
  predicate Conflicts(s: State, id: nat)
    requires IsRunning(s, id)
  {
    var call := s.calls[id];
    exists i | 0 <= i < |s.log| ::
      && call.phase.since <= i
      && s.log[i].key in call.args.ReadSet()
      && call.args.TargetKey() in s.log[i].readSet
  }

  function SetPhase(s: State, id: nat, phase: Phase): State
    requires id < |s.calls|
  {
    s.(calls := s.calls[id := s.calls[id].(phase := phase)])
  }

  /** The end of an attempt whose transaction the database lets commit. A writer in conflict
      does not get this far: its attempt stays open until it is aborted. */
  function CommitStep(s: State, id: nat): State
    requires IsRunning(s, id)
  {
    var call := s.calls[id];
    match Decide(call.args, call.phase.snapshot)
    case Refuse => SetPhase(s, id, Done(NotOk(BudgetExceeded)))
    case WriteFails => SetPhase(s, id, Done(NotOk(UsageMissing)))
    case Write(newValue) =>
      if Conflicts(s, id) then s
      else
        SetPhase(s, id, Done(Ok(newValue))).(
          rows := s.rows[call.args.TargetKey() := newValue],
          log := s.log + [Commit(call.args.ReadSet(), call.args.TargetKey())])
  }

  /** One step; an event that does not apply leaves the state alone. */
  function Step(s: State, e: Event): State {
    match e
    case Invoke(args) =>
      if !IsAiMetric(args.target) then s
      else
        var phase := if args.Accepted() then Waiting(0) else Done(NotOk(UsageMissing));
        s.(calls := s.calls + [Call(args, phase)])
    case Begin(id) =>
      if id < |s.calls| && s.calls[id].phase.Waiting?
      then SetPhase(s, id, Running(s.calls[id].phase.attempt, s.rows, |s.log|))
      else s
    case TryCommit(id) =>
      if IsRunning(s, id) then CommitStep(s, id) else s
    case Serialization(id) =>
      if IsRunning(s, id) then
        var attempt := s.calls[id].phase.attempt;
        SetPhase(s, id, if attempt + 1 < MAX_ATTEMPTS then Waiting(attempt + 1) else Done(NotOk(UsageMissing)))
      else s
    case Failure(id) =>
      if IsRunning(s, id) then SetPhase(s, id, Done(NotOk(UsageMissing))) else s
    case Record(storeId, metric, value, month) =>
      s.(rows := AfterRecord(s.rows, storeId, metric, value, month))
  }

  function Run(rows: Rows, events: seq<Event>): State {
    if events == [] then Initial(rows)
    else Step(Run(rows, events[..|events| - 1]), events[|events| - 1])
  }

  // ----- What every reachable state satisfies -----

  ghost predicate SameAt(a: Rows, b: Rows, key: Key) {
    (key in a <==> key in b) && ValueOf(a, key) == ValueOf(b, key)
  }

  /** An AI row differs from a running transaction's snapshot only if a debit that committed
      since then wrote it. */
  ghost predicate SnapshotTracked(s: State, phase: Phase)
    requires phase.Running?
  {
    && phase.since <= |s.log|
    && forall key: Key | IsAiMetric(key.metric) && !SameAt(phase.snapshot, s.rows, key) ::
         exists i | phase.since <= i < |s.log| :: s.log[i].key == key
  }

  ghost predicate CallWellFormed(s: State, call: Call) {
    && IsAiMetric(call.args.target)
    && (!call.phase.Done? ==> call.args.Accepted() && call.phase.attempt < MAX_ATTEMPTS)
    && (call.phase.Running? ==> SnapshotTracked(s, call.phase))
  }

  ghost predicate Inv(s: State) {
    && (forall c | 0 <= c < |s.calls| :: CallWellFormed(s, s.calls[c]))
    && (forall i | 0 <= i < |s.log| ::
          && IsAiMetric(s.log[i].key.metric)
          && s.log[i].readSet == AiKeys(s.log[i].key.storeId, s.log[i].key.month))
  }

  /** The conflict check refuses exactly the writers one of whose two rows was written by a
      debit that committed after they started. */
  lemma ConflictIffOverwritten(s: State, id: nat)
    requires Inv(s) && IsRunning(s, id)
    ensures Conflicts(s, id) <==>
      exists i | 0 <= i < |s.log| ::
        s.calls[id].phase.since <= i && s.log[i].key in s.calls[id].args.ReadSet()
  {}

  /** A writer that commits decided on the rows that are committed at that moment. */
  lemma CommitsAreFresh(s: State, id: nat)
    requires Inv(s) && IsRunning(s, id) && !Conflicts(s, id)
    ensures forall key | key in s.calls[id].args.ReadSet() :: SameAt(s.calls[id].phase.snapshot, s.rows, key)
  {}

  lemma StepKeepsInv(s: State, e: Event)
    requires Inv(s)
    ensures Inv(Step(s, e))
  {
    forall c | 0 <= c < |Step(s, e).calls| ensures CallWellFormed(Step(s, e), Step(s, e).calls[c]) {
      StepKeepsCall(s, e, c);
    }
  }

  lemma StepKeepsCall(s: State, e: Event, c: nat)
    requires Inv(s) && c < |Step(s, e).calls|
    ensures CallWellFormed(Step(s, e), Step(s, e).calls[c])
  {
    if c < |s.calls| {
      assert CallWellFormed(s, s.calls[c]);
      if s.calls[c].phase.Running? {
        StepKeepsTracking(s, e, s.calls[c].phase);
      }
    }
  }

  lemma StepKeepsTracking(s: State, e: Event, phase: Phase)
    requires phase.Running? && SnapshotTracked(s, phase)
    ensures SnapshotTracked(Step(s, e), phase)
  {
    var s' := Step(s, e);
    assert s.log <= s'.log;
    forall key: Key | IsAiMetric(key.metric) && !SameAt(phase.snapshot, s'.rows, key)
      ensures exists i | phase.since <= i < |s'.log| :: s'.log[i].key == key
    {
      if !SameAt(phase.snapshot, s.rows, key) {
        var i :| phase.since <= i < |s.log| && s.log[i].key == key;
        assert s'.log[i].key == key;
      } else {
        assert !SameAt(s.rows, s'.rows, key);
        assert s'.log[|s.log|].key == key;
      }
    }
  }

  lemma {:induction false} RunKeepsInv(rows: Rows, events: seq<Event>)
    ensures Inv(Run(rows, events))
  {
    if events != [] {
      RunKeepsInv(rows, events[..|events| - 1]);
      StepKeepsInv(Run(rows, events[..|events| - 1]), events[|events| - 1]);
    }
  }

  // ----- Safety -----

  /** Call `c` reports success in `s'` and did not in `s`. */
  ghost predicate NewlyOk(s: State, s': State, c: nat) {
    && c < |s'.calls|
    && s'.calls[c].phase.Done? && s'.calls[c].phase.result.Ok?
    && !(c < |s.calls| && s.calls[c].phase.Done? && s.calls[c].phase.result.Ok?)
  }

  /** Committing a debit is the same as running it alone, at that moment, on the committed rows. */
  ghost predicate SerialDebit(s: State, s': State, args: DebitArgs, result: DebitResult) {
    && result.Ok?
    && Decide(args, s.rows) == Write(result.newValue)
    && s'.rows == s.rows[args.TargetKey() := result.newValue]
    && SharedUsed(s'.rows, args.storeId, args.month) <= args.Limit()
  }

  lemma StepIsSerial(s: State, e: Event, c: nat)
    requires Inv(s) && NewlyOk(s, Step(s, e), c)
    ensures
      var s' := Step(s, e);
      SerialDebit(s, s', s'.calls[c].args, s'.calls[c].phase.result)
  {
    assert e == TryCommit(c);
    var args := s.calls[c].args;
    CommitsAreFresh(s, c);
    assert CallWellFormed(s, s.calls[c]);
    assert args.TargetKey() in args.ReadSet();
    SharedUsedOfSame(s.calls[c].phase.snapshot, s.rows, args);
    WrittenDebitFits(args, s.rows);
  }

  lemma SharedUsedOfSame(a: Rows, b: Rows, args: DebitArgs)
    requires forall key | key in args.ReadSet() :: SameAt(a, b, key)
    ensures SharedUsed(a, args.storeId, args.month) == SharedUsed(b, args.storeId, args.month)
  {
    assert SameAt(a, b, Key(args.storeId, args.month, AiRequests));
    assert SameAt(a, b, Key(args.storeId, args.month, ReportsGenerated));
  }

  /** Safety over every interleaving: each debit that succeeds is the debit its transaction
      would make alone on the rows committed at that moment, and leaves the shared sum of its
      store and month within the limit it was given. Missing rows at the start included. */
  lemma CommittedDebitsStayWithinLimit(rows: Rows, events: seq<Event>, n: nat, c: nat)
    requires n < |events|
    requires NewlyOk(Run(rows, events[..n]), Run(rows, events[..n + 1]), c)
    ensures
      var s, s' := Run(rows, events[..n]), Run(rows, events[..n + 1]);
      SerialDebit(s, s', s'.calls[c].args, s'.calls[c].phase.result)
  {
    RunKeepsInv(rows, events[..n]);
    assert events[..n + 1][..n] == events[..n];
    StepIsSerial(Run(rows, events[..n]), events[n], c);
  }

  ghost predicate LimitedBy(events: seq<Event>, storeId: string, month: string, limit: nat) {
    forall i | 0 <= i < |events| && events[i].Invoke? ::
      events[i].args.storeId == storeId && events[i].args.month == month ==> events[i].args.Limit() <= limit
  }

  ghost predicate CallsLimitedBy(calls: seq<Call>, storeId: string, month: string, limit: nat) {
    forall c | 0 <= c < |calls| ::
      calls[c].args.storeId == storeId && calls[c].args.month == month ==> calls[c].args.Limit() <= limit
  }

  lemma {:induction false} CallsCarryTheLimit(rows: Rows, events: seq<Event>, storeId: string, month: string,
    limit: nat)
    requires LimitedBy(events, storeId, month, limit)
    ensures CallsLimitedBy(Run(rows, events).calls, storeId, month, limit)
  {
    if events != [] {
      var n := |events| - 1;
      CallsCarryTheLimit(rows, events[..n], storeId, month, limit);
      StepKeepsArgs(Run(rows, events[..n]), events[n]);
    }
  }

  /** The arguments of a call never change, and a new call has those it was invoked with. */
  lemma StepKeepsArgs(s: State, e: Event)
    ensures
      var calls := Step(s, e).calls;
      && |s.calls| <= |calls|
      && (forall c | 0 <= c < |s.calls| :: calls[c].args == s.calls[c].args)
      && (forall c | |s.calls| <= c < |calls| :: e.Invoke? && calls[c].args == e.args)
  {}

  /** With one limit for every debit of a store and month, no run takes the shared sum past it. */
  lemma {:induction false} SharedSumNeverPassesTheLimit(
    rows: Rows, events: seq<Event>, storeId: string, month: string, limit: nat)
    requires SharedUsed(rows, storeId, month) <= limit
    requires LimitedBy(events, storeId, month, limit)
    ensures SharedUsed(Run(rows, events).rows, storeId, month) <= limit
  {
    if events != [] {
      var before := events[..|events| - 1];
      var e := events[|events| - 1];
      SharedSumNeverPassesTheLimit(rows, before, storeId, month, limit);
      CallsCarryTheLimit(rows, before, storeId, month, limit);
      RunKeepsInv(rows, before);
      var s := Run(rows, before);
      var s' := Step(s, e);
      if e.TryCommit? && NewlyOk(s, s', e.id) {
        StepIsSerial(s, e, e.id);
        assert CallWellFormed(s, s.calls[e.id]);
      }
    }
  }

  // ----- Conservation -----

  predicate Succeeded(call: Call) {
    call.phase.Done? && call.phase.result.Ok?
  }

  predicate SucceededOn(call: Call, key: Key) {
    Succeeded(call) && call.args.TargetKey() == key
  }

  /** What a call has added to a row: its floored increment if it succeeded on that row. */
  function Added(call: Call, key: Key): nat {
    if SucceededOn(call, key) then call.args.Amount() else 0
  }

  function TotalAdded(calls: seq<Call>, key: Key): nat {
    if calls == [] then 0 else TotalAdded(calls[..|calls| - 1], key) + Added(calls[|calls| - 1], key)
  }

  lemma {:induction false} TotalAfterUpdate(calls: seq<Call>, id: nat, call: Call, key: Key)
    requires id < |calls|
    ensures TotalAdded(calls[id := call], key) == TotalAdded(calls, key) - Added(calls[id], key) + Added(call, key)
  {
    var n := |calls| - 1;
    if id == n {
      assert calls[id := call][..n] == calls[..n];
    } else {
      assert calls[id := call][..n] == calls[..n][id := call];
      TotalAfterUpdate(calls[..n], id, call, key);
    }
  }

  lemma TotalAfterInvoke(calls: seq<Call>, call: Call, key: Key)
    ensures TotalAdded(calls + [call], key) == TotalAdded(calls, key) + Added(call, key)
  {}

  /** Conservation over every interleaving: an AI row holds its initial value plus the floored
      increment of each call that reported success on it, once; calls that failed, on whatever
      attempt, and plain usage recording added nothing. A row exists iff it existed at the
      start or some call succeeded on it. */
  lemma {:induction false} DebitsAreConserved(rows: Rows, events: seq<Event>, key: Key)
    requires IsAiMetric(key.metric)
    ensures
      var s := Run(rows, events);
      && ValueOf(s.rows, key) == ValueOf(rows, key) + TotalAdded(s.calls, key)
      && (key in s.rows <==> key in rows || exists c | 0 <= c < |s.calls| :: SucceededOn(s.calls[c], key))
  {
    if events != [] {
      var before := events[..|events| - 1];
      var s, s' := Run(rows, before), Run(rows, events);
      DebitsAreConserved(rows, before, key);
      RunKeepsInv(rows, before);
      StepConserves(s, events[|events| - 1], key);
      if c :| 0 <= c < |s.calls| && SucceededOn(s.calls[c], key) {
        assert SucceededOn(s'.calls[c], key);
      }
    }
  }

  /** `s'` accounts for the AI row like `s` does. */
  ghost predicate SameAccount(s: State, s': State, key: Key) {
    && ValueOf(s'.rows, key) - TotalAdded(s'.calls, key) == ValueOf(s.rows, key) - TotalAdded(s.calls, key)
    && |s.calls| <= |s'.calls|
    && (forall c | 0 <= c < |s.calls| && Succeeded(s.calls[c]) :: s'.calls[c] == s.calls[c])
    && (key in s'.rows ==> key in s.rows || exists c | 0 <= c < |s'.calls| :: SucceededOn(s'.calls[c], key))
    && (key in s.rows ==> key in s'.rows)
    && (forall c | 0 <= c < |s'.calls| && SucceededOn(s'.calls[c], key) && !(c < |s.calls| && Succeeded(s.calls[c])) ::
          key in s'.rows)
  }

  lemma StepConserves(s: State, e: Event, key: Key)
    requires Inv(s) && IsAiMetric(key.metric)
    ensures SameAccount(s, Step(s, e), key)
  {
    var s' := Step(s, e);
    if e.Invoke? {
      if IsAiMetric(e.args.target) {
        TotalAfterInvoke(s.calls, s'.calls[|s.calls|], key);
      }
    } else if e.Record? {
      RecordConserves(s, e, key);
    } else if e.TryCommit? && NewlyOk(s, s', e.id) {
      SuccessConserves(s, e.id, key);
    } else if s' != s {
      UnsuccessfulStep(s, e);
      PhaseChangeConserves(s, e.id, s'.calls[e.id].phase, key);
    }
  }

  lemma RecordConserves(s: State, e: Event, key: Key)
    requires e.Record? && IsAiMetric(key.metric)
    ensures SameAccount(s, Step(s, e), key)
  {}

  lemma UnsuccessfulStep(s: State, e: Event)
    requires !e.Invoke? && !e.Record? && Step(s, e) != s && !NewlyOk(s, Step(s, e), e.id)
    ensures e.id < |s.calls| && !s.calls[e.id].phase.Done? && e.id < |Step(s, e).calls|
    ensures Step(s, e) == SetPhase(s, e.id, Step(s, e).calls[e.id].phase)
    ensures !Succeeded(Step(s, e).calls[e.id])
  {}

  lemma PhaseChangeConserves(s: State, id: nat, phase: Phase, key: Key)
    requires id < |s.calls| && !s.calls[id].phase.Done?
    requires phase.Done? ==> phase.result.NotOk?
    ensures SameAccount(s, SetPhase(s, id, phase), key)
  {
    TotalAfterUpdate(s.calls, id, s.calls[id].(phase := phase), key);
  }

  lemma SuccessConserves(s: State, id: nat, key: Key)
    requires Inv(s) && NewlyOk(s, Step(s, TryCommit(id)), id)
    ensures SameAccount(s, Step(s, TryCommit(id)), key)
  {
    var s' := Step(s, TryCommit(id));
    StepIsSerial(s, TryCommit(id), id);
    var args := s.calls[id].args;
    assert CallWellFormed(s, s.calls[id]);
    WrittenDebitFits(args, s.rows);
    assert s'.calls == s.calls[id := s'.calls[id]];
    TotalAfterUpdate(s.calls, id, s'.calls[id], key);
    if key in s'.rows && key !in s.rows {
      assert SucceededOn(s'.calls[id], key);
    }
  }

  /** A result, once given, is final; and no call is attempted more than three times. */
  lemma {:induction false} ResultsAreFinal(rows: Rows, events: seq<Event>, n: nat, c: nat)
    requires n <= |events|
    requires c < |Run(rows, events[..n]).calls|
    ensures c < |Run(rows, events).calls|
    ensures Run(rows, events[..n]).calls[c].phase.Done? ==>
      Run(rows, events).calls[c] == Run(rows, events[..n]).calls[c]
    ensures !Run(rows, events).calls[c].phase.Done? ==> Run(rows, events).calls[c].phase.attempt < MAX_ATTEMPTS
  {
    RunKeepsInv(rows, events);
    assert forall i | 0 <= i < |Run(rows, events).calls| ::
      CallWellFormed(Run(rows, events), Run(rows, events).calls[i]);
    if n == |events| {
      assert events[..n] == events;
    } else {
      var before := events[..|events| - 1];
      assert before[..n] == events[..n];
      ResultsAreFinal(rows, before, n, c);
    }
  }

  /** A call aborted by a serialization failure on its first or second attempt is tried again; on
      its third it is done, with the usage reported missing; any other failure ends it at once. */
  lemma AbortsAreRetriedTwice(s: State, id: nat)
    requires IsRunning(s, id)
    ensures s.calls[id].phase.attempt == 0 ==> Step(s, Serialization(id)).calls[id].phase == Waiting(1)
    ensures s.calls[id].phase.attempt == 1 ==> Step(s, Serialization(id)).calls[id].phase == Waiting(2)
    ensures s.calls[id].phase.attempt == 2 ==> Step(s, Serialization(id)).calls[id].phase == Done(NotOk(UsageMissing))
    ensures Step(s, Failure(id)).calls[id].phase == Done(NotOk(UsageMissing))
    ensures Step(s, Serialization(id)).rows == s.rows && Step(s, Failure(id)).rows == s.rows
  {}

  /** A call that runs undisturbed is done at its first attempt, as its decision on the committed
      rows says. */
  lemma LoneDebitIsDecidedAtOnce(s: State, args: DebitArgs)
    requires IsAiMetric(args.target)
    ensures
      var c := |s.calls|;
      var after := Step(Step(Step(s, Invoke(args)), Begin(c)), TryCommit(c));
      && |after.calls| == c + 1 && after.calls[c].args == args
      && (!args.Accepted() ==> after.calls[c].phase == Done(NotOk(UsageMissing)) && after.rows == s.rows)
      && (args.Accepted() ==>
            match Decide(args, s.rows)
            case Refuse => after.calls[c].phase == Done(NotOk(BudgetExceeded)) && after.rows == s.rows
            case WriteFails => after.calls[c].phase == Done(NotOk(UsageMissing)) && after.rows == s.rows
            case Write(v) => after.calls[c].phase == Done(Ok(v)) && after.rows == s.rows[args.TargetKey() := v])
  {
    var s1 := Step(s, Invoke(args));
    var s2 := Step(s1, Begin(|s.calls|));
    if args.Accepted() {
      assert s2.calls[|s.calls|].phase == Running(0, s.rows, |s.log|);
    }
  }

  /** The write skew the conflict check is there for: with both rows missing and one credit
      left, two debits of different counters both read "nothing used" and would both be within
      the limit; once the first has committed, the second is in conflict. */
  lemma WriteSkewIsRefused(first: DebitArgs, second: DebitArgs, rows: Rows, s: State)
    requires first.target == AiRequests && second.target == ReportsGenerated
    requires first.storeId == second.storeId && first.month == second.month
    requires first.TargetKey() !in rows && second.TargetKey() !in rows
    requires first.increment == second.increment == Finite(1.0)
    requires first.Limit() == second.Limit() == 1
    requires s == State(rows, [], [Call(first, Running(0, rows, 0)), Call(second, Running(0, rows, 0))])
    ensures Decide(first, rows) == Decide(second, rows) == Write(1)
    ensures !Conflicts(s, 0) && !Conflicts(s, 1)
    ensures IsRunning(Step(s, TryCommit(0)), 1) && Conflicts(Step(s, TryCommit(0)), 1)
  {
    var s' := Step(s, TryCommit(0));
    assert s'.log == [Commit(first.ReadSet(), first.TargetKey())];
    assert s'.log[0].key in second.ReadSet() && second.TargetKey() in s'.log[0].readSet;
  }
}
