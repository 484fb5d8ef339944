/** Why debits are refused, and how the interleaved debits relate to the retry loop: every finished
    call of a run is a run of that loop, against the rows its attempts met. */
module AiCreditRefinement {
  import opened JsNumbers
  import opened AiCreditLedger
  import opened AiCreditProtocol

  // ----- Refusals -----

  lemma RefuseIff(args: DebitArgs, rows: Rows)
    ensures Decide(args, rows) == Refuse <==>
      args.increment.PosInfinity?
      || (!args.increment.NaN? && SharedUsed(rows, args.storeId, args.month) + args.Amount() > args.Limit())
  {}

  /** No step lowers the shared sum of any store and month. */
  lemma SumNeverShrinks(s: State, e: Event, storeId: string, month: string)
    requires Inv(s)
    ensures SharedUsed(s.rows, storeId, month) <= SharedUsed(Step(s, e).rows, storeId, month)
  {
    var s' := Step(s, e);
    if e.TryCommit? && NewlyOk(s, s', e.id) {
      StepIsSerial(s, e, e.id);
    } else {
      OtherStepsKeepAiRows(s, e);
      assert SameAt(s.rows, s'.rows, Key(storeId, month, AiRequests));
      assert SameAt(s.rows, s'.rows, Key(storeId, month, ReportsGenerated));
    }
  }

  lemma OtherStepsKeepAiRows(s: State, e: Event)
    requires !(e.TryCommit? && NewlyOk(s, Step(s, e), e.id))
    ensures forall key: Key | IsAiMetric(key.metric) :: SameAt(s.rows, Step(s, e).rows, key)
  {}

  /** A snapshot never shows more use than is committed, and what was refused still does not fit. */
  ghost predicate RefusalInv(s: State) {
    forall c | 0 <= c < |s.calls| :: CallRefusedRightly(s.rows, s.calls[c])
  }

  ghost predicate CallRefusedRightly(rows: Rows, call: Call) {
    && (call.phase.Running? ==>
          SharedUsed(call.phase.snapshot, call.args.storeId, call.args.month) <=
          SharedUsed(rows, call.args.storeId, call.args.month))
    && (call.phase == Done(NotOk(BudgetExceeded)) ==> Decide(call.args, rows) == Refuse)
  }

  lemma MoreUseStillRefuses(args: DebitArgs, before: Rows, after: Rows)
    requires SharedUsed(before, args.storeId, args.month) <= SharedUsed(after, args.storeId, args.month)
    requires Decide(args, before) == Refuse
    ensures Decide(args, after) == Refuse
  {
    RefuseIff(args, before);
    RefuseIff(args, after);
  }

  lemma StepKeepsRefusalInv(s: State, e: Event)
    requires Inv(s) && RefusalInv(s)
    ensures RefusalInv(Step(s, e))
  {
    var s' := Step(s, e);
    forall c | 0 <= c < |s'.calls| ensures CallRefusedRightly(s'.rows, s'.calls[c]) {
      if c < |s.calls| {
        StepKeepsCallRefusedRightly(s, e, c);
      }
    }
  }

  lemma StepKeepsCallRefusedRightly(s: State, e: Event, c: nat)
    requires Inv(s) && RefusalInv(s) && c < |s.calls|
    ensures c < |Step(s, e).calls| && CallRefusedRightly(Step(s, e).rows, Step(s, e).calls[c])
  {
    var call := s.calls[c];
    assert CallRefusedRightly(s.rows, call);
    SumNeverShrinks(s, e, call.args.storeId, call.args.month);
    StepKeepsArgs(s, e);
    var decided := StepDecides(s, e, c);
    if Step(s, e).calls[c].phase == Done(NotOk(BudgetExceeded)) {
      MoreUseStillRefuses(call.args, decided, Step(s, e).rows);
    }
  }

  /** A step that leaves a call running leaves it its snapshot or gives it the committed rows, and
      a call is told of an exceeded budget by what its snapshot shows. */
  lemma StepDecides(s: State, e: Event, c: nat) returns (decided: Rows)
    requires c < |s.calls|
    ensures
      var was, now := s.calls[c].phase, Step(s, e).calls[c].phase;
      && (now.Running? ==>
            (was.Running? && now.snapshot == was.snapshot) || (now.snapshot == s.rows && Step(s, e).rows == s.rows))
      && (now == Done(NotOk(BudgetExceeded)) && now != was ==>
            was.Running? && decided == was.snapshot && Decide(s.calls[c].args, decided) == Refuse)
      && (now == Done(NotOk(BudgetExceeded)) && now == was ==> decided == s.rows)
  {
    decided := if s.calls[c].phase.Running? then s.calls[c].phase.snapshot else s.rows;
  }

  lemma {:induction false} RunKeepsRefusalInv(rows: Rows, events: seq<Event>)
    ensures RefusalInv(Run(rows, events))
  {
    if events != [] {
      var n := |events| - 1;
      RunKeepsRefusalInv(rows, events[..n]);
      RunKeepsInv(rows, events[..n]);
      StepKeepsRefusalInv(Run(rows, events[..n]), events[n]);
    }
  }

  /** Refusals are justified, however stale the snapshot they were decided on: for a call that was
      told the budget is exceeded, the floored increment does not fit the rows committed when it
      was told nor those of any later moment, unless the increment is infinite. */
  lemma RefusalsAreJustified(rows: Rows, events: seq<Event>, c: nat)
    requires c < |Run(rows, events).calls|
    requires Run(rows, events).calls[c].phase == Done(NotOk(BudgetExceeded))
    ensures
      var args := Run(rows, events).calls[c].args;
      || args.increment.PosInfinity?
      || SharedUsed(Run(rows, events).rows, args.storeId, args.month) + args.Amount() > args.Limit()
  {
    RunKeepsRefusalInv(rows, events);
    var s := Run(rows, events);
    assert CallRefusedRightly(s.rows, s.calls[c]);
    RefuseIff(s.calls[c].args, s.rows);
  }

  // ----- The attempts of a call -----

  /** Event `n` ends attempt `i` of call `c`. */
  ghost predicate EndsAttempt(rows: Rows, events: seq<Event>, c: nat, i: nat, n: nat) {
    && n < |events|
    && var s := Run(rows, events[..n]);
       && IsRunning(s, c) && s.calls[c].phase.attempt == i
       && (events[n] == TryCommit(c) || events[n] == Serialization(c) || events[n] == Failure(c))
  }

  /** The ends of the first attempts of call `c`, in order; all but the last were aborted by a
      serialization failure. */
  ghost predicate Attempts(rows: Rows, events: seq<Event>, c: nat, ends: seq<nat>) {
    && (forall i | 0 <= i < |ends| :: EndsAttempt(rows, events, c, i, ends[i]))
    && (forall i, j | 0 <= i < j < |ends| :: ends[i] < ends[j])
    && (forall i | 0 <= i < |ends| - 1 :: events[ends[i]] == Serialization(c))
  }

  lemma AttemptsOfLonger(rows: Rows, events: seq<Event>, c: nat, ends: seq<nat>)
    requires events != [] && Attempts(rows, events[..|events| - 1], c, ends)
    ensures Attempts(rows, events, c, ends)
  {
    var before := events[..|events| - 1];
    forall i | 0 <= i < |ends| ensures EndsAttempt(rows, events, c, i, ends[i]) {
      assert EndsAttempt(rows, before, c, i, ends[i]);
      assert before[..ends[i]] == events[..ends[i]];
    }
  }

  /** The last of these attempts ended the call with this result. */
  ghost predicate EndsCall(rows: Rows, events: seq<Event>, c: nat, ends: seq<nat>, result: DebitResult) {
    && ends != [] && ends[|ends| - 1] < |events|
    && var s' := Run(rows, events[..ends[|ends| - 1] + 1]);
       c < |s'.calls| && s'.calls[c].phase == Done(result)
  }

  /** Every accepted call has made as many attempts as its phase says. */
  ghost predicate Accounted(rows: Rows, events: seq<Event>, c: nat, phase: Phase, ends: seq<nat>) {
    Attempts(rows, events, c, ends) && PhaseFits(rows, events, c, phase, ends)
  }

  ghost predicate PhaseFits(rows: Rows, events: seq<Event>, c: nat, phase: Phase, ends: seq<nat>) {
    match phase
    case Done(result) => EndsCall(rows, events, c, ends, result)
    case _ => |ends| == phase.attempt && AllAborted(events, c, ends)
  }

  ghost predicate AllAborted(events: seq<Event>, c: nat, ends: seq<nat>) {
    forall i | 0 <= i < |ends| :: ends[i] < |events| && events[ends[i]] == Serialization(c)
  }

  lemma {:induction false} AttemptsOf(rows: Rows, events: seq<Event>, c: nat) returns (ends: seq<nat>)
    requires c < |Run(rows, events).calls| && Run(rows, events).calls[c].args.Accepted()
    ensures Accounted(rows, events, c, Run(rows, events).calls[c].phase, ends)
  {
    var n := |events| - 1;
    var before, e := events[..n], events[n];
    var s := Run(rows, before);
    StepKeepsArgs(s, e);
    if c >= |s.calls| {
      ends := [];
    } else {
      ends := AttemptsOf(rows, before, c);
      ends := OneMoreEvent(rows, events, c, ends);
    }
  }

  lemma OneMoreEvent(rows: Rows, events: seq<Event>, c: nat, was: seq<nat>) returns (ends: seq<nat>)
    requires events != []
    requires c < |Run(rows, events[..|events| - 1]).calls|
    requires Accounted(rows, events[..|events| - 1], c, Run(rows, events[..|events| - 1]).calls[c].phase, was)
    ensures c < |Run(rows, events).calls| && Accounted(rows, events, c, Run(rows, events).calls[c].phase, ends)
  {
    var n := |events| - 1;
    var s := Run(rows, events[..n]);
    StepOfCall(s, events[n], c);
    if s.calls[c].phase.Running? && Step(s, events[n]).calls[c].phase != s.calls[c].phase {
      ends := was + [n];
      AttemptEnds(rows, events, c, was);
    } else {
      ends := was;
      StillAccounted(rows, events, c, s.calls[c].phase, Step(s, events[n]).calls[c].phase, was);
    }
  }

  lemma StillAccounted(rows: Rows, events: seq<Event>, c: nat, was: Phase, now: Phase, ends: seq<nat>)
    requires events != [] && Accounted(rows, events[..|events| - 1], c, was, ends)
    requires now == was || (!was.Done? && !now.Done? && now.attempt == was.attempt)
    ensures Accounted(rows, events, c, now, ends)
  {
    AttemptsOfLonger(rows, events, c, ends);
    if was.Done? {
      assert events[..|events| - 1][..ends[|ends| - 1] + 1] == events[..ends[|ends| - 1] + 1];
    } else {
      assert forall i | 0 <= i < |ends| :: EndsAttempt(rows, events[..|events| - 1], c, i, ends[i]);
    }
  }

  lemma AttemptEnds(rows: Rows, events: seq<Event>, c: nat, was: seq<nat>)
    requires events != []
    requires
      var s, e := Run(rows, events[..|events| - 1]), events[|events| - 1];
      && IsRunning(s, c) && c < |Step(s, e).calls| && Step(s, e).calls[c].phase != s.calls[c].phase
      && Accounted(rows, events[..|events| - 1], c, s.calls[c].phase, was)
    ensures Accounted(rows, events, c, Run(rows, events).calls[c].phase, was + [|events| - 1])
  {
    var n := |events| - 1;
    var s := Run(rows, events[..n]);
    StepOfCall(s, events[n], c);
    AbortsAppend(rows, events, c, was, s.calls[c].phase.attempt);
    if events[n] == Serialization(c) {
      AllAbortedSnoc(events, c, was);
    }
    NowFits(rows, events, c, Run(rows, events).calls[c].phase, was + [n]);
  }

  /** The attempts so far were aborted; the last event ends one more. */
  lemma AbortsAppend(rows: Rows, events: seq<Event>, c: nat, was: seq<nat>, attempt: nat)
    requires events != [] && Attempts(rows, events[..|events| - 1], c, was) && |was| == attempt
    requires AllAborted(events[..|events| - 1], c, was)
    requires EndsAttempt(rows, events, c, attempt, |events| - 1)
    ensures Attempts(rows, events, c, was + [|events| - 1])
  {
    var n := |events| - 1;
    AttemptsOfLonger(rows, events, c, was);
    assert forall i | 0 <= i < |was| :: EndsAttempt(rows, events[..n], c, i, was[i]);
  }

  lemma AllAbortedSnoc(events: seq<Event>, c: nat, was: seq<nat>)
    requires events != [] && AllAborted(events[..|events| - 1], c, was) && events[|events| - 1] == Serialization(c)
    ensures AllAborted(events, c, was + [|events| - 1])
  {}

  lemma NowFits(rows: Rows, events: seq<Event>, c: nat, phase: Phase, ends: seq<nat>)
    requires ends != [] && ends[|ends| - 1] == |events| - 1
    requires c < |Run(rows, events).calls| && Run(rows, events).calls[c].phase == phase
    requires !phase.Done? ==> phase.attempt == |ends| && AllAborted(events, c, ends)
    ensures PhaseFits(rows, events, c, phase, ends)
  {
    if phase.Done? {
      EndsNow(rows, events, c, ends, phase.result);
    }
  }

  lemma EndsNow(rows: Rows, events: seq<Event>, c: nat, ends: seq<nat>, result: DebitResult)
    requires ends != [] && ends[|ends| - 1] == |events| - 1
    requires c < |Run(rows, events).calls| && Run(rows, events).calls[c].phase == Done(result)
    ensures EndsCall(rows, events, c, ends, result)
  {
    assert events[..ends[|ends| - 1] + 1] == events;
  }

  /** How a step changes the phase of a call, if it does. */
  lemma StepOfCall(s: State, e: Event, c: nat)
    requires c < |s.calls|
    ensures c < |Step(s, e).calls|
    ensures
      var was, now := s.calls[c].phase, Step(s, e).calls[c].phase;
      && (was.Done? ==> now == was)
      && (was.Waiting? ==> now == was || (now.Running? && now.attempt == was.attempt))
      && (was.Running? && now != was ==>
            && (e == TryCommit(c) || e == Serialization(c) || e == Failure(c))
            && (now.Done? || (now == Waiting(was.attempt + 1) && e == Serialization(c))))
  {}

  // ----- A finished call is a run of the loop -----

  /** What the loop sees of an ending attempt. A value the database rejects is an error, too. */
  function FateOf(s: State, e: Event, c: nat): Fate {
    if e.Serialization? then SerializationFailure
    else if e.TryCommit? && IsRunning(s, c) && !Decide(s.calls[c].args, s.calls[c].phase.snapshot).WriteFails?
    then Commits
    else OtherFailure
  }

  /** The last attempt reports and leaves behind what the loop's last turn does, on the rows
      committed at that moment. */
  lemma LastAttemptIsOutcome(s: State, e: Event, c: nat)
    requires Inv(s) && RefusalInv(s) && IsRunning(s, c) && c < |Step(s, e).calls| && Step(s, e).calls[c].phase.Done?
    ensures Outcome(s.calls[c].args, Attempt(s.rows, FateOf(s, e, c)), Step(s, e).calls[c].phase.result,
      Step(s, e).rows)
  {
    StepOfCall(s, e, c);
    var args := s.calls[c].args;
    assert CallRefusedRightly(s.rows, s.calls[c]);
    if e == TryCommit(c) {
      if NewlyOk(s, Step(s, e), c) {
        StepIsSerial(s, e, c);
      } else if Decide(args, s.calls[c].phase.snapshot) == Refuse {
        MoreUseStillRefuses(args, s.calls[c].phase.snapshot, s.rows);
      }
    }
  }

  ghost function EnvOf(rows: Rows, events: seq<Event>, c: nat, ends: seq<nat>): nat -> Attempt {
    (i: nat) =>
      if i < |ends| && ends[i] < |events| then
        Attempt(Run(rows, events[..ends[i]]).rows, FateOf(Run(rows, events[..ends[i]]), events[ends[i]], c))
      else Attempt(rows, OtherFailure)
  }

  /** `n` is the event that ended call `c`: the call was running before it and is done after it. */
  ghost predicate EndedBy(rows: Rows, events: seq<Event>, c: nat, n: nat) {
    && n < |events|
    && IsRunning(Run(rows, events[..n]), c)
    && c < |Run(rows, events).calls| && c < |Run(rows, events[..n + 1]).calls|
    && Run(rows, events).calls[c].phase.Done?
    && Run(rows, events[..n + 1]).calls[c].phase == Run(rows, events).calls[c].phase
  }

  /** The interleaved debits refine the retry loop: for every accepted call that is done in a run,
      the loop, given the rows and fates that the call's attempts met in that run, ends at the
      same attempt, reports the same result and leaves the rows as they were left. */
  lemma CallsRefineTheLoop(rows: Rows, events: seq<Event>, c: nat) returns (env: nat -> Attempt, j: nat, n: nat)
    requires c < |Run(rows, events).calls| && Run(rows, events).calls[c].phase.Done?
    requires Run(rows, events).calls[c].args.Accepted()
    ensures EndedBy(rows, events, c, n)
    ensures
      var call := Run(rows, events).calls[c];
      && EndsAt(call.args, env, j)
      && env(j).rows == Run(rows, events[..n]).rows
      && Outcome(call.args, env(j), call.phase.result, Run(rows, events[..n + 1]).rows)
    ensures forall i: nat | i <= j :: exists k: nat :: k <= n && env(i).rows == Run(rows, events[..k]).rows
  {
    var ends := AttemptsOf(rows, events, c);
    j := |ends| - 1;
    n := ends[j];
    env := EnvOf(rows, events, c, ends);
    assert EndsAttempt(rows, events, c, j, n);
    EndOfCall(rows, events, c, j, n);
    EnvMeetsTheRun(rows, events, c, ends);
  }

  lemma EnvMeetsTheRun(rows: Rows, events: seq<Event>, c: nat, ends: seq<nat>)
    requires ends != [] && Attempts(rows, events, c, ends)
    ensures
      var env, j := EnvOf(rows, events, c, ends), |ends| - 1;
      && (forall i: nat | i < j :: env(i).fate == SerializationFailure)
      && (forall i: nat | i <= j :: exists k: nat :: k <= ends[j] && env(i).rows == Run(rows, events[..k]).rows)
  {
    var env, j := EnvOf(rows, events, c, ends), |ends| - 1;
    forall i: nat | i <= j
      ensures i < j ==> env(i).fate == SerializationFailure
      ensures exists k: nat :: k <= ends[j] && env(i).rows == Run(rows, events[..k]).rows
    {
      assert EndsAttempt(rows, events, c, i, ends[i]);
      assert ends[i] <= ends[j];
    }
  }

  lemma EndOfCall(rows: Rows, events: seq<Event>, c: nat, j: nat, n: nat)
    requires EndsAttempt(rows, events, c, j, n) && c < |Run(rows, events).calls|
    requires c < |Run(rows, events[..n + 1]).calls| && Run(rows, events[..n + 1]).calls[c].phase.Done?
    ensures
      var s, args := Run(rows, events[..n]), Run(rows, events).calls[c].args;
      var last := Attempt(s.rows, FateOf(s, events[n], c));
      && j < MAX_ATTEMPTS && (last.fate != SerializationFailure || j == MAX_ATTEMPTS - 1)
      && Outcome(args, last, Run(rows, events[..n + 1]).calls[c].phase.result, Run(rows, events[..n + 1]).rows)
  {
    var s := Run(rows, events[..n]);
    assert events[..n + 1][..n] == events[..n];
    RunKeepsInv(rows, events[..n]);
    RunKeepsRefusalInv(rows, events[..n]);
    assert CallWellFormed(s, s.calls[c]);
    ArgsStay(rows, events, n, c);
    LastAttemptIsOutcome(s, events[n], c);
    LastSerializationIsThird(s, events[n], c);
  }

  lemma LastSerializationIsThird(s: State, e: Event, c: nat)
    requires Inv(s) && IsRunning(s, c) && Step(s, e).calls[c].phase.Done?
    ensures FateOf(s, e, c) == SerializationFailure ==>
      e == Serialization(c) && s.calls[c].phase.attempt == MAX_ATTEMPTS - 1
  {
    StepOfCall(s, e, c);
    assert CallWellFormed(s, s.calls[c]);
  }

  lemma {:induction false} ArgsStay(rows: Rows, events: seq<Event>, n: nat, c: nat)
    requires n <= |events| && c < |Run(rows, events[..n]).calls|
    ensures c < |Run(rows, events).calls| && Run(rows, events).calls[c].args == Run(rows, events[..n]).calls[c].args
  {
    if n == |events| {
      assert events[..n] == events;
    } else {
      var before := events[..|events| - 1];
      assert before[..n] == events[..n];
      ArgsStay(rows, before, n, c);
      StepKeepsArgs(Run(rows, before), events[|events| - 1]);
    }
  }
}
