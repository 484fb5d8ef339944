/** How executions and verifications end: a plan that failed and a verification that failed
    leave the automation stuck, whatever other service calls are under way or follow. */
module AutomationOutcomes {
  import opened Common
  import opened AutomationModel
  import opened AutomationInvariants
  import opened AutomationRuns

  // ----- At most one call is about to give a verdict -----

  /** The call has entered `verifying` and has still to request `verified`. */
  predicate AwaitsVerdict(process: Process) {
    process.pending != [] && process.pending[0].to == Verified
  }

  /** `verified` is requested by nothing but the second half of a verification. */
  predicate VerdictShaped(pending: seq<Request>) {
    || (forall i | 0 <= i < |pending| :: pending[i].to != Verified)
    || |pending| == 1
    || (|pending| == 2 && pending[0].to == Verifying && pending[1].to == Verified)
  }

  /** An automation some call is about to judge is being verified, and by that call alone. */
  ghost predicate VerdictInv(w: World) {
    && (forall p | 0 <= p < |w.processes| :: VerdictShaped(w.processes[p].pending))
    && (forall p | 0 <= p < |w.processes| && AwaitsVerdict(w.processes[p]) ::
          StatusOf(w, w.processes[p].id) == Some(Verifying))
    && (forall p, q | 0 <= p < q < |w.processes| && AwaitsVerdict(w.processes[p]) && AwaitsVerdict(w.processes[q]) ::
          w.processes[p].id != w.processes[q].id)
  }

  ghost predicate WorldInv(w: World) {
    SnapshotInv(w.snapshot, w.clock) && TurnInv(w) && VerdictInv(w)
  }

  lemma ProgramIsVerdictShaped(s: Snapshot, call: ServiceCall)
    ensures VerdictShaped(Program(s, call))
  {}

  lemma StartKeepsVerdictInv(w: World, call: ServiceCall)
    requires VerdictInv(w)
    ensures VerdictInv(w.(processes := w.processes + [Process(call.id, Program(w.snapshot, call))]))
  {
    ProgramIsVerdictShaped(w.snapshot, call);
    ProgramIsWellShaped(w.snapshot, call);
    var w' := w.(processes := w.processes + [Process(call.id, Program(w.snapshot, call))]);
    assert forall id :: StatusOf(w', id) == StatusOf(w, id);
    assert !AwaitsVerdict(w'.processes[|w.processes|]);
  }

  lemma CreateKeepsVerdictInv(w: World, w': World)
    requires VerdictInv(w) && CreateEffect(w, w')
    ensures VerdictInv(w')
  {}

  /** Only the judging call can move an automation out of `verifying`: the way back to `executed`
      is open to a call that holds the turn, and then the automation is not being verified. */
  lemma ResumeKeepsVerdictInv(w: World, w': World, p: nat)
    requires TurnInv(w) && VerdictInv(w)
    requires p < |w.processes| && w.processes[p].pending != [] && ResumeEffect(w, w', p)
    ensures VerdictInv(w')
  {
    var id, pending := w.processes[p].id, w.processes[p].pending;
    assert VerdictShaped(pending);
    assert forall i | 0 <= i < |pending[1..]| :: pending[1..][i] == pending[i + 1];
    forall q | 0 <= q < |w.processes| && q != p && AwaitsVerdict(w.processes[q])
      ensures StatusOf(w', w.processes[q].id) == Some(Verifying)
      ensures AwaitsVerdict(w'.processes[p]) ==> w.processes[q].id != id
    {
      assert w'.processes[q] == w.processes[q];
      assert HoldsTurn(w.processes[p]) ==> MayHoldTurn(StatusOf(w, id));
    }
  }

  lemma StepKeepsWorldInv(w: World, e: Event, rulesOf: string -> seq<Rule>)
    requires WorldInv(w)
    ensures WorldInv(Step(w, e, rulesOf))
  {
    StepKeepsSnapshotInv(w, e, rulesOf);
    StepKeepsTurnInv(w, e, rulesOf);
    match e
    case Start(call) => StartKeepsVerdictInv(w, call);
    case Resume(p, elapsed, executor) =>
      if p < |w.processes| && w.processes[p].pending != [] {
        ResumeHasEffect(w, p, elapsed, executor);
        ResumeKeepsVerdictInv(w, AfterResume(w, p, elapsed, executor), p);
      }
    case CreateDraft(_, _, _) =>
      CreateHasEffect(w, e, rulesOf, []);
      CreateKeepsVerdictInv(w, Step(w, e, rulesOf));
    case CreateAndPrepare(_, _, _) =>
      CreateHasEffect(w, e, rulesOf, [Plain(Prepared)]);
      CreateKeepsVerdictInv(w, Step(w, e, rulesOf));
  }

  lemma {:induction false} RunKeepsWorldInv(clock: int, events: seq<Event>, rulesOf: string -> seq<Rule>)
    ensures WorldInv(Run(clock, events, rulesOf))
  {
    if events != [] {
      var before := events[..|events| - 1];
      RunKeepsWorldInv(clock, before, rulesOf);
      StepKeepsWorldInv(Run(clock, before, rulesOf), events[|events| - 1], rulesOf);
    }
  }

  // ----- Statuses that lead nowhere else -----

  /** No call under way is about to request one of these statuses for the automation. */
  ghost predicate NoneAbout(w: World, id: string, targets: set<Status>) {
    forall p | 0 <= p < |w.processes| && w.processes[p].id == id && w.processes[p].pending != [] ::
      w.processes[p].pending[0].to !in targets
  }

  /** While no call is about to request one of `exits`, a status in `inside` leads nowhere else. */
  ghost predicate Trapped(w: World, id: string, inside: set<Status>, exits: set<Status>) {
    && StatusOf(w, id).Some? && StatusOf(w, id).value in inside
    && NoneAbout(w, id, exits)
  }

  predicate IsTrap(inside: set<Status>, exits: set<Status>) {
    || (inside == {Verifying} && exits == {Verified, Executed})
    || (inside == {Executing, Cancelled} && exits == {Executed})
    || (inside == {Verified, Archived} && exits == {})
    || (inside == {Executed, Verifying, Verified, Archived, Cancelled} && exits == {})
  }

  lemma StepKeepsTrapped(w: World, e: Event, id: string, inside: set<Status>, exits: set<Status>,
    rulesOf: string -> seq<Rule>)
    requires WorldInv(w) && IsTrap(inside, exits) && Trapped(w, id, inside, exits)
    ensures Trapped(Step(w, e, rulesOf), id, inside, exits)
  {
    match e
    case Start(call) => ProgramIsWellShaped(w.snapshot, call);
    case Resume(p, elapsed, executor) =>
      if p < |w.processes| && w.processes[p].pending != [] {
        ResumeHasEffect(w, p, elapsed, executor);
        ResumeKeepsTrapped(w, AfterResume(w, p, elapsed, executor), p, id, inside, exits);
      }
    case CreateDraft(_, _, _) => CreateHasEffect(w, e, rulesOf, []);
    case CreateAndPrepare(_, _, _) => CreateHasEffect(w, e, rulesOf, [Plain(Prepared)]);
  }

  lemma ResumeKeepsTrapped(w: World, w': World, p: nat, id: string, inside: set<Status>, exits: set<Status>)
    requires WorldInv(w) && IsTrap(inside, exits) && Trapped(w, id, inside, exits)
    requires p < |w.processes| && w.processes[p].pending != [] && ResumeEffect(w, w', p)
    ensures Trapped(w', id, inside, exits)
  {
    assert WellShaped(w.processes[p].pending) && VerdictShaped(w.processes[p].pending);
  }

  /** What is trapped in a state of a run stays so in every continuation of the run. */
  lemma {:induction false} TrappedForGood(
    clock: int, events: seq<Event>, more: seq<Event>, id: string, inside: set<Status>, exits: set<Status>,
    rulesOf: string -> seq<Rule>)
    requires IsTrap(inside, exits) && Trapped(Run(clock, events, rulesOf), id, inside, exits)
    ensures Trapped(Run(clock, events + more, rulesOf), id, inside, exits)
  {
    if more == [] {
      assert events + more == events;
    } else {
      var n := |more| - 1;
      TrappedForGood(clock, events, more[..n], id, inside, exits, rulesOf);
      assert (events + more)[..|events + more| - 1] == events + more[..n];
      RunKeepsWorldInv(clock, events + more[..n], rulesOf);
      StepKeepsTrapped(Run(clock, events + more[..n], rulesOf), more[n], id, inside, exits, rulesOf);
    }
  }

  // ----- The end of an execution -----

  /** What a resumed call does is what its automation's own move is. */
  lemma ResumeByMove(w: World, p: nat, elapsed: nat, executor: Option<string>, a: Automation)
    returns (w': World, change: Change)
    requires p < |w.processes| && w.processes[p].pending != []
    requires Find(w.snapshot.automations, w.processes[p].id) == Some(a) && a.id == w.processes[p].id
    ensures change == Moves(a, w.processes[p].pending[0], w.clock + elapsed, executor)
    ensures w' == AfterResume(w, p, elapsed, executor) && w'.clock == w.clock + elapsed
    ensures w'.invocations == w.invocations + ExecutorCalls(w.snapshot, w.processes[p].id, w.processes[p].pending[0])
    ensures MoveShows(w, w', p, change)
    ensures change.Change? ==> change.automation.id == a.id && change.automation.key == a.key
  {
    var id, request, now := w.processes[p].id, w.processes[p].pending[0], w.clock + elapsed;
    var result: TransitionResult;
    change, result := TransitionByMove(w.snapshot, id, request, now, executor, a);
    ResultShows(w, p, now, ExecutorCalls(w.snapshot, id, request), result, change);
    w' := Resumed(w, p, now, ExecutorCalls(w.snapshot, id, request), result);
  }

  /** Call `p` has got its request granted, or was refused and is over. */
  ghost predicate MoveShows(w: World, w': World, p: nat, change: Change)
    requires p < |w.processes| && w.processes[p].pending != []
  {
    var id := w.processes[p].id;
    match change
    case Change(b) =>
      && Find(w'.snapshot.automations, id) == Some(b)
      && w'.snapshot.learning == LessonsOf(w.snapshot.learning, b, w.processes[p].pending[0])
      && w'.processes == w.processes[p := Process(id, w.processes[p].pending[1..])]
    case Refused(_) => w'.snapshot == w.snapshot && w'.processes == w.processes[p := Process(id, [])]
  }

  lemma ResultShows(w: World, p: nat, now: int, called: seq<Invocation>, result: TransitionResult, change: Change)
    requires p < |w.processes| && w.processes[p].pending != []
    requires change.Change? ==>
      result.Done? && Find(result.snapshot.automations, w.processes[p].id) == Some(change.automation)
    requires change.Change? ==>
      result.snapshot.learning == LessonsOf(w.snapshot.learning, change.automation, w.processes[p].pending[0])
    requires change.Refused? ==> result.Failed?
    ensures MoveShows(w, Resumed(w, p, now, called, result), p, change)
    ensures Resumed(w, p, now, called, result).clock == now
    ensures Resumed(w, p, now, called, result).invocations == w.invocations + called
  {}

  lemma TransitionByMove(s: Snapshot, id: string, request: Request, now: int, executor: Option<string>, a: Automation)
    returns (change: Change, result: TransitionResult)
    requires Find(s.automations, id) == Some(a) && a.id == id
    ensures change == Moves(a, request, now, executor) && result == Transition(s, id, request, now, executor)
    ensures change.Change? ==> result.Done? && Find(result.snapshot.automations, id) == Some(change.automation)
    ensures change.Change? ==> change.automation.id == id && change.automation.key == a.key
    ensures change.Change? ==> result.snapshot.learning == LessonsOf(s.learning, change.automation, request)
    ensures change.Refused? ==> result.Failed?
  {
    change, result := Moves(a, request, now, executor), Transition(s, id, request, now, executor);
    MoveKeepsId(a, request, now, executor);
  }

  lemma MoveKeepsId(a: Automation, request: Request, now: int, executor: Option<string>)
    ensures
      var change := Moves(a, request, now, executor);
      change.Change? ==>
        change.automation.id == a.id && change.automation.key == a.key && change.automation.status == request.to
  {}

  lemma RunSnoc(clock: int, events: seq<Event>, e: Event, rulesOf: string -> seq<Rule>)
    ensures Run(clock, events + [e], rulesOf) == Step(Run(clock, events, rulesOf), e, rulesOf)
  {
    assert (events + [e])[..|events|] == events;
  }

  lemma ExecutionMove(a: Automation, request: Request, now: int, executor: Option<string>)
    requires a.status == Executing && a.merchantApproved && request.to == Executed
    ensures
      var change := Moves(a, request, now, executor);
      change.Change? == executor.Some? && (change.Change? ==> change.automation.status == Executed)
  {}

  /** The execution that holds the turn, resumed: the executor is called; if it throws, the
      automation stays in `executing` and no other call can bring it to `executed`. */
  lemma ExecutionEnds(w: World, p: nat, elapsed: nat, executor: Option<string>) returns (w': World)
    requires WorldInv(w) && p < |w.processes| && HoldsTurn(w.processes[p])
    requires StatusOf(w, w.processes[p].id) == Some(Executing)
    ensures w' == AfterResume(w, p, elapsed, executor)
    ensures ExecutionReported(w, w', p, executor.Some?)
  {
    var change: Change;
    w', change := ExecutionShows(w, p, elapsed, executor);
    NoneAboutExecuted(w, w', p, if change.Change? then w.processes[p].pending[1..] else []);
  }

  /** The executor was called for call `p`, and nothing else is about to report for its automation. */
  ghost predicate ExecutionReported(w: World, w': World, p: nat, answered: bool)
    requires p < |w.processes|
  {
    var id := w.processes[p].id;
    && w'.invocations == w.invocations + [Invocation(id, Executing, true)]
    && StatusOf(w', id) == Some(if answered then Executed else Executing)
    && NoneAbout(w', id, {Executed})
  }

  lemma ExecutionShows(w: World, p: nat, elapsed: nat, executor: Option<string>) returns (w': World, change: Change)
    requires WorldInv(w) && p < |w.processes| && HoldsTurn(w.processes[p])
    requires StatusOf(w, w.processes[p].id) == Some(Executing)
    ensures w' == AfterResume(w, p, elapsed, executor)
    ensures w'.invocations == w.invocations + [Invocation(w.processes[p].id, Executing, true)]
    ensures MoveShows(w, w', p, change) && change.Change? == executor.Some?
    ensures change.Change? ==> change.automation.status == Executed
  {
    var a := ExecutingIsApproved(w, w.processes[p].id);
    ExecutionMove(a, w.processes[p].pending[0], w.clock + elapsed, executor);
    w', change := ResumeByMove(w, p, elapsed, executor, a);
  }

  lemma ExecutingIsApproved(w: World, id: string) returns (a: Automation)
    requires SnapshotInv(w.snapshot, w.clock) && StatusOf(w, id) == Some(Executing)
    ensures Find(w.snapshot.automations, id) == Some(a) && a.id == id && a.status == Executing && a.merchantApproved
  {
    FindSpec(w.snapshot.automations, id);
    a := Find(w.snapshot.automations, id).value;
    assert AutomationInv(a, w.clock);
  }

  lemma NoneAboutExecuted(w: World, w': World, p: nat, rest: seq<Request>)
    requires TurnInv(w) && p < |w.processes| && HoldsTurn(w.processes[p])
    requires rest == [] || rest == w.processes[p].pending[1..]
    requires w'.processes == w.processes[p := Process(w.processes[p].id, rest)]
    ensures NoneAbout(w', w.processes[p].id, {Executed})
  {
    assert WellShaped(w.processes[p].pending);
    assert forall q | 0 <= q < |w.processes| && q != p && HoldsTurn(w.processes[q]) ::
      w.processes[q].id != w.processes[p].id;
  }

  lemma ExecutionEndsInRun(clock: int, events: seq<Event>, rulesOf: string -> seq<Rule>, p: nat, elapsed: nat,
    executor: Option<string>)
    returns (w: World, w': World)
    requires p < |Run(clock, events, rulesOf).processes| && HoldsTurn(Run(clock, events, rulesOf).processes[p])
    requires StatusOf(Run(clock, events, rulesOf), Run(clock, events, rulesOf).processes[p].id) == Some(Executing)
    ensures w == Run(clock, events, rulesOf) && w' == Run(clock, events + [Resume(p, elapsed, executor)], rulesOf)
    ensures ExecutionReported(w, w', p, executor.Some?)
  {
    w := Run(clock, events, rulesOf);
    RunKeepsWorldInv(clock, events, rulesOf);
    w' := ExecutionEnds(w, p, elapsed, executor);
    RunSnoc(clock, events, Resume(p, elapsed, executor), rulesOf);
  }

  /** A plan whose execution fails can only be cancelled: after the executor was called and threw,
      every further run of calls leaves the automation executing or cancelled. */
  lemma FailedPlanIsStuck(clock: int, events: seq<Event>, rulesOf: string -> seq<Rule>, p: nat, elapsed: nat,
    more: seq<Event>)
    requires p < |Run(clock, events, rulesOf).processes| && HoldsTurn(Run(clock, events, rulesOf).processes[p])
    requires StatusOf(Run(clock, events, rulesOf), Run(clock, events, rulesOf).processes[p].id) == Some(Executing)
    ensures
      var w := Run(clock, events, rulesOf);
      var id, failed := w.processes[p].id, events + [Resume(p, elapsed, None)];
      && Run(clock, failed, rulesOf).invocations == w.invocations + [Invocation(id, Executing, true)]
      && StatusOf(Run(clock, failed, rulesOf), id) == Some(Executing)
      && StatusOf(Run(clock, failed + more, rulesOf), id) in {Some(Executing), Some(Cancelled)}
  {
    var w, w' := ExecutionEndsInRun(clock, events, rulesOf, p, elapsed, None);
    TrappedForGood(clock, events + [Resume(p, elapsed, None)], more, w.processes[p].id, {Executing, Cancelled},
      {Executed}, rulesOf);
  }

  /** A plan that was executed never executes again. */
  lemma ExecutedPlanMovesOn(
    clock: int, events: seq<Event>, rulesOf: string -> seq<Rule>, p: nat, elapsed: nat, answer: string,
    more: seq<Event>)
    requires p < |Run(clock, events, rulesOf).processes| && HoldsTurn(Run(clock, events, rulesOf).processes[p])
    requires StatusOf(Run(clock, events, rulesOf), Run(clock, events, rulesOf).processes[p].id) == Some(Executing)
    ensures
      var id, executed := Run(clock, events, rulesOf).processes[p].id, events + [Resume(p, elapsed, Some(answer))];
      && StatusOf(Run(clock, executed, rulesOf), id) == Some(Executed)
      && StatusOf(Run(clock, executed + more, rulesOf), id) in
           {Some(Executed), Some(Verifying), Some(Verified), Some(Archived), Some(Cancelled)}
  {
    var w, w' := ExecutionEndsInRun(clock, events, rulesOf, p, elapsed, Some(answer));
    TrappedForGood(clock, events + [Resume(p, elapsed, Some(answer))], more, w.processes[p].id,
                   {Executed, Verifying, Verified, Archived, Cancelled}, {}, rulesOf);
  }

  // ----- The end of a verification -----

  /** There is a rule, and the metrics satisfy every rule. */
  predicate Confirms(rules: seq<Rule>, metrics: Option<Signals>) {
    var judged := if metrics.None? then rules else EvaluateRules(rules, metrics.value);
    judged != [] && AllSatisfied(judged)
  }

  /** What the call `p` is about to judge confirms the automation it names. */
  ghost predicate VerdictConfirms(w: World, p: nat)
    requires p < |w.processes| && AwaitsVerdict(w.processes[p])
  {
    var found := Find(w.snapshot.automations, w.processes[p].id);
    found.Some? && Confirms(found.value.rules, w.processes[p].pending[0].metrics)
  }

  lemma VerdictMove(a: Automation, request: Request, now: int, executor: Option<string>)
    requires a.status == Verifying && request.to == Verified
    ensures
      var change := Moves(a, request, now, executor);
      change.Change? == Confirms(a.rules, request.metrics) && (change.Change? ==> change.automation.status == Verified)
  {}

  /** Once the judging call has made its request, no call is about to judge, or to report an
      execution of, the automation that was being verified. */
  lemma NoneAboutVerdict(w: World, w': World, p: nat, rest: seq<Request>)
    requires TurnInv(w) && VerdictInv(w) && p < |w.processes| && AwaitsVerdict(w.processes[p])
    requires rest == [] || rest == w.processes[p].pending[1..]
    requires w'.processes == w.processes[p := Process(w.processes[p].id, rest)]
    ensures NoneAbout(w', w.processes[p].id, {Verified, Executed})
  {
    assert VerdictShaped(w.processes[p].pending) && WellShaped(w.processes[p].pending);
    assert forall q | 0 <= q < |w.processes| && HoldsTurn(w.processes[q]) ::
      MayHoldTurn(StatusOf(w, w.processes[q].id));
  }

  lemma VerificationEnds(w: World, p: nat, elapsed: nat, executor: Option<string>) returns (w': World)
    requires TurnInv(w) && VerdictInv(w) && p < |w.processes| && AwaitsVerdict(w.processes[p])
    ensures w' == AfterResume(w, p, elapsed, executor)
    ensures Judged(w, w', p)
  {
    var change: Change;
    w', change := VerdictShows(w, p, elapsed, executor);
    ShownIsJudged(w, w', p, change);
  }

  lemma VerdictShows(w: World, p: nat, elapsed: nat, executor: Option<string>) returns (w': World, change: Change)
    requires VerdictInv(w) && p < |w.processes| && AwaitsVerdict(w.processes[p])
    ensures w' == AfterResume(w, p, elapsed, executor)
    ensures MoveShows(w, w', p, change) && change.Change? == VerdictConfirms(w, p)
    ensures change.Change? ==> change.automation.status == Verified
  {
    var id := w.processes[p].id;
    FindSpec(w.snapshot.automations, id);
    var a := Find(w.snapshot.automations, id).value;
    VerdictMove(a, w.processes[p].pending[0], w.clock + elapsed, executor);
    w', change := ResumeByMove(w, p, elapsed, executor, a);
  }

  /** Call `p` has judged its automation as the rules say, and no other call is about to move it. */
  ghost predicate Judged(w: World, w': World, p: nat)
    requires p < |w.processes| && AwaitsVerdict(w.processes[p])
  {
    var id := w.processes[p].id;
    && StatusOf(w', id) == Some(if VerdictConfirms(w, p) then Verified else Verifying)
    && NoneAbout(w', id, {Verified, Executed})
    && (!VerdictConfirms(w, p) ==> w'.snapshot == w.snapshot)
  }

  lemma ShownIsJudged(w: World, w': World, p: nat, change: Change)
    requires TurnInv(w) && VerdictInv(w) && p < |w.processes| && AwaitsVerdict(w.processes[p])
    requires MoveShows(w, w', p, change) && change.Change? == VerdictConfirms(w, p)
    requires change.Change? ==> change.automation.status == Verified
    ensures Judged(w, w', p)
  {
    NoneAboutVerdict(w, w', p, if change.Change? then w.processes[p].pending[1..] else []);
  }

  lemma VerificationEndsInRun(clock: int, events: seq<Event>, rulesOf: string -> seq<Rule>, p: nat, elapsed: nat,
    executor: Option<string>)
    returns (w: World, w': World)
    requires p < |Run(clock, events, rulesOf).processes| && AwaitsVerdict(Run(clock, events, rulesOf).processes[p])
    ensures w == Run(clock, events, rulesOf) && w' == Run(clock, events + [Resume(p, elapsed, executor)], rulesOf)
    ensures StatusOf(w, w.processes[p].id) == Some(Verifying) && Judged(w, w', p)
  {
    w := Run(clock, events, rulesOf);
    RunKeepsWorldInv(clock, events, rulesOf);
    w' := VerificationEnds(w, p, elapsed, executor);
    RunSnoc(clock, events, Resume(p, elapsed, executor), rulesOf);
  }

  /** A verification is final, whatever other calls are under way or follow: if the rules are not
      confirmed, it is refused and the automation stays in `verifying` through every further run
      of calls; if they are, it is verified and never anything but verified or archived. So an
      automation is stuck in `verifying` exactly when its verification failed. */
  lemma FailedVerificationIsStuck(
    clock: int, events: seq<Event>, rulesOf: string -> seq<Rule>, p: nat, elapsed: nat, executor: Option<string>,
    more: seq<Event>)
    requires p < |Run(clock, events, rulesOf).processes| && AwaitsVerdict(Run(clock, events, rulesOf).processes[p])
    ensures
      var w := Run(clock, events, rulesOf);
      var id, judged := w.processes[p].id, events + [Resume(p, elapsed, executor)];
      && StatusOf(w, id) == Some(Verifying)
      && (!VerdictConfirms(w, p) ==>
            && Run(clock, judged, rulesOf).snapshot == w.snapshot
            && StatusOf(Run(clock, judged + more, rulesOf), id) == Some(Verifying))
      && (VerdictConfirms(w, p) ==>
            && StatusOf(Run(clock, judged, rulesOf), id) == Some(Verified)
            && StatusOf(Run(clock, judged + more, rulesOf), id) in {Some(Verified), Some(Archived)})
  {
    var e := Resume(p, elapsed, executor);
    var w, w' := VerificationEndsInRun(clock, events, rulesOf, p, elapsed, executor);
    if VerdictConfirms(w, p) {
      TrappedForGood(clock, events + [e], more, w.processes[p].id, {Verified, Archived}, {}, rulesOf);
    } else {
      TrappedForGood(clock, events + [e], more, w.processes[p].id, {Verifying}, {Verified, Executed}, rulesOf);
    }
  }

  // ----- Runs in which they fail -----

  /** The run of `events` has automation `a` and these calls under way. */
  ghost predicate Reaches(clock: int, events: seq<Event>, rulesOf: string -> seq<Rule>, a: Automation,
    processes: seq<Process>) {
    At(Run(clock, events, rulesOf), clock, a, processes)
  }

  ghost predicate At(w: World, clock: int, a: Automation, processes: seq<Process>) {
    w.clock == clock && w.processes == processes && Find(w.snapshot.automations, a.id) == Some(a)
  }

  lemma CreateReaches(clock: int, input: CreateInput, id: string, rulesOf: string -> seq<Rule>) returns (a: Automation)
    requires InputError(input) == None
    ensures Reaches(clock, [CreateAndPrepare(input, id, 0)], rulesOf, a, [Process(id, [Plain(Prepared)])])
    ensures a.id == id && a.status == Draft && a.rules == rulesOf(TemplateFor(EMPTY_SNAPSHOT.learning, input))
  {
    FirstStep(clock, CreateAndPrepare(input, id, 0), rulesOf);
    a := CreateAt(Initial(clock), input, id, rulesOf);
  }

  lemma FirstStep(clock: int, e: Event, rulesOf: string -> seq<Rule>)
    ensures Run(clock, [e], rulesOf) == Step(Initial(clock), e, rulesOf)
  {
    assert [e][..0] == [];
  }

  lemma CreateAt(w: World, input: CreateInput, id: string, rulesOf: string -> seq<Rule>) returns (a: Automation)
    requires InputError(input) == None && w == Initial(w.clock)
    ensures At(Step(w, CreateAndPrepare(input, id, 0), rulesOf), w.clock, a, [Process(id, [Plain(Prepared)])])
    ensures a.id == id && a.status == Draft && a.rules == rulesOf(TemplateFor(EMPTY_SNAPSHOT.learning, input))
  {
    var created := Create(EMPTY_SNAPSHOT, input, id, w.clock, rulesOf);
    a := created.automation;
    assert created.snapshot.automations == [a];
  }

  function Verification(metrics: Signals): seq<Request> {
    [Request(Verifying, None, false, Some(metrics)), Request(Verified, None, false, Some(metrics))]
  }

  /** What the calls used here request of an automation they find. */
  lemma Programs(s: Snapshot, a: Automation, metrics: Signals)
    requires Find(s.automations, a.id) == Some(a)
    ensures a.status == Prepared ==> Program(s, ApproveCall(a.id)) == [Plain(WaitingApproval), Plain(Approved)]
    ensures a.status == Approved ==> Program(s, ExecuteCall(a.id)) == [Plain(Executing), Plain(Executed)]
    ensures a.status == Executed ==> Program(s, VerifyCall(a.id, Some(metrics))) == Verification(metrics)
  {}

  lemma StartReaches(
    clock: int, events: seq<Event>, rulesOf: string -> seq<Rule>, a: Automation, processes: seq<Process>,
    call: ServiceCall, next: seq<Request>)
    requires Reaches(clock, events, rulesOf, a, processes)
    requires Program(Run(clock, events, rulesOf).snapshot, call) == next
    ensures Reaches(clock, events + [Start(call)], rulesOf, a, processes + [Process(call.id, next)])
  {
    RunSnoc(clock, events, Start(call), rulesOf);
  }

  /** The last call under way makes its next request, which is granted. */
  lemma ResumeReaches(
    clock: int, events: seq<Event>, rulesOf: string -> seq<Rule>, a: Automation, before: seq<Process>,
    request: Request, rest: seq<Request>,
    executor: Option<string>)
    returns (b: Automation)
    requires Reaches(clock, events, rulesOf, a, before + [Process(a.id, [request] + rest)])
    requires Moves(a, request, clock, executor).Change?
    ensures Reaches(clock, events + [Resume(|before|, 0, executor)], rulesOf, b, before + [Process(a.id, rest)])
    ensures Moves(a, request, clock, executor) == Change(b) && b.id == a.id && b.status == request.to
  {
    RunSnoc(clock, events, Resume(|before|, 0, executor), rulesOf);
    MoveKeepsId(a, request, clock, executor);
    assert ([request] + rest)[1..] == rest;
    var w', change := ResumeByMove(Run(clock, events, rulesOf), |before|, 0, executor, a);
    b := change.automation;
  }

  /** A call of two requests, both granted. */
  lemma CallReaches(
    clock: int, events: seq<Event>, rulesOf: string -> seq<Rule>, a: Automation, before: seq<Process>,
    call: ServiceCall,
    first: Request, second: Request, b: Automation, c: Automation, executor: Option<string>)
    requires Reaches(clock, events, rulesOf, a, before) && call.id == a.id
    requires Program(Run(clock, events, rulesOf).snapshot, call) == [first, second]
    requires Moves(a, first, clock, None) == Change(b) && Moves(b, second, clock, executor) == Change(c)
    ensures Reaches(clock, events + Begin(call, |before|), rulesOf, b, before + [Process(a.id, [second])])
    ensures Reaches(clock, events + Begin(call, |before|) + [Resume(|before|, 0, executor)], rulesOf, c,
      before + [Process(a.id, [])])
  {
    BeginReaches(clock, events, rulesOf, a, before, call, first, second, b);
    MoveKeepsId(a, first, clock, None);
    assert [second] == [second] + [];
    var _ := ResumeReaches(clock, events + Begin(call, |before|), rulesOf, b, before, second, [], executor);
  }

  function Begin(call: ServiceCall, p: nat): seq<Event> {
    [Start(call), Resume(p, 0, None)]
  }

  /** A call of two requests, the first granted. */
  lemma BeginReaches(
    clock: int, events: seq<Event>, rulesOf: string -> seq<Rule>, a: Automation, before: seq<Process>,
    call: ServiceCall,
    first: Request, second: Request, b: Automation)
    requires Reaches(clock, events, rulesOf, a, before) && call.id == a.id
    requires Program(Run(clock, events, rulesOf).snapshot, call) == [first, second]
    requires Moves(a, first, clock, None) == Change(b)
    ensures Reaches(clock, events + Begin(call, |before|), rulesOf, b, before + [Process(a.id, [second])])
  {
    StartReaches(clock, events, rulesOf, a, before, call, [first] + [second]);
    assert [first] + [second] == [first, second];
    assert events + [Start(call)] + [Resume(|before|, 0, None)] == events + Begin(call, |before|);
    var _ := ResumeReaches(clock, events + [Start(call)], rulesOf, a, before, first, [second], None);
  }

  /** The automation entering a stage at `now`, where the move changes nothing else. */
  function Moved(a: Automation, to: Status, now: int): Automation {
    a.(status := to, timeline := a.timeline[to := now])
  }

  function ApprovedRun(input: CreateInput, id: string): seq<Event> {
    [CreateAndPrepare(input, id, 0)] + [Resume(0, 0, None)] + Begin(ApproveCall(id), 1) + [Resume(1, 0, None)]
  }

  /** An automation is created, prepared, approved, and its execution has begun. */
  function ExecutingRun(input: CreateInput, id: string): seq<Event> {
    ApprovedRun(input, id) + Begin(ExecuteCall(id), 2)
  }

  /** It is executed, and its verification has begun. */
  function VerifyingRun(input: CreateInput, id: string, metrics: Signals): seq<Event> {
    ExecutingRun(input, id) + [Resume(2, 0, Some("done"))] + Begin(VerifyCall(id, Some(metrics)), 3)
  }

  function Finished(id: string, n: nat): seq<Process> {
    seq(n, _ => Process(id, []))
  }

  lemma ApprovedRunReaches(clock: int, input: CreateInput, id: string, rulesOf: string -> seq<Rule>)
    returns (a: Automation)
    requires InputError(input) == None
    ensures a.id == id && a.status == Approved && a.merchantApproved
    ensures a.rules == rulesOf(TemplateFor(EMPTY_SNAPSHOT.learning, input))
    ensures Reaches(clock, ApprovedRun(input, id), rulesOf, a, Finished(id, 2))
  {
    var draft := CreateReaches(clock, input, id, rulesOf);
    assert [Plain(Prepared)] == [Plain(Prepared)] + [];
    assert [Process(id, [Plain(Prepared)])] == [] + [Process(id, [Plain(Prepared)] + [])];
    var prepared := ResumeReaches(clock, [CreateAndPrepare(input, id, 0)], rulesOf, draft, [], Plain(Prepared), [],
      None);
    assert [] + [Process(id, [])] == Finished(id, 1) && Finished(id, 1) + [Process(id, [])] == Finished(id, 2);
    var waiting, approved := ApprovalMoves(prepared, clock);
    a := approved;
    Programs(Run(clock, [CreateAndPrepare(input, id, 0)] + [Resume(0, 0, None)], rulesOf).snapshot, prepared, map[]);
    CallReaches(clock, [CreateAndPrepare(input, id, 0)] + [Resume(0, 0, None)], rulesOf, prepared, Finished(id, 1),
                ApproveCall(id), Plain(WaitingApproval), Plain(Approved), waiting, a, None);
  }

  /** Approval moves a prepared automation to waiting and on to approved. */
  lemma ApprovalMoves(a: Automation, clock: int) returns (b: Automation, c: Automation)
    requires a.status == Prepared
    ensures b == Moved(a, WaitingApproval, clock) && Moves(a, Plain(WaitingApproval), clock, None) == Change(b)
    ensures Moves(b, Plain(Approved), clock, None) == Change(c)
    ensures c.id == a.id && c.status == Approved && c.merchantApproved && c.rules == a.rules
  {
    b := Moved(a, WaitingApproval, clock);
    c := Moves(b, Plain(Approved), clock, None).automation;
  }

  /** Execution moves an approved automation to executing and on to executed. */
  lemma ExecutionMoves(a: Automation, clock: int) returns (b: Automation, c: Automation)
    requires a.status == Approved && a.merchantApproved
    ensures b == Moved(a, Executing, clock) && Moves(a, Plain(Executing), clock, None) == Change(b)
    ensures Moves(b, Plain(Executed), clock, Some("done")) == Change(c)
    ensures c.id == a.id && c.status == Executed && c.rules == a.rules
  {
    b := Moved(a, Executing, clock);
    c := Moves(b, Plain(Executed), clock, Some("done")).automation;
  }

  lemma ExecutingRunReaches(clock: int, input: CreateInput, id: string, rulesOf: string -> seq<Rule>)
    returns (a: Automation, b: Automation)
    requires InputError(input) == None
    ensures a.id == id && a.status == Executing
    ensures Reaches(clock, ExecutingRun(input, id), rulesOf, a, Finished(id, 2) + [Process(id, [Plain(Executed)])])
    ensures b.id == id && b.status == Executed && b.rules == rulesOf(TemplateFor(EMPTY_SNAPSHOT.learning, input))
    ensures Reaches(clock, ExecutingRun(input, id) + [Resume(2, 0, Some("done"))], rulesOf, b, Finished(id, 3))
  {
    var approved := ApprovedRunReaches(clock, input, id, rulesOf);
    a, b := ExecutionMoves(approved, clock);
    Programs(Run(clock, ApprovedRun(input, id), rulesOf).snapshot, approved, map[]);
    CallReaches(clock, ApprovedRun(input, id), rulesOf, approved, Finished(id, 2),
                ExecuteCall(id), Plain(Executing), Plain(Executed), a, b, Some("done"));
    assert Finished(id, 2) + [Process(id, [])] == Finished(id, 3);
  }

  /** Every automation's plan can fail: a run in which the executor throws, and what follows. */
  lemma AnyPlanCanFail(clock: int, input: CreateInput, id: string, rulesOf: string -> seq<Rule>, more: seq<Event>)
    requires InputError(input) == None
    ensures StatusOf(Run(clock, ExecutingRun(input, id) + [Resume(2, 0, None)], rulesOf), id) == Some(Executing)
    ensures
      var later := Run(clock, ExecutingRun(input, id) + [Resume(2, 0, None)] + more, rulesOf);
      StatusOf(later, id) in {Some(Executing), Some(Cancelled)}
  {
    var a, _ := ExecutingRunReaches(clock, input, id, rulesOf);
    assert Run(clock, ExecutingRun(input, id), rulesOf).processes[2] == Process(id, [Plain(Executed)]);
    FailedPlanIsStuck(clock, ExecutingRun(input, id), rulesOf, 2, 0, more);
  }

  lemma VerifyingRunReaches(clock: int, input: CreateInput, id: string, rulesOf: string -> seq<Rule>, metrics: Signals)
    returns (a: Automation)
    requires InputError(input) == None
    ensures a.id == id && a.rules == EvaluateRules(rulesOf(TemplateFor(EMPTY_SNAPSHOT.learning, input)), metrics)
    ensures Reaches(clock, VerifyingRun(input, id, metrics), rulesOf, a,
      Finished(id, 3) + [Process(id, [Verification(metrics)[1]])])
  {
    var _, executed := ExecutingRunReaches(clock, input, id, rulesOf);
    a := VerifyReaches(clock, ExecutingRun(input, id) + [Resume(2, 0, Some("done"))], rulesOf, executed,
      Finished(id, 3), metrics);
  }

  lemma VerifyReaches(
    clock: int, events: seq<Event>, rulesOf: string -> seq<Rule>, a: Automation, before: seq<Process>, metrics: Signals)
    returns (b: Automation)
    requires Reaches(clock, events, rulesOf, a, before) && a.status == Executed
    ensures b.id == a.id && b.rules == EvaluateRules(a.rules, metrics)
    ensures Reaches(clock, events + Begin(VerifyCall(a.id, Some(metrics)), |before|), rulesOf, b,
      before + [Process(a.id, [Verification(metrics)[1]])])
  {
    b := ApplySignals(Moved(a, Verifying, clock), Some(metrics));
    Programs(Run(clock, events, rulesOf).snapshot, a, metrics);
    BeginReaches(clock, events, rulesOf, a, before, VerifyCall(a.id, Some(metrics)), Verification(metrics)[0],
      Verification(metrics)[1], b);
  }

  /** Every automation's verification can fail: a run in which the metrics do not confirm the rules
      of its template, and what follows. */
  lemma AnyVerificationCanFail(
    clock: int, input: CreateInput, id: string, rulesOf: string -> seq<Rule>, metrics: Signals, more: seq<Event>)
    requires InputError(input) == None
    requires !Confirms(rulesOf(TemplateFor(EMPTY_SNAPSHOT.learning, input)), Some(metrics))
    ensures StatusOf(Run(clock, VerifyingRun(input, id, metrics) + [Resume(3, 0, None)] + more, rulesOf), id) ==
      Some(Verifying)
  {
    var a := VerifyingRunReaches(clock, input, id, rulesOf, metrics);
    EvaluatedAgain(rulesOf(TemplateFor(EMPTY_SNAPSHOT.learning, input)), metrics);
    assert Run(clock, VerifyingRun(input, id, metrics), rulesOf).processes[3] ==
      Process(id, [Verification(metrics)[1]]);
    FailedVerificationIsStuck(clock, VerifyingRun(input, id, metrics), rulesOf, 3, 0, None, more);
  }

  lemma EvaluatedAgain(rules: seq<Rule>, metrics: Signals)
    ensures EvaluateRules(EvaluateRules(rules, metrics), metrics) == EvaluateRules(rules, metrics)
  {}

  /** One metric off is enough. */
  lemma OneMetricOffFails(rules: seq<Rule>, metrics: Signals, i: nat)
    requires i < |rules| && rules[i].metric in metrics && metrics[rules[i].metric] == Flag(false)
    ensures !Confirms(rules, Some(metrics))
  {
    assert !EvaluateRules(rules, metrics)[i].satisfied;
  }
}
