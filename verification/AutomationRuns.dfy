/** The automation service calls of one store, interleaved.

    A service call reads the snapshot once, which fixes the transitions it will request, and
    then requests them one after the other; each transition is one atomic step, and steps of
    other calls may come in between. A call ends at its first refused transition. */
module AutomationRuns {
  import opened Common
  import opened AutomationModel
  import opened AutomationInvariants

  datatype LifecycleStep =
    | Prepare | SubmitForApproval | Approve | Reject | RequestChanges | Execute | Verify | Archive | Cancel

  function ResolveLifecycle(step: LifecycleStep, current: Status): Status {
    match step
    case Prepare => if current == Draft then Prepared else current
    case SubmitForApproval => if current == Prepared then WaitingApproval else current
    case Approve => Approved
    case Reject => Cancelled
    case RequestChanges => Prepared
    case Execute => if current == Approved then Executing else if current == Executing then Executed else current
    case Verify => if current == Executed then Verifying else if current == Verifying then Verified else current
    case Archive => Archived
    case Cancel => Cancelled
  }

  datatype ServiceCall =
    | SubmitCall(id: string)
    | ApproveCall(id: string)
    | RejectCall(id: string, note: Option<string>)
    | RequestChangesCall(id: string, text: string)
    | CancelCall(id: string)
    | ArchiveCall(id: string)
    | ExecuteCall(id: string)
    | VerifyCall(id: string, metrics: Option<Signals>)
    | LifecycleCall(id: string, step: LifecycleStep, note: Option<string>, metrics: Option<Signals>)

  function Plain(to: Status): Request {
    Request(to, None, false, None)
  }

  /** The transitions of a lifecycle step; none where the call is refused at once. */
  function LifecycleProgram(s: Snapshot, id: string, step: LifecycleStep, note: Option<string>,
    metrics: Option<Signals>): seq<Request> {
    match Find(s.automations, id)
    case None => []
    case Some(a) =>
      var to := ResolveLifecycle(step, a.status);
      if to == a.status && step != Execute then []
      else if step == Execute then [Request(Executing, note, false, metrics), Request(Executed, note, false, metrics)]
      else if step == Verify then [Request(Verifying, note, false, metrics), Request(Verified, note, false, metrics)]
      else [Request(to, note, step == Reject, metrics)]
  }

  function Program(s: Snapshot, call: ServiceCall): seq<Request> {
    match call
    case SubmitCall(_) => [Plain(WaitingApproval)]
    case ApproveCall(id) =>
      (match Find(s.automations, id)
       case None => []
       case Some(a) =>
         if a.status == Prepared then [Plain(WaitingApproval), Plain(Approved)] else [Plain(Approved)])
    case RejectCall(_, note) =>
      [Request(Cancelled, Some(if note.Some? then note.value else "Rejected by merchant"), true, None)]
    case RequestChangesCall(_, text) => [Request(Prepared, Some(text), false, None)]
    case CancelCall(_) => [Plain(Cancelled)]
    case ArchiveCall(_) => [Plain(Archived)]
    case ExecuteCall(id) => LifecycleProgram(s, id, Execute, None, None)
    case VerifyCall(id, metrics) =>
      var found := Find(s.automations, id);
      var used :=
        if metrics.Some? then metrics.value
        else if found.Some? then DefaultMetrics(found.value.rules)
        else map[];
      LifecycleProgram(s, id, Verify, None, Some(used))
    case LifecycleCall(id, step, note, metrics) => LifecycleProgram(s, id, step, note, metrics)
  }

  /** A service call under way: the transitions it has still to request. */
  datatype Process = Process(id: string, pending: seq<Request>)

  /** One call of the external executor, with what the automation was then. */
  datatype Invocation = Invocation(id: string, status: Status, approved: bool)

  datatype World = World(snapshot: Snapshot, clock: int, processes: seq<Process>, invocations: seq<Invocation>)

  datatype Event =
    | CreateDraft(input: CreateInput, newId: string, elapsed: nat)      // one creation of a sync
    | CreateAndPrepare(input: CreateInput, newId: string, elapsed: nat)
    | Start(call: ServiceCall)
    | Resume(p: nat, elapsed: nat, executor: Option<string>)

  function Initial(clock: int): World {
    World(EMPTY_SNAPSHOT, clock, [], [])
  }

  predicate KnownId(s: Snapshot, id: string) {
    exists i | 0 <= i < |s.automations| :: s.automations[i].id == id
  }

  function AfterCreate(w: World, e: Event, rulesOf: string -> seq<Rule>, next: seq<Request>): World
    requires e.CreateDraft? || e.CreateAndPrepare?
  {
    var now := w.clock + e.elapsed;
    if KnownId(w.snapshot, e.newId) then w  // random ids do not repeat
    else
      match Create(w.snapshot, e.input, e.newId, now, rulesOf)
      case NotCreated(_) => w.(clock := now)
      case CreatedRecord(snapshot, _) =>
        w.(snapshot := snapshot, clock := now, processes := w.processes + [Process(e.newId, next)])
  }

  function AfterResume(w: World, p: nat, elapsed: nat, executor: Option<string>): World
    requires p < |w.processes| && w.processes[p].pending != []
  {
    var id, request := w.processes[p].id, w.processes[p].pending[0];
    Resumed(w, p, w.clock + elapsed, ExecutorCalls(w.snapshot, id, request),
            Transition(w.snapshot, id, request, w.clock + elapsed, executor))
  }

  /** The call of the executor a requested transition makes, if it makes one. */
  function ExecutorCalls(s: Snapshot, id: string, request: Request): seq<Invocation> {
    var found := Find(s.automations, id);
    if found.Some? && CallsExecutor(found.value, request)
    then [Invocation(id, found.value.status, found.value.merchantApproved)]
    else []
  }

  /** A refused transition ends the call; a successful one leaves it the rest of its requests. */
  function Resumed(w: World, p: nat, now: int, called: seq<Invocation>, result: TransitionResult): World
    requires p < |w.processes| && w.processes[p].pending != []
  {
    var process := w.processes[p];
    match result
    case Failed(_) => World(w.snapshot, now, w.processes[p := process.(pending := [])], w.invocations + called)
    case Done(snapshot, _) =>
      World(snapshot, now, w.processes[p := process.(pending := process.pending[1..])], w.invocations + called)
  }

  /** One step; an event that does not apply leaves the world alone. */
  function Step(w: World, e: Event, rulesOf: string -> seq<Rule>): World {
    match e
    case CreateDraft(_, _, _) => AfterCreate(w, e, rulesOf, [])
    case CreateAndPrepare(_, _, _) => AfterCreate(w, e, rulesOf, [Plain(Prepared)])
    case Start(call) => w.(processes := w.processes + [Process(call.id, Program(w.snapshot, call))])
    case Resume(p, elapsed, executor) =>
      if p < |w.processes| && w.processes[p].pending != [] then AfterResume(w, p, elapsed, executor) else w
  }

  function Run(clock: int, events: seq<Event>, rulesOf: string -> seq<Rule>): World {
    if events == [] then Initial(clock)
    else Step(Run(clock, events[..|events| - 1], rulesOf), events[|events| - 1], rulesOf)
  }

  // ----- Invariants of the snapshot, over every run -----

  lemma {:induction false} RunKeepsSnapshotInv(clock: int, events: seq<Event>, rulesOf: string -> seq<Rule>)
    ensures
      var w := Run(clock, events, rulesOf);
      SnapshotInv(w.snapshot, w.clock)
  {
    if events != [] {
      var before := events[..|events| - 1];
      RunKeepsSnapshotInv(clock, before, rulesOf);
      StepKeepsSnapshotInv(Run(clock, before, rulesOf), events[|events| - 1], rulesOf);
    }
  }

  lemma StepKeepsSnapshotInv(w: World, e: Event, rulesOf: string -> seq<Rule>)
    requires SnapshotInv(w.snapshot, w.clock)
    ensures SnapshotInv(Step(w, e, rulesOf).snapshot, Step(w, e, rulesOf).clock)
  {
    match e
    case Start(_) =>
    case Resume(p, elapsed, executor) =>
      if p < |w.processes| && w.processes[p].pending != [] {
        ResumeKeepsSnapshotInv(w, p, elapsed, executor);
      }
    case CreateDraft(_, _, _) => CreateKeepsSnapshotInv(w, e, rulesOf, []);
    case CreateAndPrepare(_, _, _) => CreateKeepsSnapshotInv(w, e, rulesOf, [Plain(Prepared)]);
  }

  lemma ResumeKeepsSnapshotInv(w: World, p: nat, elapsed: nat, executor: Option<string>)
    requires SnapshotInv(w.snapshot, w.clock) && p < |w.processes| && w.processes[p].pending != []
    ensures SnapshotInv(AfterResume(w, p, elapsed, executor).snapshot, w.clock + elapsed)
  {
    var holds := SoundAfter(w.snapshot, w.processes[p].id, w.processes[p].pending[0], w.clock, w.clock + elapsed,
      executor);
    ResumeKeeps(w, p, elapsed, executor, holds);
  }

  /** The invariant at time `now`, as a property that a requested transition keeps. */
  lemma SoundAfter(s: Snapshot, id: string, request: Request, clock: int, now: int, executor: Option<string>)
    returns (holds: Snapshot -> bool)
    requires SnapshotInv(s, clock) && clock <= now
    ensures forall s' :: holds(s') ==> SnapshotInv(s', now)
    ensures holds(s)
    ensures Transition(s, id, request, now, executor).Done? ==>
      holds(Transition(s, id, request, now, executor).snapshot)
  {
    holds := (s': Snapshot) => SnapshotInv(s', now);
    TimePasses(s, clock, now);
    if Transition(s, id, request, now, executor).Done? {
      TransitionKeepsInv(s, id, request, clock, now, executor);
    }
  }

  /** A property of snapshots that time and the requested transition keep, resuming keeps. */
  lemma ResumeKeeps(w: World, p: nat, elapsed: nat, executor: Option<string>, holds: Snapshot -> bool)
    requires p < |w.processes| && w.processes[p].pending != [] && holds(w.snapshot)
    requires
      var result := Transition(w.snapshot, w.processes[p].id, w.processes[p].pending[0], w.clock + elapsed, executor);
      result.Done? ==> holds(result.snapshot)
    ensures holds(AfterResume(w, p, elapsed, executor).snapshot)
    ensures AfterResume(w, p, elapsed, executor).clock == w.clock + elapsed
  {}

  lemma CreateKeepsSnapshotInv(w: World, e: Event, rulesOf: string -> seq<Rule>, next: seq<Request>)
    requires SnapshotInv(w.snapshot, w.clock) && (e.CreateDraft? || e.CreateAndPrepare?)
    ensures SnapshotInv(AfterCreate(w, e, rulesOf, next).snapshot, AfterCreate(w, e, rulesOf, next).clock)
  {
    var now := w.clock + e.elapsed;
    TimePasses(w.snapshot, w.clock, now);
    CreateShape(w, e, rulesOf, next);
    if !KnownId(w.snapshot, e.newId) && Create(w.snapshot, e.input, e.newId, now, rulesOf).CreatedRecord? {
      assert FreshId(w.snapshot, e.newId);
      CreateKeepsInv(w.snapshot, e.input, e.newId, w.clock, now, rulesOf);
    }
  }

  lemma CreateShape(w: World, e: Event, rulesOf: string -> seq<Rule>, next: seq<Request>)
    requires e.CreateDraft? || e.CreateAndPrepare?
    ensures
      var w', now := AfterCreate(w, e, rulesOf, next), w.clock + e.elapsed;
      var created := Create(w.snapshot, e.input, e.newId, now, rulesOf);
      && (KnownId(w.snapshot, e.newId) ==> w' == w)
      && (!KnownId(w.snapshot, e.newId) ==> w'.clock == now)
      && (!KnownId(w.snapshot, e.newId) ==>
        w'.snapshot == if created.CreatedRecord? then created.snapshot else w.snapshot)
  {}

  /** The guarantees of the snapshot invariant in plain terms, in every state of every run: approval
      goes with the approved statuses, verified means every one of at least one rule is
      satisfied, stage times are set and ordered, and no two live automations share a key. */
  lemma EveryRunIsSound(clock: int, events: seq<Event>, rulesOf: string -> seq<Rule>, a: Automation, b: Automation)
    requires a in Run(clock, events, rulesOf).snapshot.automations
    requires b in Run(clock, events, rulesOf).snapshot.automations
    ensures a.merchantApproved <==> a.status in {Approved, Executing, Executed, Verifying, Verified, Archived}
    ensures a.status in {Verified, Archived} ==> a.rules != [] && forall i | 0 <= i < |a.rules| :: a.rules[i].satisfied
    ensures a.status != Cancelled ==> forall s: Status, t: Status | Stage(s) <= Stage(t) <= Stage(a.status) ::
      s in a.timeline && t in a.timeline && a.timeline[s] <= a.timeline[t]
    ensures a.key == b.key && a.status != Archived && b.status != Archived ==> a == b
    ensures |Run(clock, events, rulesOf).snapshot.history| <= 500
    ensures forall t | t in Run(clock, events, rulesOf).snapshot.learning.approved ::
      t !in Run(clock, events, rulesOf).snapshot.learning.rejected
  {
    RunKeepsSnapshotInv(clock, events, rulesOf);
    var w := Run(clock, events, rulesOf);
    assert AutomationInv(a, w.clock) && AutomationInv(b, w.clock);
    var i :| 0 <= i < |w.snapshot.automations| && w.snapshot.automations[i] == a;
    var j :| 0 <= j < |w.snapshot.automations| && w.snapshot.automations[j] == b;
    assert a.id == b.id ==> i == j;
  }

  // ----- The executor runs at most once -----

  function StatusOf(w: World, id: string): Option<Status> {
    match Find(w.snapshot.automations, id)
    case None => None
    case Some(a) => Some(a.status)
  }

  /** The call has entered `executing` and has still to request `executed`. */
  predicate HoldsTurn(process: Process) {
    process.pending != [] && process.pending[0].to == Executed
  }

  /** `executed` is requested by nothing but the second half of an execution. */
  predicate WellShaped(pending: seq<Request>) {
    || (forall i | 0 <= i < |pending| :: pending[i].to != Executed)
    || |pending| == 1
    || (|pending| == 2 && pending[0].to == Executing && pending[1].to == Executed)
  }

  predicate HasStarted(status: Option<Status>) {
    status.Some? && Stage(status.value) >= Stage(Executing)
  }

  predicate MayHoldTurn(status: Option<Status>) {
    status == Some(Executing) || status == Some(Cancelled)
  }

  ghost predicate TurnInv(w: World) {
    && (forall p | 0 <= p < |w.processes| :: WellShaped(w.processes[p].pending))
    && (forall p | 0 <= p < |w.processes| && HoldsTurn(w.processes[p]) :: MayHoldTurn(StatusOf(w, w.processes[p].id)))
    && (forall i | 0 <= i < |w.invocations| ::
          HasStarted(StatusOf(w, w.invocations[i].id)) && w.invocations[i].approved &&
            w.invocations[i].status == Executing)
    && OneTurnEach(w)
  }

  /** Per automation, one call holds the turn or one call of the executor has been made, not both. */
  ghost predicate OneTurnEach(w: World) {
    && (forall p, q | 0 <= p < q < |w.processes| && HoldsTurn(w.processes[p]) && HoldsTurn(w.processes[q]) ::
          w.processes[p].id != w.processes[q].id)
    && (forall i, j | 0 <= i < j < |w.invocations| :: w.invocations[i].id != w.invocations[j].id)
    && (forall p, i | 0 <= p < |w.processes| && HoldsTurn(w.processes[p]) && 0 <= i < |w.invocations| ::
          w.processes[p].id != w.invocations[i].id)
  }

  /** What a creation does to statuses and calls. */
  ghost predicate CreateEffect(w: World, w': World) {
    && (forall id | StatusOf(w, id).Some? :: StatusOf(w', id) == StatusOf(w, id))
    && w'.invocations == w.invocations
    && w.processes <= w'.processes
    && (forall p | |w.processes| <= p < |w'.processes| ::
          w'.processes[p].pending == [] || w'.processes[p].pending == [Plain(Prepared)])
  }

  lemma CreateHasEffect(w: World, e: Event, rulesOf: string -> seq<Rule>, next: seq<Request>)
    requires DistinctIds(w.snapshot.automations) && (e.CreateDraft? || e.CreateAndPrepare?)
    requires next == [] || next == [Plain(Prepared)]
    ensures CreateEffect(w, AfterCreate(w, e, rulesOf, next))
  {
    var now := w.clock + e.elapsed;
    if !KnownId(w.snapshot, e.newId) {
      var result := Create(w.snapshot, e.input, e.newId, now, rulesOf);
      if result.CreatedRecord? {
        UpsertSpec(w.snapshot.automations, result.automation);
        FindSpec(w.snapshot.automations, e.newId);
      }
    }
  }

  /** What resuming call `p` does to statuses and calls: its next request is refused, which ends
      the call, or moves its own automation along the table. The executor is called exactly
      when the request is `executed` and the table and the approval allow it. */
  ghost predicate ResumeEffect(w: World, w': World, p: nat)
    requires p < |w.processes| && w.processes[p].pending != []
  {
    var id, pending := w.processes[p].id, w.processes[p].pending;
    var from, to := StatusOf(w, id), pending[0].to;
    var refused := w'.processes == w.processes[p := Process(id, [])] && StatusOf(w', id) == from;
    var moved :=
      && w'.processes == w.processes[p := Process(id, pending[1..])]
      && from.Some? && to in AllowedFrom(from.value) && StatusOf(w', id) == Some(to);
    && (refused || moved)
    && (forall other | other != id :: StatusOf(w', other) == StatusOf(w, other))
    && (w'.invocations == w.invocations ||
         (&& to == Executed && from.Some? && Executed in AllowedFrom(from.value)
          && w'.invocations == w.invocations + [Invocation(id, from.value, true)]))
  }

  lemma ResumeHasEffect(w: World, p: nat, elapsed: nat, executor: Option<string>)
    requires DistinctIds(w.snapshot.automations)
    requires p < |w.processes| && w.processes[p].pending != []
    ensures ResumeEffect(w, AfterResume(w, p, elapsed, executor), p)
  {
    var called, result := ResumeFacts(w, p, elapsed, executor);
    ResultHasEffect(w, p, w.clock + elapsed, called, result);
  }

  lemma ResumeFacts(w: World, p: nat, elapsed: nat, executor: Option<string>)
    returns (called: seq<Invocation>, result: TransitionResult)
    requires p < |w.processes| && w.processes[p].pending != []
    ensures AfterResume(w, p, elapsed, executor) == Resumed(w, p, w.clock + elapsed, called, result)
    ensures ResultFits(w, w.processes[p].id, w.processes[p].pending[0].to, called, result)
  {
    var id, request := w.processes[p].id, w.processes[p].pending[0];
    called := ExecutorCallsFacts(w, id, request);
    result := TransitionIsUpsert(w.snapshot, id, request, w.clock + elapsed, executor);
  }

  lemma ExecutorCallsFacts(w: World, id: string, request: Request) returns (called: seq<Invocation>)
    ensures called == ExecutorCalls(w.snapshot, id, request)
    ensures called == [] ||
      (&& request.to == Executed && StatusOf(w, id).Some? && Executed in AllowedFrom(StatusOf(w, id).value)
       && called == [Invocation(id, StatusOf(w, id).value, true)])
  {
    called := ExecutorCalls(w.snapshot, id, request);
  }

  ghost predicate ResultFits(w: World, id: string, to: Status, called: seq<Invocation>, result: TransitionResult) {
    var from := StatusOf(w, id);
    && (result.Done? ==>
          && from.Some? && to in AllowedFrom(from.value)
          && result.automation.id == id && result.automation.status == to
          && result.snapshot.automations == Upsert(w.snapshot.automations, result.automation))
    && (called == [] ||
         (&& to == Executed && from.Some? && Executed in AllowedFrom(from.value)
          && called == [Invocation(id, from.value, true)]))
  }

  lemma TransitionIsUpsert(s: Snapshot, id: string, request: Request, now: int, executor: Option<string>)
    returns (result: TransitionResult)
    ensures result == Transition(s, id, request, now, executor)
    ensures
      var found := Find(s.automations, id);
      result.Done? ==>
        && found.Some? && request.to in AllowedFrom(found.value.status)
        && result.automation.id == id && result.automation.status == request.to
        && result.snapshot.automations == Upsert(s.automations, result.automation)
  {
    FindSpec(s.automations, id);
    result := Transition(s, id, request, now, executor);
  }

  lemma ResultHasEffect(w: World, p: nat, now: int, called: seq<Invocation>, result: TransitionResult)
    requires DistinctIds(w.snapshot.automations)
    requires p < |w.processes| && w.processes[p].pending != []
    requires ResultFits(w, w.processes[p].id, w.processes[p].pending[0].to, called, result)
    ensures ResumeEffect(w, Resumed(w, p, now, called, result), p)
  {
    var w' := Resumed(w, p, now, called, result);
    if result.Done? {
      UpsertSpec(w.snapshot.automations, result.automation);
    }
    assert called == [] ==> w'.invocations == w.invocations;
  }

  lemma ProgramIsWellShaped(s: Snapshot, call: ServiceCall)
    ensures WellShaped(Program(s, call))
    ensures Program(s, call) != [] ==> Program(s, call)[0].to !in {Executed, Verified}
  {}

  lemma StepKeepsTurnInv(w: World, e: Event, rulesOf: string -> seq<Rule>)
    requires SnapshotInv(w.snapshot, w.clock) && TurnInv(w)
    ensures TurnInv(Step(w, e, rulesOf))
  {
    match e
    case Start(call) =>
      StartKeepsTurnInv(w, call);
    case Resume(p, elapsed, executor) =>
      if p < |w.processes| && w.processes[p].pending != [] {
        ResumeHasEffect(w, p, elapsed, executor);
        ResumeKeepsTurnInv(w, AfterResume(w, p, elapsed, executor), p);
      }
    case CreateDraft(_, _, _) =>
      CreateHasEffect(w, e, rulesOf, []);
      CreateKeepsTurnInv(w, Step(w, e, rulesOf));
    case CreateAndPrepare(_, _, _) =>
      CreateHasEffect(w, e, rulesOf, [Plain(Prepared)]);
      CreateKeepsTurnInv(w, Step(w, e, rulesOf));
  }

  lemma StartKeepsTurnInv(w: World, call: ServiceCall)
    requires TurnInv(w)
    ensures TurnInv(w.(processes := w.processes + [Process(call.id, Program(w.snapshot, call))]))
  {
    ProgramIsWellShaped(w.snapshot, call);
    var w' := w.(processes := w.processes + [Process(call.id, Program(w.snapshot, call))]);
    assert forall id :: StatusOf(w', id) == StatusOf(w, id);
    assert !HoldsTurn(w'.processes[|w.processes|]);
  }

  lemma CreateKeepsTurnInv(w: World, w': World)
    requires TurnInv(w) && CreateEffect(w, w')
    ensures TurnInv(w')
  {}

  /** How one resumed call fits the turns: if it now holds the turn, its automation came from
      `approved`; if it called the executor, it held the turn and its automation was executing. */
  ghost predicate TurnStep(w: World, w': World, p: nat)
    requires p < |w.processes|
  {
    var id := w.processes[p].id;
    && |w'.processes| == |w.processes| && w'.processes[p].id == id
    && (forall q | 0 <= q < |w.processes| && q != p :: w'.processes[q] == w.processes[q])
    && WellShaped(w'.processes[p].pending)
    && (HoldsTurn(w'.processes[p]) ==> StatusOf(w, id) == Some(Approved) && StatusOf(w', id) == Some(Executing))
    && (w'.invocations == w.invocations
        || (&& HoldsTurn(w.processes[p]) && !HoldsTurn(w'.processes[p])
            && w'.invocations == w.invocations + [Invocation(id, Executing, true)]))
    && (forall other | HasStarted(StatusOf(w, other)) :: HasStarted(StatusOf(w', other)))
    && (forall other | MayHoldTurn(StatusOf(w, other)) && !(other == id && HoldsTurn(w.processes[p])) ::
          MayHoldTurn(StatusOf(w', other)))
  }

  lemma ResumeIsTurnStep(w: World, w': World, p: nat)
    requires p < |w.processes| && w.processes[p].pending != [] && ResumeEffect(w, w', p)
    requires WellShaped(w.processes[p].pending)
    requires HoldsTurn(w.processes[p]) ==> MayHoldTurn(StatusOf(w, w.processes[p].id))
    ensures TurnStep(w, w', p)
  {
    var pending := w.processes[p].pending;
    assert w'.processes[p].pending == [] || w'.processes[p].pending == pending[1..];
    assert forall i | 0 <= i < |pending[1..]| :: pending[1..][i] == pending[i + 1];
  }

  lemma ResumeKeepsTurnInv(w: World, w': World, p: nat)
    requires TurnInv(w) && p < |w.processes| && w.processes[p].pending != [] && ResumeEffect(w, w', p)
    ensures TurnInv(w')
  {
    ResumeIsTurnStep(w, w', p);
    TurnStepKeepsStatuses(w, w', p);
    TurnStepKeepsOneTurn(w, w', p);
  }

  lemma TurnStepKeepsStatuses(w: World, w': World, p: nat)
    requires TurnInv(w) && p < |w.processes| && TurnStep(w, w', p)
    ensures forall q | 0 <= q < |w'.processes| && HoldsTurn(w'.processes[q]) ::
      MayHoldTurn(StatusOf(w', w'.processes[q].id))
    ensures forall i | 0 <= i < |w'.invocations| ::
      HasStarted(StatusOf(w', w'.invocations[i].id)) && w'.invocations[i].approved &&
        w'.invocations[i].status == Executing
  {}

  lemma TurnStepKeepsOneTurn(w: World, w': World, p: nat)
    requires TurnInv(w) && p < |w.processes| && TurnStep(w, w', p)
    ensures OneTurnEach(w')
  {
    if HoldsTurn(w'.processes[p]) {
      NobodyElseHasStarted(w, w', p);
    }
  }

  /** Where a call takes the turn, no other call holds it and the executor was not called. */
  lemma NobodyElseHasStarted(w: World, w': World, p: nat)
    requires TurnInv(w) && p < |w.processes| && TurnStep(w, w', p) && HoldsTurn(w'.processes[p])
    ensures forall q | 0 <= q < |w.processes| && HoldsTurn(w.processes[q]) :: w.processes[q].id != w.processes[p].id
    ensures forall i | 0 <= i < |w.invocations| :: w.invocations[i].id != w.processes[p].id
  {
    assert forall q | 0 <= q < |w.processes| && HoldsTurn(w.processes[q]) ::
      MayHoldTurn(StatusOf(w, w.processes[q].id));
    assert forall i | 0 <= i < |w.invocations| :: HasStarted(StatusOf(w, w.invocations[i].id));
  }

  lemma {:induction false} RunKeepsTurnInv(clock: int, events: seq<Event>, rulesOf: string -> seq<Rule>)
    ensures TurnInv(Run(clock, events, rulesOf))
  {
    if events != [] {
      var before := events[..|events| - 1];
      RunKeepsTurnInv(clock, before, rulesOf);
      RunKeepsSnapshotInv(clock, before, rulesOf);
      StepKeepsTurnInv(Run(clock, before, rulesOf), events[|events| - 1], rulesOf);
    }
  }

  /** Over every interleaving of service calls the external executor is called at most once for
      an automation, and only while it is executing with merchant approval. */
  lemma ExecutorRunsAtMostOnce(clock: int, events: seq<Event>, rulesOf: string -> seq<Rule>, i: nat, j: nat)
    requires i < |Run(clock, events, rulesOf).invocations| && j < |Run(clock, events, rulesOf).invocations|
    ensures
      var calls := Run(clock, events, rulesOf).invocations;
      && (calls[i].id == calls[j].id ==> i == j)
      && calls[i].approved && calls[i].status == Executing
  {
    RunKeepsTurnInv(clock, events, rulesOf);
  }
}
