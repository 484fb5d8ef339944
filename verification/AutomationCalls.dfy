/** What each service call does to the automation it names when it runs undisturbed, for every
    status the automation can have: where it ends, with which flags and note, and what is learned. */
module AutomationCalls {
  import opened Common
  import opened AutomationModel
  import opened AutomationInvariants
  import opened AutomationRuns
  import opened AutomationOutcomes

  /** A call is started and its requests are made, of which no call has more than two. */
  function Alone(w: World, call: ServiceCall, elapsed: nat, executor: Option<string>,
    rulesOf: string -> seq<Rule>): World {
    var p := |w.processes|;
    var started := Step(w, Start(call), rulesOf);
    Step(Step(started, Resume(p, elapsed, executor), rulesOf), Resume(p, elapsed, executor), rulesOf)
  }

  predicate Found(w: World, a: Automation) {
    Find(w.snapshot.automations, a.id) == Some(a)
  }

  /** The call was refused: nothing is saved. */
  predicate Untouched(w: World, w': World) {
    w'.snapshot == w.snapshot
  }

  /** The automation has come to a status, entered at `now`, with its key. */
  predicate Reached(w': World, a: Automation, status: Status, now: int) {
    var found := Find(w'.snapshot.automations, a.id);
    && found.Some? && found.value.status == status && found.value.key == a.key
    && status in found.value.timeline && found.value.timeline[status] == now
  }

  /** The automation as it is now, for one that was reached. */
  function Present(w': World, a: Automation): Automation {
    var found := Find(w'.snapshot.automations, a.id);
    if found.Some? then found.value else a
  }

  // ----- One request at a time -----

  lemma Started(w: World, call: ServiceCall, rulesOf: string -> seq<Rule>) returns (s: World)
    ensures s == Step(w, Start(call), rulesOf)
    ensures s.snapshot == w.snapshot && s.clock == w.clock && |s.processes| == |w.processes| + 1
    ensures s.processes[|w.processes|] == Process(call.id, Program(w.snapshot, call))
  {
    s := Step(w, Start(call), rulesOf);
  }

  /** A call that is over is resumed in vain. */
  lemma Over(w: World, p: nat, elapsed: nat, executor: Option<string>, rulesOf: string -> seq<Rule>)
    requires p < |w.processes| && w.processes[p].pending == []
    ensures Step(w, Resume(p, elapsed, executor), rulesOf) == w
  {}

  /** Resuming a call ends in a world that holds whatever the move of its next request shows. */
  lemma StepByMove(
    w: World, p: nat, elapsed: nat, executor: Option<string>, a: Automation, request: Request, change: Change,
    rulesOf: string -> seq<Rule>, holds: World -> bool)
    requires p < |w.processes| && w.processes[p].pending != [] && w.processes[p].pending[0] == request
    requires Found(w, a) && a.id == w.processes[p].id
    requires change == Moves(a, request, w.clock + elapsed, executor)
    requires forall w' | MoveShows(w, w', p, change) && KeepsName(a, change) && w'.clock == w.clock + elapsed ::
      holds(w')
    ensures holds(Step(w, Resume(p, elapsed, executor), rulesOf))
  {
    var w', moved := ResumeByMove(w, p, elapsed, executor, a);
  }

  predicate KeepsName(a: Automation, change: Change) {
    change.Change? ==> change.automation.id == a.id && change.automation.key == a.key
  }

  lemma NoRequest(w: World, call: ServiceCall, elapsed: nat, executor: Option<string>, rulesOf: string -> seq<Rule>)
    requires Program(w.snapshot, call) == []
    ensures Untouched(w, Alone(w, call, elapsed, executor, rulesOf))
  {
    var s := Started(w, call, rulesOf);
    Over(s, |w.processes|, elapsed, executor, rulesOf);
  }

  /** What a single request shows in the snapshot. */
  predicate Shows(w: World, w': World, a: Automation, change: Change, request: Request) {
    match change
    case Change(b) =>
      && Find(w'.snapshot.automations, a.id) == Some(b) && b.key == a.key
      && w'.snapshot.learning == LessonsOf(w.snapshot.learning, b, request)
    case Refused(_) => Untouched(w, w')
  }

  /** The call was started in `w` with these requests. */
  predicate IsStarted(w: World, s: World, a: Automation, pending: seq<Request>) {
    && s.snapshot == w.snapshot && s.clock == w.clock && |s.processes| == |w.processes| + 1
    && s.processes[|w.processes|] == Process(a.id, pending)
  }

  /** A call of one request ends in a world that holds whatever its move shows. */
  lemma OneRequest(
    w: World, a: Automation, call: ServiceCall, request: Request, change: Change, elapsed: nat,
    executor: Option<string>, rulesOf: string -> seq<Rule>, holds: World -> bool)
    requires Found(w, a) && call.id == a.id && Program(w.snapshot, call) == [request]
    requires change == Moves(a, request, w.clock + elapsed, executor)
    requires forall w' | Shows(w, w', a, change, request) :: holds(w')
    ensures holds(Alone(w, call, elapsed, executor, rulesOf))
  {
    var s := Started(w, call, rulesOf);
    OnlyRequest(w, s, a, request, change, elapsed, executor, rulesOf, holds);
  }

  lemma OnlyRequest(
    w: World, s: World, a: Automation, request: Request, change: Change, elapsed: nat, executor: Option<string>,
    rulesOf: string -> seq<Rule>, holds: World -> bool)
    requires Found(w, a) && IsStarted(w, s, a, [request])
    requires change == Moves(a, request, w.clock + elapsed, executor)
    requires forall w' | Shows(w, w', a, change, request) :: holds(w')
    ensures
      var resume := Resume(|w.processes|, elapsed, executor);
      holds(Step(Step(s, resume, rulesOf), resume, rulesOf))
  {
    var p := |w.processes|;
    var ended := (w': World) => Shows(w, w', a, change, request) && p < |w'.processes| && w'.processes[p].pending == [];
    forall w' | MoveShows(s, w', p, change) && KeepsName(a, change) ensures ended(w') {
      MoveIsAll(w, s, w', a, change, request);
    }
    StepByMove(s, p, elapsed, executor, a, request, change, rulesOf, ended);
    Over(Step(s, Resume(p, elapsed, executor), rulesOf), p, elapsed, executor, rulesOf);
  }

  lemma MoveIsAll(w: World, s: World, w': World, a: Automation, change: Change, request: Request)
    requires IsStarted(w, s, a, [request])
    requires MoveShows(s, w', |w.processes|, change) && KeepsName(a, change)
    ensures Shows(w, w', a, change, request)
    ensures |w.processes| < |w'.processes| && w'.processes[|w.processes|].pending == []
  {}

  /** What two requests show if the first is granted. */
  predicate ShowsBoth(
    w: World, w': World, a: Automation, b: Automation, first: Request, second: Request, change: Change)
  {
    var learning := LessonsOf(w.snapshot.learning, b, first);
    && b.key == a.key
    && match change
       case Change(c) =>
         && Find(w'.snapshot.automations, a.id) == Some(c) && c.key == a.key
         && w'.snapshot.learning == LessonsOf(learning, c, second)
       case Refused(_) => Find(w'.snapshot.automations, a.id) == Some(b) && w'.snapshot.learning == learning
  }

  /** The first request is granted and the second is left. */
  predicate HalfWay(w: World, s: World, a: Automation, b: Automation, first: Request, second: Request) {
    && b.id == a.id && b.key == a.key && Found(s, b)
    && s.snapshot.learning == LessonsOf(w.snapshot.learning, b, first)
    && |s.processes| == |w.processes| + 1 && s.processes[|w.processes|] == Process(a.id, [second])
  }

  lemma TwoRequests(
    w: World, a: Automation, call: ServiceCall, first: Request, second: Request, b: Automation, change: Change,
    elapsed: nat, executor: Option<string>, rulesOf: string -> seq<Rule>, holds: World -> bool)
    requires Found(w, a) && call.id == a.id && Program(w.snapshot, call) == [first, second]
    requires Moves(a, first, w.clock + elapsed, executor) == Change(b)
    requires change == Moves(b, second, w.clock + 2 * elapsed, executor)
    requires forall w' | ShowsBoth(w, w', a, b, first, second, change) :: holds(w')
    ensures holds(Alone(w, call, elapsed, executor, rulesOf))
  {
    var s := Started(w, call, rulesOf);
    var halfWay := (w': World) => holds(Step(w', Resume(|w.processes|, elapsed, executor), rulesOf));
    ThenSecond(w, s, a, first, second, b, change, elapsed, executor, rulesOf, holds, halfWay);
    StepByMove(s, |w.processes|, elapsed, executor, a, first, Change(b), rulesOf, halfWay);
  }

  lemma ThenSecond(
    w: World, s: World, a: Automation, first: Request, second: Request, b: Automation, change: Change,
    elapsed: nat, executor: Option<string>, rulesOf: string -> seq<Rule>, holds: World -> bool, halfWay: World -> bool)
    requires IsStarted(w, s, a, [first, second])
    requires change == Moves(b, second, w.clock + 2 * elapsed, executor)
    requires forall w' | ShowsBoth(w, w', a, b, first, second, change) :: holds(w')
    requires forall w' | holds(Step(w', Resume(|w.processes|, elapsed, executor), rulesOf)) :: halfWay(w')
    ensures forall w' | MoveShows(s, w', |w.processes|, Change(b)) && KeepsName(a, Change(b)) &&
      w'.clock == s.clock + elapsed :: halfWay(w')
  {
    forall w' | MoveShows(s, w', |w.processes|, Change(b)) && KeepsName(a, Change(b)) && w'.clock == s.clock + elapsed
      ensures halfWay(w')
    {
      FromHalfWay(w, s, w', a, first, second, b, change, elapsed, executor, rulesOf, holds);
    }
  }

  lemma FromHalfWay(
    w: World, s: World, s1: World, a: Automation, first: Request, second: Request, b: Automation, change: Change,
    elapsed: nat, executor: Option<string>, rulesOf: string -> seq<Rule>, holds: World -> bool)
    requires IsStarted(w, s, a, [first, second])
    requires MoveShows(s, s1, |w.processes|, Change(b)) && KeepsName(a, Change(b)) && s1.clock == s.clock + elapsed
    requires change == Moves(b, second, w.clock + 2 * elapsed, executor)
    requires forall w' | ShowsBoth(w, w', a, b, first, second, change) :: holds(w')
    ensures holds(Step(s1, Resume(|w.processes|, elapsed, executor), rulesOf))
  {
    MoveIsHalf(w, s, s1, a, b, first, second);
    SecondRequest(w, s1, a, b, first, second, change, elapsed, executor, rulesOf, holds);
  }

  lemma MoveIsHalf(w: World, s: World, s1: World, a: Automation, b: Automation, first: Request, second: Request)
    requires IsStarted(w, s, a, [first, second])
    requires MoveShows(s, s1, |w.processes|, Change(b)) && KeepsName(a, Change(b))
    ensures HalfWay(w, s1, a, b, first, second)
  {
    assert [first, second][1..] == [second];
  }

  lemma SecondRequest(
    w: World, s: World, a: Automation, b: Automation, first: Request, second: Request, change: Change, elapsed: nat,
    executor: Option<string>, rulesOf: string -> seq<Rule>, holds: World -> bool)
    requires HalfWay(w, s, a, b, first, second)
    requires change == Moves(b, second, s.clock + elapsed, executor)
    requires forall w' | ShowsBoth(w, w', a, b, first, second, change) :: holds(w')
    ensures holds(Step(s, Resume(|w.processes|, elapsed, executor), rulesOf))
  {
    forall w' | MoveShows(s, w', |w.processes|, change) && KeepsName(b, change) ensures holds(w') {
      BothShow(w, s, w', a, b, first, second, change);
    }
    StepByMove(s, |w.processes|, elapsed, executor, b, second, change, rulesOf, holds);
  }

  lemma BothShow(
    w: World, s: World, w': World, a: Automation, b: Automation, first: Request, second: Request, change: Change)
    requires HalfWay(w, s, a, b, first, second)
    requires MoveShows(s, w', |w.processes|, change) && KeepsName(b, change)
    ensures ShowsBoth(w, w', a, b, first, second, change)
  {}

  /** A call of two requests whose first is refused. */
  lemma FirstRefused(
    w: World, a: Automation, call: ServiceCall, first: Request, second: Request, elapsed: nat, executor: Option<string>,
    rulesOf: string -> seq<Rule>)
    requires Found(w, a) && call.id == a.id && Program(w.snapshot, call) == [first, second]
    requires Moves(a, first, w.clock + elapsed, executor).Refused?
    ensures Untouched(w, Alone(w, call, elapsed, executor, rulesOf))
  {
    var s := Started(w, call, rulesOf);
    RefusedAtOnce(w, s, a, first, second, elapsed, executor, rulesOf);
  }

  lemma RefusedAtOnce(
    w: World, s: World, a: Automation, first: Request, second: Request, elapsed: nat, executor: Option<string>,
    rulesOf: string -> seq<Rule>)
    requires Found(w, a) && IsStarted(w, s, a, [first, second])
    requires Moves(a, first, w.clock + elapsed, executor).Refused?
    ensures
      var resume := Resume(|w.processes|, elapsed, executor);
      Untouched(w, Step(Step(s, resume, rulesOf), resume, rulesOf))
  {
    var p, change := |w.processes|, Moves(a, first, w.clock + elapsed, executor);
    var ended := (w': World) => Untouched(w, w') && p < |w'.processes| && w'.processes[p].pending == [];
    EndsRefused(w, s, change, ended);
    StepByMove(s, p, elapsed, executor, a, first, change, rulesOf, ended);
    Over(Step(s, Resume(p, elapsed, executor), rulesOf), p, elapsed, executor, rulesOf);
  }

  lemma EndsRefused(w: World, s: World, change: Change, ended: World -> bool)
    requires s.snapshot == w.snapshot && |s.processes| == |w.processes| + 1
    requires s.processes[|w.processes|].pending != [] && change.Refused?
    requires forall w' | Untouched(w, w') && |w.processes| < |w'.processes| &&
      w'.processes[|w.processes|].pending == [] :: ended(w')
    ensures forall w' | MoveShows(s, w', |w.processes|, change) :: ended(w')
  {
    forall w' | MoveShows(s, w', |w.processes|, change) ensures ended(w') {
      RefusedIsOver(w, s, w', change);
    }
  }

  lemma RefusedIsOver(w: World, s: World, s1: World, change: Change)
    requires s.snapshot == w.snapshot && |s.processes| == |w.processes| + 1
    requires s.processes[|w.processes|].pending != []
    requires MoveShows(s, s1, |w.processes|, change) && change.Refused?
    ensures Untouched(w, s1) && |w.processes| < |s1.processes| && s1.processes[|w.processes|].pending == []
  {}

  /** A call for an automation that is not there is refused. */
  lemma UnknownIsRefused(
    w: World, call: ServiceCall, elapsed: nat, executor: Option<string>, rulesOf: string -> seq<Rule>)
    requires Find(w.snapshot.automations, call.id) == None
    ensures Untouched(w, Alone(w, call, elapsed, executor, rulesOf))
  {
    var p := |w.processes|;
    var s := Started(w, call, rulesOf);
    assert |Program(w.snapshot, call)| <= 1;
    var s1 := NotFoundEnds(s, p, elapsed, executor, rulesOf);
    Over(s1, p, elapsed, executor, rulesOf);
  }

  lemma NotFoundEnds(w: World, p: nat, elapsed: nat, executor: Option<string>, rulesOf: string -> seq<Rule>)
    returns (w': World)
    requires p < |w.processes| && Find(w.snapshot.automations, w.processes[p].id) == None
    ensures w' == Step(w, Resume(p, elapsed, executor), rulesOf) && w'.snapshot == w.snapshot
    ensures p < |w'.processes| && w'.processes[p].pending == []
  {
    w' := Step(w, Resume(p, elapsed, executor), rulesOf);
  }

  // ----- Submitting and archiving -----

  /** A prepared automation waits for approval, and any other is refused. */
  predicate Submitted(w: World, w': World, a: Automation, now: int) {
    && (a.status == Prepared ==>
          Reached(w', a, WaitingApproval, now) && w'.snapshot.learning == w.snapshot.learning)
    && (a.status != Prepared ==> Untouched(w, w'))
  }

  /** Submitting, and the lifecycle step of that name. */
  lemma SubmitAlone(
    w: World, a: Automation, call: ServiceCall, note: Option<string>, metrics: Option<Signals>, elapsed: nat,
    executor: Option<string>, rulesOf: string -> seq<Rule>)
    requires Found(w, a)
    requires call == SubmitCall(a.id) || call == LifecycleCall(a.id, SubmitForApproval, note, metrics)
    ensures Submitted(w, Alone(w, call, elapsed, executor, rulesOf), a, w.clock + elapsed)
  {
    if call.LifecycleCall? && a.status != Prepared {
      NoRequest(w, call, elapsed, executor, rulesOf);
    } else {
      var request :=
        if call.SubmitCall? then Plain(WaitingApproval) else Request(WaitingApproval, note, false, metrics);
      var now := w.clock + elapsed;
      var change := Moves(a, request, now, executor);
      SubmitMove(a, request, now, executor);
      var holds := (w': World) => Submitted(w, w', a, now);
      OneRequest(w, a, call, request, change, elapsed, executor, rulesOf, holds);
    }
  }

  lemma SubmitMove(a: Automation, request: Request, now: int, executor: Option<string>)
    requires request.to == WaitingApproval
    ensures
      var change := Moves(a, request, now, executor);
      && change.Change? == (a.status == Prepared)
      && (change.Change? ==> HasEntered(change.automation, WaitingApproval, now))
  {}

  predicate HasEntered(b: Automation, status: Status, now: int) {
    b.status == status && status in b.timeline && b.timeline[status] == now
  }

  /** A verified automation is archived, and any other is refused. */
  predicate ArchivedOnly(w: World, w': World, a: Automation, now: int) {
    && (a.status == Verified ==> Reached(w', a, Archived, now) && w'.snapshot.learning == w.snapshot.learning)
    && (a.status != Verified ==> Untouched(w, w'))
  }

  /** Archiving, and the lifecycle step of that name. */
  lemma ArchiveAlone(
    w: World, a: Automation, call: ServiceCall, note: Option<string>, metrics: Option<Signals>, elapsed: nat,
    executor: Option<string>, rulesOf: string -> seq<Rule>)
    requires Found(w, a)
    requires call == ArchiveCall(a.id) || call == LifecycleCall(a.id, Archive, note, metrics)
    ensures ArchivedOnly(w, Alone(w, call, elapsed, executor, rulesOf), a, w.clock + elapsed)
  {
    if call.LifecycleCall? && a.status == Archived {
      NoRequest(w, call, elapsed, executor, rulesOf);
    } else {
      var request := if call.ArchiveCall? then Plain(Archived) else Request(Archived, note, false, metrics);
      var now := w.clock + elapsed;
      var change := Moves(a, request, now, executor);
      ArchiveMove(a, request, now, executor);
      var holds := (w': World) => ArchivedOnly(w, w', a, now);
      OneRequest(w, a, call, request, change, elapsed, executor, rulesOf, holds);
    }
  }

  lemma ArchiveMove(a: Automation, request: Request, now: int, executor: Option<string>)
    requires request.to == Archived
    ensures
      var change := Moves(a, request, now, executor);
      && change.Change? == (a.status == Verified)
      && (change.Change? ==> HasEntered(change.automation, Archived, now))
  {}

  // ----- Preparing and asking for changes -----

  /** A note that is not empty is kept and takes the approval away. */
  predicate Noted(b: Automation, a: Automation, note: Option<string>) {
    && (note.Some? && note.value != "" ==> b.changeRequestNote == note && !b.merchantApproved)
    && (note.None? || note.value == "" ==>
          b.changeRequestNote == a.changeRequestNote && b.merchantApproved == a.merchantApproved)
  }

  /** A draft or an automation that waits for approval is prepared, with the note, and any other is refused. */
  predicate PreparedWith(w: World, w': World, a: Automation, note: Option<string>, now: int) {
    && (a.status == Draft || a.status == WaitingApproval ==>
          Reached(w', a, Prepared, now) && Noted(Present(w', a), a, note) &&
            w'.snapshot.learning == w.snapshot.learning)
    && (a.status != Draft && a.status != WaitingApproval ==> Untouched(w, w'))
  }

  /** Asking for changes, and the lifecycle step of that name. */
  lemma RequestChangesAlone(
    w: World, a: Automation, call: ServiceCall, note: Option<string>, metrics: Option<Signals>, elapsed: nat,
    executor: Option<string>, rulesOf: string -> seq<Rule>)
    requires Found(w, a)
    requires
      || (note.Some? && call == RequestChangesCall(a.id, note.value))
      || call == LifecycleCall(a.id, RequestChanges, note, metrics)
    ensures PreparedWith(w, Alone(w, call, elapsed, executor, rulesOf), a, note, w.clock + elapsed)
  {
    if call.LifecycleCall? && a.status == Prepared {
      NoRequest(w, call, elapsed, executor, rulesOf);
    } else {
      var request := Request(Prepared, note, false, if call.LifecycleCall? then metrics else None);
      var now := w.clock + elapsed;
      var change := Moves(a, request, now, executor);
      PrepareMove(a, request, now, executor);
      var holds := (w': World) => PreparedWith(w, w', a, note, now);
      OneRequest(w, a, call, request, change, elapsed, executor, rulesOf, holds);
    }
  }

  lemma PrepareMove(a: Automation, request: Request, now: int, executor: Option<string>)
    requires request.to == Prepared
    ensures
      var change := Moves(a, request, now, executor);
      && change.Change? == (a.status == Draft || a.status == WaitingApproval)
      && (change.Change? ==> HasEntered(change.automation, Prepared, now) && Noted(change.automation, a, request.note))
  {}

  /** The preparing step moves a draft so, and is refused for any other automation. */
  lemma PrepareAlone(
    w: World, a: Automation, note: Option<string>, metrics: Option<Signals>, elapsed: nat, executor: Option<string>,
    rulesOf: string -> seq<Rule>)
    requires Found(w, a)
    ensures
      var w' := Alone(w, LifecycleCall(a.id, Prepare, note, metrics), elapsed, executor, rulesOf);
      if a.status == Draft then PreparedWith(w, w', a, note, w.clock + elapsed) else Untouched(w, w')
  {
    var call := LifecycleCall(a.id, Prepare, note, metrics);
    if a.status == Draft {
      var request, now := Request(Prepared, note, false, metrics), w.clock + elapsed;
      PrepareMove(a, request, now, executor);
      var holds := (w': World) => PreparedWith(w, w', a, note, now);
      OneRequest(w, a, call, request, Moves(a, request, now, executor), elapsed, executor, rulesOf, holds);
    } else {
      NoRequest(w, call, elapsed, executor, rulesOf);
    }
  }

  // ----- What is learned -----

  /** The template is learned as rejected. */
  ghost predicate RejectionLearned(was: Learning, l: Learning, template: string) {
    && template in l.rejected && template !in l.approved && l.preferred == was.preferred
    && (forall t | t != template :: t in l.rejected <==> t in was.rejected)
    && (forall t | t != template :: t in l.approved <==> t in was.approved)
  }

  /** The template is learned as approved and preferred. */
  ghost predicate ApprovalLearned(was: Learning, l: Learning, template: string) {
    && template in l.approved && template !in l.rejected && template in l.preferred
    && (forall t | t != template :: t in l.rejected <==> t in was.rejected)
    && (forall t | t != template :: t in l.approved <==> t in was.approved)
    && (forall t | t != template :: t in l.preferred <==> t in was.preferred)
  }

  /** The template is learned as preferred. */
  ghost predicate VerificationLearned(was: Learning, l: Learning, template: string) {
    && l.approved == was.approved && l.rejected == was.rejected && template in l.preferred
    && (forall t | t != template :: t in l.preferred <==> t in was.preferred)
  }

  lemma LessonsInPlainTerms(learning: Learning, template: string)
    ensures RejectionLearned(learning, UpdateLearning(learning, template, LearnRejected), template)
    ensures ApprovalLearned(learning, UpdateLearning(learning, template, LearnApproved), template)
    ensures VerificationLearned(learning, UpdateLearning(learning, template, LearnVerified), template)
  {
    ExcludeSpec(learning.approved, template);
    ExcludeSpec(learning.rejected, template);
  }

  // ----- Rejecting and cancelling -----

  /** The statuses from which an automation can be given up. */
  predicate CanBeGivenUp(status: Status) {
    || status == Draft || status == Prepared || status == WaitingApproval
    || status == Approved || status == Executing || status == Executed
  }

  /** An automation up to executed is cancelled, rejected or not and with the note; any other is refused.
      A rejection is learned, and nothing else. */
  ghost predicate CancelledWith(
    w: World, w': World, a: Automation, rejected: bool, note: Option<string>, now: int)
  {
    && (CanBeGivenUp(a.status) ==> Reached(w', a, Cancelled, now) && GivenUp(Present(w', a), rejected, note))
    && (CanBeGivenUp(a.status) && rejected ==>
          RejectionLearned(w.snapshot.learning, w'.snapshot.learning, a.key.templateId))
    && (CanBeGivenUp(a.status) && !rejected ==> w'.snapshot.learning == w.snapshot.learning)
    && (!CanBeGivenUp(a.status) ==> Untouched(w, w'))
  }

  predicate GivenUp(b: Automation, rejected: bool, note: Option<string>) {
    b.merchantRejected == rejected && !b.merchantApproved && b.changeRequestNote == note
  }

  lemma CancelMove(a: Automation, request: Request, now: int, executor: Option<string>)
    requires request.to == Cancelled
    ensures
      var change := Moves(a, request, now, executor);
      && change.Change? == CanBeGivenUp(a.status)
      && (change.Change? ==>
            HasEntered(change.automation, Cancelled, now) && GivenUp(change.automation, request.rejected, request.note))
  {}

  lemma GiveUpAlone(
    w: World, a: Automation, call: ServiceCall, request: Request, elapsed: nat, executor: Option<string>,
    rulesOf: string -> seq<Rule>)
    requires Found(w, a) && call.id == a.id && Program(w.snapshot, call) == [request] && request.to == Cancelled
    ensures CancelledWith(w, Alone(w, call, elapsed, executor, rulesOf), a, request.rejected, request.note,
      w.clock + elapsed)
  {
    var now := w.clock + elapsed;
    var change, holds := Moves(a, request, now, executor),
      (w': World) => CancelledWith(w, w', a, request.rejected, request.note, now);
    forall w' | Shows(w, w', a, change, request) ensures holds(w') {
      GivingUpShown(w, w', a, change, request, now, executor);
    }
    OneRequest(w, a, call, request, change, elapsed, executor, rulesOf, holds);
  }

  lemma GivingUpShown(
    w: World, w': World, a: Automation, change: Change, request: Request, now: int, executor: Option<string>)
    requires request.to == Cancelled && change == Moves(a, request, now, executor) && Shows(w, w', a, change, request)
    ensures CancelledWith(w, w', a, request.rejected, request.note, now)
  {
    CancelMove(a, request, now, executor);
    LessonsInPlainTerms(w.snapshot.learning, a.key.templateId);
  }

  /** Rejecting, with the note it is given or, for the call, a standard one, and the lifecycle step of that
      name. */
  lemma RejectAlone(
    w: World, a: Automation, call: ServiceCall, note: Option<string>, metrics: Option<Signals>, elapsed: nat,
    executor: Option<string>, rulesOf: string -> seq<Rule>)
    requires Found(w, a)
    requires call == RejectCall(a.id, note) || call == LifecycleCall(a.id, Reject, note, metrics)
    ensures
      var given := if call.RejectCall? && note.None? then Some("Rejected by merchant") else note;
      CancelledWith(w, Alone(w, call, elapsed, executor, rulesOf), a, true, given, w.clock + elapsed)
  {
    if call.LifecycleCall? && a.status == Cancelled {
      NoRequest(w, call, elapsed, executor, rulesOf);
    } else {
      var given := if call.RejectCall? && note.None? then Some("Rejected by merchant") else note;
      var request := Request(Cancelled, given, true, if call.LifecycleCall? then metrics else None);
      GiveUpAlone(w, a, call, request, elapsed, executor, rulesOf);
    }
  }

  /** Cancelling, and the lifecycle step of that name. */
  lemma CancelAlone(
    w: World, a: Automation, call: ServiceCall, note: Option<string>, metrics: Option<Signals>, elapsed: nat,
    executor: Option<string>, rulesOf: string -> seq<Rule>)
    requires Found(w, a)
    requires (call == CancelCall(a.id) && note.None?) || call == LifecycleCall(a.id, Cancel, note, metrics)
    ensures CancelledWith(w, Alone(w, call, elapsed, executor, rulesOf), a, false, note, w.clock + elapsed)
  {
    if call.LifecycleCall? && a.status == Cancelled {
      NoRequest(w, call, elapsed, executor, rulesOf);
    } else {
      var request := Request(Cancelled, note, false, if call.LifecycleCall? then metrics else None);
      GiveUpAlone(w, a, call, request, elapsed, executor, rulesOf);
    }
  }

  // ----- Approving -----

  ghost predicate ApprovedNow(w: World, w': World, a: Automation, now: int) {
    && Reached(w', a, Approved, now) && IsApproved(Present(w', a))
    && ApprovalLearned(w.snapshot.learning, w'.snapshot.learning, a.key.templateId)
  }

  predicate IsApproved(b: Automation) {
    b.merchantApproved && !b.merchantRejected && b.changeRequestNote == None
  }

  lemma ApproveMove(a: Automation, request: Request, now: int, executor: Option<string>)
    requires request.to == Approved
    ensures
      var change := Moves(a, request, now, executor);
      && change.Change? == (a.status == WaitingApproval)
      && (change.Change? ==> HasEntered(change.automation, Approved, now) && IsApproved(change.automation))
  {}

  ghost predicate ApprovedOnly(w: World, w': World, a: Automation, now: int) {
    && (a.status == WaitingApproval ==> ApprovedNow(w, w', a, now))
    && (a.status != WaitingApproval ==> Untouched(w, w'))
  }

  /** Approving takes an automation that waits for approval to approved, and teaches the approval; it is
      refused in any other status but prepared, and there, too, for the lifecycle step. */
  lemma ApproveAlone(
    w: World, a: Automation, call: ServiceCall, note: Option<string>, metrics: Option<Signals>, elapsed: nat,
    executor: Option<string>, rulesOf: string -> seq<Rule>)
    requires Found(w, a)
    requires (call == ApproveCall(a.id) && a.status != Prepared) || call == LifecycleCall(a.id, Approve, note, metrics)
    ensures ApprovedOnly(w, Alone(w, call, elapsed, executor, rulesOf), a, w.clock + elapsed)
  {
    if call.LifecycleCall? && a.status == Approved {
      NoRequest(w, call, elapsed, executor, rulesOf);
    } else {
      var request := if call.ApproveCall? then Plain(Approved) else Request(Approved, note, false, metrics);
      var now := w.clock + elapsed;
      var change := Moves(a, request, now, executor);
      ApproveMove(a, request, now, executor);
      LessonsInPlainTerms(w.snapshot.learning, a.key.templateId);
      var holds := (w': World) => ApprovedOnly(w, w', a, now);
      OneRequest(w, a, call, request, change, elapsed, executor, rulesOf, holds);
    }
  }

  /** Approving a prepared automation submits it first. */
  lemma ApprovePreparedAlone(
    w: World, a: Automation, elapsed: nat, executor: Option<string>, rulesOf: string -> seq<Rule>)
    requires Found(w, a) && a.status == Prepared
    ensures ApprovedNow(w, Alone(w, ApproveCall(a.id), elapsed, executor, rulesOf), a, w.clock + 2 * elapsed)
  {
    var first, second, now := Plain(WaitingApproval), Plain(Approved), w.clock + 2 * elapsed;
    var b := a.(status := WaitingApproval, timeline := a.timeline[WaitingApproval := w.clock + elapsed]);
    LessonsInPlainTerms(w.snapshot.learning, a.key.templateId);
    ApproveMove(b, second, now, executor);
    var change, holds := Moves(b, second, now, executor), (w': World) => ApprovedNow(w, w', a, now);
    TwoRequests(w, a, ApproveCall(a.id), first, second, b, change, elapsed, executor, rulesOf, holds);
  }

  // ----- Executing -----

  /** Executed with the executor's answer, or left executing where it throws. */
  predicate ExecutedAs(w': World, a: Automation, executor: Option<string>, now: int, later: int) {
    && (executor.Some? ==> Reached(w', a, Executed, later) && Present(w', a).executionResult == executor)
    && (executor.None? ==> Reached(w', a, Executing, now) && Present(w', a).executionResult == a.executionResult)
    && Present(w', a).merchantApproved
  }

  lemma ReportMove(b: Automation, request: Request, now: int, executor: Option<string>)
    requires request.to == Executed && b.status == Executing && b.merchantApproved
    ensures
      var change := Moves(b, request, now, executor);
      && change.Change? == executor.Some?
      && (change.Change? ==>
            && HasEntered(change.automation, Executed, now)
            && change.automation.executionResult == executor && change.automation.merchantApproved)
  {}

  lemma BeginMove(a: Automation, request: Request, now: int, executor: Option<string>)
    requires request.to == Executing
    ensures
      var change := Moves(a, request, now, executor);
      if a.status == Approved && a.merchantApproved
      then change == Change(a.(status := Executing, timeline := a.timeline[Executing := now]))
      else change.Refused?
  {}

  /** An approved automation goes through executing to executed, or stays executing if the executor throws; any
      other is refused. */
  predicate ExecutedOnly(w: World, w': World, a: Automation, executor: Option<string>, now: int, later: int) {
    && (a.status == Approved && a.merchantApproved ==>
          ExecutedAs(w', a, executor, now, later) && w'.snapshot.learning == w.snapshot.learning)
    && (!(a.status == Approved && a.merchantApproved) ==> Untouched(w, w'))
  }

  /** Executing, and the lifecycle step of that name. */
  lemma ExecuteAlone(
    w: World, a: Automation, call: ServiceCall, note: Option<string>, metrics: Option<Signals>, elapsed: nat,
    executor: Option<string>, rulesOf: string -> seq<Rule>)
    requires Found(w, a)
    requires
      || (call == ExecuteCall(a.id) && note.None? && metrics.None?)
      || call == LifecycleCall(a.id, Execute, note, metrics)
    ensures ExecutedOnly(w, Alone(w, call, elapsed, executor, rulesOf), a, executor, w.clock + elapsed,
      w.clock + 2 * elapsed)
  {
    var first, second := Request(Executing, note, false, metrics), Request(Executed, note, false, metrics);
    var now, later := w.clock + elapsed, w.clock + 2 * elapsed;
    BeginMove(a, first, now, executor);
    if a.status == Approved && a.merchantApproved {
      var b := a.(status := Executing, timeline := a.timeline[Executing := now]);
      ReportMove(b, second, later, executor);
      var change := Moves(b, second, later, executor);
      var holds := (w': World) => ExecutedOnly(w, w', a, executor, now, later);
      TwoRequests(w, a, call, first, second, b, change, elapsed, executor, rulesOf, holds);
    } else {
      FirstRefused(w, a, call, first, second, elapsed, executor, rulesOf);
    }
  }

  // ----- Verifying -----

  /** The rule's metric says so: it is there and on, or, where the target asks for more than zero, more
      than zero. */
  predicate Says(signals: Signals, rule: Rule) {
    && rule.metric in signals
    && match signals[rule.metric]
       case Flag(on) => on
       case Number(n) =>
         if rule.target == ">0" then n.PosInfinity? || (n.Finite? && n.value > 0.0)
         else n.PosInfinity? || n.NegInfinity? || (n.Finite? && n.value != 0.0)
       case Text(text, positive) => if rule.target == ">0" then positive else text != ""
  }

  /** Judged by metrics, every rule is satisfied exactly if its metric says so; without any, the rules
      are as they were. */
  lemma RulesInPlainTerms(a: Automation, metrics: Option<Signals>, i: nat)
    requires i < |a.rules|
    ensures
      var judged := ApplySignals(a, metrics);
      && judged == a.(rules := judged.rules) && |judged.rules| == |a.rules|
      && judged.rules[i].metric == a.rules[i].metric && judged.rules[i].target == a.rules[i].target
      && (metrics.None? ==> judged.rules[i] == a.rules[i])
      && (metrics.Some? ==> (judged.rules[i].satisfied <==> Says(metrics.value, a.rules[i])))
  {}

  /** There is a rule, and the metrics satisfy every rule. */
  predicate Confirmed(a: Automation, metrics: Option<Signals>) {
    var rules := ApplySignals(a, metrics).rules;
    rules != [] && forall i | 0 <= i < |rules| :: rules[i].satisfied
  }

  /** Verified if the metrics confirm the automation, else left verifying; the rules are judged. */
  ghost predicate VerifiedBy(w: World, w': World, a: Automation, metrics: Option<Signals>, now: int, later: int) {
    && (Confirmed(a, metrics) ==> Reached(w', a, Verified, later))
    && (Confirmed(a, metrics) ==> VerificationLearned(w.snapshot.learning, w'.snapshot.learning, a.key.templateId))
    && (!Confirmed(a, metrics) ==> Reached(w', a, Verifying, now) && w'.snapshot.learning == w.snapshot.learning)
    && Present(w', a).rules == ApplySignals(a, metrics).rules
  }

  lemma JudgeMove(b: Automation, request: Request, now: int, executor: Option<string>)
    requires request.to == Verified && b.status == Verifying
    ensures
      var change := Moves(b, request, now, executor);
      && change.Change? == Confirmed(b, request.metrics)
      && (change.Change? ==>
            HasEntered(change.automation, Verified, now) &&
              change.automation.rules == ApplySignals(b, request.metrics).rules)
  {}

  lemma BeginVerifyMove(a: Automation, request: Request, now: int, executor: Option<string>)
    requires request.to == Verifying
    ensures
      var change := Moves(a, request, now, executor);
      if a.status == Executed
      then change == Change(ApplySignals(a.(status := Verifying, timeline := a.timeline[Verifying := now]),
        request.metrics))
      else change.Refused?
  {}

  lemma JudgedAgain(a: Automation, b: Automation, metrics: Option<Signals>)
    requires b.rules == ApplySignals(a, metrics).rules
    ensures ApplySignals(b, metrics).rules == b.rules
  {}

  ghost predicate VerifiedOnly(
    w: World, w': World, a: Automation, metrics: Option<Signals>, now: int, later: int)
  {
    && (a.status == Executed ==> VerifiedBy(w, w', a, metrics, now, later))
    && (a.status != Executed ==> Untouched(w, w'))
  }

  /** Verifying, and the lifecycle step of that name: an executed automation is judged, and any other is
      refused. */
  lemma VerifyAlone(
    w: World, a: Automation, call: ServiceCall, note: Option<string>, metrics: Option<Signals>, elapsed: nat,
    executor: Option<string>, rulesOf: string -> seq<Rule>)
    requires Found(w, a)
    requires
      || (call == VerifyCall(a.id, metrics) && note.None? && metrics.Some?)
      || (call == VerifyCall(a.id, None) && note.None? && metrics == Some(DefaultMetrics(a.rules)))
      || call == LifecycleCall(a.id, Verify, note, metrics)
    ensures VerifiedOnly(w, Alone(w, call, elapsed, executor, rulesOf), a, metrics, w.clock + elapsed,
      w.clock + 2 * elapsed)
  {
    var first, second := Request(Verifying, note, false, metrics), Request(Verified, note, false, metrics);
    if a.status == Executed {
      VerifyExecutedAlone(w, a, call, first, second, elapsed, executor, rulesOf);
    } else if a.status == Verifying {
      BeginVerifyMove(a, first, w.clock + elapsed, executor);
      FirstRefused(w, a, call, first, second, elapsed, executor, rulesOf);
    } else {
      NoRequest(w, call, elapsed, executor, rulesOf);
    }
  }

  lemma VerifyExecutedAlone(
    w: World, a: Automation, call: ServiceCall, first: Request, second: Request, elapsed: nat,
    executor: Option<string>, rulesOf: string -> seq<Rule>)
    requires Found(w, a) && a.status == Executed && call.id == a.id
    requires first.to == Verifying && second.to == Verified && first.metrics == second.metrics
    requires Program(w.snapshot, call) == [first, second]
    ensures VerifiedBy(w, Alone(w, call, elapsed, executor, rulesOf), a, first.metrics, w.clock + elapsed,
      w.clock + 2 * elapsed)
  {
    var now, later, metrics := w.clock + elapsed, w.clock + 2 * elapsed, first.metrics;
    var b := ApplySignals(a.(status := Verifying, timeline := a.timeline[Verifying := now]), metrics);
    BeginVerifyMove(a, first, now, executor);
    var change := Moves(b, second, later, executor);
    var holds := (w': World) => VerifiedBy(w, w', a, metrics, now, later);
    forall w' | ShowsBoth(w, w', a, b, first, second, change) ensures holds(w') {
      VerdictShown(w, w', a, b, first, second, change, now, later, executor);
    }
    TwoRequests(w, a, call, first, second, b, change, elapsed, executor, rulesOf, holds);
  }

  lemma VerdictShown(
    w: World, w': World, a: Automation, b: Automation, first: Request, second: Request, change: Change, now: int,
    later: int, executor: Option<string>)
    requires first.to == Verifying && second.to == Verified && first.metrics == second.metrics
    requires b == ApplySignals(a.(status := Verifying, timeline := a.timeline[Verifying := now]), first.metrics)
    requires change == Moves(b, second, later, executor) && ShowsBoth(w, w', a, b, first, second, change)
    ensures VerifiedBy(w, w', a, first.metrics, now, later)
  {
    JudgedAgain(a, b, first.metrics);
    JudgeMove(b, second, later, executor);
    VerdictTeaches(w, w', a, b, first, second, change);
  }

  lemma VerdictTeaches(
    w: World, w': World, a: Automation, b: Automation, first: Request, second: Request, change: Change)
    requires first.to == Verifying && second.to == Verified && a.key == b.key
    requires ShowsBoth(w, w', a, b, first, second, change)
    ensures change.Change? ==> VerificationLearned(w.snapshot.learning, w'.snapshot.learning, a.key.templateId)
    ensures change.Refused? ==> w'.snapshot.learning == w.snapshot.learning
  {
    LessonsInPlainTerms(w.snapshot.learning, a.key.templateId);
  }

  /** Without metrics the call takes every rule's metric as on: an executed automation is then verified
      exactly if it has a rule. */
  lemma DefaultMetricsConfirm(a: Automation)
    ensures Confirmed(a, Some(DefaultMetrics(a.rules))) <==> a.rules != []
  {
    DefaultMetricsSatisfyAll(a.rules);
  }

  // ----- Why a move is refused -----

  /** The edges of the status machine. */
  predicate Edge(from: Status, to: Status) {
    || (from == Draft && (to == Prepared || to == Cancelled))
    || (from == Prepared && (to == WaitingApproval || to == Cancelled))
    || (from == WaitingApproval && (to == Approved || to == Prepared || to == Cancelled))
    || (from == Approved && (to == Executing || to == Cancelled))
    || (from == Executing && (to == Executed || to == Cancelled))
    || (from == Executed && (to == Verifying || to == Cancelled))
    || (from == Verifying && (to == Verified || to == Executed))
    || (from == Verified && to == Archived)
  }

  /** The steps with two stages resolve to the next one, and to the status itself where there is none. */
  lemma StagesInPlainTerms(current: Status)
    ensures ResolveLifecycle(Execute, Approved) == Executing && ResolveLifecycle(Execute, Executing) == Executed
    ensures ResolveLifecycle(Verify, Executed) == Verifying && ResolveLifecycle(Verify, Verifying) == Verified
    ensures current != Approved && current != Executing ==> ResolveLifecycle(Execute, current) == current
    ensures current != Executed && current != Verifying ==> ResolveLifecycle(Verify, current) == current
  {}

  /** Exactly when each error is raised; the two guards on the status never are. */
  lemma RefusalsInPlainTerms(a: Automation, request: Request, now: int, executor: Option<string>)
    ensures
      var change, from, to := Moves(a, request, now, executor), a.status, request.to;
      && (change == Refused(InvalidTransition) <==> !Edge(from, to))
      && (change == Refused(ApprovalRequired) <==>
            Edge(from, to) && (to == Executing || to == Executed) && !a.merchantApproved)
      && (change == Refused(ExecutionFailed) <==>
            Edge(from, to) && to == Executed && a.merchantApproved && executor.None?)
      && (change == Refused(MissingRules) <==> Edge(from, to) && to == Verified && a.rules == [])
      && (change == Refused(NotSatisfied) <==>
            Edge(from, to) && to == Verified && a.rules != [] && !Confirmed(a, request.metrics))
      && change != Refused(NotReadyForApproval) && change != Refused(NotApproved) && change != Refused(NotFound)
  {}

  /** A transition ends so exactly where no automation has the id. */
  lemma NotFoundIff(s: Snapshot, id: string, request: Request, now: int, executor: Option<string>)
    ensures Transition(s, id, request, now, executor) == Failed(NotFound) <==>
      forall a | a in s.automations :: a.id != id
  {
    FindSpec(s.automations, id);
    var found := Find(s.automations, id);
    if found.Some? {
      RefusalsInPlainTerms(found.value, request, now, executor);
    }
  }

  // ----- What a transition leaves behind besides -----

  /** Every granted move is put first in the history, which is cut at 500, and those that concern the
      merchant are put first among the notifications. */
  lemma MovesAreRecorded(s: Snapshot, a: Automation, request: Request, now: int, executor: Option<string>)
    requires Find(s.automations, a.id) == Some(a) && Moves(a, request, now, executor).Change?
    ensures
      var s' := Transition(s, a.id, request, now, executor).snapshot;
      && |s'.history| == (if |s.history| < 500 then |s.history| + 1 else 500)
      && s'.history[0] == HistoryEvent(a.id, Moved(request.to), now)
      && (forall i | 1 <= i < |s'.history| :: s'.history[i] == s.history[i - 1])
      && (request.to == Draft || request.to == Prepared || request.to == Executing || request.to == Verifying ==>
            s'.notifications == s.notifications)
      && (request.to == WaitingApproval ==>
        s'.notifications == [Notification(a.id, AutomationWaiting, now)] + s.notifications)
      && (request.to == Approved ==>
        s'.notifications == [Notification(a.id, AutomationApproved, now)] + s.notifications)
      && (request.to == Executed ==>
        s'.notifications == [Notification(a.id, AutomationExecuted, now)] + s.notifications)
      && (request.to == Verified ==>
        s'.notifications == [Notification(a.id, AutomationVerified, now)] + s.notifications)
      && (request.to == Archived ==>
        s'.notifications == [Notification(a.id, AutomationArchived, now)] + s.notifications)
      && (request.to == Cancelled ==>
            var kind := if request.rejected then AutomationRejected else AutomationCancelled;
            s'.notifications == [Notification(a.id, kind, now)] + s.notifications)
  {
    MoveKeepsId(a, request, now, executor);
  }
}
