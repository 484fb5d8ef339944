/** The onboarding wizard: what a merchant's record keeps over every run of actions, and what the
    AI initialisation leaves behind.

    Every change to a record is a load, a change and a save, taken here as one step; an action
    is a sequence of such steps, and steps of several actions may interleave. A step identifier
    may be unknown, since the form field is passed on unchecked. */
module Onboarding {
  import opened Common

  /** The wizard's steps in order, and any other text. */
  datatype StepId =
    | Welcome | Shopify | Google | Ga4 | SearchConsole | PageSpeed | Clarity | ShopifySync | AiInit | ExecutiveBriefing
    | Unknown(name: string)

  const STEP_IDS: seq<StepId> :=
    [Welcome, Shopify, Google, Ga4, SearchConsole, PageSpeed, Clarity, ShopifySync, AiInit, ExecutiveBriefing]

  datatype Agent =
    | ProductIntelligence | InventoryIntelligence | BundleDiscovery | StoreAudit
    | SeoIntelligence | PricingIntelligence | GrowthIntelligence | ExecutiveCoo

  const AI_AGENTS: seq<Agent> :=
    [ProductIntelligence, InventoryIntelligence, BundleDiscovery, StoreAudit,
     SeoIntelligence, PricingIntelligence, GrowthIntelligence, ExecutiveCoo]

  /** An unknown step is looked up as the first one, which cannot be skipped. */
  predicate Skippable(step: StepId) {
    step.Google? || step.Ga4? || step.SearchConsole? || step.PageSpeed? || step.Clarity?
  }

  datatype AiStatus = Idle | Running | Completed | Failed

  datatype AiState = AiState(
    status: AiStatus, completedAgents: seq<Agent>, failedAgents: seq<Agent>, currentAgentId: Option<Agent>,
    startedAt: Option<int>, completedAt: Option<int>, lastError: Option<string>)

  datatype Record = Record(
    currentStepId: StepId, completedStepIds: seq<StepId>, skippedStepIds: seq<StepId>, demoMode: bool,
    activated: bool, activatedAt: Option<int>, welcomeCompletedAt: Option<int>, aiInitialization: AiState)

  const DEFAULT_RECORD: Record :=
    Record(Welcome, [], [], false, false, None, None, AiState(Idle, [], [], None, None, None, None))

  // ----- One load, change and save -----

  function MarkStepCompleted(r: Record, step: StepId): Record {
    r.(completedStepIds := Include(r.completedStepIds, step), skippedStepIds := Exclude(r.skippedStepIds, step))
  }

  function MarkStepSkipped(r: Record, step: StepId): Record {
    r.(skippedStepIds := Include(r.skippedStepIds, step), completedStepIds := Exclude(r.completedStepIds, step))
  }

  predicate Done(r: Record, step: StepId) {
    step in r.completedStepIds || step in r.skippedStepIds
  }

  /** The position of the first step from number `i` on in neither list, else of the last step. */
  function NextFrom(completed: seq<StepId>, skipped: seq<StepId>, i: nat): (n: nat)
    requires i < |STEP_IDS|
    ensures i <= n < |STEP_IDS|
    ensures forall k | i <= k < n :: STEP_IDS[k] in completed || STEP_IDS[k] in skipped
    ensures (STEP_IDS[n] !in completed && STEP_IDS[n] !in skipped) || n == |STEP_IDS| - 1
    decreases |STEP_IDS| - i
  {
    if (STEP_IDS[i] !in completed && STEP_IDS[i] !in skipped) || i == |STEP_IDS| - 1 then i
    else NextFrom(completed, skipped, i + 1)
  }

  function NextIndex(r: Record): nat {
    NextFrom(r.completedStepIds, r.skippedStepIds, 0)
  }

  function NextStepId(r: Record): StepId {
    STEP_IDS[NextFrom(r.completedStepIds, r.skippedStepIds, 0)]
  }

  /** A partial AI state: absent fields are left as they are. */
  datatype AiPatch = AiPatch(
    status: Option<AiStatus>, completedAgents: Option<seq<Agent>>, failedAgents: Option<seq<Agent>>,
    currentAgentId: Option<Option<Agent>>, startedAt: Option<Option<int>>, completedAt: Option<Option<int>>,
    lastError: Option<Option<string>>)

  const NO_PATCH: AiPatch := AiPatch(None, None, None, None, None, None, None)

  function Patched<T>(patch: Option<T>, was: T): T {
    if patch.Some? then patch.value else was
  }

  function Apply(ai: AiState, patch: AiPatch): AiState {
    AiState(
      Patched(patch.status, ai.status), Patched(patch.completedAgents, ai.completedAgents),
      Patched(patch.failedAgents, ai.failedAgents), Patched(patch.currentAgentId, ai.currentAgentId),
      Patched(patch.startedAt, ai.startedAt), Patched(patch.completedAt, ai.completedAt),
      Patched(patch.lastError, ai.lastError))
  }

  datatype Event =
    | Complete(step: StepId, now: int)
    | Skip(step: StepId)
    | SetDemo(on: bool)
    | PatchAi(patch: AiPatch)

  function CompletedRecord(r: Record, step: StepId, now: int): Record {
    var marked := MarkStepCompleted(r, step);
    var welcomed := if step == Welcome then marked.(welcomeCompletedAt := Some(now)) else marked;
    var next := if step == ExecutiveBriefing then welcomed.(activated := true, activatedAt := Some(now)) else welcomed;
    next.(currentStepId := NextStepId(next))
  }

  function SkippedRecord(r: Record, step: StepId): Record {
    var marked := MarkStepSkipped(r, step);
    marked.(currentStepId := NextStepId(marked))
  }

  function PatchedRecord(r: Record, patch: AiPatch): Record {
    r.(aiInitialization := Apply(r.aiInitialization, patch))
  }

  function After(r: Record, e: Event): Record {
    match e
    case Complete(step, now) => CompletedRecord(r, step, now)
    case Skip(step) => SkippedRecord(r, step)
    case SetDemo(on) => r.(demoMode := on)
    case PatchAi(patch) => PatchedRecord(r, patch)
  }

  function Run(r: Record, events: seq<Event>): Record {
    if events == [] then r else After(Run(r, events[..|events| - 1]), events[|events| - 1])
  }

  lemma {:induction false} RunAppends(r: Record, a: seq<Event>, b: seq<Event>)
    ensures Run(r, a + b) == Run(Run(r, a), b)
  {
    if b == [] {
      assert a + b == a;
    } else {
      var n := |b| - 1;
      RunAppends(r, a, b[..n]);
      assert (a + b)[..|a + b| - 1] == a + b[..n];
    }
  }

  // ----- What every run keeps -----

  predicate Inv(r: Record) {
    && NoDuplicates(r.completedStepIds) && NoDuplicates(r.skippedStepIds)
    && (forall step | step in r.completedStepIds :: step !in r.skippedStepIds)
    && (forall step | step in r.skippedStepIds :: Skippable(step))
    && (r.activated <==> ExecutiveBriefing in r.completedStepIds)
    && (r.activated <==> r.activatedAt.Some?)
    && (r.welcomeCompletedAt.Some? <==> Welcome in r.completedStepIds)
    && r.currentStepId == NextStepId(r)
  }

  /** What an action may request: a skip only of a skippable step. */
  predicate Allowed(e: Event) {
    e.Skip? ==> Skippable(e.step)
  }

  predicate Marks(e: Event, step: StepId) {
    (e.Complete? || e.Skip?) && e.step == step
  }

  predicate Completes(e: Event, step: StepId) {
    e.Complete? && e.step == step
  }

  /** What an event does to the lists: only the step it names changes. */
  lemma AfterLists(r: Record, e: Event)
    ensures
      var s := After(r, e);
      && (forall step :: step in s.completedStepIds <==>
        if Marks(e, step) then e.Complete? else step in r.completedStepIds)
      && (forall step :: step in s.skippedStepIds <==> if Marks(e, step) then e.Skip? else step in r.skippedStepIds)
      && (NoDuplicates(r.completedStepIds) ==> NoDuplicates(s.completedStepIds))
      && (NoDuplicates(r.skippedStepIds) ==> NoDuplicates(s.skippedStepIds))
  {
    if e.Complete? {
      MarkSpec(r.completedStepIds, r.skippedStepIds, e.step);
    } else if e.Skip? {
      MarkSpec(r.skippedStepIds, r.completedStepIds, e.step);
    }
  }

  lemma MarkSpec(to: seq<StepId>, from: seq<StepId>, step: StepId)
    ensures forall x :: x in Include(to, step) <==> x in to || x == step
    ensures forall x :: x in Exclude(from, step) <==> x in from && x != step
    ensures NoDuplicates(to) ==> NoDuplicates(Include(to, step))
    ensures NoDuplicates(from) ==> NoDuplicates(Exclude(from, step))
  {
    ExcludeSpec(from, step);
  }

  lemma AfterFields(r: Record, e: Event)
    ensures
      var s := After(r, e);
      && (s.activated <==> r.activated || Completes(e, ExecutiveBriefing))
      && (s.activatedAt.Some? <==> r.activatedAt.Some? || Completes(e, ExecutiveBriefing))
      && (s.welcomeCompletedAt.Some? <==> r.welcomeCompletedAt.Some? || Completes(e, Welcome))
      && (r.currentStepId == NextStepId(r) ==> s.currentStepId == NextStepId(s))
  {}

  lemma StepKeepsInv(r: Record, e: Event)
    requires Inv(r) && Allowed(e)
    ensures Inv(After(r, e))
    ensures forall step :: Done(After(r, e), step) <==> Done(r, step) || Marks(e, step)
  {
    AfterLists(r, e);
    AfterFields(r, e);
    ListsKeepInv(r, After(r, e), e);
  }

  /** What an event does to the lists and to the fields keeps the invariant. */
  lemma ListsKeepInv(r: Record, s: Record, e: Event)
    requires Inv(r) && Allowed(e)
    requires forall step :: step in s.completedStepIds <==>
      if Marks(e, step) then e.Complete? else step in r.completedStepIds
    requires forall step :: step in s.skippedStepIds <==> if Marks(e, step) then e.Skip? else step in r.skippedStepIds
    requires NoDuplicates(s.completedStepIds) && NoDuplicates(s.skippedStepIds) && s.currentStepId == NextStepId(s)
    requires s.activated <==> r.activated || Completes(e, ExecutiveBriefing)
    requires s.activatedAt.Some? <==> r.activatedAt.Some? || Completes(e, ExecutiveBriefing)
    requires s.welcomeCompletedAt.Some? <==> r.welcomeCompletedAt.Some? || Completes(e, Welcome)
    ensures Inv(s)
    ensures forall step :: Done(s, step) <==> Done(r, step) || Marks(e, step)
  {}

  /** In every run of actions, however interleaved: the lists are duplicate-free and disjoint,
      required steps are never skipped, activation is the completion of the briefing, and the
      current step is the first one in neither list. */
  lemma {:induction false} RunKeepsInv(events: seq<Event>)
    requires forall i | 0 <= i < |events| :: Allowed(events[i])
    ensures Inv(Run(DEFAULT_RECORD, events))
  {
    if events != [] {
      var n := |events| - 1;
      RunKeepsInv(events[..n]);
      StepKeepsInv(Run(DEFAULT_RECORD, events[..n]), events[n]);
    }
  }

  predicate LastMark(events: seq<Event>, step: StepId, i: int) {
    0 <= i < |events| && Marks(events[i], step) && forall j | i < j < |events| :: !Marks(events[j], step)
  }

  lemma LastMarkSnoc(events: seq<Event>, e: Event, step: StepId, i: int)
    ensures LastMark(events + [e], step, i) <==> if Marks(e, step) then i == |events| else LastMark(events, step, i)
  {
    var all := events + [e];
    assert all[|events|] == e;
    if LastMark(events, step, i) && !Marks(e, step) {
      assert forall j | i < j < |events| :: all[j] == events[j];
    }
    if LastMark(all, step, i) {
      assert forall j | i < j < |events| :: all[j] == events[j];
    }
  }

  predicate LastMarkIs(events: seq<Event>, step: StepId, completed: bool) {
    exists i | 0 <= i < |events| :: LastMark(events, step, i) && events[i].Complete? == completed
  }

  lemma LastMarkIsSnoc(events: seq<Event>, e: Event, step: StepId, completed: bool)
    ensures LastMarkIs(events + [e], step, completed) <==>
      if Marks(e, step) then e.Complete? == completed else LastMarkIs(events, step, completed)
  {
    var all := events + [e];
    forall i ensures LastMark(all, step, i) <==> if Marks(e, step) then i == |events| else LastMark(events, step, i) {
      LastMarkSnoc(events, e, step, i);
    }
    assert all[|events|] == e;
    assert forall i | 0 <= i < |events| :: all[i] == events[i];
  }

  /** A step is completed or skipped exactly as the last event that named it says. */
  lemma {:induction false} ListsFollowTheLastMark(r: Record, events: seq<Event>, step: StepId)
    requires r.completedStepIds == [] && r.skippedStepIds == []
    ensures step in Run(r, events).completedStepIds <==> LastMarkIs(events, step, true)
    ensures step in Run(r, events).skippedStepIds <==> LastMarkIs(events, step, false)
  {
    if events != [] {
      var n := |events| - 1;
      var before, e := events[..n], events[n];
      assert events == before + [e];
      ListsFollowTheLastMark(r, before, step);
      LastMarkIsSnoc(before, e, step, true);
      LastMarkIsSnoc(before, e, step, false);
      AfterLists(Run(r, before), e);
    }
  }

  /** Progress is never lost: a done step stays done and the current step never moves back. */
  lemma {:induction false} ProgressOnlyGrows(a: seq<Event>, b: seq<Event>)
    requires forall i | 0 <= i < |a + b| :: Allowed((a + b)[i])
    ensures
      var earlier, later := Run(DEFAULT_RECORD, a), Run(DEFAULT_RECORD, a + b);
      && (forall step | Done(earlier, step) :: Done(later, step))
      && (earlier.activated ==> later.activated)
      && NextIndex(earlier) <= NextIndex(later)
      && earlier.currentStepId == STEP_IDS[NextIndex(earlier)]
      && later.currentStepId == STEP_IDS[NextIndex(later)]
  {
    assert forall i | 0 <= i < |a| :: a[i] == (a + b)[i];
    forall i | 0 <= i < |b| ensures Allowed(b[i]) {
      assert b[i] == (a + b)[|a| + i];
    }
    RunKeepsInv(a);
    GrowsFrom(Run(DEFAULT_RECORD, a), b);
    RunAppends(DEFAULT_RECORD, a, b);
    NoEarlierThan(Run(DEFAULT_RECORD, a), Run(DEFAULT_RECORD, a + b));
  }

  lemma {:induction false} GrowsFrom(r: Record, b: seq<Event>)
    requires Inv(r) && forall i | 0 <= i < |b| :: Allowed(b[i])
    ensures Inv(Run(r, b)) && (r.activated ==> Run(r, b).activated)
    ensures forall step | Done(r, step) :: Done(Run(r, b), step)
  {
    if b != [] {
      var n := |b| - 1;
      GrowsFrom(r, b[..n]);
      StepKeepsInv(Run(r, b[..n]), b[n]);
      AfterFields(Run(r, b[..n]), b[n]);
    }
  }

  lemma NoEarlierThan(r: Record, s: Record)
    requires forall step | Done(r, step) :: Done(s, step)
    ensures NextIndex(r) <= NextIndex(s)
  {
    assert forall k | 0 <= k < NextIndex(r) :: Done(r, STEP_IDS[k]);
  }

  /** A step name the wizard does not know is accepted and listed as completed, and changes nothing
      else: no other step, and neither the current step nor the activation; and no action can
      skip it. */
  lemma UnknownStepChangesNothingElse(r: Record, name: string, now: int)
    requires Inv(r)
    ensures
      var s := After(r, Complete(Unknown(name), now));
      && Unknown(name) in s.completedStepIds && Inv(s)
      && (forall step | step != Unknown(name) :: step in s.completedStepIds <==> step in r.completedStepIds)
      && (forall step :: step in s.skippedStepIds <==> step in r.skippedStepIds)
      && s.currentStepId == r.currentStepId && s.activated == r.activated
    ensures !Allowed(Skip(Unknown(name)))
  {
    var s := After(r, Complete(Unknown(name), now));
    AfterLists(r, Complete(Unknown(name), now));
    StepKeepsInv(r, Complete(Unknown(name), now));
    AfterFields(r, Complete(Unknown(name), now));
    SameKnownSameNext(r, s, 0);
  }

  /** The next step depends on the wizard's own steps alone. */
  lemma {:induction false} SameKnownSameNext(r: Record, s: Record, i: nat)
    requires i < |STEP_IDS|
    requires forall k | 0 <= k < |STEP_IDS| :: Done(r, STEP_IDS[k]) == Done(s, STEP_IDS[k])
    ensures NextFrom(r.completedStepIds, r.skippedStepIds, i) == NextFrom(s.completedStepIds, s.skippedStepIds, i)
    decreases |STEP_IDS| - i
  {
    assert Done(r, STEP_IDS[i]) == Done(s, STEP_IDS[i]);
    if i < |STEP_IDS| - 1 {
      SameKnownSameNext(r, s, i + 1);
    }
  }

  // ----- The AI initialisation -----

  /** Which agents throw, and with what message, by their position. */
  type Failures = int -> Option<string>

  /** The agents among the first `n` that failed, or that did not, in order. */
  function Picked(agents: seq<Agent>, failures: Failures, failed: bool, n: nat): seq<Agent>
    requires n <= |agents|
  {
    if n == 0 then []
    else
      var before := Picked(agents, failures, failed, n - 1);
      if failures(n - 1).Some? == failed then before + [agents[n - 1]] else before
  }

  /** How many agents before position `i` ended as the one at `i` did. */
  function Rank(failures: Failures, failed: bool, i: nat): nat {
    if i == 0 then 0 else Rank(failures, failed, i - 1) + if failures(i - 1).Some? == failed then 1 else 0
  }

  function Opening(agents: seq<Agent>, now: int): AiPatch {
    AiPatch(Some(Running), Some([]), Some([]), Some(if agents == [] then None else Some(agents[0])), Some(Some(now)),
      Some(None), Some(None))
  }

  function AgentEvents(agent: Agent, failure: Option<string>, completed: seq<Agent>, failed: seq<Agent>): seq<Event> {
    [PatchAi(NO_PATCH.(currentAgentId := Some(Some(agent))))]
      + (if failure.Some? then [PatchAi(NO_PATCH.(failedAgents := Some(failed), lastError := Some(failure)))] else [])
      + [PatchAi(NO_PATCH.(completedAgents := Some(completed), failedAgents := Some(failed)))]
  }

  /** The saved steps of an initialisation up to the point where `n` agents are done. */
  function ProgressEvents(agents: seq<Agent>, failures: Failures, now: int, n: nat): seq<Event>
    requires n <= |agents|
  {
    if n == 0 then [PatchAi(Opening(agents, now))]
    else
      ProgressEvents(agents, failures, now, n - 1) + AgentEvents(
        agents[n - 1], failures(n - 1), Picked(agents, failures, false, n), Picked(agents, failures, true, n))
  }

  predicate EndsFailed(agents: seq<Agent>, failures: Failures) {
    |Picked(agents, failures, true, |agents|)| > 0 && |Picked(agents, failures, false, |agents|)| == 0
  }

  function InitEvents(agents: seq<Agent>, failures: Failures, now: int, later: int): seq<Event> {
    var failed := EndsFailed(agents, failures);
    ProgressEvents(agents, failures, now, |agents|)
      + [PatchAi(Ending(failed, later))]
      + if failed then [] else [Complete(AiInit, later)]
  }

  lemma {:induction false} PickedLength(agents: seq<Agent>, failures: Failures, failed: bool, n: nat)
    requires n <= |agents|
    ensures |Picked(agents, failures, failed, n)| == Rank(failures, failed, n)
    ensures |Picked(agents, failures, failed, n)| + |Picked(agents, failures, !failed, n)| == n
  {
    if n > 0 {
      PickedLength(agents, failures, failed, n - 1);
    }
  }

  /** The two lists are an order-preserving partition of the first `n` agents: together they are
      as many, and each agent is in the list of its outcome, at the place given by how many came
      before it there. */
  lemma {:induction false} PickedPartition(agents: seq<Agent>, failures: Failures, n: nat, i: nat)
    requires i < n <= |agents|
    ensures
      var failed := failures(i).Some?;
      && |Picked(agents, failures, failed, n)| + |Picked(agents, failures, !failed, n)| == n
      && Rank(failures, failed, i) < |Picked(agents, failures, failed, n)|
      && Picked(agents, failures, failed, n)[Rank(failures, failed, i)] == agents[i]
  {
    var failed := failures(i).Some?;
    PickedLength(agents, failures, failed, n);
    PickedLength(agents, failures, failed, n - 1);
    if i < n - 1 {
      PickedPartition(agents, failures, n - 1, i);
    }
  }

  /** How an AI state stands after `n` agents. */
  predicate InProgress(ai: AiState, agents: seq<Agent>, failures: Failures, now: int, n: nat)
    requires n <= |agents|
  {
    && ai.status == Running
    && ai.completedAgents == Picked(agents, failures, false, n)
    && ai.failedAgents == Picked(agents, failures, true, n)
    && ai.startedAt == Some(now) && ai.completedAt == None
    && (ai.lastError.Some? <==> |Picked(agents, failures, true, n)| > 0)
    && LastMessage(failures, n, ai.lastError)
    && ai.currentAgentId == (if agents == [] then None else if n == 0 then Some(agents[0]) else Some(agents[n - 1]))
  }

  /** The message of the last of the first `n` agents that failed. */
  predicate LastMessage(failures: Failures, n: nat, message: Option<string>) {
    if message.None? then forall i: nat | i < n :: failures(i).None?
    else exists i: nat :: i < n && failures(i) == message && forall j: nat | i < j < n :: failures(j).None?
  }

  lemma ProgressStep(ai: AiState, agents: seq<Agent>, failures: Failures, now: int, n: nat)
    requires n < |agents| && InProgress(ai, agents, failures, now, n)
    ensures InProgress(ai.(
      currentAgentId := Some(agents[n]), completedAgents := Picked(agents, failures, false, n + 1),
      failedAgents := Picked(agents, failures, true, n + 1),
      lastError := if failures(n).Some? then failures(n) else ai.lastError), agents, failures, now, n + 1)
  {
    NextMessage(failures, n, ai.lastError);
  }

  lemma NextMessage(failures: Failures, n: nat, message: Option<string>)
    requires LastMessage(failures, n, message)
    ensures LastMessage(failures, n + 1, if failures(n).Some? then failures(n) else message)
  {}

  predicate HasProgressed(r: Record, s: Record, agents: seq<Agent>, failures: Failures, now: int, n: nat)
    requires n <= |agents|
  {
    s == r.(aiInitialization := s.aiInitialization) && InProgress(s.aiInitialization, agents, failures, now, n)
  }

  /** The persisted progress after `n` agents, and that nothing but the AI state has changed. */
  lemma {:induction false} ProgressAfter(r: Record, agents: seq<Agent>, failures: Failures, now: int, n: nat)
    requires n <= |agents|
    ensures HasProgressed(r, Run(r, ProgressEvents(agents, failures, now, n)), agents, failures, now, n)
  {
    if n == 0 {
      Opened(r, agents, failures, now);
    } else {
      ProgressAfter(r, agents, failures, now, n - 1);
      OneMoreAgent(r, agents, failures, now, n - 1);
    }
  }

  lemma Opened(r: Record, agents: seq<Agent>, failures: Failures, now: int)
    ensures HasProgressed(r, Run(r, ProgressEvents(agents, failures, now, 0)), agents, failures, now, 0)
  {
    RunOne(r, PatchAi(Opening(agents, now)));
  }

  lemma OneMoreAgent(r: Record, agents: seq<Agent>, failures: Failures, now: int, n: nat)
    requires n < |agents|
    requires HasProgressed(r, Run(r, ProgressEvents(agents, failures, now, n)), agents, failures, now, n)
    ensures HasProgressed(r, Run(r, ProgressEvents(agents, failures, now, n + 1)), agents, failures, now, n + 1)
  {
    var before := ProgressEvents(agents, failures, now, n);
    var completed, failed := Picked(agents, failures, false, n + 1), Picked(agents, failures, true, n + 1);
    AgentStepInRun(r, before, agents[n], failures(n), completed, failed);
    ProgressStep(Run(r, before).aiInitialization, agents, failures, now, n);
  }

  lemma RunSingle(r: Record, events: seq<Event>)
    ensures |events| == 1 ==> Run(r, events) == After(r, events[0])
  {
    if |events| == 1 {
      assert events == [events[0]];
      RunOne(r, events[0]);
    }
  }

  /** The record after one agent. */
  function AgentDone(r: Record, agent: Agent, failure: Option<string>, completed: seq<Agent>,
    failed: seq<Agent>): Record {
    r.(aiInitialization := r.aiInitialization.(
      currentAgentId := Some(agent), completedAgents := completed, failedAgents := failed,
      lastError := if failure.Some? then failure else r.aiInitialization.lastError))
  }

  lemma AgentStep(r: Record, agent: Agent, failure: Option<string>, completed: seq<Agent>, failed: seq<Agent>)
    ensures Run(r, AgentEvents(agent, failure, completed, failed)) == AgentDone(r, agent, failure, completed, failed)
  {
    var first := PatchAi(NO_PATCH.(currentAgentId := Some(Some(agent))));
    var middle := PatchAi(NO_PATCH.(failedAgents := Some(failed), lastError := Some(failure)));
    var last := PatchAi(NO_PATCH.(completedAgents := Some(completed), failedAgents := Some(failed)));
    RunOne(r, first);
    if failure.Some? {
      RunSnoc(r, [first], middle);
      RunSnoc(r, [first] + [middle], last);
    } else {
      assert AgentEvents(agent, failure, completed, failed) == [first] + [last];
      RunSnoc(r, [first], last);
    }
  }

  /** An agent's failure is saved, with the agents that failed so far and its message, before the lists are. */
  lemma FailureIsSavedFirst(r: Record, agent: Agent, message: string, completed: seq<Agent>, failed: seq<Agent>)
    ensures
      var events := AgentEvents(agent, Some(message), completed, failed);
      && |events| == 3
      && Run(r, events[..1]) == r.(aiInitialization := r.aiInitialization.(currentAgentId := Some(agent)))
      && Run(r, events[..2]) == r.(aiInitialization := r.aiInitialization.(
           currentAgentId := Some(agent), failedAgents := failed, lastError := Some(message)))
  {
    var events := AgentEvents(agent, Some(message), completed, failed);
    assert events[..1] == [events[0]];
    RunOne(r, events[0]);
    assert events[..2] == events[..1] + [events[1]];
    RunSnoc(r, events[..1], events[1]);
  }

  lemma RunSnoc(r: Record, events: seq<Event>, e: Event)
    ensures Run(r, events + [e]) == After(Run(r, events), e)
  {}

  lemma RunOne(r: Record, e: Event)
    ensures Run(r, [e]) == After(r, e)
  {}

  /** The record after `n` agents, computed on records instead of events. */
  function Progressed(r: Record, agents: seq<Agent>, failures: Failures, now: int, n: nat): Record
    requires n <= |agents|
  {
    if n == 0 then PatchedRecord(r, Opening(agents, now))
    else
      AgentDone(Progressed(r, agents, failures, now, n - 1), agents[n - 1], failures(n - 1),
                Picked(agents, failures, false, n), Picked(agents, failures, true, n))
  }

  lemma PickedNext(agents: seq<Agent>, failures: Failures, n: nat, completed: seq<Agent>, failed: seq<Agent>)
    requires n < |agents|
    requires completed == Picked(agents, failures, false, n) + (if failures(n).None? then [agents[n]] else [])
    requires failed == Picked(agents, failures, true, n) + (if failures(n).None? then [] else [agents[n]])
    ensures completed == Picked(agents, failures, false, n + 1) && failed == Picked(agents, failures, true, n + 1)
  {}

  lemma {:induction false} ProgressedIsRun(r: Record, agents: seq<Agent>, failures: Failures, now: int, n: nat)
    requires n <= |agents|
    ensures Progressed(r, agents, failures, now, n) == Run(r, ProgressEvents(agents, failures, now, n))
  {
    if n == 0 {
      RunOne(r, PatchAi(Opening(agents, now)));
    } else {
      ProgressedIsRun(r, agents, failures, now, n - 1);
      ProgressedStep(r, agents, failures, now, n - 1);
    }
  }

  lemma ProgressedStep(r: Record, agents: seq<Agent>, failures: Failures, now: int, n: nat)
    requires n < |agents|
    requires Progressed(r, agents, failures, now, n) == Run(r, ProgressEvents(agents, failures, now, n))
    ensures Progressed(r, agents, failures, now, n + 1) == Run(r, ProgressEvents(agents, failures, now, n + 1))
  {
    var before := ProgressEvents(agents, failures, now, n);
    var completed, failed := Picked(agents, failures, false, n + 1), Picked(agents, failures, true, n + 1);
    AgentStepInRun(r, before, agents[n], failures(n), completed, failed);
  }

  lemma AgentStepInRun(r: Record, before: seq<Event>, agent: Agent, failure: Option<string>, completed: seq<Agent>,
    failed: seq<Agent>)
    ensures Run(r, before + AgentEvents(agent, failure, completed, failed)) ==
      AgentDone(Run(r, before), agent, failure, completed, failed)
  {
    RunAppends(r, before, AgentEvents(agent, failure, completed, failed));
    AgentStep(Run(r, before), agent, failure, completed, failed);
  }

  function Ending(failed: bool, later: int): AiPatch {
    NO_PATCH.(status := Some(if failed then Failed else Completed), currentAgentId := Some(None),
      completedAt := Some(Some(later)))
  }

  function Finished(r: Record, failed: bool, later: int): Record {
    var ended := After(r, PatchAi(Ending(failed, later)));
    if failed then ended else After(ended, Complete(AiInit, later))
  }

  lemma InitEnds(r: Record, agents: seq<Agent>, failures: Failures, now: int, later: int)
    ensures
      Run(r, InitEvents(agents, failures, now, later)) ==
        Finished(Run(r, ProgressEvents(agents, failures, now, |agents|)), EndsFailed(agents, failures), later)
  {
    var progress := ProgressEvents(agents, failures, now, |agents|);
    var ending := PatchAi(Ending(EndsFailed(agents, failures), later));
    RunSnoc(r, progress, ending);
    RunSnoc(r, progress + [ending], Complete(AiInit, later));
    assert progress + [ending] + [] == progress + [ending];
  }

  lemma EndingStep(r: Record, failed: bool, later: int)
    ensures After(r, PatchAi(Ending(failed, later))) == r.(aiInitialization := r.aiInitialization.(
      status := if failed then Failed else Completed, currentAgentId := None, completedAt := Some(later)))
  {}

  lemma AiInitCompletes(r: Record, now: int)
    requires Inv(r)
    ensures
      var s := After(r, Complete(AiInit, now));
      && Inv(s) && s.activated == r.activated && s.aiInitialization == r.aiInitialization
      && (forall step :: step in s.completedStepIds <==> step in r.completedStepIds || step == AiInit)
      && (forall step :: step in s.skippedStepIds <==> step in r.skippedStepIds)
  {
    AfterLists(r, Complete(AiInit, now));
    AfterFields(r, Complete(AiInit, now));
    StepKeepsInv(r, Complete(AiInit, now));
  }

  /** Every agent failed, and there was one. */
  predicate AllFailed(agents: seq<Agent>, failures: Failures) {
    agents != [] && forall i: nat | i < |agents| :: failures(i).Some?
  }

  /** For any agents and any pattern of failures: the initialisation ends `failed` exactly when
      some agent failed and none succeeded, and exactly otherwise completes its step; it touches
      no other step. */
  lemma InitOutcome(r: Record, agents: seq<Agent>, failures: Failures, now: int, later: int)
    requires Inv(r)
    ensures
      var s := Run(r, InitEvents(agents, failures, now, later));
      && s.aiInitialization.status == (if AllFailed(agents, failures) then Failed else Completed)
      && s.aiInitialization.completedAgents == Picked(agents, failures, false, |agents|)
      && s.aiInitialization.failedAgents == Picked(agents, failures, true, |agents|)
      && s.aiInitialization.currentAgentId == None && s.aiInitialization.completedAt == Some(later)
      && (AiInit in s.completedStepIds <==> AiInit in r.completedStepIds || !AllFailed(agents, failures))
      && (forall step | step != AiInit :: step in s.completedStepIds <==> step in r.completedStepIds)
      && (forall step :: step in s.skippedStepIds <==> step in r.skippedStepIds)
      && s.activated == r.activated && Inv(s)
  {
    var middle := Run(r, ProgressEvents(agents, failures, now, |agents|));
    AllFailedIff(agents, failures);
    ProgressAfter(r, agents, failures, now, |agents|);
    InitEnds(r, agents, failures, now, later);
    FinishedOutcome(r, middle, EndsFailed(agents, failures), later);
  }

  lemma FinishedOutcome(r: Record, middle: Record, failed: bool, later: int)
    requires Inv(r) && middle == r.(aiInitialization := middle.aiInitialization)
    ensures
      var s := Finished(middle, failed, later);
      && s.aiInitialization == middle.aiInitialization.(
           status := if failed then Failed else Completed, currentAgentId := None, completedAt := Some(later))
      && (forall step :: step in s.completedStepIds <==> step in r.completedStepIds || (step == AiInit && !failed))
      && (forall step :: step in s.skippedStepIds <==> step in r.skippedStepIds)
      && s.activated == r.activated && Inv(s)
  {
    EndingStep(middle, failed, later);
    if !failed {
      AiInitCompletes(After(middle, PatchAi(Ending(failed, later))), later);
    }
  }

  /** All that is saved when the product lookup throws. */
  function InterruptedEvents(agents: seq<Agent>, now: int): seq<Event> {
    [PatchAi(Opening(agents, now))]
  }

  /** An initialisation that is interrupted leaves the record `running` with no agent done, and
      changes nothing else: no step, and neither the activation nor the current step. */
  lemma InterruptedOutcome(r: Record, agents: seq<Agent>, now: int)
    requires Inv(r)
    ensures
      var s := Run(r, InterruptedEvents(agents, now));
      && s == r.(aiInitialization := s.aiInitialization) && Inv(s)
      && s.aiInitialization.status == Running && s.aiInitialization.startedAt == Some(now)
      && s.aiInitialization.completedAgents == [] && s.aiInitialization.failedAgents == []
  {
    RunOne(r, PatchAi(Opening(agents, now)));
    StepKeepsInv(r, PatchAi(Opening(agents, now)));
  }

  lemma {:induction false} RankCounts(failures: Failures, failed: bool, n: nat)
    ensures Rank(failures, failed, n) == 0 <==> forall i: nat | i < n :: failures(i).Some? != failed
  {
    if n > 0 {
      RankCounts(failures, failed, n - 1);
    }
  }

  lemma AllFailedIff(agents: seq<Agent>, failures: Failures)
    ensures EndsFailed(agents, failures) <==> AllFailed(agents, failures)
  {
    PickedLength(agents, failures, false, |agents|);
    RankCounts(failures, false, |agents|);
  }

  // ----- The actions -----

  datatype Intent =
    | CompleteWelcome | AdvanceStep | SkipStep | EnterDemo | ExitDemo | SkipGoogleAnalytics
    | RunAiInit | CompleteActivation
    | BeginGoogleOAuth(authorizationUrl: string)
    | ConnectClarity(projectId: string, apiToken: string)
    | CallIntegration  // the sync intents, and the retry of the Shopify sync
    | UnknownIntent

  /** `serviceFails` says that the integration service an action calls throws, `lookupFails` that
      the product lookup of an AI initialisation does. */
  datatype Action = Action(
    intent: Intent, stepId: Option<StepId>, serviceFails: bool, lookupFails: bool, failures: Failures, now: int,
    later: int)

  datatype ActionResult = Ok | Redirect(to: string) | Refused(error: string) | Throws

  function ResultOf(a: Action): ActionResult {
    match a.intent
    case AdvanceStep => if a.stepId.None? then Refused("missing_step") else Ok
    case SkipStep =>
      if a.stepId.None? then Refused("missing_step")
      else if !Skippable(a.stepId.value) then Refused("step_not_skippable")
      else if a.stepId.value.Ga4? && a.serviceFails then Throws
      else Ok
    case BeginGoogleOAuth(authorizationUrl) => if a.serviceFails then Throws else Redirect(authorizationUrl)
    case SkipGoogleAnalytics => if a.serviceFails then Throws else Ok
    case CallIntegration => if a.serviceFails then Throws else Ok
    case ConnectClarity(projectId, apiToken) =>
      if projectId == "" || apiToken == "" then Refused("missing_clarity_credentials")
      else if a.serviceFails then Throws
      else Ok
    case RunAiInit => if a.lookupFails then Throws else Ok
    case CompleteActivation => Redirect("/app")
    case UnknownIntent => Refused("unknown_intent")
    case _ => Ok
  }

  /** When an action throws, what it is refused for, and where it sends the merchant; all others are fine.
      A refused action, and one that throws outside an AI initialisation, saves nothing. */
  lemma ResultInPlainTerms(a: Action)
    ensures ResultOf(a) == Throws <==>
      || (a.intent.RunAiInit? && a.lookupFails)
      || (a.serviceFails && a.intent.SkipStep? && a.stepId == Some(Ga4))
      || (a.serviceFails && a.intent.ConnectClarity? && a.intent.projectId != "" && a.intent.apiToken != "")
      || (a.serviceFails && (a.intent.SkipGoogleAnalytics? || a.intent.BeginGoogleOAuth? || a.intent.CallIntegration?))
    ensures ResultOf(a) == Refused("missing_step") <==>
      (a.intent.AdvanceStep? || a.intent.SkipStep?) && a.stepId.None?
    ensures ResultOf(a) == Refused("step_not_skippable") <==>
      && a.intent.SkipStep? && a.stepId.Some?
      && a.stepId.value !in {Google, Ga4, SearchConsole, PageSpeed, Clarity}
    ensures ResultOf(a) == Refused("missing_clarity_credentials") <==>
      a.intent.ConnectClarity? && (a.intent.projectId == "" || a.intent.apiToken == "")
    ensures ResultOf(a) == Refused("unknown_intent") <==> a.intent.UnknownIntent?
    ensures
      var errors := {"missing_step", "step_not_skippable", "missing_clarity_credentials", "unknown_intent"};
      ResultOf(a).Refused? ==> ResultOf(a).error in errors
    ensures ResultOf(a).Redirect? <==> a.intent.CompleteActivation? || (a.intent.BeginGoogleOAuth? && !a.serviceFails)
    ensures ResultOf(a).Redirect? ==>
      ResultOf(a).to == if a.intent.CompleteActivation? then "/app" else a.intent.authorizationUrl
    ensures ResultOf(a).Refused? || (ResultOf(a) == Throws && !a.intent.RunAiInit?) ==> EventsOf(a) == []
  {}

  function EventsOf(a: Action): seq<Event> {
    match a.intent
    case CompleteWelcome => [Complete(Welcome, a.now)]
    case AdvanceStep => if a.stepId.None? then [] else [Complete(a.stepId.value, a.now)]
    case SkipStep =>
      if a.stepId.None? || !Skippable(a.stepId.value) then []
      else if a.stepId.value.Ga4? && a.serviceFails then []
      else [Skip(a.stepId.value)]
    case EnterDemo => [SetDemo(true)]
    case ExitDemo => [SetDemo(false)]
    case SkipGoogleAnalytics => if a.serviceFails then [] else [Skip(Ga4)]
    case RunAiInit =>
      if a.lookupFails then InterruptedEvents(AI_AGENTS, a.now) else InitEvents(AI_AGENTS, a.failures, a.now, a.later)
    case CompleteActivation => [Complete(ExecutiveBriefing, a.now)]
    case _ => []
  }

  lemma {:induction false} ProgressIsPatches(agents: seq<Agent>, failures: Failures, now: int, n: nat)
    requires n <= |agents|
    ensures forall e | e in ProgressEvents(agents, failures, now, n) :: e.PatchAi?
  {
    if n > 0 {
      ProgressIsPatches(agents, failures, now, n - 1);
    }
  }

  /** So `RunKeepsInv`, `ListsFollowTheLastMark` and `ProgressOnlyGrows` hold over the steps of
      any actions. */
  lemma ActionsAreAllowed(a: Action)
    ensures forall e | e in EventsOf(a) :: Allowed(e)
    ensures (exists e :: e in EventsOf(a) && Marks(e, ExecutiveBriefing)) <==>
      a.intent == CompleteActivation || (a.intent == AdvanceStep && a.stepId == Some(ExecutiveBriefing))
  {
    ProgressIsPatches(AI_AGENTS, a.failures, a.now, |AI_AGENTS|);
    if a.intent == CompleteActivation || (a.intent == AdvanceStep && a.stepId == Some(ExecutiveBriefing)) {
      assert Complete(ExecutiveBriefing, a.now) in EventsOf(a);
      assert Marks(Complete(ExecutiveBriefing, a.now), ExecutiveBriefing);
    }
  }

  /** One store's record is now `r`; every other store is as it was. */
  ghost predicate Saved(before: map<string, Record>, after: map<string, Record>, storeId: string, r: Record) {
    && storeId in after && after[storeId] == r
    && forall other | other != storeId ::
      (other in after <==> other in before) && (other in before ==> after[other] == before[other])
  }

  // ----- What each action leaves on the record -----

  /** The step is now completed, or skipped; no other step has changed, and the current step is the first
      of the wizard's steps in neither list, or the last one. */
  ghost predicate OnlyStep(r: Record, s: Record, step: StepId, completed: bool) {
    && (step in s.completedStepIds <==> completed) && (step in s.skippedStepIds <==> !completed)
    && (forall x | x != step :: x in s.completedStepIds <==> x in r.completedStepIds)
    && (forall x | x != step :: x in s.skippedStepIds <==> x in r.skippedStepIds)
    && FirstOpenIsCurrent(s)
  }

  predicate FirstOpenIsCurrent(s: Record) {
    var order := [Welcome, Shopify, Google, Ga4, SearchConsole, PageSpeed, Clarity, ShopifySync, AiInit,
                  ExecutiveBriefing];
    exists n | 0 <= n < 10 ::
      && s.currentStepId == order[n]
      && (n == 9 || (order[n] !in s.completedStepIds && order[n] !in s.skippedStepIds))
      && forall k | 0 <= k < n :: order[k] in s.completedStepIds || order[k] in s.skippedStepIds
  }

  predicate SameFlags(r: Record, s: Record) {
    s.demoMode == r.demoMode && s.activated == r.activated && s.activatedAt == r.activatedAt
  }

  /** Completing a step: the welcome notes its time, and the briefing activates and notes its own. */
  ghost predicate StepCompleted(r: Record, s: Record, step: StepId, now: int) {
    && OnlyStep(r, s, step, true)
    && s.demoMode == r.demoMode
    && s.welcomeCompletedAt == (if step == Welcome then Some(now) else r.welcomeCompletedAt)
    && (step == ExecutiveBriefing ==> s.activated && s.activatedAt == Some(now))
    && (step != ExecutiveBriefing ==> SameFlags(r, s))
  }

  ghost predicate StepSkipped(r: Record, s: Record, step: StepId) {
    && OnlyStep(r, s, step, false) && SameFlags(r, s)
    && s.welcomeCompletedAt == r.welcomeCompletedAt && s.aiInitialization == r.aiInitialization
  }

  /** The initialisation ran over the eight agents: each is listed by its outcome, and unless all failed the
      step is completed. */
  ghost predicate AgentsRan(r: Record, s: Record, failures: Failures, now: int, later: int) {
    var agents := [ProductIntelligence, InventoryIntelligence, BundleDiscovery, StoreAudit, SeoIntelligence,
                   PricingIntelligence, GrowthIntelligence, ExecutiveCoo];
    var ai, allFailed := s.aiInitialization, forall i: nat | i < 8 :: failures(i).Some?;
    && ai.status == (if allFailed then Failed else Completed)
    && |ai.completedAgents| + |ai.failedAgents| == 8
    && (forall i: nat | i < 8 :: failures(i).None? ==> agents[i] in ai.completedAgents)
    && (forall i: nat | i < 8 :: failures(i).Some? ==> agents[i] in ai.failedAgents)
    && ai.currentAgentId == None && ai.startedAt == Some(now) && ai.completedAt == Some(later)
    && LastMessage(failures, 8, ai.lastError)
    && (allFailed ==> s == r.(aiInitialization := ai))
    && (!allFailed ==> StepCompleted(r, s, AiInit, later))
  }

  /** The record an action leaves, intent by intent. */
  ghost predicate IntentDone(r: Record, s: Record, a: Action) {
    match a.intent
    case CompleteWelcome => StepCompleted(r, s, Welcome, a.now) && s.aiInitialization == r.aiInitialization
    case AdvanceStep =>
      if a.stepId.None? then s == r
      else StepCompleted(r, s, a.stepId.value, a.now) && s.aiInitialization == r.aiInitialization
    case SkipStep =>
      if a.stepId in {Some(Google), Some(SearchConsole), Some(PageSpeed), Some(Clarity)} ||
        (a.stepId == Some(Ga4) && !a.serviceFails)
      then StepSkipped(r, s, a.stepId.value)
      else s == r
    case EnterDemo => s == r.(demoMode := true)
    case ExitDemo => s == r.(demoMode := false)
    case SkipGoogleAnalytics => if a.serviceFails then s == r else StepSkipped(r, s, Ga4)
    case RunAiInit =>
      if a.lookupFails
      then s == r.(aiInitialization := AiState(Running, [], [], Some(ProductIntelligence), Some(a.now), None, None))
      else AgentsRan(r, s, a.failures, a.now, a.later)
    case CompleteActivation =>
      StepCompleted(r, s, ExecutiveBriefing, a.now) && s.aiInitialization == r.aiInitialization
    case _ => s == r
  }

  lemma CurrentIsNext(s: Record)
    requires s.currentStepId == NextStepId(s)
    ensures FirstOpenIsCurrent(s)
  {
    var n := NextIndex(s);
    assert s.currentStepId == STEP_IDS[n];
  }

  lemma CompletionIsDone(r: Record, step: StepId, now: int)
    ensures StepCompleted(r, After(r, Complete(step, now)), step, now)
    ensures After(r, Complete(step, now)).aiInitialization == r.aiInitialization
  {
    AfterLists(r, Complete(step, now));
    CurrentIsNext(After(r, Complete(step, now)));
  }

  lemma SkipIsDone(r: Record, step: StepId)
    ensures StepSkipped(r, After(r, Skip(step)), step)
  {
    AfterLists(r, Skip(step));
    CurrentIsNext(After(r, Skip(step)));
  }

  lemma InitIsDone(r: Record, failures: Failures, now: int, later: int)
    ensures AgentsRan(r, Run(r, InitEvents(AI_AGENTS, failures, now, later)), failures, now, later)
  {
    var middle := Run(r, ProgressEvents(AI_AGENTS, failures, now, 8));
    ProgressAfter(r, AI_AGENTS, failures, now, 8);
    InitEnds(r, AI_AGENTS, failures, now, later);
    FinishIsDone(r, middle, failures, now, later);
  }

  lemma FinishIsDone(r: Record, middle: Record, failures: Failures, now: int, later: int)
    requires middle == r.(aiInitialization := middle.aiInitialization)
    requires InProgress(middle.aiInitialization, AI_AGENTS, failures, now, 8)
    ensures AgentsRan(r, Finished(middle, EndsFailed(AI_AGENTS, failures), later), failures, now, later)
  {
    AllFailedIff(AI_AGENTS, failures);
    forall i: nat | i < 8
      ensures AI_AGENTS[i] in Picked(AI_AGENTS, failures, failures(i).Some?, 8)
    {
      PickedPartition(AI_AGENTS, failures, 8, i);
    }
    PickedLength(AI_AGENTS, failures, true, 8);
    var failed := EndsFailed(AI_AGENTS, failures);
    EndingStep(middle, failed, later);
    if !failed {
      CompletionIsDone(After(middle, PatchAi(Ending(failed, later))), AiInit, later);
    }
  }

  /** Every action leaves the record that its intent says. */
  lemma ActionIsDone(r: Record, a: Action)
    ensures IntentDone(r, Run(r, EventsOf(a)), a)
  {
    RunSingle(r, EventsOf(a));
    match a.intent
    case CompleteWelcome => CompletionIsDone(r, Welcome, a.now);
    case AdvanceStep =>
      if a.stepId.Some? {
        CompletionIsDone(r, a.stepId.value, a.now);
      }
    case SkipStep =>
      if a.stepId.Some? {
        SkipIsDone(r, a.stepId.value);
      }
    case SkipGoogleAnalytics => SkipIsDone(r, Ga4);
    case RunAiInit =>
      if !a.lookupFails {
        InitIsDone(r, a.failures, a.now, a.later);
      }
    case CompleteActivation => CompletionIsDone(r, ExecutiveBriefing, a.now);
    case _ =>
  }

  class OnboardingStore {
    var records: map<string, Record>

    constructor ()
      ensures records == map[]
    {
      records := map[];
    }

    function Load(storeId: string): (r: Record)
      reads this
      ensures storeId in records ==> r == records[storeId]
      ensures storeId !in records ==>
        r == Record(Welcome, [], [], false, false, None, None, AiState(Idle, [], [], None, None, None, None))
    {
      if storeId in records then records[storeId] else DEFAULT_RECORD
    }

    method CompleteOnboardingStep(storeId: string, stepId: StepId, now: int)
      modifies this
      ensures Saved(old(records), records, storeId, CompletedRecord(old(Load(storeId)), stepId, now))
    {
      var next := MarkStepCompleted(Load(storeId), stepId);
      if stepId == Welcome {
        next := next.(welcomeCompletedAt := Some(now));
      }
      if stepId == ExecutiveBriefing {
        next := next.(activated := true, activatedAt := Some(now));
      }
      next := next.(currentStepId := NextStepId(next));
      records := records[storeId := next];
    }

    method SkipOnboardingStep(storeId: string, stepId: StepId)
      modifies this
      ensures Saved(old(records), records, storeId, SkippedRecord(old(Load(storeId)), stepId))
    {
      var next := MarkStepSkipped(Load(storeId), stepId);
      records := records[storeId := next.(currentStepId := NextStepId(next))];
    }

    method SetDemoMode(storeId: string, enabled: bool)
      modifies this
      ensures Saved(old(records), records, storeId, old(Load(storeId)).(demoMode := enabled))
    {
      records := records[storeId := Load(storeId).(demoMode := enabled)];
    }

    method UpdateAiInitializationState(storeId: string, patch: AiPatch)
      modifies this
      ensures Saved(old(records), records, storeId, PatchedRecord(old(Load(storeId)), patch))
    {
      var record := Load(storeId);
      records := records[storeId := record.(aiInitialization := Apply(record.aiInitialization, patch))];
    }

    /** One turn of the loop over the agents. */
    method RunAgent(storeId: string, agent: Agent, failure: Option<string>, completedAgents: seq<Agent>,
      failedAgents: seq<Agent>)
      returns (completed: seq<Agent>, failed: seq<Agent>)
      modifies this
      ensures completed == completedAgents + if failure.None? then [agent] else []
      ensures failed == failedAgents + if failure.None? then [] else [agent]
      ensures Saved(old(records), records, storeId, AgentDone(old(Load(storeId)), agent, failure, completed, failed))
    {
      completed, failed := completedAgents, failedAgents;
      UpdateAiInitializationState(storeId, NO_PATCH.(currentAgentId := Some(Some(agent))));
      match failure {
        case None => completed := completed + [agent];
        case Some(message) =>
          failed := failed + [agent];
          UpdateAiInitializationState(storeId,
            NO_PATCH.(failedAgents := Some(failed), lastError := Some(Some(message))));
      }
      UpdateAiInitializationState(storeId, NO_PATCH.(completedAgents := Some(completed), failedAgents := Some(failed)));
    }

    method RunAgents(storeId: string, agents: seq<Agent>, failures: Failures, ghost first: Record, ghost now: int)
      returns (completed: seq<Agent>, failed: seq<Agent>)
      requires storeId in records && records[storeId] == Progressed(first, agents, failures, now, 0)
      modifies this
      ensures completed == Picked(agents, failures, false, |agents|) &&
        failed == Picked(agents, failures, true, |agents|)
      ensures Saved(old(records), records, storeId, Progressed(first, agents, failures, now, |agents|))
    {
      completed, failed := [], [];
      for n := 0 to |agents|
        invariant completed == Picked(agents, failures, false, n) && failed == Picked(agents, failures, true, n)
        invariant Saved(old(records), records, storeId, Progressed(first, agents, failures, now, n))
      {
        ghost var before := records[storeId];
        completed, failed := RunAgent(storeId, agents[n], failures(n), completed, failed);
        PickedNext(agents, failures, n, completed, failed);
        assert records[storeId] == AgentDone(before, agents[n], failures(n), completed, failed);
      }
    }

    /** The lookup of a product, after the opening state is saved, is outside any try. */
    method RunAiInitialization(storeId: string, agents: seq<Agent>, failures: Failures, now: int, later: int,
      lookupFails: bool)
      returns (threw: bool)
      modifies this
      ensures threw == lookupFails
      ensures Saved(old(records), records, storeId, Run(old(Load(storeId)),
        if threw then InterruptedEvents(agents, now) else InitEvents(agents, failures, now, later)))
    {
      ghost var first := Load(storeId);
      UpdateAiInitializationState(storeId, Opening(agents, now));
      if lookupFails {
        RunOne(first, PatchAi(Opening(agents, now)));
        return true;
      }
      var completedAgents, failedAgents := RunAgents(storeId, agents, failures, first, now);
      var failed := |failedAgents| > 0 && |completedAgents| == 0;
      ProgressedIsRun(first, agents, failures, now, |agents|);
      InitEnds(first, agents, failures, now, later);
      Finish(storeId, failed, later);
      return false;
    }

    method Finish(storeId: string, failed: bool, later: int)
      modifies this
      ensures Saved(old(records), records, storeId, Finished(old(Load(storeId)), failed, later))
    {
      UpdateAiInitializationState(storeId, Ending(failed, later));
      if !failed {
        CompleteOnboardingStep(storeId, AiInit, later);
      }
    }

    method HandleOnboardingAction(storeId: string, a: Action) returns (result: ActionResult)
      modifies this
      ensures EventsOf(a) == [] ==> records == old(records)
      ensures EventsOf(a) != [] ==> Saved(old(records), records, storeId, Run(old(Load(storeId)), EventsOf(a)))
      ensures IntentDone(old(Load(storeId)), Load(storeId), a)
      ensures forall other | other != storeId :: old(Load(other)) == Load(other)
      ensures result == ResultOf(a)
    {
      ActionIsDone(Load(storeId), a);
      result := SwitchOnIntent(storeId, a);
    }

    /** The body of the handler, intent by intent. */
    method SwitchOnIntent(storeId: string, a: Action) returns (result: ActionResult)
      modifies this
      ensures EventsOf(a) == [] ==> records == old(records)
      ensures EventsOf(a) != [] ==> Saved(old(records), records, storeId, Run(old(Load(storeId)), EventsOf(a)))
      ensures result == ResultOf(a)
    {
      RunSingle(Load(storeId), EventsOf(a));
      match a.intent {
        case CompleteWelcome =>
          CompleteOnboardingStep(storeId, Welcome, a.now);
          result := Ok;
        case AdvanceStep =>
          if a.stepId.None? {
            result := Refused("missing_step");
          } else {
            CompleteOnboardingStep(storeId, a.stepId.value, a.now);
            result := Ok;
          }
        case SkipStep =>
          if a.stepId.None? {
            result := Refused("missing_step");
          } else if !Skippable(a.stepId.value) {
            result := Refused("step_not_skippable");
          } else if a.stepId.value.Ga4? && a.serviceFails {
            result := Throws;
          } else {
            SkipOnboardingStep(storeId, a.stepId.value);
            result := Ok;
          }
        case EnterDemo =>
          SetDemoMode(storeId, true);
          result := Ok;
        case ExitDemo =>
          SetDemoMode(storeId, false);
          result := Ok;
        case BeginGoogleOAuth(authorizationUrl) =>
          result := if a.serviceFails then Throws else Redirect(authorizationUrl);
        case SkipGoogleAnalytics =>
          if a.serviceFails {
            result := Throws;
          } else {
            SkipOnboardingStep(storeId, Ga4);
            result := Ok;
          }
        case CallIntegration =>
          result := if a.serviceFails then Throws else Ok;
        case ConnectClarity(projectId, apiToken) =>
          if projectId == "" || apiToken == "" {
            result := Refused("missing_clarity_credentials");
          } else {
            result := if a.serviceFails then Throws else Ok;
          }
        case RunAiInit =>
          var threw := RunAiInitialization(storeId, AI_AGENTS, a.failures, a.now, a.later, a.lookupFails);
          result := if threw then Throws else Ok;
        case CompleteActivation =>
          CompleteOnboardingStep(storeId, ExecutiveBriefing, a.now);
          result := Redirect("/app");
        case UnknownIntent =>
          result := Refused("unknown_intent");
      }
    }
  }
}
