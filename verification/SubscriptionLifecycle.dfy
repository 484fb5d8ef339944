/** The subscription row of one store over install, uninstall, reinstall and Shopify syncs,
    with the rule "one trial per store, never extended". Times are whole milliseconds. */
module SubscriptionLifecycle {
  import opened Common

  datatype Status = Trialing | Active | Cancelled | PastDue

  datatype Subscription = Subscription(
    planId: string, status: Status, periodStart: int, periodEnd: int,
    trialEndsAt: Option<int>, endedAt: Option<int>)

  datatype Plan = Plan(id: string, active: bool)

  /** What the database holds about one store's billing. */
  datatype Account = Account(firstTrialStartedAt: Option<int>, subscription: Option<Subscription>)

  datatype EnsureError = StoreMissing | PlanUnavailable

  datatype EnsureResult = Ensured(subscription: Subscription) | Rejected(error: EnsureError)

  const DAY_MS: int := 86_400_000
  const TRIAL_MS: int := 3 * DAY_MS
  const SYNC_PERIOD_MS: int := 30 * DAY_MS

  predicate Terminated(s: Subscription) {
    s.status == Cancelled || s.endedAt.Some?
  }

  predicate IsLive(a: Account) {
    a.subscription.Some? && !Terminated(a.subscription.value)
  }

  /** Install or reinstall. */
  function AfterEnsure(a: Account, plan: Option<Plan>, now: int): Account {
    if IsLive(a) || plan.None? || !plan.value.active then a
    else if a.firstTrialStartedAt.Some? then
      a.(subscription := Some(Subscription(plan.value.id, Cancelled, now, now, None, None)))
    else
      Account(Some(now), Some(Subscription(plan.value.id, Trialing, now, now + TRIAL_MS, Some(now + TRIAL_MS), None)))
  }

  /** Uninstall. */
  function AfterTerminate(a: Account, now: int): Account {
    if !IsLive(a) then a
    else
      var s := a.subscription.value;
      var trialEnd := if s.trialEndsAt.Some? && s.trialEndsAt.value > now then Some(now) else s.trialEndsAt;
      a.(subscription := Some(s.(status := Cancelled, endedAt := Some(now), periodEnd := now, trialEndsAt := trialEnd)))
  }

  /** A sync from Shopify: updates the row, or creates one. */
  function AfterSync(a: Account, planId: Option<string>, status: Status, now: int): Account {
    if planId.None? then a
    else
      match a.subscription
      case Some(s) =>
        a.(subscription := Some(s.(planId := planId.value, status := status,
                                   endedAt := if status == Cancelled then Some(now) else None)))
      case None =>
        a.(subscription := Some(Subscription(planId.value, status, now, now + SYNC_PERIOD_MS,
                                             if status == Trialing then Some(now + TRIAL_MS) else None, None)))
  }

  class StoreBilling {
    var firstTrialStartedAt: Option<int>
    var subscription: Option<Subscription>

    constructor ()
      ensures State() == NEW_STORE
    {
      firstTrialStartedAt, subscription := None, None;
    }

    function State(): Account
      reads this
    {
      Account(firstTrialStartedAt, subscription)
    }

    /** The subscription row and the store row are written one after the other; the pair counts
        as one step here. */
    method EnsureSubscriptionForActiveStore(storeId: string, plan: Option<Plan>, now: int)
      returns (result: EnsureResult)
      modifies this
      ensures State() == if storeId == "" then old(State()) else AfterEnsure(old(State()), plan, now)
      ensures result.Ensured? ==> State().subscription == Some(result.subscription)
      ensures result == Rejected(StoreMissing) <==> storeId == ""
      ensures result == Rejected(PlanUnavailable) <==>
        storeId != "" && !IsLive(old(State())) && (plan.None? || !plan.value.active)
    {
      if storeId == "" {
        return Rejected(StoreMissing);
      }
      if subscription.Some? && !Terminated(subscription.value) {
        return Ensured(subscription.value);
      }
      if plan.None? || !plan.value.active {
        return Rejected(PlanUnavailable);
      }
      if firstTrialStartedAt.Some? {
        subscription := Some(Subscription(plan.value.id, Cancelled, now, now, None, None));
        return Ensured(subscription.value);
      }
      var trialEndsAt := now + TRIAL_MS;
      subscription := Some(Subscription(plan.value.id, Trialing, now, trialEndsAt, Some(trialEndsAt), None));
      firstTrialStartedAt := Some(now);
      return Ensured(subscription.value);
    }

    method TerminateSubscriptionOnUninstall(now: int)
      modifies this
      ensures State() == AfterTerminate(old(State()), now)
    {
      if subscription.None? || Terminated(subscription.value) {
        return;
      }
      var existing := subscription.value;
      var trialEndsAt := existing.trialEndsAt;
      if trialEndsAt.Some? && trialEndsAt.value > now {
        trialEndsAt := Some(now);
      }
      subscription := Some(existing.(status := Cancelled, endedAt := Some(now), periodEnd := now,
        trialEndsAt := trialEndsAt));
    }

    method SyncInternalPlanFromShopify(planId: Option<string>, status: Status, now: int)
      modifies this
      ensures State() == AfterSync(old(State()), planId, status, now)
    {
      if planId.None? {
        return;
      }
      if subscription.Some? {
        subscription := Some(subscription.value.(planId := planId.value, status := status,
          endedAt := if status == Cancelled then Some(now) else None));
      } else {
        var trialEndsAt := if status == Trialing then Some(now + TRIAL_MS) else None;
        subscription := Some(Subscription(planId.value, status, now, now + SYNC_PERIOD_MS, trialEndsAt, None));
      }
    }
  }

  // ----- Runs -----

  const NEW_STORE: Account := Account(None, None)

  datatype Event =
    | Ensure(plan: Option<Plan>, now: int)
    | Terminate(now: int)
    | Sync(planId: Option<string>, status: Status, now: int)

  function Step(a: Account, e: Event): Account {
    match e
    case Ensure(plan, now) => AfterEnsure(a, plan, now)
    case Terminate(now) => AfterTerminate(a, now)
    case Sync(planId, status, now) => AfterSync(a, planId, status, now)
  }

  function Run(events: seq<Event>): Account {
    if events == [] then NEW_STORE else Step(Run(events[..|events| - 1]), events[|events| - 1])
  }

  // ----- What the events do, field by field -----

  /** A sync that names a plan sets plan, status and end of an existing row and keeps its period and
      trial end; without a row it creates one for thirty days, on trial for three if it says so. */
  lemma SyncInPlainTerms(a: Account, planId: Option<string>, status: Status, now: int)
    ensures
      var after := Step(a, Sync(planId, status, now));
      && (planId.None? ==> after == a)
      && after.firstTrialStartedAt == a.firstTrialStartedAt
      && (planId.Some? ==> after.subscription.Some?)
      && (planId.Some? && a.subscription.Some? ==>
            var was, now' := a.subscription.value, after.subscription.value;
            && now'.planId == planId.value && now'.status == status
            && (status == Cancelled ==> now'.endedAt == Some(now)) && (status != Cancelled ==> now'.endedAt == None)
            && now'.periodStart == was.periodStart && now'.periodEnd == was.periodEnd
            && now'.trialEndsAt == was.trialEndsAt)
      && (planId.Some? && a.subscription.None? ==>
            var now' := after.subscription.value;
            && now'.planId == planId.value && now'.status == status && now'.endedAt == None
            && now'.periodStart == now && now'.periodEnd == now + 2_592_000_000
            && (status == Trialing ==> now'.trialEndsAt == Some(now + 259_200_000))
            && (status != Trialing ==> now'.trialEndsAt == None))
  {}

  /** An install writes the row exactly if the plan can be had and the row is missing, cancelled or
      ended: as a trial of three days, recorded on the store, if none was recorded before, else as
      cancelled at once. */
  lemma EnsureInPlainTerms(a: Account, plan: Option<Plan>, now: int)
    ensures
      var after := Step(a, Ensure(plan, now));
      && (!InstallWrites(a, plan) ==> after == a)
      && (InstallWrites(a, plan) ==>
            && after.subscription.Some?
            && var row := after.subscription.value;
               && row.planId == plan.value.id && row.endedAt == None && row.periodStart == now
               && (a.firstTrialStartedAt.None? ==>
                     && row.status == Trialing && row.trialEndsAt == Some(now + 259_200_000)
                     && row.periodEnd == now + 259_200_000 && after.firstTrialStartedAt == Some(now))
               && (a.firstTrialStartedAt.Some? ==>
                     && row.status == Cancelled && row.trialEndsAt == None
                     && row.periodEnd == now && after.firstTrialStartedAt == a.firstTrialStartedAt))
  {}

  predicate InstallWrites(a: Account, plan: Option<Plan>) {
    && plan.Some? && plan.value.active
    && (a.subscription.None? || a.subscription.value.status == Cancelled || a.subscription.value.endedAt.Some?)
  }

  /** An uninstall ends a row that is neither cancelled nor ended, at that moment, with its period and
      what is left of its trial; it keeps the plan. */
  lemma TerminateInPlainTerms(a: Account, now: int)
    ensures
      var after := Step(a, Terminate(now));
      && after.firstTrialStartedAt == a.firstTrialStartedAt
      && (!UninstallWrites(a) ==> after == a)
      && (UninstallWrites(a) ==>
            && after.subscription.Some?
            && var was, row := a.subscription.value, after.subscription.value;
               && row.planId == was.planId && row.periodStart == was.periodStart
               && row.status == Cancelled && row.endedAt == Some(now) && row.periodEnd == now
               && (was.trialEndsAt.None? ==> row.trialEndsAt == None)
               && (was.trialEndsAt.Some? ==>
                     row.trialEndsAt == Some(if was.trialEndsAt.value > now then now else was.trialEndsAt.value)))
  {}

  predicate UninstallWrites(a: Account) {
    a.subscription.Some? && a.subscription.value.status != Cancelled && a.subscription.value.endedAt.None?
  }

  /** The plan an event gives the row: a sync that names one, or an install that writes the row. */
  function PlanGiven(a: Account, e: Event): Option<string> {
    match e
    case Ensure(plan, _) => if InstallWrites(a, plan) then Some(plan.value.id) else None
    case Terminate(_) => None
    case Sync(planId, _, _) => planId
  }

  /** The status an event gives the row; an uninstall that writes it gives one, too. */
  function StatusGiven(a: Account, e: Event): Option<Status> {
    match e
    case Ensure(plan, _) =>
      if !InstallWrites(a, plan) then None else Some(if a.firstTrialStartedAt.Some? then Cancelled else Trialing)
    case Terminate(_) => if UninstallWrites(a) then Some(Cancelled) else None
    case Sync(planId, status, _) => if planId.Some? then Some(status) else None
  }

  /** Event `i` gave the row this plan, and no later event gave it one. */
  predicate LastPlan(events: seq<Event>, i: int, planId: string) {
    && 0 <= i < |events| && PlanGiven(Run(events[..i]), events[i]) == Some(planId)
    && forall j | i < j < |events| :: PlanGiven(Run(events[..j]), events[j]) == None
  }

  predicate LastStatus(events: seq<Event>, i: int, status: Status) {
    && 0 <= i < |events| && StatusGiven(Run(events[..i]), events[i]) == Some(status)
    && forall j | i < j < |events| :: StatusGiven(Run(events[..j]), events[j]) == None
  }

  /** In every run there is a row exactly if some event gave it a plan, and its plan is the one last
      given to it. */
  lemma {:induction false} PlanIsLastGiven(events: seq<Event>)
    ensures
      var row := Run(events).subscription;
      && (row.Some? <==> exists i, planId :: LastPlan(events, i, planId))
      && (row.Some? ==> exists i :: LastPlan(events, i, row.value.planId))
  {
    if events != [] {
      var n := |events| - 1;
      var before := events[..n];
      PlanIsLastGiven(before);
      StepGives(Run(before), events[n]);
      forall i, planId | 0 <= i < n
        ensures LastPlan(events, i, planId) <==>
          LastPlan(before, i, planId) && PlanGiven(Run(before), events[n]) == None
      {
        LastGivenLonger(events, i);
      }
      if PlanGiven(Run(before), events[n]).Some? {
        assert LastPlan(events, n, PlanGiven(Run(before), events[n]).value);
      }
    }
  }

  /** And its status is the one last given to it. */
  lemma {:induction false} StatusIsLastGiven(events: seq<Event>)
    requires Run(events).subscription.Some?
    ensures exists i :: LastStatus(events, i, Run(events).subscription.value.status)
  {
    var n := |events| - 1;
    var before := events[..n];
    StepGives(Run(before), events[n]);
    if StatusGiven(Run(before), events[n]).Some? {
      assert LastStatus(events, n, StatusGiven(Run(before), events[n]).value);
    } else {
      StatusIsLastGiven(before);
      var i :| LastStatus(before, i, Run(before).subscription.value.status);
      LastGivenLonger(events, i);
      assert LastStatus(events, i, Run(events).subscription.value.status);
    }
  }

  /** The prefixes up to `i` and beyond are the same in a run and in the run without its last event. */
  lemma LastGivenLonger(events: seq<Event>, i: int)
    requires 0 <= i < |events| - 1
    ensures forall j | i <= j < |events| - 1 :: events[..|events| - 1][..j] == events[..j]
  {}

  lemma StepGives(a: Account, e: Event)
    ensures
      var row := Step(a, e).subscription;
      && (PlanGiven(a, e).Some? ==> row.Some? && row.value.planId == PlanGiven(a, e).value)
      && (PlanGiven(a, e).None? ==> (row.Some? <==> a.subscription.Some?))
      && (PlanGiven(a, e).None? && row.Some? ==> row.value.planId == a.subscription.value.planId)
      && (StatusGiven(a, e).Some? ==> row.Some? && row.value.status == StatusGiven(a, e).value)
      && (StatusGiven(a, e).None? && row.Some? ==>
        a.subscription.Some? && row.value.status == a.subscription.value.status)
  {}

  // ----- Trials over runs -----

  /** The event opens a trial that is recorded on the store: the trial branch of an install. */
  predicate OpensRecordedTrial(a: Account, e: Event) {
    && e.Ensure? && !IsLive(a) && a.firstTrialStartedAt.None?
    && e.plan.Some? && e.plan.value.active
  }

  /** The event opens a trial that is not recorded on the store: a sync that says "trialing"
      and finds no subscription row. */
  predicate OpensUnrecordedTrial(a: Account, e: Event) {
    e.Sync? && e.planId.Some? && e.status == Trialing && a.subscription.None?
  }

  function RecordedTrials(events: seq<Event>): nat {
    if events == [] then 0
    else
      var before := events[..|events| - 1];
      RecordedTrials(before) + (if OpensRecordedTrial(Run(before), events[|events| - 1]) then 1 else 0)
  }

  function UnrecordedTrials(events: seq<Event>): nat {
    if events == [] then 0
    else
      var before := events[..|events| - 1];
      UnrecordedTrials(before) + (if OpensUnrecordedTrial(Run(before), events[|events| - 1]) then 1 else 0)
  }

  function Trials(events: seq<Event>): nat {
    RecordedTrials(events) + UnrecordedTrials(events)
  }

  /** The date the store's trial started is set by the trial branch alone, once and for all:
      that branch fires at most once in any run, syncs that create the row included. */
  lemma {:induction false} TrialBranchFiresAtMostOnce(events: seq<Event>)
    ensures RecordedTrials(events) == if Run(events).firstTrialStartedAt.Some? then 1 else 0
  {
    if events != [] {
      TrialBranchFiresAtMostOnce(events[..|events| - 1]);
    }
  }

  lemma {:induction false} UnrecordedAtMostOnce(events: seq<Event>)
    ensures UnrecordedTrials(events) <= if Run(events).subscription.Some? then 1 else 0
  {
    if events != [] {
      UnrecordedAtMostOnce(events[..|events| - 1]);
    }
  }

  /** Once a store has a row it keeps one, and no further trial goes unrecorded. */
  lemma {:induction false} RowStays(events: seq<Event>, more: seq<Event>)
    requires Run(events).subscription.Some?
    ensures Run(events + more).subscription.Some?
    ensures UnrecordedTrials(events + more) == UnrecordedTrials(events)
  {
    if more == [] {
      assert events + more == events;
    } else {
      var before := more[..|more| - 1];
      assert (events + more)[..|events + more| - 1] == events + before;
      RowStays(events, before);
    }
  }

  /** One trial per store, exactly: a store that has a row gets at most one trial in all, whatever
      happens to it later, if and only if its row was not created by a sync saying "trialing". */
  lemma OneTrialForeverIff(events: seq<Event>)
    requires Run(events).subscription.Some?
    ensures (forall more: seq<Event> :: Trials(events + more) <= 1) <==> UnrecordedTrials(events) == 0
  {
    if UnrecordedTrials(events) == 0 {
      forall more: seq<Event> ensures Trials(events + more) <= 1 {
        RowStays(events, more);
        TrialBranchFiresAtMostOnce(events + more);
      }
    } else {
      SecondTrialWitness(events);
    }
  }

  /** The second trial after an unrecorded one: cancel it by a sync, then reinstall. */
  lemma SecondTrialWitness(events: seq<Event>)
    requires Run(events).subscription.Some? && UnrecordedTrials(events) > 0
    ensures exists more: seq<Event> :: Trials(events + more) >= 2
  {
    TrialBranchFiresAtMostOnce(events);
    if Run(events).firstTrialStartedAt.Some? {
      assert events + [] == events;
      assert Trials(events + []) >= 2;
    } else {
      var cancel := Sync(Some("plan"), Cancelled, 0);
      var install := Ensure(Some(Plan("plan", true)), 0);
      var one := events + [cancel];
      var two := events + [cancel, install];
      assert one[..|one| - 1] == events && two[..|two| - 1] == one;
      RowStays(events, [cancel, install]);
      assert Run(one) == Step(Run(events), cancel);
      TrialBranchFiresAtMostOnce(two);
      assert Run(two).firstTrialStartedAt.Some?;
    }
  }

  /** The shortest failing run: sync a trial for a store without a row, cancel it, reinstall. */
  lemma TwoTrialsByExample()
    ensures Trials([Sync(Some("scale"), Trialing, 0), Sync(Some("scale"), Cancelled, 1),
                    Ensure(Some(Plan("starter", true)), 2)]) == 2
  {
    var e0, e1, e2 := Sync(Some("scale"), Trialing, 0), Sync(Some("scale"), Cancelled, 1),
      Ensure(Some(Plan("starter", true)), 2);
    var all := [e0, e1, e2];
    assert all[..2] == [e0, e1] && [e0, e1][..1] == [e0] && [e0][..0] == [];
    assert Run([e0]) == Step(NEW_STORE, e0);
    assert Run([e0, e1]) == Step(Run([e0]), e1);
    assert UnrecordedTrials([e0]) == 1;
    assert UnrecordedTrials([e0, e1]) == 1 && UnrecordedTrials(all) == 1;
    assert RecordedTrials([e0]) == 0 && RecordedTrials([e0, e1]) == 0;
  }

  /** A trial end on the row lies within one trial length of the recorded start. */
  predicate TrialBounded(a: Account) {
    a.subscription.Some? && a.subscription.value.trialEndsAt.Some? ==>
      && a.firstTrialStartedAt.Some?
      && a.subscription.value.trialEndsAt.value <= a.firstTrialStartedAt.value + TRIAL_MS
  }

  /** Where every trial is recorded, no reinstall, uninstall or sync extends one. */
  lemma {:induction false} RecordedTrialIsBounded(events: seq<Event>)
    requires UnrecordedTrials(events) == 0
    ensures TrialBounded(Run(events))
  {
    if events != [] {
      RecordedTrialIsBounded(events[..|events| - 1]);
    }
  }

  lemma {:induction false} RecordedTrialHasRow(events: seq<Event>)
    ensures Run(events).firstTrialStartedAt.Some? ==> Run(events).subscription.Some?
  {
    if events != [] {
      RecordedTrialHasRow(events[..|events| - 1]);
    }
  }

  /** The moment of the unrecorded trial, and that no trial was recorded by then. */
  lemma {:induction false} UnrecordedTrialAt(events: seq<Event>) returns (n: nat)
    requires UnrecordedTrials(events) > 0
    ensures n < |events| && OpensUnrecordedTrial(Run(events[..n]), events[n])
    ensures Run(events[..n + 1]) == Step(Run(events[..n]), events[n])
    ensures Run(events[..n + 1]).firstTrialStartedAt.None?
  {
    var last := |events| - 1;
    var before := events[..last];
    if OpensUnrecordedTrial(Run(before), events[last]) {
      n := last;
      RecordedTrialHasRow(before);
      assert events[..n + 1] == events;
    } else {
      n := UnrecordedTrialAt(before);
      assert before[..n] == events[..n] && before[..n + 1] == events[..n + 1];
    }
  }

  lemma {:induction false} UnrecordedTrialsOfPrefix(events: seq<Event>, n: nat)
    requires n <= |events| && UnrecordedTrials(events) == 0
    ensures UnrecordedTrials(events[..n]) == 0
  {
    if n < |events| {
      UnrecordedTrialsOfPrefix(events[..|events| - 1], n);
      assert events[..|events| - 1][..n] == events[..n];
    } else {
      assert events[..n] == events;
    }
  }

  /** The trial end on the row lies within one trial length of the recorded start at every
      moment of a run if and only if no sync opened a trial. */
  lemma TrialIsNeverExtended(events: seq<Event>)
    ensures (forall n: nat | n <= |events| :: TrialBounded(Run(events[..n]))) <==> UnrecordedTrials(events) == 0
  {
    if UnrecordedTrials(events) == 0 {
      forall n: nat | n <= |events| ensures TrialBounded(Run(events[..n])) {
        UnrecordedTrialsOfPrefix(events, n);
        RecordedTrialIsBounded(events[..n]);
      }
    } else {
      var n := UnrecordedTrialAt(events);
      assert !TrialBounded(Run(events[..n + 1]));
    }
  }

  // ----- Access -----

  datatype Access = Allowed(trial: bool) | Blocked

  /** Whether the subscription opens the store's features at time `now`. */
  function EvaluateAccess(subscription: Option<Subscription>, now: int): Access {
    match subscription
    case None => Blocked
    case Some(s) =>
      match s.status
      case Trialing => if s.trialEndsAt.None? || s.trialEndsAt.value <= now then Blocked else Allowed(true)
      case Active => if s.periodEnd < now then Blocked else Allowed(false)
      case Cancelled => Blocked
      case PastDue => Blocked
  }

  /** Access is by trial while the trial of a trialing row runs, by plan while the period of an active
      row runs, its last moment included, and blocked otherwise. */
  lemma AccessInPlainTerms(subscription: Option<Subscription>, now: int)
    ensures
      var access := EvaluateAccess(subscription, now);
      && (access == Allowed(true) <==>
            && subscription.Some? && subscription.value.status == Trialing
            && subscription.value.trialEndsAt.Some? && now < subscription.value.trialEndsAt.value)
      && (access == Allowed(false) <==>
            subscription.Some? && subscription.value.status == Active && now <= subscription.value.periodEnd)
  {}

  /** Trial access at `now` falls within one trial length of the recorded start. */
  predicate AccessBounded(a: Account, now: int) {
    EvaluateAccess(a.subscription, now) == Allowed(true) ==>
      a.firstTrialStartedAt.Some? && now < a.firstTrialStartedAt.value + TRIAL_MS
  }

  /** All trial access a store has in a run falls before the end of its one recorded trial if and
      only if no sync opened a trial. */
  lemma TrialAccessEndsWithTheTrial(events: seq<Event>)
    ensures (forall n: nat, now: int | n <= |events| :: AccessBounded(Run(events[..n]), now)) <==>
      UnrecordedTrials(events) == 0
  {
    if UnrecordedTrials(events) == 0 {
      TrialIsNeverExtended(events);
      forall n: nat, now: int | n <= |events| ensures AccessBounded(Run(events[..n]), now) {
        assert TrialBounded(Run(events[..n]));
        BoundedTrialBoundsAccess(Run(events[..n]), now);
      }
    } else {
      var n := UnrecordedTrialAt(events);
      UnrecordedTrialOpensAccess(Run(events[..n]), events[n]);
      assert !AccessBounded(Run(events[..n + 1]), events[n].now);
    }
  }

  lemma BoundedTrialBoundsAccess(a: Account, now: int)
    requires TrialBounded(a)
    ensures AccessBounded(a, now)
  {}

  lemma UnrecordedTrialOpensAccess(a: Account, e: Event)
    requires OpensUnrecordedTrial(a, e) && Step(a, e).firstTrialStartedAt.None?
    ensures !AccessBounded(Step(a, e), e.now)
  {}

  lemma {:induction false} EndedIsCancelled(events: seq<Event>)
    ensures
      var s := Run(events).subscription;
      s.Some? && s.value.endedAt.Some? ==> s.value.status == Cancelled
  {
    if events != [] {
      EndedIsCancelled(events[..|events| - 1]);
    }
  }

  /** After an uninstall that follows the trial, no number of reinstalls and uninstalls opens
      the store again: that takes a sync from Shopify. */
  lemma {:induction false} UninstalledStaysBlocked(events: seq<Event>, at: int, more: seq<Event>, now: int)
    requires Run(events).firstTrialStartedAt.Some?
    requires forall i | 0 <= i < |more| :: !more[i].Sync?
    ensures
      var a := Run(events + [Terminate(at)] + more);
      && EvaluateAccess(a.subscription, now) == Blocked
      && a.firstTrialStartedAt == Run(events).firstTrialStartedAt
      && !IsLive(a)
  {
    var base := events + [Terminate(at)];
    if more == [] {
      assert base + more == base && base[..|base| - 1] == events;
      EndedIsCancelled(events);
    } else {
      var before := more[..|more| - 1];
      assert (base + more)[..|base + more| - 1] == base + before;
      UninstalledStaysBlocked(events, at, before, now);
      assert !more[|more| - 1].Sync?;
    }
  }
}
