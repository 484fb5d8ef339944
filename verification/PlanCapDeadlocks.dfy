/** When transactions on a store's billing rows can wait for each other in a circle.

    Creators lock the store row before the subscription row, and subscription writers lock one row
    only; a store deletion locks the subscription row first. */
module PlanCapDeadlocks {
  import opened Common
  import opened PlanCapLocks

  /** Transaction `t` waits for a lock that `u` holds. */
  predicate WaitsFor(s: State, t: nat, u: nat) {
    && t < |s.txs| && u < |s.txs| && t != u && s.txs[t].store == s.txs[u].store
    && ((WantsStore(s, s.txs[t]) && s.txs[u].holdsStore)
        || (WantsSubscription(s, s.txs[t]) && s.txs[u].holdsSubscription))
  }

  /** The next statement locks a store row that exists and is not held yet. */
  predicate WantsStore(s: State, tx: Tx) {
    (tx.pc.LockStore? || tx.pc.LockStoreToDelete?) && !tx.holdsStore && tx.store in s.stores
  }

  predicate WantsSubscription(s: State, tx: Tx) {
    && (tx.pc.LockSubscription? || tx.pc.LockToReplace? || tx.pc.LockSubscriptionToDelete?)
    && !tx.holdsSubscription && tx.store in s.plans
  }

  predicate WaitChain(s: State, chain: seq<nat>) {
    forall i, j | 0 <= i < |chain| && j == i + 1 && j < |chain| :: WaitsFor(s, chain[i], chain[j])
  }

  /** Each waits for the next, and the last for the first. */
  predicate Cycle(s: State, chain: seq<nat>) {
    |chain| > 0 && WaitChain(s, chain) && WaitsFor(s, chain[|chain| - 1], chain[0])
  }

  /** A creator that holds the store and wants the subscription, and a deletion that holds the
      subscription and wants the store. */
  predicate Opposed(s: State, c: nat, d: nat) {
    && c < |s.txs| && d < |s.txs| && s.txs[c].store == s.txs[d].store
    && s.txs[c].pc.LockSubscription? && s.txs[c].holdsStore && WantsSubscription(s, s.txs[c])
    && s.txs[d].pc.LockStoreToDelete? && s.txs[d].holdsSubscription && WantsStore(s, s.txs[d])
  }

  /** Whoever is waited for and waits for a waiting transaction is half of an opposed pair. */
  lemma WaitingHolders(s: State, t: nat, u: nat, v: nat, w: nat)
    requires Inv(s) && WaitsFor(s, t, u) && WaitsFor(s, u, v) && WaitsFor(s, v, w)
    ensures Opposed(s, u, v) || Opposed(s, v, u)
  {
    assert TxInv(s, s.txs[u]) && TxInv(s, s.txs[v]);
  }

  lemma OpposedIsCycle(s: State, c: nat, d: nat)
    requires Opposed(s, c, d)
    ensures Cycle(s, [c, d])
  {}

  /** The first two of a circle of waiting transactions are an opposed pair. */
  lemma CycleIsOpposed(s: State, chain: seq<nat>)
    requires Inv(s) && Cycle(s, chain)
    ensures |chain| >= 2 && (Opposed(s, chain[0], chain[1]) || Opposed(s, chain[1], chain[0]))
  {
    var n := |chain|;
    assert n >= 2 && WaitsFor(s, chain[n - 1], chain[0]) && WaitsFor(s, chain[0], chain[1]);
    WaitingHolders(s, chain[n - 1], chain[0], chain[1], chain[if n == 2 then 0 else 2]);
  }

  /** A deletion of the store is under way: it has started and not yet committed or rolled back. */
  predicate BeingDeleted(s: State, store: string) {
    exists d | 0 <= d < |s.txs| ::
      s.txs[d].store == store &&
      (s.txs[d].pc.LockSubscriptionToDelete? || s.txs[d].pc.LockStoreToDelete? || s.txs[d].pc.DeleteStore?)
  }

  /** Over every interleaving, with cycles of any length: transactions wait for each other in a
      circle exactly where a creator and a deletion of its store stand opposed, so never on a
      store that is not being deleted. */
  lemma NoDeadlock(s0: State, events: seq<Event>, store: string)
    requires Start(s0)
    ensures
      var s := Run(s0, events);
      && ((exists chain: seq<nat> :: Cycle(s, chain) && s.txs[chain[0]].store == store) <==>
          (exists c: nat, d: nat :: Opposed(s, c, d) && s.txs[c].store == store))
      && (!BeingDeleted(s, store) ==> forall chain: seq<nat> :: !(Cycle(s, chain) && s.txs[chain[0]].store == store))
  {
    var s := Run(s0, events);
    RunKeepsInv(s0, events);
    forall chain: seq<nat> | Cycle(s, chain) && s.txs[chain[0]].store == store
      ensures exists c: nat, d: nat :: Opposed(s, c, d) && s.txs[c].store == store
      ensures BeingDeleted(s, store)
    {
      CycleIsOpposed(s, chain);
    }
    forall c: nat, d: nat | Opposed(s, c, d) && s.txs[c].store == store
      ensures exists chain: seq<nat> :: Cycle(s, chain) && s.txs[chain[0]].store == store
    {
      OpposedIsCycle(s, c, d);
      assert [c, d][0] == c;
    }
  }

  /** If a transaction is stopped by a lock, one that holds a lock on the same store can go on,
      unless, exactly, an opposed pair stands on that store. */
  lemma SomeoneCanProceed(s0: State, events: seq<Event>, t: nat)
    requires Start(s0)
    requires t < |Run(s0, events).txs| && Statement(Run(s0, events), Run(s0, events).txs[t], true) == None
    ensures
      var s := Run(s0, events);
      (exists u :: HoldsAndProceeds(s, u, s.txs[t].store)) <==>
      !(exists c: nat, d: nat :: Opposed(s, c, d) && s.txs[c].store == s.txs[t].store)
  {
    var s := Run(s0, events);
    RunKeepsInv(s0, events);
    if c: nat, d: nat :| Opposed(s, c, d) && s.txs[c].store == s.txs[t].store {
      forall u ensures !HoldsAndProceeds(s, u, s.txs[t].store) {
        OpposedHoldBoth(s, c, d, u);
      }
    } else {
      var u := HolderThatProceeds(s, t);
    }
  }

  predicate HoldsAndProceeds(s: State, u: int, store: string) {
    && 0 <= u < |s.txs| && s.txs[u].store == store
    && (s.txs[u].holdsStore || s.txs[u].holdsSubscription)
    && Statement(s, s.txs[u], true).Some?
  }

  lemma OpposedHoldBoth(s: State, c: nat, d: nat, u: int)
    requires Inv(s) && Opposed(s, c, d)
    ensures !HoldsAndProceeds(s, u, s.txs[c].store)
  {
    if 0 <= u < |s.txs| && s.txs[u].store == s.txs[c].store {
      assert s.txs[u].holdsStore ==> u == c;
      assert s.txs[u].holdsSubscription ==> u == d;
    }
  }

  lemma HolderThatProceeds(s: State, t: nat) returns (u: nat)
    requires Inv(s) && t < |s.txs| && Statement(s, s.txs[t], true) == None
    requires forall c: nat, d: nat :: !(Opposed(s, c, d) && s.txs[c].store == s.txs[t].store)
    ensures HoldsAndProceeds(s, u, s.txs[t].store)
  {
    u := HolderFor(s, t);
    if Statement(s, s.txs[u], true) == None {
      var v := HolderFor(s, u);
      if Statement(s, s.txs[v], true) == None {
        var w := HolderFor(s, v);
        WaitingHolders(s, t, u, v, w);
        assert false;
      }
      u := v;
    }
  }

  lemma HolderFor(s: State, t: nat) returns (u: nat)
    requires Inv(s) && t < |s.txs| && Statement(s, s.txs[t], true) == None
    ensures WaitsFor(s, t, u) && (s.txs[u].holdsStore || s.txs[u].holdsSubscription)
  {
    assert TxInv(s, s.txs[t]);
    if s.txs[t].pc.LockStore? || s.txs[t].pc.LockStoreToDelete? {
      u :| 0 <= u < |s.txs| && s.txs[u].store == s.txs[t].store && s.txs[u].holdsStore;
    } else {
      u :| 0 <= u < |s.txs| && s.txs[u].store == s.txs[t].store && s.txs[u].holdsSubscription;
    }
  }

  // ----- When a deadlock is still to come -----

  /** The deletion has the subscription row still to lock, or has it locked and not the store row. */
  predicate Threatens(tx: Tx, store: string) {
    tx.store == store && (tx.pc.LockSubscriptionToDelete? || (tx.pc.LockStoreToDelete? && tx.holdsSubscription))
  }

  predicate Threatened(s: State, store: string) {
    store in s.stores && exists d | 0 <= d < |s.txs| :: Threatens(s.txs[d], store)
  }

  ghost predicate NoNewDeletion(events: seq<Event>, store: string) {
    forall i | 0 <= i < |events| :: events[i] != SpawnDeleter(store)
  }

  lemma {:induction false} RunAppends(s: State, a: seq<Event>, b: seq<Event>)
    ensures Run(s, a + b) == Run(Run(s, a), b)
  {
    if b == [] {
      assert a + b == a;
    } else {
      var n := |b| - 1;
      RunAppends(s, a, b[..n]);
      assert (a + b)[..|a + b| - 1] == a + b[..n];
    }
  }

  lemma StepStaysSafe(s: State, e: Event, store: string)
    requires !Threatened(s, store) && e != SpawnDeleter(store)
    ensures !Threatened(Step(s, e), store)
  {
    if store in s.stores {
      match e
      case Advance(t, accessAllowed) =>
        if t < |s.txs| && Statement(s, s.txs[t], accessAllowed).Some? {
          StatementStaysSafe(s, s.txs[t], accessAllowed, store);
          ChangeStaysSafe(s, t, Statement(s, s.txs[t], accessAllowed).value, store);
        }
      case CommitTx(t) =>
        if t < |s.txs| {
          CommitStaysSafe(s, t, store);
        }
      case Request(t, m) =>
        if t < |s.txs| {
          ChangeStaysSafe(s, t, s.txs[t].(pc := LockStore(m)), store);
        }
      case Rollback(t) =>
        if t < |s.txs| {
          ChangeStaysSafe(s, t, Closed(s.txs[t]), store);
        }
      case _ =>
    } else {
      StoresNeverComeBack(s, e);
    }
  }

  lemma StoresNeverComeBack(s: State, e: Event)
    ensures Step(s, e).stores <= s.stores
  {}

  lemma StatementStaysSafe(s: State, tx: Tx, accessAllowed: bool, store: string)
    requires !Threatens(tx, store) && Statement(s, tx, accessAllowed).Some?
    ensures !Threatens(Statement(s, tx, accessAllowed).value, store)
  {}

  lemma ChangeStaysSafe(s: State, t: nat, tx: Tx, store: string)
    requires t < |s.txs| && !Threatened(s, store) && !Threatens(tx, store)
    ensures !Threatened(s.(txs := s.txs[t := tx]), store)
  {}

  lemma CommitStaysSafe(s: State, t: nat, store: string)
    requires t < |s.txs| && store in s.stores && !Threatened(s, store)
    ensures !Threatened(Commit(s, t), store)
  {
    var s' := Commit(s, t);
    forall d | 0 <= d < |s'.txs| ensures !Threatens(s'.txs[d], store) {
      assert s'.txs[d] == s.txs[d] || s'.txs[d] == Closed(s.txs[t]);
    }
  }

  lemma {:induction false} RunStaysSafe(s: State, more: seq<Event>, store: string)
    requires !Threatened(s, store) && NoNewDeletion(more, store)
    ensures !Threatened(Run(s, more), store)
  {
    if more != [] {
      var n := |more| - 1;
      RunStaysSafe(s, more[..n], store);
      StepStaysSafe(Run(s, more[..n]), more[n], store);
    }
  }

  lemma OpposedIsThreatened(s: State, c: nat, d: nat)
    requires Opposed(s, c, d)
    ensures Threatened(s, s.txs[c].store)
  {
    assert Threatens(s.txs[d], s.txs[c].store);
  }

  // ----- The run into it -----

  /** Every transaction among the first `n` but `d` rolls back. */
  function RollbackOthers(n: nat, d: nat): seq<Event> {
    if n == 0 then []
    else RollbackOthers(n - 1, d) + if n - 1 == d then [] else [Rollback(n - 1)]
  }

  lemma {:induction false} OthersRolledBack(s: State, n: nat, d: nat)
    requires n <= |s.txs|
    ensures RolledBack(s, Run(s, RollbackOthers(n, d)), n, d)
  {
    if n > 0 {
      OthersRolledBack(s, n - 1, d);
      if n - 1 != d {
        RunSnoc(s, RollbackOthers(n - 1, d), Rollback(n - 1));
        OneMoreRolledBack(s, Run(s, RollbackOthers(n - 1, d)), n - 1, d);
      } else {
        assert RollbackOthers(n, d) == RollbackOthers(n - 1, d);
      }
    }
  }

  ghost predicate RolledBack(s: State, s': State, n: nat, d: nat) {
    && s' == s.(txs := s'.txs) && |s'.txs| == |s.txs|
    && (forall t | 0 <= t < |s.txs| :: s'.txs[t] == if t < n && t != d then Closed(s.txs[t]) else s.txs[t])
  }

  lemma OneMoreRolledBack(s: State, s': State, n: nat, d: nat)
    requires n < |s.txs| && n != d && RolledBack(s, s', n, d)
    ensures RolledBack(s, Step(s', Rollback(n)), n + 1, d)
  {}

  lemma RunSnoc(s: State, events: seq<Event>, e: Event)
    ensures Run(s, events + [e]) == Step(Run(s, events), e)
  {
    assert (events + [e])[..|events|] == events;
  }

  /** Only transaction `d` holds or may take a lock. */
  ghost predicate Alone(s: State, d: nat) {
    d < |s.txs| && forall t | 0 <= t < |s.txs| && t != d :: !s.txs[t].holdsStore && !s.txs[t].holdsSubscription
  }

  /** The deletion `d`, alone, comes to hold the subscription row, which is inserted first if the
      store has none. */
  lemma ReachHolding(s: State, store: string, d: nat, plan: Plan) returns (events: seq<Event>)
    requires Inv(s) && Alone(s, d) && store in s.stores && Threatens(s.txs[d], store)
    ensures NoNewDeletion(events, store)
    ensures HoldsSubscriptionAlone(Run(s, events), store, d)
  {
    assert TxInv(s, s.txs[d]);
    if s.txs[d].pc.LockStoreToDelete? {
      events := [];
    } else {
      var insert := ReachSubscription(s, store, d, plan);
      LocksSubscription(Run(s, insert), store, d);
      RunSnoc(s, insert, Advance(d, true));
      events := insert + [Advance(d, true)];
    }
  }

  ghost predicate HoldsSubscriptionAlone(s: State, store: string, d: nat) {
    && Inv(s) && Alone(s, d) && store in s.stores
    && s.txs[d].store == store && s.txs[d].pc.LockStoreToDelete? && s.txs[d].holdsSubscription
  }

  /** The store gets a subscription, if it has none. */
  lemma ReachSubscription(s: State, store: string, d: nat, plan: Plan) returns (events: seq<Event>)
    requires Inv(s) && Alone(s, d) && store in s.stores
    ensures NoNewDeletion(events, store)
    ensures
      var s' := Run(s, events);
      Inv(s') && Alone(s', d) && store in s'.plans && s'.txs[d] == s.txs[d]
  {
    if store in s.plans {
      return [];
    }
    var n := |s.txs|;
    events := [SpawnReplacer(store, plan), Advance(n, true), CommitTx(n)];
    ThreeSteps(s, events[0], events[1], events[2]);
    var s1 := s.(txs := s.txs + [NewTx(store, LockToReplace(plan))]);
    var s2 := s.(txs := s.txs + [NewTx(store, Replace(plan))]);
    assert Step(s, events[0]) == s1 && Step(s1, events[1]) == s2;
    KeepsInv(s, events);
  }

  lemma ThreeSteps(s: State, a: Event, b: Event, c: Event)
    ensures Run(s, [a, b, c]) == Step(Step(Step(s, a), b), c)
  {
    RunSnoc(s, [a, b], c);
    RunSnoc(s, [a], b);
    RunSnoc(s, [], a);
    assert [a, b] + [c] == [a, b, c] && [a] + [b] == [a, b] && [] + [a] == [a];
  }

  lemma LocksSubscription(s: State, store: string, d: nat)
    requires Inv(s) && Alone(s, d) && store in s.plans
    requires s.txs[d].store == store && s.txs[d].pc.LockSubscriptionToDelete?
    ensures HoldsSubscriptionAlone(Step(s, Advance(d, true)), store, d)
  {
    assert TxInv(s, s.txs[d]);
    StepKeepsInv(s, Advance(d, true));
  }

  function CreatorArrives(store: string, n: nat, m: Metric): seq<Event> {
    [SpawnCreator(store), Request(n, m), Advance(n, true)]
  }

  /** From there a new creator runs into it. */
  lemma CreatorRunsIntoIt(s: State, store: string, d: nat, m: Metric)
    requires HoldsSubscriptionAlone(s, store, d)
    ensures
      var s' := Run(s, CreatorArrives(store, |s.txs|, m));
      Opposed(s', |s.txs|, d) && s'.txs[d].store == store
  {
    var n := |s.txs|;
    assert TxInv(s, s.txs[d]);
    ThreeSteps(s, SpawnCreator(store), Request(n, m), Advance(n, true));
    var s1 := s.(txs := s.txs + [NewTx(store, Open)]);
    var s2 := s.(txs := s.txs + [NewTx(store, LockStore(m))]);
    var s3 := s.(txs := s.txs + [NewTx(store, LockSubscription(m)).(holdsStore := true)]);
    assert Step(s, SpawnCreator(store)) == s1 && Step(s1, Request(n, m)) == s2;
    assert !StoreLocked(s2, store);
    assert Step(s2, Advance(n, true)) == s3;
  }

  lemma ThreatReachesHolding(s: State, store: string, plan: Plan) returns (events: seq<Event>, d: nat)
    requires Inv(s) && Threatened(s, store)
    ensures NoNewDeletion(events, store) && HoldsSubscriptionAlone(Run(s, events), store, d)
  {
    d :| 0 <= d < |s.txs| && Threatens(s.txs[d], store);
    var clear := RollbackOthers(|s.txs|, d);
    OthersRolledBack(s, |s.txs|, d);
    RollbacksAreNoDeletions(|s.txs|, d, store);
    KeepsInv(s, clear);
    var hold := ReachHolding(Run(s, clear), store, d, plan);
    events := clear + hold;
    RunAppends(s, clear, hold);
  }

  lemma ThreatReachesOpposed(s: State, store: string, plan: Plan, m: Metric) returns (more: seq<Event>, c: nat, d: nat)
    requires Inv(s) && Threatened(s, store)
    ensures NoNewDeletion(more, store) && Opposed(Run(s, more), c, d) && Run(s, more).txs[c].store == store
  {
    var hold, d' := ThreatReachesHolding(s, store, plan);
    c, d := |Run(s, hold).txs|, d';
    CreatorRunsIntoIt(Run(s, hold), store, d, m);
    RunAppends(s, hold, CreatorArrives(store, c, m));
    more := hold + CreatorArrives(store, c, m);
  }

  lemma {:induction false} RollbacksAreNoDeletions(n: nat, d: nat, store: string)
    ensures NoNewDeletion(RollbackOthers(n, d), store)
  {
    if n > 0 {
      RollbacksAreNoDeletions(n - 1, d, store);
    }
  }

  lemma {:induction false} KeepsInv(s: State, events: seq<Event>)
    requires Inv(s)
    ensures Inv(Run(s, events))
  {
    if events != [] {
      KeepsInv(s, events[..|events| - 1]);
      StepKeepsInv(Run(s, events[..|events| - 1]), events[|events| - 1]);
    }
  }

  /** In every reachable state, and without a further deletion being started: a deadlock on the
      store can still come if and only if the store exists and a deletion of it is open that has
      the subscription row still to lock, or has it locked and not yet the store row. */
  lemma DeadlockCanComeIff(s0: State, events: seq<Event>, store: string)
    requires Start(s0)
    ensures
      (exists more: seq<Event>, chain: seq<nat> ::
         NoNewDeletion(more, store) && Deadlocked(Run(s0, events + more), chain, store))
      <==> Threatened(Run(s0, events), store)
  {
    var s := Run(s0, events);
    RunKeepsInv(s0, events);
    if Threatened(s, store) {
      var more, c, d := ThreatReachesOpposed(s, store, Plan(PerMetric(0, 0), true), Products);
      RunAppends(s0, events, more);
      OpposedIsCycle(Run(s, more), c, d);
      assert Deadlocked(Run(s0, events + more), [c, d], store);
    }
    forall more: seq<Event>, chain: seq<nat> | NoNewDeletion(more, store) &&
      Deadlocked(Run(s0, events + more), chain, store)
      ensures Threatened(s, store)
    {
      RunAppends(s0, events, more);
      KeepsInv(s, more);
      CycleIsOpposed(Run(s, more), chain);
      if Opposed(Run(s, more), chain[0], chain[1]) {
        OpposedIsThreatened(Run(s, more), chain[0], chain[1]);
      } else {
        OpposedIsThreatened(Run(s, more), chain[1], chain[0]);
      }
      if !Threatened(s, store) {
        RunStaysSafe(s, more, store);
      }
    }
  }

  predicate Deadlocked(s: State, chain: seq<nat>, store: string) {
    Cycle(s, chain) && s.txs[chain[0]].store == store
  }

  /** The shortest such run, on any store that exists with a subscription: a deletion takes the
      subscription row, a creator the store row, and each waits for the other. */
  lemma DeletionAndCreatorDeadlock(s0: State, store: string, m: Metric)
    requires Start(s0) && store in s0.plans
    ensures
      Cycle(Run(s0, [SpawnDeleter(store), Advance(0, true), SpawnCreator(store), Request(1, m), Advance(1, true)]),
        [1, 0])
  {
    var first := [SpawnDeleter(store), Advance(0, true)];
    DeletionHoldsFirst(s0, store);
    CreatorRunsIntoIt(Run(s0, first), store, 0, m);
    RunAppends(s0, first, CreatorArrives(store, 1, m));
    OpposedIsCycle(Run(s0, first + CreatorArrives(store, 1, m)), 1, 0);
    assert first + CreatorArrives(store, 1, m)
        == [SpawnDeleter(store), Advance(0, true), SpawnCreator(store), Request(1, m), Advance(1, true)];
  }

  lemma DeletionHoldsFirst(s0: State, store: string)
    requires Start(s0) && store in s0.plans
    ensures
      var s := Run(s0, [SpawnDeleter(store), Advance(0, true)]);
      HoldsSubscriptionAlone(s, store, 0) && |s.txs| == 1
  {
    TwoSteps(s0, SpawnDeleter(store), Advance(0, true));
    var s1 := DeletionSpawned(s0, store);
    LocksSubscription(s1, store, 0);
  }

  lemma DeletionSpawned(s0: State, store: string) returns (s1: State)
    requires Start(s0) && store in s0.plans
    ensures s1 == Step(s0, SpawnDeleter(store)) && s1.txs == [NewTx(store, LockSubscriptionToDelete)]
    ensures Inv(s1) && store in s1.plans
  {
    s1 := Step(s0, SpawnDeleter(store));
    StepKeepsInv(s0, SpawnDeleter(store));
  }

  lemma TwoSteps(s: State, a: Event, b: Event)
    ensures Run(s, [a, b]) == Step(Step(s, a), b)
  {
    RunSnoc(s, [a], b);
    RunSnoc(s, [], a);
    assert [a] + [b] == [a, b] && [] + [a] == [a];
  }
}
