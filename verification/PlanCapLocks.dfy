/** Plan caps on products and orders, enforced by row locks.

    Any number of read-committed transactions interleave. A creating transaction repeats, for
    each row it wants to insert: lock the store row, lock the subscription row, read the plan,
    count the rows, and insert if one more fits; its inserts become visible when it commits,
    which also releases its locks. Other transactions replace a store's subscription row, or
    delete a store, its subscription row first and its store row last; and committed rows may be
    deleted at any time. A `FOR UPDATE` on a row that does not exist locks nothing: a store
    without a subscription is locked by its store row alone. */
module PlanCapLocks {
  import opened Common

  datatype Metric = Products | Orders

  datatype PerMetric<T> = PerMetric(products: T, orders: T) {
    function Get(m: Metric): T {
      if m == Products then products else orders
    }

    function Set(m: Metric, value: T): PerMetric<T> {
      if m == Products then this.(products := value) else this.(orders := value)
    }
  }

  datatype Plan = Plan(max: PerMetric<int>, active: bool)

  /** A limit read from a plan, and whether the subscription row was locked at the time. */
  datatype LimitRead = LimitRead(limit: int, underLock: bool)

  datatype Pc =
    | Open
    | LockStore(m: Metric)
    | LockSubscription(m: Metric)
    | Resolve(m: Metric)
    | Count(m: Metric, read: LimitRead)
    | Insert(m: Metric, read: LimitRead, used: nat)
    | Replace(plan: Plan)  // a subscription writer, after its lock attempt
    | LockToReplace(plan: Plan)
    | LockSubscriptionToDelete  // a store deletion, taking its locks in the opposite order
    | LockStoreToDelete
    | DeleteStore
    | Finished

  /** `own` counts the inserts this transaction has made and not committed; `lastRead` is the
      limit the latest of them was checked against. */
  datatype Tx = Tx(
    store: string, pc: Pc, holdsStore: bool, holdsSubscription: bool,
    own: PerMetric<nat>, lastRead: PerMetric<Option<LimitRead>>)

  /** The committed rows: which stores exist, their counts and their subscriptions' plans. A deleted
      store's random id never comes back. */
  datatype State = State(
    stores: set<string>, counts: map<string, PerMetric<nat>>, plans: map<string, Plan>, txs: seq<Tx>)

  datatype Event =
    | SpawnCreator(store: string)
    | SpawnReplacer(store: string, plan: Plan)
    | SpawnDeleter(store: string)
    | Request(t: nat, m: Metric)
    | Advance(t: nat, accessAllowed: bool)  // the next statement of the transaction
    | CommitTx(t: nat)
    | Rollback(t: nat)
    | DeleteRow(store: string, m: Metric)

  function Committed(s: State, store: string, m: Metric): nat {
    if store in s.counts then s.counts[store].Get(m) else 0
  }

  predicate StoreLocked(s: State, store: string) {
    exists u | 0 <= u < |s.txs| :: s.txs[u].store == store && s.txs[u].holdsStore
  }

  predicate SubscriptionLocked(s: State, store: string) {
    exists u | 0 <= u < |s.txs| :: s.txs[u].store == store && s.txs[u].holdsSubscription
  }

  /** The limit check before an insert: `used + 1 <= limit`. */
  predicate CreateAllowed(used: nat, limit: int) {
    used + 1 <= limit
  }

  /** One statement of transaction `tx`; `None` while it has to wait for a lock. */
  function Statement(s: State, tx: Tx, accessAllowed: bool): Option<Tx> {
    match tx.pc
    case LockStore(m) =>
      if tx.store !in s.stores then Some(tx.(pc := LockSubscription(m)))
      else if !tx.holdsStore && StoreLocked(s, tx.store) then None
      else Some(tx.(pc := LockSubscription(m), holdsStore := true))
    case LockSubscription(m) =>
      if tx.store !in s.plans then Some(tx.(pc := Resolve(m)))
      else if !tx.holdsSubscription && SubscriptionLocked(s, tx.store) then None
      else Some(tx.(pc := Resolve(m), holdsSubscription := true))
    case Resolve(m) =>
      if tx.store in s.plans && accessAllowed && s.plans[tx.store].active
      then Some(tx.(pc := Count(m, LimitRead(s.plans[tx.store].max.Get(m), tx.holdsSubscription))))
      else Some(tx.(pc := Open))  // blocked: nothing is inserted
    case Count(m, read) =>
      var used := Committed(s, tx.store, m) + tx.own.Get(m);
      if CreateAllowed(used, read.limit) then Some(tx.(pc := Insert(m, read, used))) else Some(tx.(pc := Open))
    case Insert(m, read, used) =>
      Some(tx.(pc := Open, own := tx.own.Set(m, tx.own.Get(m) + 1), lastRead := tx.lastRead.Set(m, Some(read))))
    case LockToReplace(plan) =>
      if tx.store !in s.plans then Some(tx.(pc := Replace(plan)))
      else if SubscriptionLocked(s, tx.store) then None
      else Some(tx.(pc := Replace(plan), holdsSubscription := true))
    case LockSubscriptionToDelete =>
      if tx.store !in s.plans then Some(tx.(pc := LockStoreToDelete))
      else if SubscriptionLocked(s, tx.store) then None
      else Some(tx.(pc := LockStoreToDelete, holdsSubscription := true))
    case LockStoreToDelete =>
      if tx.store !in s.stores then Some(Closed(tx))  // nothing to delete is an error
      else if StoreLocked(s, tx.store) then None
      else Some(tx.(pc := DeleteStore, holdsStore := true))
    case Open => Some(tx)
    case Replace(_) => Some(tx)
    case DeleteStore => Some(tx)
    case Finished => Some(tx)
  }

  function Closed(tx: Tx): Tx {
    tx.(pc := Finished, holdsStore := false, holdsSubscription := false,
        own := PerMetric(0, 0), lastRead := PerMetric(None, None))
  }

  function AddOwn(s: State, tx: Tx): map<string, PerMetric<nat>> {
    s.counts[tx.store := PerMetric(
      Committed(s, tx.store, Products) + tx.own.products, Committed(s, tx.store, Orders) + tx.own.orders)]
  }

  function Commit(s: State, t: nat): State
    requires t < |s.txs|
  {
    var tx := s.txs[t];
    var closed := s.txs[t := Closed(tx)];
    match tx.pc
    case Open => s.(counts := AddOwn(s, tx), txs := closed)
    case Replace(plan) =>
      // Without the lock the row has to be inserted, which fails if it exists by now or its
      // store does not.
      if tx.holdsSubscription || (tx.store !in s.plans && tx.store in s.stores)
      then s.(plans := s.plans[tx.store := plan], txs := closed)
      else s.(txs := closed)
    case DeleteStore =>
      // A subscription that was inserted meanwhile still refers to the store: the deletion fails.
      if tx.holdsSubscription || tx.store !in s.plans
      then State(s.stores - {tx.store}, s.counts - {tx.store}, s.plans - {tx.store}, closed)
      else s.(txs := closed)
    case _ => s
  }

  function NewTx(store: string, pc: Pc): Tx {
    Tx(store, pc, false, false, PerMetric(0, 0), PerMetric(None, None))
  }

  /** One step; an event that does not apply leaves the state alone. */
  function Step(s: State, e: Event): State {
    match e
    case SpawnCreator(store) => s.(txs := s.txs + [NewTx(store, Open)])
    case SpawnReplacer(store, plan) => s.(txs := s.txs + [NewTx(store, LockToReplace(plan))])
    case SpawnDeleter(store) => s.(txs := s.txs + [NewTx(store, LockSubscriptionToDelete)])
    case Request(t, m) =>
      if t < |s.txs| && s.txs[t].pc.Open? then s.(txs := s.txs[t := s.txs[t].(pc := LockStore(m))]) else s
    case Advance(t, accessAllowed) =>
      if t < |s.txs| then
        match Statement(s, s.txs[t], accessAllowed)
        case None => s
        case Some(tx) => s.(txs := s.txs[t := tx])
      else s
    case CommitTx(t) => if t < |s.txs| then Commit(s, t) else s
    case Rollback(t) => if t < |s.txs| then s.(txs := s.txs[t := Closed(s.txs[t])]) else s
    case DeleteRow(store, m) =>
      if Committed(s, store, m) > 0
      then s.(counts := s.counts[store := s.counts[store].Set(m, Committed(s, store, m) - 1)])
      else s
  }

  function Run(s: State, events: seq<Event>): State {
    if events == [] then s else Step(Run(s, events[..|events| - 1]), events[|events| - 1])
  }

  // ----- Invariant -----

  predicate InCheck(pc: Pc) {
    pc.LockSubscription? || pc.Resolve? || pc.Count? || pc.Insert?
  }

  predicate IsReplacer(pc: Pc) {
    pc.Replace? || pc.LockToReplace?
  }

  /** Which locks a transaction holds at which statement. */
  ghost predicate LocksFit(s: State, tx: Tx) {
    && (tx.holdsStore ==> tx.store in s.stores)
    && (tx.holdsSubscription ==>
          tx.store in s.plans && (tx.holdsStore || tx.pc.Replace? || tx.pc.LockStoreToDelete?))
    && (InCheck(tx.pc) && tx.store in s.stores ==> tx.holdsStore)
    && (IsReplacer(tx.pc) ==> !tx.holdsStore)
    && (tx.pc.LockSubscriptionToDelete? ==> !tx.holdsStore && !tx.holdsSubscription)
    && (tx.pc.LockStoreToDelete? ==> !tx.holdsStore)
    && (tx.pc.DeleteStore? ==> tx.holdsStore)
  }

  /** What holds of one transaction. A limit read under the lock is still the plan's limit, and
      what is committed plus what this transaction inserted fits the limit it was checked against. */
  ghost predicate TxInv(s: State, tx: Tx) {
    && LocksFit(s, tx)
    && (tx.pc.Finished? ==> tx == Closed(tx))
    && (tx.pc.Count? || tx.pc.Insert? ==> tx.holdsStore && ReadStillHolds(s, tx, tx.pc.m, tx.pc.read))
    && (tx.pc.Count? || tx.pc.Insert? ==> (tx.pc.read.underLock <==> tx.holdsSubscription))
    && (tx.pc.Insert? ==> Committed(s, tx.store, tx.pc.m) + tx.own.Get(tx.pc.m) <= tx.pc.used)
    && (tx.pc.Insert? ==> CreateAllowed(tx.pc.used, tx.pc.read.limit))
    && OwnInv(s, tx, Products)
    && OwnInv(s, tx, Orders)
  }

  ghost predicate OwnInv(s: State, tx: Tx, m: Metric) {
    && (tx.own.Get(m) > 0 ==> tx.lastRead.Get(m).Some?)
    && (tx.lastRead.Get(m).Some? ==>
          && tx.holdsStore
          && ReadStillHolds(s, tx, m, tx.lastRead.Get(m).value)
          && Committed(s, tx.store, m) + tx.own.Get(m) <= tx.lastRead.Get(m).value.limit)
  }

  ghost predicate ReadStillHolds(s: State, tx: Tx, m: Metric, read: LimitRead) {
    read.underLock ==> tx.holdsSubscription && tx.store in s.plans && s.plans[tx.store].max.Get(m) == read.limit
  }

  ghost predicate LocksExclusive(s: State) {
    forall t, u | 0 <= t < |s.txs| && 0 <= u < |s.txs| && t != u && s.txs[t].store == s.txs[u].store ::
      !(s.txs[t].holdsStore && s.txs[u].holdsStore) && !(s.txs[t].holdsSubscription && s.txs[u].holdsSubscription)
  }

  /** Every subscription refers to a store that exists. */
  predicate PlansHaveStores(s: State) {
    forall store | store in s.plans :: store in s.stores
  }

  ghost predicate Inv(s: State) {
    PlansHaveStores(s) && LocksExclusive(s) && forall t | 0 <= t < |s.txs| :: TxInv(s, s.txs[t])
  }

  /** Committed rows and plans changed only in ways an open transaction tolerates. */
  ghost predicate Tolerable(s: State, s': State, tx: Tx) {
    && s'.stores <= s.stores
    && (tx.holdsStore ==>
          && tx.store in s'.stores
          && Committed(s', tx.store, Products) <= Committed(s, tx.store, Products)
          && Committed(s', tx.store, Orders) <= Committed(s, tx.store, Orders))
    && (tx.holdsSubscription ==> tx.store in s.plans && tx.store in s'.plans && s'.plans[tx.store] == s.plans[tx.store])
  }

  lemma TolerableKeepsTxInv(s: State, s': State, tx: Tx)
    requires TxInv(s, tx) && Tolerable(s, s', tx)
    ensures TxInv(s', tx)
  {}

  /** What transaction `t` does to the shared state, every other one tolerates. */
  lemma CommitIsTolerable(s: State, t: nat, u: nat)
    requires Inv(s) && t < |s.txs| && u < |s.txs| && t != u
    ensures Tolerable(s, Commit(s, t), s.txs[u])
  {}

  lemma StatementKeepsInv(s: State, t: nat, accessAllowed: bool)
    requires Inv(s) && t < |s.txs|
    ensures Inv(Step(s, Advance(t, accessAllowed)))
  {
    var tx := s.txs[t];
    assert TxInv(s, tx);
    var next := Statement(s, tx, accessAllowed);
    if next.Some? {
      var s' := Step(s, Advance(t, accessAllowed));
      StatementKeepsTxInv(s, tx, accessAllowed);
      StatementKeepsLocks(s, t, accessAllowed);
      forall u | 0 <= u < |s'.txs| ensures TxInv(s', s'.txs[u]) {
        TolerableKeepsTxInv(s, s', if u == t then next.value else s.txs[u]);
      }
    }
  }

  lemma StatementKeepsLocks(s: State, t: nat, accessAllowed: bool)
    requires LocksExclusive(s) && t < |s.txs|
    ensures LocksExclusive(Step(s, Advance(t, accessAllowed)))
  {
    var next := Statement(s, s.txs[t], accessAllowed);
    if next.Some? {
      StatementTakesFreeLocks(s, s.txs[t], accessAllowed);
    }
  }

  lemma StatementTakesFreeLocks(s: State, tx: Tx, accessAllowed: bool)
    requires Statement(s, tx, accessAllowed).Some?
    ensures
      var next := Statement(s, tx, accessAllowed).value;
      && next.store == tx.store
      && (next.holdsStore && !tx.holdsStore ==> !StoreLocked(s, tx.store))
      && (next.holdsSubscription && !tx.holdsSubscription ==> !SubscriptionLocked(s, tx.store))
  {}

  lemma StatementKeepsTxInv(s: State, tx: Tx, accessAllowed: bool)
    requires TxInv(s, tx) && PlansHaveStores(s) && Statement(s, tx, accessAllowed).Some?
    ensures TxInv(s, Statement(s, tx, accessAllowed).value)
  {
    var next := Statement(s, tx, accessAllowed).value;
    if tx.pc.LockStoreToDelete? && tx.store !in s.stores {
      assert next == Closed(tx);
    } else if tx.pc.Insert? {
      assert next == tx.(pc := Open, own := next.own, lastRead := next.lastRead);
      InsertKeepsOwnInv(s, tx, next, Products);
      InsertKeepsOwnInv(s, tx, next, Orders);
    } else {
      SameReadsSameOwnInv(s, tx, next, Products);
      SameReadsSameOwnInv(s, tx, next, Orders);
    }
  }

  lemma InsertKeepsOwnInv(s: State, tx: Tx, next: Tx, m: Metric)
    requires TxInv(s, tx) && tx.pc.Insert? && Statement(s, tx, true) == Some(next)
    ensures OwnInv(s, next, m)
  {}

  lemma SameReadsSameOwnInv(s: State, tx: Tx, next: Tx, m: Metric)
    requires OwnInv(s, tx, m) && next.store == tx.store && next.own == tx.own && next.lastRead == tx.lastRead
    requires (tx.holdsStore ==> next.holdsStore) && (tx.holdsSubscription ==> next.holdsSubscription)
    ensures OwnInv(s, next, m)
  {}

  lemma StepKeepsInv(s: State, e: Event)
    requires Inv(s)
    ensures Inv(Step(s, e))
  {
    if e.Advance? && e.t < |s.txs| {
      StatementKeepsInv(s, e.t, e.accessAllowed);
    } else if e.CommitTx? && e.t < |s.txs| {
      CommitKeepsInv(s, e.t);
    } else if e.DeleteRow? {
      DeleteKeepsInv(s, e);
    } else if !e.Advance? && !e.CommitTx? {
      LocalStepKeepsInv(s, e);
    }
  }

  lemma CommitKeepsInv(s: State, t: nat)
    requires Inv(s) && t < |s.txs|
    ensures Inv(Commit(s, t))
  {
    var s' := Commit(s, t);
    assert TxInv(s, s.txs[t]);
    CommitShape(s, t);
    forall u | 0 <= u < |s'.txs| ensures TxInv(s', s'.txs[u]) {
      CommitKeepsTxInv(s, t, u);
    }
  }

  lemma CommitShape(s: State, t: nat)
    requires PlansHaveStores(s) && t < |s.txs| && LocksFit(s, s.txs[t])
    ensures PlansHaveStores(Commit(s, t))
    ensures Commit(s, t) == s || Commit(s, t).txs == s.txs[t := Closed(s.txs[t])]
  {}

  lemma CommitKeepsTxInv(s: State, t: nat, u: nat)
    requires Inv(s) && t < |s.txs| && u < |s.txs|
    ensures TxInv(Commit(s, t), Commit(s, t).txs[u])
  {
    assert TxInv(s, s.txs[t]) && TxInv(s, s.txs[u]);
    CommitShape(s, t);
    if u != t {
      CommitIsTolerable(s, t, u);
      TolerableKeepsTxInv(s, Commit(s, t), s.txs[u]);
    } else {
      ClosedTxInv(Commit(s, t), s.txs[t]);
    }
  }

  lemma ClosedTxInv(s: State, tx: Tx)
    ensures TxInv(s, Closed(tx))
  {}

  lemma DeleteKeepsInv(s: State, e: Event)
    requires Inv(s) && e.DeleteRow?
    ensures Inv(Step(s, e))
  {}

  /** Steps that touch neither counts nor plans. */
  lemma LocalStepKeepsInv(s: State, e: Event)
    requires Inv(s) && !e.Advance? && !e.CommitTx? && !e.DeleteRow?
    ensures Inv(Step(s, e))
  {
    match e
    case SpawnCreator(store) => SpawnKeepsInv(s, NewTx(store, Open));
    case SpawnReplacer(store, plan) => SpawnKeepsInv(s, NewTx(store, LockToReplace(plan)));
    case SpawnDeleter(store) => SpawnKeepsInv(s, NewTx(store, LockSubscriptionToDelete));
    case Request(t, m) =>
      if t < |s.txs| && s.txs[t].pc.Open? {
        assert TxInv(s, s.txs[t]);
        OwnStepKeepsInv(s, t, s.txs[t].(pc := LockStore(m)));
      }
    case Rollback(t) =>
      if t < |s.txs| {
        OwnStepKeepsInv(s, t, Closed(s.txs[t]));
      }
  }

  lemma SpawnKeepsInv(s: State, tx: Tx)
    requires Inv(s) && !tx.holdsStore && !tx.holdsSubscription && TxInv(s, tx)
    ensures Inv(s.(txs := s.txs + [tx]))
  {
    var s' := s.(txs := s.txs + [tx]);
    forall u | 0 <= u < |s'.txs| ensures TxInv(s', s'.txs[u]) {
      SameDataSameTxInv(s, s', if u < |s.txs| then s.txs[u] else tx);
    }
  }

  /** A step of transaction `t` on itself alone, which takes no lock. */
  lemma OwnStepKeepsInv(s: State, t: nat, tx: Tx)
    requires Inv(s) && t < |s.txs| && tx.store == s.txs[t].store && TxInv(s, tx)
    requires (tx.holdsStore ==> s.txs[t].holdsStore) && (tx.holdsSubscription ==> s.txs[t].holdsSubscription)
    ensures Inv(s.(txs := s.txs[t := tx]))
  {
    var s' := s.(txs := s.txs[t := tx]);
    forall u | 0 <= u < |s'.txs| ensures TxInv(s', s'.txs[u]) {
      SameDataSameTxInv(s, s', if u == t then tx else s.txs[u]);
    }
  }

  lemma SameDataSameTxInv(s: State, s': State, tx: Tx)
    requires TxInv(s, tx) && s' == s.(txs := s'.txs)
    ensures TxInv(s', tx)
  {}

  /** A start state: no transaction is open yet. */
  predicate Start(s: State) {
    s.txs == [] && PlansHaveStores(s)
  }

  lemma {:induction false} RunKeepsInv(s: State, events: seq<Event>)
    requires Start(s)
    ensures Inv(Run(s, events))
  {
    if events != [] {
      RunKeepsInv(s, events[..|events| - 1]);
      StepKeepsInv(Run(s, events[..|events| - 1]), events[|events| - 1]);
    }
  }

  // ----- The cap -----

  /** Over every interleaving: when a transaction that inserted rows commits, the committed
      count is at most the limit its last insert was checked against; and where the
      subscription row was locked, that limit is the plan's limit at the moment of the commit. */
  lemma CommittedInsertsStayWithinPlan(s0: State, events: seq<Event>, t: nat, m: Metric)
    requires Start(s0)
    requires t < |Run(s0, events).txs| && Run(s0, events).txs[t].pc.Open?
    requires Run(s0, events).txs[t].own.Get(m) > 0
    ensures
      var s := Run(s0, events);
      var s' := Step(s, CommitTx(t));
      var tx := s.txs[t];
      && tx.lastRead.Get(m).Some?
      && Committed(s', tx.store, m) == Committed(s, tx.store, m) + tx.own.Get(m)
      && Committed(s', tx.store, m) <= tx.lastRead.Get(m).value.limit
      && (tx.lastRead.Get(m).value.underLock ==>
            tx.store in s'.plans && Committed(s', tx.store, m) <= s'.plans[tx.store].max.Get(m))
  {
    RunKeepsInv(s0, events);
    assert TxInv(Run(s0, events), Run(s0, events).txs[t]);
  }

  /** Every limit a creator is about to insert under was read while it held the store row, and counts
      as read under the lock exactly if it holds the subscription row, too; and it holds both rows
      as far as they existed when it came to lock them. */
  lemma LimitsAreReadUnderTheLocks(s0: State, events: seq<Event>, t: nat, accessAllowed: bool)
    requires Start(s0) && t < |Run(s0, events).txs|
    ensures
      var s := Run(s0, events);
      var tx := s.txs[t];
      var next := Statement(s, tx, accessAllowed);
      && (tx.pc.Insert? ==> tx.holdsStore && (tx.pc.read.underLock <==> tx.holdsSubscription))
      && (tx.pc.LockStore? && tx.store in s.stores && next.Some? ==> next.value.holdsStore)
      && (tx.pc.LockSubscription? && tx.store in s.plans && next.Some? ==> next.value.holdsSubscription)
      && (tx.pc.Resolve? && next.value.pc.Count? ==> next.value.pc.read.limit == s.plans[tx.store].max.Get(tx.pc.m))
  {
    RunKeepsInv(s0, events);
    assert TxInv(Run(s0, events), Run(s0, events).txs[t]);
  }

  ghost predicate NoReplacement(events: seq<Event>) {
    forall i | 0 <= i < |events| :: !events[i].SpawnReplacer?
  }

  function Max(a: int, b: int): int {
    if a < b then b else a
  }

  /** The plan's limit, or zero where no subscription lets a row in. */
  function Cap(s: State, store: string, m: Metric): int {
    if store in s.plans then s.plans[store].max.Get(m) else 0
  }

  /** Every limit a transaction has read is the one of the fixed plans. */
  ghost predicate ReadsFixedPlan(s0: State, tx: Tx) {
    !IsReplacer(tx.pc) && IsReadingFixedPlan(s0, tx) && LastReadFixedPlan(s0, tx)
  }

  ghost predicate IsReadingFixedPlan(s0: State, tx: Tx) {
    tx.pc.Count? || tx.pc.Insert? ==> tx.store in s0.plans && tx.pc.read.limit == Cap(s0, tx.store, tx.pc.m)
  }

  ghost predicate LastReadFixedPlan(s0: State, tx: Tx) {
    forall m: Metric :: tx.lastRead.Get(m).Some? ==> tx.lastRead.Get(m).value.limit == Cap(s0, tx.store, m)
  }

  ghost predicate FixedPlans(s0: State, s: State) {
    && (forall store | store in s.plans :: store in s0.plans && s.plans[store] == s0.plans[store])
    && (forall t | 0 <= t < |s.txs| :: ReadsFixedPlan(s0, s.txs[t]))
  }

  lemma StepKeepsFixedPlans(s0: State, s: State, e: Event)
    requires FixedPlans(s0, s) && !e.SpawnReplacer?
    ensures FixedPlans(s0, Step(s, e))
  {
    match e
    case Advance(t, accessAllowed) =>
      if t < |s.txs| && Statement(s, s.txs[t], accessAllowed).Some? {
        StatementReadsFixedPlan(s0, s, s.txs[t], accessAllowed);
        OwnStepKeepsFixedPlans(s0, s, t, Statement(s, s.txs[t], accessAllowed).value);
      }
    case CommitTx(t) =>
      if t < |s.txs| {
        assert ReadsFixedPlan(s0, s.txs[t]);
        OwnStepKeepsFixedPlans(s0, s, t, Closed(s.txs[t]));
        assert Step(s, e).plans.Keys <= s.plans.Keys;
      }
    case Request(t, m) =>
      if t < |s.txs| && s.txs[t].pc.Open? {
        OwnStepKeepsFixedPlans(s0, s, t, s.txs[t].(pc := LockStore(m)));
      }
    case Rollback(t) =>
      if t < |s.txs| {
        OwnStepKeepsFixedPlans(s0, s, t, Closed(s.txs[t]));
      }
    case SpawnCreator(_) =>
    case SpawnDeleter(_) =>
    case DeleteRow(_, _) =>
  }

  lemma OwnStepKeepsFixedPlans(s0: State, s: State, t: nat, tx: Tx)
    requires FixedPlans(s0, s) && t < |s.txs| && ReadsFixedPlan(s0, tx)
    ensures FixedPlans(s0, s.(txs := s.txs[t := tx]))
  {}

  lemma StatementReadsFixedPlan(s0: State, s: State, tx: Tx, accessAllowed: bool)
    requires tx.store in s.plans ==> tx.store in s0.plans && s.plans[tx.store] == s0.plans[tx.store]
    requires ReadsFixedPlan(s0, tx) && Statement(s, tx, accessAllowed).Some?
    ensures ReadsFixedPlan(s0, Statement(s, tx, accessAllowed).value)
  {
    StatementIsReadingFixedPlan(s0, s, tx, accessAllowed);
    var next := Statement(s, tx, accessAllowed).value;
    forall m: Metric | next.lastRead.Get(m).Some? ensures next.lastRead.Get(m).value.limit == Cap(s0, tx.store, m) {
      StatementLastRead(s, tx, accessAllowed, m);
    }
  }

  lemma StatementIsReadingFixedPlan(s0: State, s: State, tx: Tx, accessAllowed: bool)
    requires tx.store in s.plans ==> tx.store in s0.plans && s.plans[tx.store] == s0.plans[tx.store]
    requires !IsReplacer(tx.pc) && IsReadingFixedPlan(s0, tx) && Statement(s, tx, accessAllowed).Some?
    ensures
      var next := Statement(s, tx, accessAllowed).value;
      next.store == tx.store && !IsReplacer(next.pc) && IsReadingFixedPlan(s0, next)
  {}

  /** A statement keeps what was last read of a metric, forgets it, or is the insert for it. */
  lemma StatementLastRead(s: State, tx: Tx, accessAllowed: bool, m: Metric)
    requires Statement(s, tx, accessAllowed).Some?
    ensures
      var next := Statement(s, tx, accessAllowed).value;
      || next.lastRead.Get(m) == tx.lastRead.Get(m)
      || next.lastRead.Get(m).None?
      || (tx.pc.Insert? && tx.pc.m == m && next.lastRead.Get(m) == Some(tx.pc.read))
  {}

  lemma StepKeepsCap(s0: State, s: State, e: Event, store: string, m: Metric, bound: int)
    requires Inv(s) && FixedPlans(s0, s)
    requires Committed(s, store, m) <= bound && Cap(s0, store, m) <= bound
    ensures Committed(Step(s, e), store, m) <= bound
  {}

  /** With subscriptions that are not replaced, store deletions included, the plan's cap holds in
      every state of every run, however many transactions interleave: a count never rises above
      it (a store that starts above it only shrinks). */
  lemma {:induction false} FixedPlanCapsHold(s0: State, events: seq<Event>, store: string, m: Metric)
    requires Start(s0) && NoReplacement(events)
    ensures FixedPlans(s0, Run(s0, events))
    ensures Committed(Run(s0, events), store, m) <= Max(Committed(s0, store, m), Cap(s0, store, m))
  {
    if events != [] {
      var before := events[..|events| - 1];
      var e := events[|events| - 1];
      FixedPlanCapsHold(s0, before, store, m);
      RunKeepsInv(s0, before);
      assert e == events[|events| - 1] && !e.SpawnReplacer?;
      StepKeepsFixedPlans(s0, Run(s0, before), e);
      StepKeepsCap(s0, Run(s0, before), e, store, m, Max(Committed(s0, store, m), Cap(s0, store, m)));
    }
  }

  /** One whole create, from the request to the commit, with nothing in between. */
  function CreateAlone(s: State, t: nat, m: Metric, accessAllowed: bool): State {
    var s1 := Step(s, Request(t, m));
    var s2 := Step(s1, Advance(t, accessAllowed));
    var s3 := Step(s2, Advance(t, accessAllowed));
    var s4 := Step(s3, Advance(t, accessAllowed));
    var s5 := Step(s4, Advance(t, accessAllowed));
    Step(Step(s5, Advance(t, accessAllowed)), CommitTx(t))
  }

  /** A create that runs undisturbed inserts its row exactly when access is allowed, the plan is
      active and one more row fits; otherwise it inserts nothing. */
  lemma LoneCreateInsertsIffItFits(s: State, m: Metric, accessAllowed: bool, store: string)
    requires s.txs == [NewTx(store, Open)]
    ensures
      var fits := accessAllowed && store in s.plans && s.plans[store].active &&
        Committed(s, store, m) < Cap(s, store, m);
      Committed(CreateAlone(s, 0, m, accessAllowed), store, m) == Committed(s, store, m) + (if fits then 1 else 0)
  {
    var tx1 := NewTx(store, LockStore(m));
    var s1 := s.(txs := [tx1]);
    assert Step(s, Request(0, m)) == s1;
    var tx2 := tx1.(pc := LockSubscription(m), holdsStore := store in s.stores);
    AdvanceAlone(s1, tx1, tx2, accessAllowed);
    var tx3 := tx2.(pc := Resolve(m), holdsSubscription := store in s.plans);
    AdvanceAlone(s.(txs := [tx2]), tx2, tx3, accessAllowed);
    ResolvedAlone(s.(txs := [tx3]), tx3, m, accessAllowed);
  }

  lemma AdvanceAlone(s: State, tx: Tx, tx': Tx, accessAllowed: bool)
    requires s.txs == [tx] && Statement(s, tx, accessAllowed) == Some(tx')
    ensures Step(s, Advance(0, accessAllowed)) == s.(txs := [tx'])
  {}

  /** The rest of a create that holds its locks: reading the plan, counting, inserting. */
  lemma ResolvedAlone(s: State, tx: Tx, m: Metric, accessAllowed: bool)
    requires s.txs == [tx] && tx.pc == Resolve(m) && tx.own == PerMetric(0, 0)
    ensures
      var fits := accessAllowed && tx.store in s.plans && s.plans[tx.store].active &&
        Committed(s, tx.store, m) < Cap(s, tx.store, m);
      var s1 := Step(s, Advance(0, accessAllowed));
      var s2 := Step(s1, Advance(0, accessAllowed));
      var s3 := Step(Step(s2, Advance(0, accessAllowed)), CommitTx(0));
      Committed(s3, tx.store, m) == Committed(s, tx.store, m) + (if fits then 1 else 0)
  {
    if tx.store in s.plans && accessAllowed && s.plans[tx.store].active {
      var read := LimitRead(s.plans[tx.store].max.Get(m), tx.holdsSubscription);
      var counting := tx.(pc := Count(m, read));
      AdvanceAlone(s, tx, counting, accessAllowed);
      CountedAlone(s.(txs := [counting]), counting, m, accessAllowed);
    } else {
      var open := tx.(pc := Open);
      AdvanceAlone(s, tx, open, accessAllowed);
      AdvanceAlone(s.(txs := [open]), open, open, accessAllowed);
      CommitAlone(s.(txs := [open]), open, m);
    }
  }

  lemma CountedAlone(s: State, tx: Tx, m: Metric, accessAllowed: bool)
    requires s.txs == [tx] && tx.pc.Count? && tx.pc.m == m && tx.own == PerMetric(0, 0)
    ensures
      var s1 := Step(s, Advance(0, accessAllowed));
      var s2 := Step(Step(s1, Advance(0, accessAllowed)), CommitTx(0));
      Committed(s2, tx.store, m) ==
        Committed(s, tx.store, m) + (if Committed(s, tx.store, m) < tx.pc.read.limit then 1 else 0)
  {
    var used := Committed(s, tx.store, m);
    if CreateAllowed(used, tx.pc.read.limit) {
      var inserting := tx.(pc := Insert(m, tx.pc.read, used));
      AdvanceAlone(s, tx, inserting, accessAllowed);
      var done := Statement(s.(txs := [inserting]), inserting, accessAllowed).value;
      AdvanceAlone(s.(txs := [inserting]), inserting, done, accessAllowed);
      CommitAlone(s.(txs := [done]), done, m);
    } else {
      var open := tx.(pc := Open);
      AdvanceAlone(s, tx, open, accessAllowed);
      AdvanceAlone(s.(txs := [open]), open, open, accessAllowed);
      CommitAlone(s.(txs := [open]), open, m);
    }
  }

  lemma CommitAlone(s: State, tx: Tx, m: Metric)
    requires s.txs == [tx] && tx.pc.Open?
    ensures Committed(Step(s, CommitTx(0)), tx.store, m) == Committed(s, tx.store, m) + tx.own.Get(m)
  {}

  /** A plan replacement that runs undisturbed gives the store that plan exactly if the store
      exists, and changes nothing else. */
  lemma LoneReplacementReplaces(s: State, store: string, plan: Plan)
    requires s.txs == [] && PlansHaveStores(s)
    ensures
      var after := Step(Step(Step(s, SpawnReplacer(store, plan)), Advance(0, true)), CommitTx(0));
      && after.plans == (if store in s.stores then s.plans[store := plan] else s.plans)
      && after.stores == s.stores && after.counts == s.counts
  {
    var tx := NewTx(store, LockToReplace(plan));
    assert Step(s, SpawnReplacer(store, plan)) == s.(txs := [tx]);
    AdvanceAlone(s.(txs := [tx]), tx, tx.(pc := Replace(plan), holdsSubscription := store in s.plans), true);
  }

  /** A store deletion that runs undisturbed removes the store, its rows and its subscription, and
      nothing of another store. */
  lemma LoneDeletionDeletes(s: State, store: string)
    requires s.txs == [] && PlansHaveStores(s) && store in s.stores
    ensures
      var s1 := Step(Step(s, SpawnDeleter(store)), Advance(0, true));
      var after := Step(Step(s1, Advance(0, true)), CommitTx(0));
      && after.stores == s.stores - {store} && after.plans == s.plans - {store}
      && (forall m: Metric :: Committed(after, store, m) == 0)
      && (forall other, m: Metric | other != store :: Committed(after, other, m) == Committed(s, other, m))
  {
    var tx := NewTx(store, LockSubscriptionToDelete);
    assert Step(s, SpawnDeleter(store)) == s.(txs := [tx]);
    var tx1 := tx.(pc := LockStoreToDelete, holdsSubscription := store in s.plans);
    AdvanceAlone(s.(txs := [tx]), tx, tx1, true);
    AdvanceAlone(s.(txs := [tx1]), tx1, tx1.(pc := DeleteStore, holdsStore := true), true);
  }

  /** A row deletion takes one row away, if there is one. */
  lemma RowDeletionTakesOne(s: State, store: string, m: Metric)
    ensures
      var after := Step(s, DeleteRow(store, m));
      && Committed(after, store, m) == (if Committed(s, store, m) > 0 then Committed(s, store, m) - 1 else 0)
      && (forall other, k: Metric | other != store || k != m :: Committed(after, other, k) == Committed(s, other, k))
      && after.plans == s.plans && after.stores == s.stores
  {}
}
