/** The cache whose entries carry an expiry time and are dropped when a read finds them expired.

    Every operation names the clock it read; nothing is assumed about these clocks unless a
    lemma says so. A run of operations is compared with its own log, from which nothing is ever
    dropped. */
module TimedCaches {
  import opened Common

  /** A cached value; a computation may itself produce null. */
  datatype Nullable<+V> = Null | Value(v: V)

  datatype Entry<+V> = Entry(value: Nullable<V>, expiresAt: int)

  type Store<V> = map<string, Entry<V>>

  datatype Op<+V> =
    | Get(key: string, now: int)
    | Set(key: string, value: Nullable<V>, ttl: int, now: int)
    | Delete(key: string)
    | Clear

  function Answer<V>(store: Store<V>, key: string, now: int): Nullable<V> {
    if key in store && now < store[key].expiresAt then store[key].value else Null
  }

  function After<V>(store: Store<V>, op: Op<V>): Store<V> {
    match op
    case Get(key, now) => if key in store && store[key].expiresAt <= now then store - {key} else store
    case Set(key, value, ttl, now) => store[key := Entry(value, now + ttl)]
    case Delete(key) => store - {key}
    case Clear => map[]
  }

  class TimedCache<V> {
    const defaultTtlMs: int
    var store: Store<V>

    constructor (defaultTtlMs: int)
      ensures this.defaultTtlMs == defaultTtlMs && store == map[]
    {
      this.defaultTtlMs := defaultTtlMs;
      store := map[];
    }

    method Get(key: string, now: int) returns (value: Nullable<V>)
      modifies this
      ensures value == Answer(old(store), key, now)
      ensures store == After(old(store), Op.Get(key, now))
    {
      if key !in store {
        return Null;
      }
      var entry := store[key];
      if entry.expiresAt <= now {
        store := store - {key};
        return Null;
      }
      return entry.value;
    }

    method Set(key: string, value: Nullable<V>, ttlMs: Option<int>, now: int)
      modifies this
      ensures store == After(old(store), Op.Set(key, value, TtlOf(ttlMs), now))
      ensures key in store && store[key].value == value
      ensures ttlMs.Some? ==> store[key].expiresAt == now + ttlMs.value
      ensures ttlMs.None? ==> store[key].expiresAt == now + defaultTtlMs
      ensures forall other | other != key ::
        (other in store <==> other in old(store)) && (other in store ==> store[other] == old(store)[other])
    {
      store := store[key := Entry(value, now + TtlOf(ttlMs))];
    }

    function TtlOf(ttlMs: Option<int>): int {
      if ttlMs.Some? then ttlMs.value else defaultTtlMs
    }

    method Delete(key: string)
      modifies this
      ensures store == After(old(store), Op.Delete(key))
    {
      store := store - {key};
    }

    method Clear()
      modifies this
      ensures store == After(old(store), Op.Clear)
    {
      store := map[];
    }
  }

  /** The operations of one call that looks a key up and, on a miss, computes and stores it, with
      those that other callers make while it computes. */
  function CallOps<V>(hit: bool, key: string, computed: Nullable<V>, ttl: int, now: int, others: seq<Op<V>>,
    later: int): seq<Op<V>> {
    if hit then [Op.Get(key, now)] else [Op.Get(key, now)] + others + [Op.Set(key, computed, ttl, later)]
  }

  /** `computed` is what the computation would produce, `others` what other callers do to the cache
      while it runs, and `later` the clock when it is done. */
  method GetOrComputeCached<V>(
    cache: TimedCache<V>, key: string, computed: Nullable<V>, ttlMs: Option<int>, now: int, others: seq<Op<V>>,
    later: int)
    returns (value: Nullable<V>)
    modifies cache
    ensures
      var hit := Answer(old(cache.store), key, now);
      && value == (if hit.Value? then hit else computed)
      && cache.store == Run(old(cache.store),
        CallOps(hit.Value?, key, computed, cache.TtlOf(ttlMs), now, others, later))
      && (hit.Value? ==> cache.store == old(cache.store))
      && (hit.Null? ==> key in cache.store)
      && (hit.Null? && ttlMs.Some? ==> cache.store[key] == Entry(computed, later + ttlMs.value))
      && (hit.Null? && ttlMs.None? ==> cache.store[key] == Entry(computed, later + cache.defaultTtlMs))
  {
    var read: seq<Op<V>> := [Op.Get(key, now)];
    ghost var first := cache.store;
    RunSnoc(first, [], read[0]);
    assert [] + read == read;
    var cached := cache.Get(key, now);
    if cached.Value? {
      return cached;
    }
    cache.store := Run(cache.store, others);  // other callers
    RunAppends(first, read, others);
    cache.Set(key, computed, ttlMs, later);
    RunSnoc(first, read + others, Op.Set(key, computed, cache.TtlOf(ttlMs), later));
    return computed;
  }

  lemma RunSnoc<V>(store: Store<V>, ops: seq<Op<V>>, op: Op<V>)
    ensures Run(store, ops + [op]) == After(Run(store, ops), op)
  {
    assert (ops + [op])[..|ops|] == ops;
  }

  lemma {:induction false} RunAppends<V>(store: Store<V>, a: seq<Op<V>>, b: seq<Op<V>>)
    ensures Run(store, a + b) == Run(Run(store, a), b)
  {
    if b == [] {
      assert a + b == a;
    } else {
      var n := |b| - 1;
      RunAppends(store, a, b[..n]);
      assert (a + b)[..|a + b| - 1] == a + b[..n];
    }
  }

  /** What a call leaves for the next reader, whatever others did meanwhile: right after a miss,
      and until the time-to-live runs out, a read finds the computed value. */
  lemma ComputedIsFound<V>(
    ops: seq<Op<V>>, key: string, computed: Nullable<V>, ttl: int, now: int, others: seq<Op<V>>, later: int, read: int)
    requires computed.Value?
    ensures
      var all := ops + CallOps(false, key, computed, ttl, now, others, later);
      Answer(Run<V>(map[], all), key, read) == if read < later + ttl then computed else Null
  {
    var before := ops + ([Op.Get(key, now)] + others);
    var put := Op.Set(key, computed, ttl, later);
    assert ops + CallOps(false, key, computed, ttl, now, others, later) == before + [put];
    RunSnoc<V>(map[], before, put);
  }

  function Run<V>(store: Store<V>, ops: seq<Op<V>>): Store<V> {
    if ops == [] then store else After(Run(store, ops[..|ops| - 1]), ops[|ops| - 1])
  }

  // ----- What the log says -----

  /** Reads affect no key. */
  predicate Affects<V>(op: Op<V>, key: string) {
    op.Clear? || (op.Set? && op.key == key) || (op.Delete? && op.key == key)
  }

  /** `ops[i]` is the latest operation that set or removed `key`. */
  predicate IsLatest<V>(ops: seq<Op<V>>, key: string, i: int) {
    0 <= i < |ops| && Affects(ops[i], key) && forall j | i < j < |ops| :: !Affects(ops[j], key)
  }

  /** A read at `now` is owed the value of the latest set, if it has not run out. */
  predicate Owed<V>(ops: seq<Op<V>>, key: string, now: int, i: int) {
    && IsLatest(ops, key, i) && ops[i].Set?
    && now < ops[i].now + ops[i].ttl && ops[i].value.Value?
  }

  /** Some read of `key` after operation `i` came when the entry set there had run out. */
  predicate SeenExpired<V>(ops: seq<Op<V>>, key: string, i: int) {
    0 <= i < |ops| && ops[i].Set? &&
    exists j :: i < j < |ops| && ExpiredFor(ops[j], key, ops[i])
  }

  /** The store holds a key exactly while its latest operation is a set that no read has seen
      expired. */
  lemma {:induction false} StoreIsLatest<V>(ops: seq<Op<V>>, key: string)
    ensures key in Run<V>(map[], ops) <==> exists i :: IsLatest(ops, key, i) && ops[i].Set? && !SeenExpired(ops, key, i)
    ensures forall i | IsLatest(ops, key, i) && ops[i].Set? && key in Run<V>(map[], ops) ::
      Run<V>(map[], ops)[key] == Entry(ops[i].value, ops[i].now + ops[i].ttl)
  {
    if ops != [] {
      var n := |ops| - 1;
      var before, op := ops[..n], ops[n];
      StoreIsLatest(before, key);
      if Affects(op, key) {
        assert IsLatest(ops, key, n);
        assert !SeenExpired(ops, key, n);
      } else {
        forall i ensures IsLatest(ops, key, i) <==> IsLatest(before, key, i) {
        }
        forall i | IsLatest(before, key, i) && ops[i].Set?
          ensures SeenExpired(ops, key, i) <==> SeenExpired(before, key, i) || ExpiredFor(op, key, ops[i])
        {
          SeenExpiredSnoc(ops, key, i);
        }
        if i :| IsLatest(before, key, i) && before[i].Set? && !SeenExpired(before, key, i) {
          assert ops[i] == before[i];
        }
      }
    }
  }

  /** A read of `key` that finds the entry put by `put` run out. */
  predicate ExpiredFor<V>(op: Op<V>, key: string, put: Op<V>)
    requires put.Set?
  {
    op.Get? && op.key == key && put.now + put.ttl <= op.now
  }

  lemma SeenExpiredSnoc<V>(ops: seq<Op<V>>, key: string, i: int)
    requires 0 <= i < |ops| - 1 && ops[i].Set?
    ensures SeenExpired(ops, key, i) <==>
      SeenExpired(ops[..|ops| - 1], key, i) || ExpiredFor(ops[|ops| - 1], key, ops[i])
  {}

  /** Whatever the clocks, a read that hits returns what the log owes it: the value of the latest
      set, put there less than its time-to-live ago, with no removal since. */
  lemma HitsAreFresh<V>(ops: seq<Op<V>>, key: string, now: int)
    requires Answer(Run<V>(map[], ops), key, now).Value?
    ensures exists i :: Owed(ops, key, now, i) && ops[i].value == Answer(Run<V>(map[], ops), key, now)
  {}

  /** A read answers as the log does except, exactly, when its clock is behind that of an earlier
      read which dropped the entry. */
  lemma ReadAgreesIff<V>(ops: seq<Op<V>>, key: string, now: int)
    ensures Answer(Run<V>(map[], ops), key, now).Value? <==>
      exists i :: Owed(ops, key, now, i) && !SeenExpired(ops, key, i)
  {
    StoreIsLatest(ops, key);
    if i :| Owed(ops, key, now, i) && !SeenExpired(ops, key, i) {
      assert IsLatest(ops, key, i);
    }
    if Answer(Run<V>(map[], ops), key, now).Value? {
      var i :| IsLatest(ops, key, i) && ops[i].Set? && !SeenExpired(ops, key, i);
      assert Owed(ops, key, now, i);
    }
  }

  predicate ReadsClock<V>(op: Op<V>) {
    op.Get? || op.Set?
  }

  predicate NeverLater<V>(ops: seq<Op<V>>, now: int) {
    forall j | 0 <= j < |ops| && ReadsClock(ops[j]) :: ops[j].now <= now
  }

  /** With a clock that does not go back, the cache answers exactly as a log that never evicts. */
  lemma ReadsFollowTheLog<V>(ops: seq<Op<V>>, key: string, now: int)
    requires NeverLater(ops, now)
    ensures Answer(Run<V>(map[], ops), key, now).Value? <==> exists i :: Owed(ops, key, now, i)
    ensures forall i | Owed(ops, key, now, i) :: Answer(Run<V>(map[], ops), key, now) == ops[i].value
  {
    ReadAgreesIff(ops, key, now);
    StoreIsLatest(ops, key);
    forall i | Owed(ops, key, now, i) ensures !SeenExpired(ops, key, i) && IsLatest(ops, key, i) {
    }
  }

  /** A clock that goes back shows the difference: an entry still owed is gone. */
  lemma BackwardClockMisses()
    ensures
      var ops: seq<Op<int>> := [Op.Set("k", Value(1), 10, 0), Op.Get("k", 10)];
      Owed(ops, "k", 5, 0) && Answer(Run(map[], ops), "k", 5).Null?
  {}
}
