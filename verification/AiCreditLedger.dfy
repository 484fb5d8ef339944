/** Usage rows of the billing database and one debit of the shared AI budget:
    the decision a debit transaction takes on the rows it reads, and the bounded
    retry loop around that transaction. */
module AiCreditLedger {
  import opened JsNumbers

  datatype Metric = Products | Orders | AiRequests | ReportsGenerated

  /** The unique key of a usage row. */
  datatype Key = Key(storeId: string, month: string, metric: Metric)

  type Rows = map<Key, int>

  // A usage value is a 32-bit signed column: a larger value makes the write fail.
  const INT4_MAX: int := 0x7FFF_FFFF
  const MAX_ATTEMPTS: nat := 3

  predicate IsAiMetric(metric: Metric) {
    metric == AiRequests || metric == ReportsGenerated
  }

  function AiKeys(storeId: string, month: string): set<Key> {
    {Key(storeId, month, AiRequests), Key(storeId, month, ReportsGenerated)}
  }

  /** The stored value, a missing row counting as zero. */
  function ValueOf(rows: Rows, key: Key): int {
    if key in rows then rows[key] else 0
  }

  /** AI credits used by a store in a month: both counters, negative rows counting as zero. */
  function SharedUsed(rows: Rows, storeId: string, month: string): nat {
    AtLeastZero(ValueOf(rows, Key(storeId, month, AiRequests))) +
    AtLeastZero(ValueOf(rows, Key(storeId, month, ReportsGenerated)))
  }

  datatype DebitArgs = DebitArgs(
    storeId: string, increment: JsNumber, maxValue: JsNumber, month: string, target: Metric)
  {
    /** Arguments refused before any transaction starts do not satisfy this. */
    predicate Accepted() {
      storeId != "" && !increment.AtMostZero() && maxValue.Finite?
    }

    function TargetKey(): Key {
      Key(storeId, month, target)
    }

    /** The rows the locking read returns. */
    function ReadSet(): set<Key> {
      AiKeys(storeId, month)
    }

    /** The floored limit. */
    function Limit(): nat {
      if maxValue.Finite? then AtLeastZero(maxValue.value.Floor) else 0
    }

    /** The floored increment; zero where the increment is not finite. */
    function Amount(): nat {
      match FloorAtZero(increment)
      case Count(n) => n
      case Unbounded => 0
      case NotANumber => 0
    }
  }

  datatype FailReason = BudgetExceeded | UsageMissing

  datatype DebitResult = Ok(newValue: int) | NotOk(reason: FailReason)

  /** What the body of a debit transaction does with the rows it read. */
  datatype Decision =
    | Refuse
    | Write(newValue: int)
    | WriteFails  // the database rejects the value: not a number, or too large for the column

  function Decide(args: DebitArgs, rows: Rows): Decision {
    match FloorAtZero(args.increment)
    case NotANumber => WriteFails  // no comparison with NaN refuses it
    case Unbounded => Refuse
    case Count(n) =>
      if SharedUsed(rows, args.storeId, args.month) + n > args.Limit() then Refuse
      else
        var newValue := ValueOf(rows, args.TargetKey()) + n;
        if newValue > INT4_MAX then WriteFails else Write(newValue)
  }

  /** A debit that is written keeps the shared sum within its limit, in the clamped
      reading and in the raw one, and adds exactly the floored increment. */
  lemma WrittenDebitFits(args: DebitArgs, rows: Rows)
    requires IsAiMetric(args.target)
    requires Decide(args, rows).Write?
    ensures
      var after := rows[args.TargetKey() := Decide(args, rows).newValue];
      var other := Key(args.storeId, args.month, if args.target == AiRequests then ReportsGenerated else AiRequests);
      && SharedUsed(after, args.storeId, args.month) <= args.Limit()
      && SharedUsed(after, args.storeId, args.month) <= SharedUsed(rows, args.storeId, args.month) + args.Amount()
      && ValueOf(after, args.TargetKey()) == ValueOf(rows, args.TargetKey()) + args.Amount()
      && ValueOf(after, args.TargetKey()) + ValueOf(after, other) <= args.Limit()
  {}

  /** The decision of a debit in terms of the two stored counters: which row it writes, by how much,
      and when it refuses or overflows the column. */
  lemma DebitInPlainTerms(rows: Rows, storeId: string, month: string, increment: real, limit: real, target: Metric)
    requires target == AiRequests || target == ReportsGenerated
    ensures
      var args := DebitArgs(storeId, Finite(increment), Finite(limit), month, target);
      var requests := ValueOf(rows, Key(storeId, month, AiRequests));
      var reports := ValueOf(rows, Key(storeId, month, ReportsGenerated));
      var used := (if requests > 0 then requests else 0) + (if reports > 0 then reports else 0);
      var stored := if target == AiRequests then requests else reports;
      && (args.Accepted() <==> storeId != "" && increment > 0.0)
      && args.TargetKey() == Key(storeId, month, target)
      && (increment > 0.0 ==>
            && args.Amount() == increment.Floor
            && (Decide(args, rows) == Refuse <==>
                  used + increment.Floor > 0 && (used + increment.Floor) as real > limit)
            && (Decide(args, rows) == WriteFails ==> stored + increment.Floor > 2147483647)
            && (Decide(args, rows).Write? ==>
                  && Decide(args, rows).newValue == stored + increment.Floor
                  && stored + increment.Floor <= 2147483647))
  {
    var n := SharedUsed(rows, storeId, month) + increment.Floor;
    if n > limit.Floor {
      assert n as real >= (limit.Floor + 1) as real > limit;
    } else {
      assert n as real <= limit.Floor as real <= limit;
    }
  }

  /** Arguments that are not finite: such a limit is never accepted, nor is the negative infinity; the positive
      one never fits, and NaN passes the check and is left to the database to reject. */
  lemma NonFiniteInPlainTerms(
    rows: Rows, storeId: string, month: string, increment: JsNumber, limit: JsNumber, target: Metric)
    ensures
      var args := DebitArgs(storeId, increment, limit, month, target);
      && (!limit.Finite? || increment == NegInfinity ==> !args.Accepted())
      && (increment == PosInfinity || increment == NaN ==> (args.Accepted() <==> storeId != "" && limit.Finite?))
      && (increment == PosInfinity ==> Decide(args, rows) == Refuse)
      && (increment == NaN ==> Decide(args, rows) == WriteFails)
  {}

  /** How the database ends one attempt. */
  datatype Fate = Commits | SerializationFailure | OtherFailure

  /** What one attempt meets: the committed rows at its commit point, which other
      transactions may have changed since the previous attempt, and its fate. */
  datatype Attempt = Attempt(rows: Rows, fate: Fate)

  /** What a call whose last attempt is `last` reports and leaves behind: the floored
      increment added to the target row of the rows this attempt met if its transaction wrote
      and committed, those rows untouched otherwise. */
  ghost predicate Outcome(args: DebitArgs, last: Attempt, result: DebitResult, after: Rows) {
    var debits := last.fate == Commits && Decide(args, last.rows).Write?;
    && (debits ==> result == Ok(ValueOf(last.rows, args.TargetKey()) + args.Amount()))
    && (debits ==> after == last.rows[args.TargetKey() := result.newValue])
    && (!debits ==> result.NotOk? && after == last.rows)
    && (result == NotOk(BudgetExceeded) <==> last.fate == Commits && Decide(args, last.rows) == Refuse)
  }

  /** Attempt `j` is the last one made. */
  ghost predicate EndsAt(args: DebitArgs, env: nat -> Attempt, j: nat) {
    && j < MAX_ATTEMPTS
    && (forall i: nat | i < j :: env(i).fate == SerializationFailure)
    && (env(j).fate != SerializationFailure || j == MAX_ATTEMPTS - 1)
  }

  /** What the retry loop promises: the outcome of the last attempt it makes. */
  ghost predicate Reports(args: DebitArgs, env: nat -> Attempt, result: DebitResult, after: Rows) {
    exists j: nat :: EndsAt(args, env, j) && Outcome(args, env(j), result, after)
  }

  /** Two serialization failures are survived: a third attempt that commits a fitting write is
      reported as a success and adds the increment. */
  lemma ThirdAttemptCounts(args: DebitArgs, env: nat -> Attempt, result: DebitResult, after: Rows)
    requires Reports(args, env, result, after)
    requires env(0).fate == SerializationFailure && env(1).fate == SerializationFailure && env(2).fate == Commits
    requires Decide(args, env(2).rows).Write?
    ensures result == Ok(ValueOf(env(2).rows, args.TargetKey()) + args.Amount())
    ensures after == env(2).rows[args.TargetKey() := result.newValue]
  {
    var j: nat :| EndsAt(args, env, j) && Outcome(args, env(j), result, after);
    assert j == 2;
  }

  /** The loop gives up over serialization failures exactly when its first three attempts all end in
      one, and then reports the usage as missing and has changed nothing. */
  lemma ThreeAbortsEndTheCall(args: DebitArgs, env: nat -> Attempt, result: DebitResult, after: Rows)
    requires Reports(args, env, result, after)
    ensures (exists j: nat :: EndsAt(args, env, j) && env(j).fate == SerializationFailure) <==>
      env(0).fate == env(1).fate == env(2).fate == SerializationFailure
    ensures env(0).fate == env(1).fate == env(2).fate == SerializationFailure ==>
      result == NotOk(UsageMissing) && after == env(2).rows
  {
    var last: nat :| EndsAt(args, env, last) && Outcome(args, env(last), result, after);
    if env(0).fate == env(1).fate == env(2).fate == SerializationFailure {
      assert EndsAt(args, env, 2);
      assert last == 2;
      assert result.reason == BudgetExceeded || result.reason == UsageMissing;
    }
  }

  /** Plain usage recording refuses the two AI counters: only a debit may change them. */
  predicate RecordAccepted(rows: Rows, storeId: string, metric: Metric, value: JsNumber, month: string) {
    && !IsAiMetric(metric)
    && storeId != ""
    && value.Finite?
    && ValueOf(rows, Key(storeId, month, metric)) + AtLeastZero(value.value.Floor) <= INT4_MAX
  }

  function AfterRecord(rows: Rows, storeId: string, metric: Metric, value: JsNumber, month: string): Rows {
    var key := Key(storeId, month, metric);
    if RecordAccepted(rows, storeId, metric, value, month)
    then rows[key := ValueOf(rows, key) + AtLeastZero(value.value.Floor)]
    else rows
  }

  /** A recording adds the clamped floor to its own row, if the metric is not an AI one, the store is
      named, the number is finite and the sum fits the column; otherwise nothing changes. */
  lemma RecordInPlainTerms(rows: Rows, storeId: string, metric: Metric, value: JsNumber, month: string)
    ensures
      var after, key := AfterRecord(rows, storeId, metric, value, month), Key(storeId, month, metric);
      var added := if value.Finite? && value.value.Floor > 0 then value.value.Floor else 0;
      var accepted := (metric == Products || metric == Orders) && storeId != "" && value.Finite?
                      && ValueOf(rows, key) + added <= 2147483647;
      && (accepted ==> key in after && ValueOf(after, key) == ValueOf(rows, key) + added)
      && (!accepted ==> after == rows)
      && (forall other: Key | other != key ::
        (other in after <==> other in rows) && ValueOf(after, other) == ValueOf(rows, other))
  {}

  class UsageTable {
    var rows: Rows

    constructor ()
      ensures rows == map[]
    {
      rows := map[];
    }

    /** The retry loop. Each iteration is one transaction; `env` says which rows it meets
        and whether the database lets it commit. */
    method TryIncrementAiCreditsWithinLimit(args: DebitArgs, env: nat -> Attempt) returns (result: DebitResult)
      modifies this
      ensures !args.Accepted() ==> result == NotOk(UsageMissing) && rows == old(rows)
      ensures args.Accepted() ==> Reports(args, env, result, rows)
    {
      if !args.Accepted() {
        return NotOk(UsageMissing);
      }
      var attempt: nat := 0;
      while attempt < MAX_ATTEMPTS
        invariant attempt <= MAX_ATTEMPTS
        invariant forall i: nat | i < attempt :: env(i).fate == SerializationFailure
        invariant attempt == MAX_ATTEMPTS ==> EndsAt(args, env, 2) && rows == env(2).rows
      {
        rows := env(attempt).rows;  // commits of other transactions
        match env(attempt).fate {
          case SerializationFailure =>
            attempt := attempt + 1;
          case OtherFailure =>
            assert EndsAt(args, env, attempt);
            return NotOk(UsageMissing);
          case Commits =>
            assert EndsAt(args, env, attempt);
            match Decide(args, rows) {
              case Refuse => return NotOk(BudgetExceeded);
              case WriteFails => return NotOk(UsageMissing);
              case Write(newValue) =>
                rows := rows[args.TargetKey() := newValue];
                return Ok(newValue);
            }
        }
      }
      return NotOk(UsageMissing);
    }

    /** Plain usage recording: an upsert that adds to the row; a database error is reported as
        nothing recorded. */
    method RecordUsage(storeId: string, metric: Metric, value: JsNumber, month: string, databaseFails: bool)
      returns (recorded: bool)
      modifies this
      ensures forall key: Key | IsAiMetric(key.metric) :: key in rows <==> key in old(rows)
      ensures forall key: Key | IsAiMetric(key.metric) :: ValueOf(rows, key) == old(ValueOf(rows, key))
      ensures recorded <==> !databaseFails && RecordAccepted(old(rows), storeId, metric, value, month)
      ensures recorded ==>
        ValueOf(rows, Key(storeId, month, metric)) ==
        old(ValueOf(rows, Key(storeId, month, metric))) + AtLeastZero(value.value.Floor)
      ensures forall key: Key | key != Key(storeId, month, metric) :: key in rows <==> key in old(rows)
      ensures forall key: Key | key != Key(storeId, month, metric) :: ValueOf(rows, key) == old(ValueOf(rows, key))
      ensures !recorded ==> rows == old(rows)
      ensures rows == if databaseFails then old(rows) else AfterRecord(old(rows), storeId, metric, value, month)
    {
      if IsAiMetric(metric) || storeId == "" || !value.Finite? {
        return false;
      }
      var key := Key(storeId, month, metric);
      var newValue := ValueOf(rows, key) + AtLeastZero(value.value.Floor);
      if databaseFails || newValue > INT4_MAX {
        return false;
      }
      rows := rows[key := newValue];
      return true;
    }
  }
}
