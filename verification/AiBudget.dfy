/** The two admission checks in front of the shared AI budget, the alert levels, and the
    calls that check and then debit. */
module AiBudget {
  import opened Common
  import opened JsNumbers
  import opened AiCreditLedger

  datatype Reason =
    | LimitExceeded | SubscriptionMissing | SubscriptionInactive | PlanMissing | UsageUnavailable

  datatype LimitCheck = LimitCheck(allowed: bool, remaining: real, limit: real, used: nat, reason: Option<Reason>)

  datatype AlertLevel = Normal | Warning80 | Warning90 | LimitReached

  datatype BudgetStatus = BudgetStatus(
    allowed: bool, used: nat, remaining: real, limit: real, percentUsed: real,
    alertLevel: AlertLevel, reason: Option<Reason>)

  function NonNegative(x: real): real {
    if x < 0.0 then 0.0 else x
  }

  /** An increment left out counts as one, a non-finite one as zero. */
  function Normalize(increment: Option<JsNumber>): nat {
    match increment
    case None => 1
    case Some(x) => if x.Finite? then AtLeastZero(x.value.Floor) else 0
  }

  function BuildLimitCheck(used: nat, limit: real, increment: Option<JsNumber>, reason: Option<Reason>): LimitCheck {
    var cap := NonNegative(limit);
    var remaining := NonNegative(cap - used as real);
    if reason.Some? then LimitCheck(false, remaining, cap, used, reason)
    else if (used + Normalize(increment)) as real <= cap then LimitCheck(true, remaining, cap, used, None)
    else LimitCheck(false, remaining, cap, used, Some(LimitExceeded))
  }

  function PercentUsed(used: real, limit: real): real {
    var u, l := NonNegative(used), NonNegative(limit);
    if l == 0.0 then if u > 0.0 then 100.0 else 0.0
    else
      var percent := u / l * 100.0;
      if percent > 100.0 then 100.0 else percent
  }

  function AlertLevelFor(used: real, limit: real): AlertLevel {
    var u, l := NonNegative(used), NonNegative(limit);
    var percent := PercentUsed(used, limit);
    if l == 0.0 && u > 0.0 then LimitReached
    else if u >= l && l > 0.0 then LimitReached
    else if percent >= 100.0 then LimitReached
    else if percent >= 90.0 then Warning90
    else if percent >= 80.0 then Warning80
    else Normal
  }

  function BuildBudgetStatus(used: nat, limit: real, credits: Option<JsNumber>, reason: Option<Reason>): BudgetStatus {
    var cap := NonNegative(limit);
    var remaining := NonNegative(cap - used as real);
    var percent := PercentUsed(used as real, cap);
    if reason.Some? then
      BudgetStatus(false, used, remaining, cap, percent, AlertLevelFor(used as real, cap), reason)
    else
      var projected := used + Normalize(credits);
      var allowed := projected as real <= cap;
      BudgetStatus(allowed, used, remaining, cap, percent, AlertLevelFor(projected as real, cap),
                   if allowed then None else Some(LimitExceeded))
  }

  /** What a check and a budget status report: an increment left out counts as one and one that is
      not finite or below one as none; a limit below zero counts as zero; both allow what fits, if
      nothing else blocks, and report what remains; the status warns of the use there would be. */
  lemma AdmissionInPlainTerms(used: nat, limit: real, increment: Option<JsNumber>, reason: Option<Reason>)
    ensures
      var n := if increment.None? then 1
               else if increment.value.Finite? && increment.value.value >= 1.0 then increment.value.value.Floor
               else 0;
      var cap := if limit > 0.0 then limit else 0.0;
      var left := if used as real < cap then cap - used as real else 0.0;
      var check := BuildLimitCheck(used, limit, increment, reason);
      var status := BuildBudgetStatus(used, limit, increment, reason);
      && (check.allowed <==> reason.None? && (used + n) as real <= cap)
      && (status.allowed <==> reason.None? && (used + n) as real <= cap)
      && check.reason == status.reason && (check.allowed <==> check.reason.None?)
      && (reason.Some? ==> check.reason == reason) &&
        (reason.None? && !check.allowed ==> check.reason == Some(LimitExceeded))
      && check.limit == status.limit == cap && check.used == status.used == used
      && check.remaining == status.remaining == left
      && status.alertLevel == AlertLevelFor((if reason.Some? then used else used + n) as real, cap)
  {}

  /** The reported percentage is the share of the limit, at most 100, and 100 of nothing. */
  lemma PercentIsTheShare(used: nat, limit: real, increment: Option<JsNumber>, reason: Option<Reason>)
    ensures
      var percent := BuildBudgetStatus(used, limit, increment, reason).percentUsed;
      && 0.0 <= percent <= 100.0
      && (limit > 0.0 && used as real <= limit ==> percent * limit == 100.0 * used as real)
      && (limit > 0.0 && used as real > limit ==> percent == 100.0)
      && (limit <= 0.0 ==> percent == if used > 0 then 100.0 else 0.0)
  {
    if limit > 0.0 {
      var q := used as real / limit;
      assert q * limit == used as real;
      ShareCompare(used as real, limit, 100.0);
      ShareOfAll(q, limit, used as real);
    }
  }

  lemma ShareOfAll(q: real, limit: real, used: real)
    requires limit > 0.0 && used >= 0.0 && q * limit == used
    ensures q >= 0.0 && q * 100.0 * limit == 100.0 * used
    ensures used > limit ==> q * 100.0 > 100.0
    ensures used <= limit ==> q * 100.0 <= 100.0
  {
    assert q * 100.0 * limit == 100.0 * (q * limit);
    assert q < 0.0 ==> q * limit < 0.0;
    if q > 1.0 {
      assert q * limit > limit;
    } else {
      assert q * limit <= limit;
    }
  }

  // ----- The checks agree with the debit -----

  /** The debit would be written if its transaction met these rows and committed. */
  predicate DebitAllows(args: DebitArgs, rows: Rows) {
    args.Accepted() && Decide(args, rows).Write?
  }

  /** On the same rows and one plan limit the two checks always agree with each other. They
      agree with the debit exactly when the budget is already overdrawn (all refuse), or the
      increment is finite and positive and its result is refused or fits the column. */
  lemma ChecksAgreeWithDebit(rows: Rows, args: DebitArgs)
    requires args.storeId != "" && args.maxValue.Finite? && IsAiMetric(args.target)
    ensures
      var used := SharedUsed(rows, args.storeId, args.month);
      var limit := args.maxValue.value;
      var check := BuildLimitCheck(used, limit, Some(args.increment), None);
      var budget := BuildBudgetStatus(used, limit, Some(args.increment), None);
      && check.allowed == budget.allowed
      && ((check.allowed <==> DebitAllows(args, rows)) <==>
            || used as real > NonNegative(limit)
            || (&& args.increment.Finite? && args.increment.value > 0.0
                && ((used + args.Amount()) as real > NonNegative(limit)
                    || ValueOf(rows, args.TargetKey()) + args.Amount() <= INT4_MAX)))
  {
    var used := SharedUsed(rows, args.storeId, args.month);
    FloorKeepsWholeBound(used, args.maxValue.value);
    FloorKeepsWholeBound(used + args.Amount(), args.maxValue.value);
  }

  /** A whole number is within a limit iff it is within the floored limit. */
  lemma FloorKeepsWholeBound(n: nat, limit: real)
    ensures n as real <= NonNegative(limit) <==> n <= AtLeastZero(limit.Floor)
  {
    if n <= limit.Floor {
      assert n as real <= limit.Floor as real <= limit;
    } else {
      assert n >= limit.Floor + 1;
      assert n as real >= (limit.Floor + 1) as real > limit;
    }
  }

  /** For the limits plan rows can hold, no column can overflow: the three decisions agree iff
      the increment is finite and positive or the budget is already overdrawn. In particular
      they agree on every increment of at least one. */
  lemma PlanLimitsAgree(rows: Rows, args: DebitArgs)
    requires args.storeId != "" && args.maxValue.Finite? && IsAiMetric(args.target)
    requires args.maxValue.value <= INT4_MAX as real
    ensures
      var used := SharedUsed(rows, args.storeId, args.month);
      var limit := args.maxValue.value;
      (BuildLimitCheck(used, limit, Some(args.increment), None).allowed <==> DebitAllows(args, rows)) <==>
        used as real > NonNegative(limit) || (args.increment.Finite? && args.increment.value > 0.0)
  {
    ChecksAgreeWithDebit(rows, args);
    var used := SharedUsed(rows, args.storeId, args.month);
    assert ValueOf(rows, args.TargetKey()) <= used;
    FloorKeepsWholeBound(used + args.Amount(), args.maxValue.value);
    assert args.Limit() <= INT4_MAX;
  }

  /** The usage check reads the limit from the plan row, the budget check and the debit from the
      plan registry. The two checks agree for every usage and every increment of at least one
      exactly when the two limits allow the same whole numbers. */
  lemma ChecksAgreeIffLimitsDo(rowLimit: real, registryLimit: real)
    ensures
      (forall used: nat, increment: real | increment >= 1.0 ::
         BuildLimitCheck(used, rowLimit, Some(Finite(increment)), None).allowed ==
         BuildBudgetStatus(used, registryLimit, Some(Finite(increment)), None).allowed)
      <==> AtLeastZero(rowLimit.Floor) == AtLeastZero(registryLimit.Floor)
  {
    forall used: nat, increment: real
      ensures BuildLimitCheck(used, rowLimit, Some(Finite(increment)), None).allowed ==
        (used + Normalize(Some(Finite(increment))) <= AtLeastZero(rowLimit.Floor))
      ensures BuildBudgetStatus(used, registryLimit, Some(Finite(increment)), None).allowed ==
        (used + Normalize(Some(Finite(increment))) <= AtLeastZero(registryLimit.Floor))
    {
      FloorKeepsWholeBound(used + Normalize(Some(Finite(increment))), rowLimit);
      FloorKeepsWholeBound(used + Normalize(Some(Finite(increment))), registryLimit);
    }
    var most := if rowLimit.Floor > registryLimit.Floor then rowLimit.Floor else registryLimit.Floor;
    if AtLeastZero(rowLimit.Floor) != AtLeastZero(registryLimit.Floor) {
      assert Normalize(Some(Finite(1.0))) == 1;
      var used: nat := most - 1;
      assert BuildLimitCheck(used, rowLimit, Some(Finite(1.0)), None).allowed !=
        BuildBudgetStatus(used, registryLimit, Some(Finite(1.0)), None).allowed;
    }
  }

  /** The usage check, with the limit of the plan row, and the debit, with that of the registry, agree
      on all rows and every increment of at least one exactly when the two limits allow the same
      whole numbers. */
  lemma CheckAndDebitAgreeIffLimitsDo(storeId: string, month: string, rowLimit: real, registryLimit: real)
    requires storeId != "" && registryLimit <= INT4_MAX as real
    ensures
      (forall rows: Rows, increment: real, target: Metric | increment >= 1.0 && IsAiMetric(target) ::
         CheckMatchesDebit(rows, DebitArgs(storeId, Finite(increment), Finite(registryLimit), month, target), rowLimit))
      <==> AtLeastZero(rowLimit.Floor) == AtLeastZero(registryLimit.Floor)
  {
    if AtLeastZero(rowLimit.Floor) == AtLeastZero(registryLimit.Floor) {
      forall rows: Rows, increment: real, target: Metric | increment >= 1.0 && IsAiMetric(target)
        ensures CheckMatchesDebit(rows, DebitArgs(storeId, Finite(increment), Finite(registryLimit), month, target),
          rowLimit)
      {
        var args := DebitArgs(storeId, Finite(increment), Finite(registryLimit), month, target);
        PlanLimitsAgree(rows, args);
        SameFloorSameCheck(SharedUsed(rows, storeId, month), rowLimit, registryLimit, Finite(increment));
      }
    } else {
      var most := if rowLimit.Floor > registryLimit.Floor then rowLimit.Floor else registryLimit.Floor;
      var rows: Rows := map[Key(storeId, month, AiRequests) := most - 1];
      var args := DebitArgs(storeId, Finite(1.0), Finite(registryLimit), month, AiRequests);
      PlanLimitsAgree(rows, args);
      assert SharedUsed(rows, storeId, month) == most - 1;
      FloorKeepsWholeBound(most, rowLimit);
      FloorKeepsWholeBound(most, registryLimit);
      assert !CheckMatchesDebit(rows, args, rowLimit);
    }
  }

  predicate CheckMatchesDebit(rows: Rows, args: DebitArgs, rowLimit: real) {
    BuildLimitCheck(SharedUsed(rows, args.storeId, args.month), rowLimit, Some(args.increment), None).allowed
    == DebitAllows(args, rows)
  }

  lemma SameFloorSameCheck(used: nat, a: real, b: real, increment: JsNumber)
    requires AtLeastZero(a.Floor) == AtLeastZero(b.Floor)
    ensures BuildLimitCheck(used, a, Some(increment), None).allowed ==
      BuildLimitCheck(used, b, Some(increment), None).allowed
  {
    FloorKeepsWholeBound(used + Normalize(Some(increment)), a);
    FloorKeepsWholeBound(used + Normalize(Some(increment)), b);
  }

  /** Where they part: an empty budget of ten and an increment of zero, which the check lets
      through and the debit refuses; and a plan row of twenty beside a registry of ten. */
  lemma ChecksPartFromDebit()
    ensures !CheckMatchesDebit(map[], DebitArgs("s", Finite(0.0), Finite(10.0), "m", AiRequests), 10.0)
    ensures !CheckMatchesDebit(map[], DebitArgs("s", Finite(15.0), Finite(10.0), "m", AiRequests), 20.0)
  {
    PlanLimitsAgree(map[], DebitArgs("s", Finite(15.0), Finite(10.0), "m", AiRequests));
  }

  // ----- Alert levels -----

  function Rank(level: AlertLevel): nat {
    match level
    case Normal => 0
    case Warning80 => 1
    case Warning90 => 2
    case LimitReached => 3
  }

  /** The alert level by thresholds, without the percentage. */
  lemma AlertThresholds(used: real, limit: real)
    ensures
      var u, l := NonNegative(used), NonNegative(limit);
      && (AlertLevelFor(used, limit) == LimitReached <==> (l > 0.0 && u >= l) || (l == 0.0 && u > 0.0))
      && (Rank(AlertLevelFor(used, limit)) >= Rank(Warning90) <==>
        (l > 0.0 && 10.0 * u >= 9.0 * l) || (l == 0.0 && u > 0.0))
      && (Rank(AlertLevelFor(used, limit)) >= Rank(Warning80) <==>
        (l > 0.0 && 10.0 * u >= 8.0 * l) || (l == 0.0 && u > 0.0))
  {
    var u, l := NonNegative(used), NonNegative(limit);
    if l > 0.0 {
      ShareCompare(u, l, 100.0);
      ShareCompare(u, l, 90.0);
      ShareCompare(u, l, 80.0);
    }
  }

  lemma ShareCompare(u: real, l: real, percent: real)
    requires l > 0.0
    ensures u / l * 100.0 >= percent <==> 100.0 * u >= percent * l
  {
    var q := u / l;
    assert u == q * l;
    if q * 100.0 >= percent {
      assert (q * 100.0 - percent) * l >= 0.0;
    } else {
      assert (percent - q * 100.0) * l > 0.0;
    }
  }

  lemma AlertIsMonotone(used: real, more: real, limit: real)
    requires used <= more
    ensures Rank(AlertLevelFor(used, limit)) <= Rank(AlertLevelFor(more, limit))
  {
    AlertThresholds(used, limit);
    AlertThresholds(more, limit);
  }

  // ----- Callers -----

  /** The debit was written and committed at the last attempt: exactly the floored increment
      was added to the rows that attempt met. */
  ghost predicate Debited(args: DebitArgs, env: nat -> Attempt, after: Rows) {
    && args.Accepted()
    && exists j: nat :: EndsAt(args, env, j) && env(j).fate == Commits && Decide(args, env(j).rows).Write?
         && after == env(j).rows[args.TargetKey() := ValueOf(env(j).rows, args.TargetKey()) + args.Amount()]
  }

  /** No transaction was started, or the last one left the rows it met alone. */
  ghost predicate NotDebited(args: DebitArgs, env: nat -> Attempt, before: Rows, after: Rows) {
    || after == before
    || exists j: nat :: EndsAt(args, env, j) && !(env(j).fate == Commits && Decide(args, env(j).rows).Write?)
         && after == env(j).rows
  }

  ghost predicate LastAttemptDebits(args: DebitArgs, env: nat -> Attempt) {
    exists j: nat :: EndsAt(args, env, j) && env(j).fate == Commits && DebitAllows(args, env(j).rows)
  }

  /** What reading the plan and the usage yields; the read can also throw. */
  datatype BudgetReading = BudgetReading(limit: real, reason: Option<Reason>) | ReadThrows

  /** Consumes credits from the `ai_requests` counter: the reported `consumed` is what was debited. */
  method ConsumeAiCredits(
    table: UsageTable, storeId: string, credits: JsNumber, month: string, reading: BudgetReading, env: nat -> Attempt)
    returns (consumed: nat, debit: Option<DebitResult>)
    modifies table
    ensures
      var limit := if reading.BudgetReading? then reading.limit else 0.0;
      var args := DebitArgs(storeId, Finite(Normalize(Some(credits)) as real), Finite(limit), month, AiRequests);
      && (consumed > 0 ==> consumed == Normalize(Some(credits)) == args.Amount() && Debited(args, env, table.rows))
      && (consumed == 0 ==> NotDebited(args, env, old(table.rows), table.rows))
      && (consumed > 0 <==> debit.Some? && debit.value.Ok?)
      && (consumed > 0 <==>
            Normalize(Some(credits)) > 0 && reading.BudgetReading? && reading.reason.None? &&
              LastAttemptDebits(args, env))
  {
    var amount := Normalize(Some(credits));
    if amount == 0 || reading.ReadThrows? || reading.reason.Some? {
      return 0, None;
    }
    var args := DebitArgs(storeId, Finite(amount as real), Finite(reading.limit), month, AiRequests);
    var result := table.TryIncrementAiCreditsWithinLimit(args, env);
    if args.Accepted() {
      ghost var last: nat :| EndsAt(args, env, last) && Outcome(args, env(last), result, table.rows);
      assert forall j: nat | EndsAt(args, env, j) :: j == last;
    }
    consumed := if result.Ok? then amount else 0;
    debit := Some(result);
  }

  datatype RecordOutcome = Recorded(recorded: bool) | Threw

  /** What reading the plan's entitlement yields; the subscription read inside it can throw. */
  datatype EntitlementRead = PlanIsMissing | Entitled(limit: real) | EntitlementThrows

  /** The reads around a debit of a report: the first limit check (absent when it throws), the
      plan's entitlement, and whether the refreshing check afterwards throws. */
  datatype ReportReads = ReportReads(check: Option<LimitCheck>, entitlement: EntitlementRead, refreshThrows: bool)

  function ReportArgs(storeId: string, increment: Option<JsNumber>, month: string, seen: ReportReads): DebitArgs {
    var limit := if seen.entitlement.Entitled? then seen.entitlement.limit else 0.0;
    DebitArgs(storeId, Finite(Normalize(increment) as real), Finite(limit), month, ReportsGenerated)
  }

  /** One of the two reads before the debit throws. */
  predicate ThrowsBeforeDebit(seen: ReportReads) {
    seen.check.None? || (seen.check.value.allowed && seen.entitlement.EntitlementThrows?)
  }

  predicate ReportIsTried(seen: ReportReads) {
    seen.check.Some? && seen.check.value.allowed && seen.entitlement.Entitled?
  }

  /** Recording generated reports: `recorded` holds iff exactly the floored increment was
      debited, except that the call can also throw, in a read before the debit, which then has
      not happened, or in the refreshing check after it, when it has. */
  method RecordReportsIfAllowed(
    table: UsageTable, storeId: string, increment: Option<JsNumber>, month: string, seen: ReportReads,
    env: nat -> Attempt)
    returns (outcome: RecordOutcome)
    modifies table
    ensures outcome == Recorded(true) ==> Normalize(increment) > 0
    ensures outcome == Recorded(true) ==> Debited(ReportArgs(storeId, increment, month, seen), env, table.rows)
    ensures outcome == Recorded(false) ==>
      NotDebited(ReportArgs(storeId, increment, month, seen), env, old(table.rows), table.rows)
    ensures outcome == Threw <==>
      || ThrowsBeforeDebit(seen)
      || (seen.refreshThrows && ReportIsTried(seen)
          && LastAttemptDebits(ReportArgs(storeId, increment, month, seen), env))
    ensures ThrowsBeforeDebit(seen) ==> table.rows == old(table.rows)
    ensures outcome == Threw && !ThrowsBeforeDebit(seen) ==>
      Debited(ReportArgs(storeId, increment, month, seen), env, table.rows)
    ensures outcome == Recorded(true) <==>
      ReportIsTried(seen) && !seen.refreshThrows && LastAttemptDebits(ReportArgs(storeId, increment, month, seen), env)
  {
    var args := ReportArgs(storeId, increment, month, seen);
    if seen.check.None? {
      return Threw;
    }
    if !seen.check.value.allowed {
      return Recorded(false);
    }
    if seen.entitlement.EntitlementThrows? {
      return Threw;
    }
    if seen.entitlement.PlanIsMissing? {
      return Recorded(false);
    }
    var result := table.TryIncrementAiCreditsWithinLimit(args, env);
    if args.Accepted() {
      ghost var last: nat :| EndsAt(args, env, last) && Outcome(args, env(last), result, table.rows);
      assert forall j: nat | EndsAt(args, env, j) :: j == last;
    }
    if result.NotOk? {
      return Recorded(false);
    }
    return if seen.refreshThrows then Threw else Recorded(true);
  }

  /** Recording AI requests goes through `ConsumeAiCredits`. */
  method RecordAiRequestsIfAllowed(
    table: UsageTable, storeId: string, increment: Option<JsNumber>, month: string,
    reading: BudgetReading, refreshThrows: bool, env: nat -> Attempt)
    returns (outcome: RecordOutcome)
    modifies table
    ensures
      var limit := if reading.BudgetReading? then reading.limit else 0.0;
      var args := DebitArgs(storeId, Finite(Normalize(increment) as real), Finite(limit), month, AiRequests);
      && (outcome == Recorded(true) ==> Normalize(increment) > 0 && Debited(args, env, table.rows) && !refreshThrows)
      && (outcome == Recorded(false) ==> NotDebited(args, env, old(table.rows), table.rows))
      && (outcome == Threw ==> Debited(args, env, table.rows) && refreshThrows)
      && (outcome != Recorded(false) <==>
            Normalize(increment) > 0 && reading.BudgetReading? && reading.reason.None? && LastAttemptDebits(args, env))
      && (outcome == Recorded(true) <==> outcome != Recorded(false) && !refreshThrows)
  {
    var amount := Normalize(increment);
    NormalizeIsIdempotent(amount);
    var consumed, _ := ConsumeAiCredits(table, storeId, Finite(amount as real), month, reading, env);
    if consumed == 0 {
      return Recorded(false);
    }
    return if refreshThrows then Threw else Recorded(true);
  }

  lemma NormalizeIsIdempotent(n: nat)
    ensures Normalize(Some(Finite(n as real))) == n
  {}
}
