# Verified models of StorePilot's stateful core

StorePilot is a Shopify app that bills stores, meters their AI usage, runs approved automations
and keeps customer data out of what it stores. This project models the parts of it whose
guarantees range over whole runs or over every interleaving, and proves those guarantees.
`dafny verify dfyconfig.toml` checks everything.

| file | models |
|---|---|
| `AiCreditLedger.dfy`, `AiCreditProtocol.dfy`, `AiCreditRefinement.dfy`, `AiBudget.dfy` | the monthly AI budget that two counters share: the debit with its retry loop, its serializable interleavings (snapshot reads, reads of missing rows, commit-time conflicts), the loop as what each interleaved call does, the two admission checks, the alert levels and the calling services |
| `PlanCapLocks.dfy`, `PlanCapDeadlocks.dfy` | product and order caps under row locks, as interleaved lock, read, count, insert and commit steps, beside plan replacements and store deletions; and when these wait in a circle |
| `SubscriptionLifecycle.dfy` | one store's subscription row over install, uninstall, reinstall and Shopify syncs |
| `AutomationModel.dfy`, `AutomationInvariants.dfy`, `AutomationStore.dfy`, `AutomationCreation.dfy`, `AutomationRuns.dfy`, `AutomationOutcomes.dfy`, `AutomationCalls.dfy` | the ten-state automation lifecycle over a persisted snapshot, creation and the sync from operations, the service calls interleaved, how executions and verifications end, and what each call does from each status |
| `GdprRedaction.dfy` | customer redaction and data export on a small database |
| `JsonPii.dfy` | the privacy scan, guard and sanitiser over JSON trees |
| `Onboarding.dfy` | the onboarding wizard and its AI initialisation |
| `TimedCache.dfy`, `HttpRetry.dfy`, `ProductionNotifications.dfy` | the expiring cache, the retry loop, the notification lists |
| `Common.dfy`, `JsNumbers.dfy` | options, duplicate-free sequences; finite numbers, infinities and NaN |

State that the program updates in place is a class whose methods are proved against
specification functions; the lemmas are about those functions and about runs of them. A machine's
step function is total: an event that does not apply leaves the state alone, so a statement about
every sequence of events is a statement about every run.

## What the proofs show about the code

- Given one limit, the admission checks and the debit decide alike for every increment of at least
  one. They part exactly on increments that are not finite and positive (a check lets a zero
  through, the debit refuses it) while the budget is not overdrawn (`AiBudget.PlanLimitsAgree`).
- The code does not give them one limit: the usage check reads the plan row, the budget check and
  the debit the plan registry. The usage check then agrees with the others exactly when both limits
  allow the same whole numbers (`AiBudget.ChecksAgreeIffLimitsDo`, `CheckAndDebitAgreeIffLimitsDo`;
  `ChecksPartFromDebit` shows both ways to part).
- A store deletion locks the subscription row before the store row, against the order of creators:
  the two can deadlock on these rows, and no others of the modelled transactions can
  (`PlanCapDeadlocks.NoDeadlock`, `DeadlockCanComeIff`, `DeletionAndCreatorDeadlock`).
- Recording a report can throw before its debit, which has then not happened, and after it has
  committed: the refreshing check runs last (`AiBudget.RecordReportsIfAllowed`).
- Over installs, uninstalls and syncs, "one trial per store" and "never extended" have one
  exception, and no other: a sync that says "trialing" and finds no row opens a trial that is not
  recorded on the store, and a later reinstall can open another
  (`SubscriptionLifecycle.OneTrialForeverIff`, `TrialIsNeverExtended`, `TwoTrialsByExample`).
  `createTrialSubscription`, which ignores the recorded trial too but which nothing calls, is
  excluded.
- Whatever other calls are under way or follow, a failed verification strands an automation in
  `verifying`, exactly when its metrics do not confirm its rules, and a failed plan can only be
  cancelled (`AutomationOutcomes.FailedVerificationIsStuck`, `FailedPlanIsStuck`). A cancelled
  automation blocks its key for good (`AutomationInvariants.CancelledKeyStaysTaken`).
- What is learned never changes the chosen template, as each creation passes one candidate
  (`AutomationModel.SingleCandidateIsAlwaysChosen`).
- An order named `[redacted]` whose flag is off is taken as done and still exported
  (`GdprRedaction.ExportAfterRedactionIsEmptyIff`, `NamedOrderIsStillExported`).
- The sanitiser drops properties called `__proto__`, since assigning that key sets the prototype
  (`JsonPii.EveryPathIsKeptIff`, `ProtoIsDropped`). The guard's filter on the end of a path lets through a
  prohibited name only where its key ends in `shopifyCustomerId` without being it
  (`JsonPii.GuardIsExact`).
- A step name the wizard does not know is accepted by `advance-step` and ends up in the completed
  list; it can never be skipped, and neither the current step nor the activation depends on it
  (`Onboarding.UnknownStepChangesNothingElse`).

## Assumptions

- Debits: a commit and its response are one step; one attempt is one serializable transaction
  whose conflict check covers the rows it read, present or not. The row locks of the debit are
  left out, which only admits more interleavings. Counter columns are 32-bit and reject larger
  values; a transaction that fails for any reason other than a serialization failure is not tried
  again.
- Admission: the agreement of checks and debit takes the same rows, no concurrent debit and an
  allowed subscription; `PlanLimitsAgree` and `ChecksAgreeWithDebit` also take one limit for all.
- Plan caps: the insert is in the transaction of its check; waiting for a lock is the absence of
  a step; a creator that finds no store or subscription row locks nothing there. A deletion takes
  its two row locks in the order of the code and removes the store's rows at its commit, where it
  can also fail. The locks are those on the store and the subscription row. The row locks on
  products and orders, which deletions and the updates of product and order webhooks take as well,
  are left out: about waiting for those, and about circles through them, nothing is claimed.
- Subscription: the paired writes of an install are one step.
- Automations: each transition is one atomic step, ids are fresh, the clock does not go back. A
  verification call reads the snapshot twice, for its default metrics and for its step; here it
  reads once, and a call with given metrics stands for every outcome of the first read.
- Onboarding: each load, change and save is one step, and a store's record exists or is the default.
- Times are whole numbers. Numbers elsewhere are exact.

## Model

| member | source | states |
|---|---|---|
| `AiCreditLedger.UsageTable.TryIncrementAiCreditsWithinLimit` | store-pilot/app/services/billing.server.ts:537-623 | The retry loop ends at the first attempt that is not a serialization failure, or at the third; a reported `ok` means the floored increment was added once to the target row of the rows that attempt met, anything else means this call changed nothing; `budget_exceeded` is reported iff a committed attempt refused |
| `AiCreditLedger.UsageTable.RecordUsage` | store-pilot/app/services/billing.server.ts:460-516 | Plain recording never creates, removes or changes an AI row, succeeds iff the metric, store, number and column range allow it and the database does not fail, and then adds the clamped floor to that one row |
| `AiCreditLedger.WrittenDebitFits` | store-pilot/app/services/billing.server.ts:551-602 | A written debit adds exactly the floored increment and leaves both counters together, clamped or raw, at most the floored limit |
| `AiCreditLedger.DebitInPlainTerms` | store-pilot/app/services/billing.server.ts:551-602 | On the two stored counters: which row a debit writes, that it adds the floored increment, that it refuses iff the clamped counters and the increment pass the limit, and when the column overflows |
| `AiCreditLedger.ThirdAttemptCounts` | store-pilot/app/services/billing.server.ts:550-622 | An accepted call whose first two attempts are serialization failures and whose third commits a fitting write reports `ok` with the increment added to the stored value |
| `AiCreditLedger.ThreeAbortsEndTheCall` | store-pilot/app/services/billing.server.ts:612-622 | A call is told `usage_missing` for serialization failures iff its first three attempts are such failures |
| `AiCreditLedger.RecordInPlainTerms` | store-pilot/app/services/billing.server.ts:460-516 | A plain recording that is accepted adds the floored value to its own counter; no other counter changes, and a refused one changes none |
| `AiCreditProtocol.ConflictIffOverwritten` | store-pilot/app/services/billing.server.ts:551-612 | The conflict check refuses exactly the debits one of whose two rows, present or missing, was written by a debit that committed after their snapshot |
| `AiCreditProtocol.CommitsAreFresh` | store-pilot/app/services/billing.server.ts:518-535 | A debit that commits without conflict read, for every row of its read set, the value committed at that moment, including "no row" |
| `AiCreditProtocol.CommittedDebitsStayWithinLimit` | store-pilot/app/services/billing.server.ts:537-623 | In every interleaving of debit transactions and plain recordings, a debit that succeeds is the debit it would make alone on the rows committed at that moment, and leaves the shared sum of its store and month within its own floored limit; both rows may be missing |
| `AiCreditProtocol.SharedSumNeverPassesTheLimit` | store-pilot/app/services/billing.server.ts:537-623 | If every debit of a store and month carries at most one limit and the sum starts within it, no run takes the sum past it |
| `AiCreditProtocol.DebitsAreConserved` | store-pilot/app/services/billing.server.ts:505-623 | In every run an AI row holds its initial value plus the floored increments of exactly the calls that returned ok on it, so a call that did not return ok added nothing on any attempt; and the row exists iff it did at the start or such a call exists |
| `AiCreditProtocol.ResultsAreFinal` | store-pilot/app/services/billing.server.ts:550-622 | A result once reported never changes, and no call runs more than three attempts |
| `AiCreditProtocol.AbortsAreRetriedTwice` | store-pilot/app/services/billing.server.ts:550-622 | A call aborted on its first or second attempt waits to try again, and one aborted on its third is done with `usage_missing` |
| `AiCreditProtocol.LoneDebitIsDecidedAtOnce` | store-pilot/app/services/billing.server.ts:551-612 | An accepted debit that runs undisturbed is decided on the rows it meets and reports and writes that decision; one that is not accepted reports `usage_missing` and writes nothing |
| `AiCreditProtocol.WriteSkewIsRefused` | store-pilot/app/services/billing.server.ts:521-535 | The case row locks cannot see: with both rows missing and one credit left, two debits of different counters both see room; after the first commit the second is in conflict |
| `AiCreditRefinement.RefusalsAreJustified` | store-pilot/app/services/billing.server.ts:569-578 | However stale the snapshot it was decided on: for a call told that the budget is exceeded, the floored increment does not fit the rows committed at that moment, nor those of any later moment of the run, unless the increment is infinite |
| `AiCreditRefinement.SumNeverShrinks` | store-pilot/app/services/billing.server.ts:537-623 | No step of a run lowers the shared sum of any store and month |
| `AiCreditRefinement.CallsRefineTheLoop` | store-pilot/app/services/billing.server.ts:550-622 | For every accepted call that is done in a run there are the rows and fates its attempts met in that run, and the retry loop given these ends at the same attempt, with the same result, and leaves the rows as they were left |
| `AiBudget.ChecksAgreeWithDebit` | store-pilot/app/services/entitlements.server.ts:63-102 | On the same rows and one limit the usage check and the budget check always agree with each other; they agree with the debit iff the budget is already overdrawn, or the increment is finite and positive and its result is refused or fits the column |
| `AiBudget.PlanLimitsAgree` | store-pilot/app/services/ai-cost-control.server.ts:115-153 | For one limit that a plan row can hold, checks and debit decide alike iff the increment is finite and positive or the budget is overdrawn; so they agree for every increment of at least one |
| `AiBudget.ChecksAgreeIffLimitsDo` | store-pilot/app/services/entitlements.server.ts:314-335 | The usage check reads its limit from the plan row, the budget check from the plan registry: the two agree for every usage and every increment of at least one iff both limits allow the same whole numbers |
| `AiBudget.CheckAndDebitAgreeIffLimitsDo` | store-pilot/app/services/entitlements.server.ts:314-335 | The usage check with the plan row's limit and the debit with the registry's agree on all rows and every increment of at least one iff both limits allow the same whole numbers |
| `AiBudget.ChecksPartFromDebit` | store-pilot/app/services/entitlements.server.ts:51-102 | Concrete inputs on which check and debit part: a zero increment, and a plan row above the registry |
| `AiBudget.AlertThresholds` | store-pilot/app/services/ai-cost-control.server.ts:52-98 | The alert level by thresholds without percentages: `limit_reached` iff used is at least a positive limit, or positive over a zero limit; the 90 and 80 percent levels likewise |
| `AiBudget.AlertIsMonotone` | store-pilot/app/services/ai-cost-control.server.ts:69-98 | More usage never lowers the alert level |
| `AiBudget.AdmissionInPlainTerms` | store-pilot/app/services/entitlements.server.ts:63-102 | Usage check and budget check allow iff nothing blocks and usage plus the floored increment is within the limit cut at zero; and what each reports as reason, limit, use and rest |
| `AiBudget.PercentIsTheShare` | store-pilot/app/services/ai-cost-control.server.ts:52-68 | The percentage used is the share of a positive limit, cut at 100; over a zero limit it is 0 or 100 |
| `AiBudget.ConsumeAiCredits` | store-pilot/app/services/ai-cost-control.server.ts:328-387 | `consumed` is positive iff the debit returned ok, and then it is exactly the amount debited; it is positive iff the amount is, the budget is read without a reason to block, and the last attempt debits; when it is zero this call changed no row |
| `AiBudget.RecordReportsIfAllowed` | store-pilot/app/services/entitlements.server.ts:359-411 | `recorded` for generated reports is reported iff the check allows, the plan is read, the debit commits and the refreshing check does not throw, and then exactly the floored increment was debited; not recorded means nothing was; it throws iff the check or the entitlements read throws, with no row changed, or the refreshing check does after a committed debit |
| `AiBudget.RecordAiRequestsIfAllowed` | store-pilot/app/services/entitlements.server.ts:342-443 | `recorded` for AI requests is reported iff the amount is positive, the budget is read without a reason to block, the last attempt debits and the refreshing check does not throw; with a throwing check the call throws after exactly that debit; otherwise nothing was debited |
| `PlanCapLocks.RunKeepsInv` | store-pilot/app/services/billing-enforcement.server.ts:49-129 | In every interleaving of create, plan-replacement and store-deletion transactions, locks are exclusive, subscriptions refer to existing stores, a limit read under the subscription lock is still the plan's, and what is committed plus what a transaction inserted fits the limit its insert was checked against |
| `PlanCapLocks.CommittedInsertsStayWithinPlan` | store-pilot/app/services/billing-enforcement.server.ts:149-243 | A transaction that inserted rows and commits leaves the committed count at most the limit it read, and, where a subscription row was locked, at most the plan's limit at the moment of the commit, even while other transactions replace plans and delete stores |
| `PlanCapLocks.FixedPlanCapsHold` | store-pilot/app/services/billing-enforcement.server.ts:149-243 | Where no subscription is replaced, store deletions included, no run takes a product or order count above the plan's cap; a store that starts above it never grows |
| `PlanCapLocks.LoneCreateInsertsIffItFits` | store-pilot/app/services/billing-enforcement.server.ts:67-197 | An undisturbed create inserts its row iff access is allowed, the plan is active and one more row fits; otherwise it inserts nothing |
| `PlanCapLocks.LimitsAreReadUnderTheLocks` | store-pilot/app/services/billing-enforcement.server.ts:49-89 | In every run a creator about to insert holds the store row, and the subscription row iff it found one; it takes each of the two rows that is there, and the limit it reads is the one of that subscription |
| `PlanCapLocks.LoneReplacementReplaces` | store-pilot/app/billing/shopify-billing.server.ts:241-259 | A plan replacement that runs undisturbed puts the new plan on the store's subscription and changes nothing else |
| `PlanCapLocks.LoneDeletionDeletes` | store-pilot/app/services/gdpr-store-deletion.server.ts:242-251 | A store deletion that runs undisturbed removes the store, its subscription and its rows, and nothing of another store |
| `PlanCapDeadlocks.NoDeadlock` | store-pilot/app/services/billing-enforcement.server.ts:49-89 | Of the store and subscription row locks alone: in every reachable state transactions wait in a circle, of any length, exactly where a creator that holds the store and a deletion that holds its subscription wait for each other, so never on a store that is not being deleted; locks on product and order rows are not in the claim |
| `PlanCapDeadlocks.SomeoneCanProceed` | store-pilot/app/services/billing-enforcement.server.ts:49-89 | Whenever a transaction is stopped by one of these two locks, some holder of one of them on the same store is not stopped, iff no such pair stands on that store |
| `PlanCapDeadlocks.DeadlockCanComeIff` | store-pilot/app/services/gdpr.server.ts:275-278 | From every reachable state and without a further deletion being started, a deadlock on the store can still come iff the store exists and a deletion of it is open that has the subscription row still to lock, or has it and not yet the store row |
| `PlanCapDeadlocks.DeletionAndCreatorDeadlock` | store-pilot/app/services/gdpr-store-deletion.server.ts:242-251 | A run of five events, on any store with a subscription, after which a deletion and a creator wait for each other |
| `SubscriptionLifecycle.StoreBilling.EnsureSubscriptionForActiveStore` | store-pilot/app/services/billing.server.ts:272-409 | Install and reinstall: a live subscription is left alone, a store with a recorded trial gets a cancelled row, only a store without one gets a trial, and errors change nothing |
| `SubscriptionLifecycle.StoreBilling.TerminateSubscriptionOnUninstall` | store-pilot/app/services/billing.server.ts:415-452 | Uninstall cancels a live subscription at that moment and cuts a running trial short; a terminated one is left alone |
| `SubscriptionLifecycle.StoreBilling.SyncInternalPlanFromShopify` | store-pilot/app/billing/shopify-billing.server.ts:225-259 | A sync sets plan, status and end of an existing row and keeps its trial end and period; without a row it creates one |
| `SubscriptionLifecycle.SyncInPlainTerms` | store-pilot/app/billing/shopify-billing.server.ts:241-259 | Field by field: a sync sets plan, status and end of an existing row and keeps period and trial end; without a row it opens a thirty-day period and, if trialing, a three-day trial; without a plan it does nothing |
| `SubscriptionLifecycle.EnsureInPlainTerms` | store-pilot/app/services/billing.server.ts:272-409 | An install changes something iff the row is missing or over and the plan is there; it then sets that plan and, without a recorded trial, a trial of three days that it records, or else a cancelled row whose period ends at once |
| `SubscriptionLifecycle.TerminateInPlainTerms` | store-pilot/app/services/billing.server.ts:415-452 | Field by field, what an uninstall writes: cancelled, ended now, a running trial cut to now; a row that is missing or over is left |
| `SubscriptionLifecycle.PlanIsLastGiven` | store-pilot/app/billing/shopify-billing.server.ts:254-258 | In every run the row's plan is the one given by the latest sync that named a plan or install that wrote the row |
| `SubscriptionLifecycle.StatusIsLastGiven` | store-pilot/app/billing/shopify-billing.server.ts:254-258 | In every run the row's status is the one given by the latest sync that named a plan, install that wrote the row or uninstall that ended it |
| `SubscriptionLifecycle.AccessInPlainTerms` | store-pilot/app/services/subscription.server.ts:30-64 | Trial access iff the row is trialing and before its trial end, full access iff it is active and not after its period, otherwise none |
| `SubscriptionLifecycle.TrialBranchFiresAtMostOnce` | store-pilot/app/services/billing.server.ts:339-398 | Over every run of installs, uninstalls and syncs, the trial branch fires exactly as often as the trial start is recorded: once or never |
| `SubscriptionLifecycle.OneTrialForeverIff` | store-pilot/app/billing/shopify-billing.server.ts:241-259 | A store with a row has at most one trial in all, whatever happens later, iff its row was not created by a sync that says trialing |
| `SubscriptionLifecycle.TwoTrialsByExample` | store-pilot/app/billing/shopify-billing.server.ts:241-259 | A concrete run in which one store gets two trials |
| `SubscriptionLifecycle.TrialIsNeverExtended` | store-pilot/app/services/billing.server.ts:339-443 | At every moment of a run the trial end on the row lies within three days of the recorded trial start, iff no sync opened a trial in that run |
| `SubscriptionLifecycle.TrialAccessEndsWithTheTrial` | store-pilot/app/services/subscription.server.ts:30-64 | All trial access in a run falls before the recorded trial start plus three days, iff no sync opened a trial in that run |
| `SubscriptionLifecycle.UninstalledStaysBlocked` | store-pilot/app/services/billing.server.ts:259-264 | After an uninstall of a store whose trial is recorded, no sequence of reinstalls and uninstalls opens it again without a sync |
| `AutomationStore.AutomationPersistence.TransitionAutomation` | store-pilot/app/services/automation-lifecycle.server.ts:72-182 | The step-by-step update of record, history, notifications and learning, with its refusals in order, is the specified transition, and a refused one saves nothing |
| `AutomationStore.AutomationPersistence.MoveAutomation` | store-pilot/app/services/automation-lifecycle.server.ts:86-138 | The guards and field updates, one after the other, make the specified move or refuse it for the specified reason |
| `AutomationInvariants.GuardsNeverRefuse` | store-pilot/app/automation/automation-validator.ts:10-67 | For an automation that satisfies the invariant, a move succeeds iff the transition table allows it, the executor does not throw and, for `verified`, there is at least one rule and all are satisfied; the approval, execution and executor guards never add a refusal |
| `AutomationInvariants.TimelineAfterMove` | store-pilot/app/automation/automation-state.ts:3-51 | Every allowed move, back edges included, keeps the times of all stages up to the current one set and non-decreasing in stage order |
| `AutomationInvariants.TransitionKeepsInv` | store-pilot/app/services/automation-lifecycle.server.ts:72-182 | A successful transition keeps the whole snapshot invariant: distinct ids, one live automation per key, approval tied to status, verified means all rules satisfied, ordered timeline, capped history, disjoint learning sets |
| `AutomationInvariants.CreateKeepsInv` | store-pilot/app/automation/automation-engine.ts:134-204 | So does creation |
| `AutomationInvariants.LearningKeepsInv` | store-pilot/app/automation/automation-metrics.ts:41-78 | Learning keeps its lists duplicate-free and the approved and rejected sets disjoint |
| `AutomationInvariants.UpsertSpec` | store-pilot/app/automation/automation-persistence.ts:71-88 | An upsert replaces the automation with that id or adds it, and leaves every other one |
| `AutomationInvariants.DefaultMetricsSatisfyAll` | store-pilot/app/services/automation.server.ts:153-175 | The metrics a verification without metrics fills in satisfy every rule whatever its target |
| `AutomationInvariants.CancelledKeyStaysTaken` | store-pilot/app/automation/automation-validator.ts:69-80 | A cancelled automation can never move again, and every later creation for its key is refused as a duplicate |
| `AutomationInvariants.KeyTextIsInjective` | store-pilot/app/automation/automation-persistence.ts:37-39 | The text hashed into the key tells source type, source id and template apart, even for source ids with colons |
| `AutomationCreation.SuggestionInPlainTerms` | store-pilot/app/automation/automation-metrics.ts:80-88 | Among any candidates the first preferred one is suggested, or else the first that was not rejected, or else the first |
| `AutomationCreation.CreationIsRefusedIff` | store-pilot/app/automation/automation-validator.ts:10-80 | Exactly when each error of a creation is raised: blank store, title under three characters once trimmed, blank source, a live automation for the key |
| `AutomationCreation.CreationInPlainTerms` | store-pilot/app/automation/automation-engine.ts:134-204 | What a creation leaves: an unapproved draft with the rules of its template, first in the list, one event and one notice in front, history cut at 500, learning unchanged |
| `AutomationModel.SingleCandidateIsAlwaysChosen` | store-pilot/app/automation/automation-metrics.ts:80-88 | With a single candidate, whatever was learned, the suggested template is that candidate |
| `AutomationRuns.EveryRunIsSound` | store-pilot/app/services/automation.server.ts:30-188 | In every state of every run of interleaved service calls: approval holds iff the status is approved or later, verified or archived means a non-empty rule list with every rule satisfied, stage times are set and ordered, live keys are unique, history is at most 500, learned approvals and rejections are disjoint |
| `AutomationRuns.ExecutorRunsAtMostOnce` | store-pilot/app/services/automation.server.ts:140-151 | Over every interleaving the external executor is called at most once for an automation, and only while it is executing with merchant approval |
| `AutomationRuns.RunKeepsTurnInv` | store-pilot/app/services/automation-lifecycle.server.ts:184-231 | In every run at most one call is between `executing` and `executed` for an automation, and none once the executor has been called for it |
| `AutomationOutcomes.RunKeepsWorldInv` | store-pilot/app/services/automation-lifecycle.server.ts:207-220 | In every run an automation that some call is about to judge is in `verifying`, and no other call is about to judge it |
| `AutomationOutcomes.FailedVerificationIsStuck` | store-pilot/app/services/automation-lifecycle.server.ts:132-138 | In every run, when a verifying call makes its last request: if the metrics do not confirm a non-empty rule list, nothing is saved and the automation stays in `verifying` in every continuation of the run, whatever other calls are under way; if they do, it is verified and only verified or archived ever after |
| `AutomationOutcomes.FailedPlanIsStuck` | store-pilot/app/services/automation-lifecycle.server.ts:119-128 | In every run, when the executor is called and throws, the automation stays in `executing`, and every continuation of the run leaves it executing or cancelled |
| `AutomationOutcomes.ExecutedPlanMovesOn` | store-pilot/app/services/automation-lifecycle.server.ts:119-128 | When the executor answers, the automation is executed and never in `executing` again in any continuation |
| `AutomationOutcomes.AnyPlanCanFail` | store-pilot/app/services/automation.server.ts:140-151 | For every valid creation there is a run, spelled out, whose execution fails and sticks |
| `AutomationOutcomes.AnyVerificationCanFail` | store-pilot/app/services/automation.server.ts:153-175 | For every valid creation and every metrics that do not confirm the template's rules there is a run, spelled out, whose verification fails and sticks |
| `AutomationOutcomes.OneMetricOffFails` | store-pilot/app/automation/automation-verification.ts:3-31 | One metric of a rule that is off is enough not to confirm the rules |
| `AutomationCalls.SubmitAlone` | store-pilot/app/services/automation.server.ts:56-67 | Undisturbed from any status, a submission moves a prepared automation to waiting for approval and is refused otherwise; so the lifecycle step |
| `AutomationCalls.ApproveAlone` | store-pilot/app/services/automation.server.ts:69-94 | Undisturbed, an approval approves an automation that waits for it, clears rejection and note and teaches the template, and is refused otherwise; so the lifecycle step |
| `AutomationCalls.ApprovePreparedAlone` | store-pilot/app/services/automation.server.ts:79-94 | Approving a prepared automation submits and approves it |
| `AutomationCalls.RejectAlone` | store-pilot/app/services/automation.server.ts:96-110 | Undisturbed, a rejection cancels an automation up to executed as rejected by the merchant, with the given or the standard note, and teaches the rejection; it is refused otherwise; so the lifecycle step |
| `AutomationCalls.RequestChangesAlone` | store-pilot/app/services/automation.server.ts:112-126 | Undisturbed, asking for changes takes a draft or a waiting automation to prepared, with a note that is not empty and then without approval, and is refused otherwise; so the lifecycle step |
| `AutomationCalls.CancelAlone` | store-pilot/app/services/automation.server.ts:127-138 | Undisturbed, a cancellation cancels the same automations, not as rejected, and teaches nothing; so the lifecycle step |
| `AutomationCalls.ExecuteAlone` | store-pilot/app/services/automation.server.ts:140-151 | Undisturbed, an execution takes an approved automation to executed with the executor's answer, or leaves it executing when the executor throws, and is refused otherwise |
| `AutomationCalls.VerifyAlone` | store-pilot/app/services/automation.server.ts:153-175 | Undisturbed, a verification judges an executed automation's rules and takes it to verified iff every one of at least one rule is satisfied, else leaves it verifying; it is refused otherwise |
| `AutomationCalls.ArchiveAlone` | store-pilot/app/services/automation.server.ts:177-188 | Undisturbed, archiving archives a verified automation and is refused otherwise; so the lifecycle step |
| `AutomationCalls.PrepareAlone` | store-pilot/app/services/automation-lifecycle.server.ts:40-44 | The preparing step takes a draft to prepared and is refused otherwise |
| `AutomationCalls.UnknownIsRefused` | store-pilot/app/services/automation-lifecycle.server.ts:81-83 | Every call for an automation that is not there is refused and saves nothing |
| `AutomationCalls.RefusalsInPlainTerms` | store-pilot/app/automation/automation-validator.ts:18-67 | Exactly when each error of a move is raised, over the sixteen edges of the status machine; two of the guards never fire |
| `AutomationCalls.RulesInPlainTerms` | store-pilot/app/automation/automation-verification.ts:3-31 | Each rule is satisfied iff its metric is there and truthy, or positive where the target asks for it, for booleans, numbers and texts |
| `AutomationCalls.LessonsInPlainTerms` | store-pilot/app/automation/automation-metrics.ts:41-78 | What an approval, a rejection and a verification teach about the template, and that nothing else is learned |
| `AutomationCalls.MovesAreRecorded` | store-pilot/app/services/automation-lifecycle.server.ts:140-179 | A granted move puts its event first in a history cut at 500 and, for the statuses that concern the merchant, the notice of that status first |
| `AutomationStore.AutomationPersistence.SyncAutomationsFromOperations` | store-pilot/app/automation/automation-engine.ts:206-226 | The loop over operations has the specified outcome: duplicates skipped, creations collected, the first other error stops it with what was saved before kept |
| `AutomationStore.SyncLeavesOneEach` | store-pilot/app/automation/automation-engine.ts:206-226 | A sync of valid operations succeeds, keeps the invariant and leaves exactly one non-archived automation for each eligible operation's key |
| `AutomationStore.SyncAgainCreatesNothing` | store-pilot/app/automation/automation-engine.ts:206-226 | Running it again, with any ids and at any time, creates and changes nothing |
| `AutomationStore.SyncFailsIff` | store-pilot/app/automation/automation-planner.ts:5-38 | A sync fails iff some eligible operation has a blank store or id |
| `AutomationCreation.LoneOperation` | store-pilot/app/automation/automation-engine.ts:206-226 | A sync of one operation: in the five eligible statuses it makes one draft for the operation's key unless one is live, and fails for a blank store or id; in the others it does nothing |
| `AutomationCreation.SyncIsOneByOne` | store-pilot/app/automation/automation-engine.ts:206-226 | A sync of more operations is their syncs one after the other, each adding to what is saved and to what is returned |
| `AutomationStore.AutomationPersistence.DefaultVerificationMetrics` | store-pilot/app/services/automation.server.ts:153-175 | The loop fills one metric, on, for each rule |
| `GdprRedaction.Database.RedactCustomerOrders` | store-pilot/app/services/gdpr.server.ts:465-552 | Exactly the listed unredacted orders of the store, the open line items of all listed orders and the customer's exports change; the four counts are the numbers of rows changed or removed; already redacted is reported iff listed orders exist and nothing changed |
| `GdprRedaction.RedactionWrites` | store-pilot/app/services/gdpr.server.ts:455-530 | Row by row: a listed unredacted order gets the name `[redacted]`, no financial status and the flag; an open line item of a listed order that exists gets the title `[redacted]`, no SKU and the flag, and none is left open; all else is kept, and exactly the customer's exports are gone |
| `GdprRedaction.RedactionIsFramed` | store-pilot/app/services/gdpr.server.ts:465-552 | No other store's or unlisted order, no other line item, no export of another customer or another store changes, no row appears or vanishes, and amounts and quantities are kept |
| `GdprRedaction.RedactionIsIdempotent` | store-pilot/app/services/gdpr.server.ts:458-552 | A second redaction changes and removes nothing |
| `GdprRedaction.GatheredExportsAreInScope` | store-pilot/app/services/gdpr.server.ts:226-362 | Every gathered export passes the scope validator, and each line item in it belongs to an order in it |
| `GdprRedaction.ExportInPlainTerms` | store-pilot/app/services/gdpr.server.ts:285-362 | An export holds exactly the listed unflagged orders of the store with their values, and exactly the line items of those orders with theirs, and no webhook record |
| `GdprRedaction.ExportAfterRedactionIsEmptyIff` | store-pilot/app/services/gdpr.server.ts:285-463 | After a redaction an export of the same orders is empty iff no listed order was named `[redacted]` without the flag |
| `GdprRedaction.NamedOrderIsStillExported` | store-pilot/app/services/gdpr.server.ts:458-463 | An order named `[redacted]` whose flag is off is still exported after its redaction |
| `GdprRedaction.RedactionsKeepNamesFlagged` | store-pilot/app/services/gdpr.server.ts:458-552 | From a database without such an order no number of redactions creates one, and afterwards an export for any of their requests has no orders and no line items |
| `JsonPii.FieldScanIsExact` | store-pilot/app/lib/privacy-by-architecture.ts:53-84 | The field scan returns, each exactly once and in document order, the paths that lead to a property with a prohibited name other than the exact key `shopifyCustomerId`, and no other path |
| `JsonPii.ValueScanIsExact` | store-pilot/app/lib/json-pii-guard.server.ts:7-27 | The collected leaves are exactly the strings of the tree with their paths, each once and in document order |
| `JsonPii.TextEndsAsItsKey` | store-pilot/app/lib/json-pii-guard.server.ts:52-54 | The end of a rendered path is `shopifyCustomerId` iff the end of its last key is |
| `JsonPii.ScanIsExact` | store-pilot/app/lib/json-pii-guard.server.ts:70-82 | The scan reports, in document order, exactly the offending properties and the strings that hold customer data |
| `JsonPii.OffendingInPlainTerms` | store-pilot/app/lib/json-pii-guard.server.ts:52-54 | A property offends iff its name is prohibited and does not end in `shopifyCustomerId` |
| `JsonPii.GuardIsExact` | store-pilot/app/lib/json-pii-guard.server.ts:44-82 | The guard throws iff the filtered scan reports a path; it throws for fields iff some prohibited property's key does not end in `shopifyCustomerId`, with exactly those paths, else for values iff some string matches; its last check on the facts never fires |
| `JsonPii.SanitizeAt` | store-pilot/app/lib/json-pii-guard.server.ts:86-106 | After sanitising, every path leads where it led, with the redactor applied once to a string; only paths through a `__proto__` property are gone |
| `JsonPii.SanitizedInPlainTerms` | store-pilot/app/lib/json-pii-guard.server.ts:86-106 | At every path, null, booleans and numbers stay, a string is redacted once, an array keeps its length, and an object its keys in their order but for `__proto__` |
| `JsonPii.EveryPathIsKeptIff` | store-pilot/app/lib/json-pii-guard.server.ts:86-106 | All keys and positions are kept iff no property is called `__proto__` |
| `JsonPii.ProtoIsDropped` | store-pilot/app/lib/json-pii-guard.server.ts:95-103 | The object with one `__proto__` property becomes the empty object |
| `JsonPii.ScansAfterSanitizing` | store-pilot/app/lib/json-pii-guard.server.ts:74-106 | The field scan of the sanitised tree reports the same paths less those through `__proto__`, and its strings are exactly the redacted ones |
| `JsonPii.FindProhibitedPiiFieldPaths` | store-pilot/app/lib/privacy-by-architecture.ts:58-84 | The recursion that pushes to an array reports the specified paths in document order |
| `JsonPii.FindProhibitedPiiValuePaths` | store-pilot/app/lib/json-pii-guard.server.ts:32-42 | The loop over the leaves reports exactly the matching ones in order |
| `JsonPii.SanitizeJsonPayload` | store-pilot/app/lib/json-pii-guard.server.ts:86-106 | Building the object by assignments yields the specified sanitised tree |
| `Onboarding.OnboardingStore.HandleOnboardingAction` | store-pilot/app/onboarding/onboarding-actions.ts:54-155 | Each action has the effect of its saved steps on that store's record alone, a refused one has none, and each refusal, redirect and throw is reported exactly when its condition holds; a throwing service leaves the record alone, a throwing product lookup leaves the opened initialisation |
| `Onboarding.ActionIsDone` | store-pilot/app/onboarding/onboarding-actions.ts:54-155 | Intent by intent, the record an action leaves: which step is completed, skipped or neither and that no other changes, its times, the demo flag, the activation, the AI state and the first open step as the current one |
| `Onboarding.ResultInPlainTerms` | store-pilot/app/onboarding/onboarding-actions.ts:63-154 | Exactly when an action throws, which error refuses it and where it redirects, and that a refused one saves nothing |
| `Onboarding.OnboardingStore.RunAiInitialization` | store-pilot/app/onboarding/onboarding-actions.ts:157-251 | The loop over the agents saves exactly the specified sequence of partial states, or the opening one alone if the product lookup throws |
| `Onboarding.OnboardingStore.CompleteOnboardingStep` | store-pilot/app/onboarding/onboarding-state.ts:23-46 | Completing a step updates the lists, the activation, the welcome time and the current step of that store alone |
| `Onboarding.OnboardingStore.SkipOnboardingStep` | store-pilot/app/onboarding/onboarding-state.ts:48-60 | Skipping a step moves it to the skipped list and updates the current step of that store alone |
| `Onboarding.OnboardingStore.UpdateAiInitializationState` | store-pilot/app/onboarding/onboarding-state.ts:84-97 | A patch changes only the AI state fields it carries |
| `Onboarding.NextFrom` | store-pilot/app/onboarding/onboarding-progress.ts:10-17 | The next step is the first one in neither list, or the last step |
| `Onboarding.RunKeepsInv` | store-pilot/app/onboarding/onboarding-persistence.ts:62-92 | Over every interleaving of saved steps: the lists are duplicate-free and disjoint, no required step is skipped, activated holds iff `executive_briefing` is completed, and the current step is the next one |
| `Onboarding.ListsFollowTheLastMark` | store-pilot/app/onboarding/onboarding-persistence.ts:62-92 | A step is in the completed list iff the last event that named it completed it, in the skipped list iff that event skipped it |
| `Onboarding.ProgressOnlyGrows` | store-pilot/app/onboarding/onboarding-progress.ts:10-17 | In every run a done step stays done, activation stays, and the current step never moves back |
| `Onboarding.UnknownStepChangesNothingElse` | store-pilot/app/onboarding/onboarding-persistence.ts:62-76 | A step name the wizard does not know is listed as completed and changes nothing else: no other step, neither the current step nor the activation; it can never be skipped |
| `Onboarding.ActionsAreAllowed` | store-pilot/app/onboarding/onboarding-actions.ts:54-155 | No action asks to skip a required step, and the briefing is completed only by its own action or by advancing to it by name |
| `Onboarding.PickedPartition` | store-pilot/app/onboarding/onboarding-actions.ts:181-234 | For any agents and failures the two lists are an order-preserving partition of the agents processed so far |
| `Onboarding.ProgressAfter` | store-pilot/app/onboarding/onboarding-actions.ts:161-234 | After each agent the persisted state holds that partition, is still running, and nothing outside the AI state has changed |
| `Onboarding.InterruptedOutcome` | store-pilot/app/onboarding/onboarding-actions.ts:161-179 | An initialisation interrupted by a throwing product lookup leaves the AI state `running` with no agent done and changes nothing else |
| `Onboarding.InitOutcome` | store-pilot/app/onboarding/onboarding-actions.ts:236-251 | The initialisation ends failed iff some agent failed and none succeeded, and otherwise, and only then, completes `ai_init`; no other step changes |
| `TimedCaches.TimedCache.Get` | store-pilot/app/lib/timed-cache.server.ts:11-21 | A read answers the stored value iff it has not run out, and drops an entry it finds run out |
| `TimedCaches.GetOrComputeCached` | store-pilot/app/lib/timed-cache.server.ts:36-49 | It returns a cached non-null value, or the computed one, which it stores after whatever other callers did to the cache while it was computed |
| `TimedCaches.ComputedIsFound` | store-pilot/app/lib/timed-cache.server.ts:36-49 | After a miss and whatever others did meanwhile, a read finds the computed value until its time-to-live has run out, and null from then on |
| `TimedCaches.StoreIsLatest` | store-pilot/app/lib/timed-cache.server.ts:6-34 | After any operations, a key is stored iff its latest set or removal is a set that no read has seen run out, and then with that set's value and expiry |
| `TimedCaches.HitsAreFresh` | store-pilot/app/lib/timed-cache.server.ts:36-49 | Whatever the clocks, a non-null answer is the value of the latest set, put there less than its time-to-live ago, with no removal since |
| `TimedCaches.ReadAgreesIff` | store-pilot/app/lib/timed-cache.server.ts:11-21 | A read finds the value the log owes it iff no earlier read saw that entry run out |
| `TimedCaches.ReadsFollowTheLog` | store-pilot/app/lib/timed-cache.server.ts:6-34 | With a clock that does not go back, reads answer exactly as a log that never evicts |
| `TimedCaches.BackwardClockMisses` | store-pilot/app/lib/timed-cache.server.ts:16-19 | A concrete run in which a clock that goes back loses an entry that is still owed |
| `HttpRetry.ExecuteWithRetry` | store-pilot/app/lib/http-retry.server.ts:57-91 | The number of calls, the outcome and every delay: it stops at the first success or non-retryable error, makes no more than `maxAttempts` calls, and returns or throws that attempt's own outcome |
| `HttpRetry.DelayInPlainTerms` | store-pilot/app/lib/http-retry.server.ts:33-39 | The first delay is the base, the next attempt's delay is that of a doubled base, and none is above the maximum |
| `HttpRetry.CallsAreDetermined` | store-pilot/app/lib/http-retry.server.ts:70-88 | The stopping condition determines the number of calls |
| `HttpRetry.WholeLimitNeverFallsThrough` | store-pilot/app/lib/http-retry.server.ts:70-90 | With a whole limit, a loop that ran at all ends by returning or throwing inside the loop, never with `retry_exhausted` |
| `HttpRetry.RunWaitsAtMost` | store-pilot/app/lib/http-retry.server.ts:33-39 | Without server-given delays the waits of a run add up to at most their number times the maximum and at most base times (2^n - 1), for every length and sign |
| `HttpRetry.NeverShrinksIff` | store-pilot/app/lib/http-retry.server.ts:33-39 | Delays never get shorter iff the base delay is not negative |
| `HttpRetry.RunWaitsNeverShrinkIff` | store-pilot/app/lib/http-retry.server.ts:80-87 | The waits of every run without server-given delays are non-decreasing iff the base delay is not negative |
| `HttpRetry.DoubledIsPower` | store-pilot/app/lib/http-retry.server.ts:33-39 | Repeated doubling is multiplication by a power of two |
| `ProductionNotifications.NotificationStore.Upsert` | store-pilot/app/production/production-notifications.ts:5-24 | The loop that overwrites in place or puts in front, then trims, has the specified outcome for that store and leaves the others |
| `ProductionNotifications.MergeOutcome` | store-pilot/app/production/production-notifications.ts:9-19 | Before trimming, the list is the new ids followed by every old entry in its old order; each entry shows the last alert for its id, or is unchanged, and has its old read flag, unread if new |
| `ProductionNotifications.UpsertedList` | store-pilot/app/production/production-notifications.ts:9-23 | After trimming: a front part of those ids, as many as there are up to 100, and every entry shows its last alert and its old read flag |
| `ProductionNotifications.NewIdsSpec` | store-pilot/app/production/production-notifications.ts:12-19 | The new ids are those the list lacked, each once, in reverse order of first arrival |
| `ProductionNotifications.UpsertKeepsInv` | store-pilot/app/production/production-notifications.ts:21-23 | An upsert keeps ids distinct and at most 100 entries, and what it keeps is a front part of the merged list |
| `ProductionNotifications.RunKeepsInv` | store-pilot/app/production/production-notifications.ts:5-46 | After any run of upsert, dismiss and resolve every store's list has distinct ids and at most 100 entries |
| `ProductionNotifications.LastMarkDecides` | store-pilot/app/production/production-notifications.ts:30-46 | Dismissing after resolving leaves an entry dismissed, resolved and read; resolving after dismissing leaves it resolved, not dismissed and read; other entries, ids and order stay |
| `ProductionNotifications.ReadChangesOnlyByHand` | store-pilot/app/production/production-notifications.ts:30-46 | In every run a listed notification is read iff it was read before or this step dismissed or resolved it |

## Left out

- AiCreditLedger.UsageTable.TryIncrementAiCreditsWithinLimit: the `FOR UPDATE` locks are not modelled; safety is proved from the conflict check alone, which has to carry the case of missing rows anyway.
- PlanCapLocks.FixedPlanCapsHold: with plans replaced in between, the cap at the moment of each commit is what `CommittedInsertsStayWithinPlan` states; an older count may then lie above a newly lowered cap, and a creator that found no subscription row holds no lock on one.
- PlanCapDeadlocks.NoDeadlock: the locks on product and order rows are not modelled; two product webhooks whose payloads list new and existing variants in opposite orders can wait for each other through them.
- AutomationRuns.EveryRunIsSound: a lost update inside one transition (load, await, save) is excluded by taking the transition as atomic.
- AutomationOutcomes.FailedVerificationIsStuck: no liveness is claimed: a call under way may never make its next request.
- JsonPii.FieldScanIsExact: which names are prohibited is a parameter, so trimming and lower-casing of names are not modelled; `undefined` and other non-JSON values are not part of the trees.
- JsonPii.GuardIsExact: the email and phone patterns are one predicate on strings, without regular-expression semantics; a path is rendered to text only where the guard looks at its end, and the messages are not modelled.
- TimedCaches.GetOrComputeCached: a computation that throws is not modelled; it stores nothing.
- HttpRetry.ExecuteWithRetry: an infinite or NaN limit, the callback on retry and the parsing of Retry-After are not modelled.
- HttpRetry.RunWaitsAtMost: covers runs whose errors carry no usable Retry-After header, as the bound does not hold for delays a server names.
- GdprRedaction.GatheredExportsAreInScope: profile data, request records and audit entries of an export are not modelled.
- AutomationInvariants.KeyTextIsInjective: the hash over this text is taken as injective.
- Automation titles, previews, risk factors, rollback plans, approval rates, time savings and the metrics dashboard: computed from records, no invariant depends on them.
- Lengths of automation titles are counted in characters, not in UTF-16 units.
- `createTrialSubscription`: starts a trial without looking at the recorded one, and has no caller in the application.
- Plan registries, template tables and the wizard's progress percentages: finite lookups or single-use helpers outside these invariants.
- `setOnboardingCurrentStep`: sets the current step freely and is used by no action.
- What the integration services called by onboarding actions do; timestamps of creation and update.
- Logging, audit events, notifications by mail, caching around the dashboards, routes and components.
- Webhook claims, the job queue, the worker and the operations driver are not part of this model.
