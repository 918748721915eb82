# Living-cost manager: models and proofs

This project models the parts of the living-cost manager whose correctness is hardest to see, and proves what they
promise. `dafny verify dfyconfig.toml` checks everything.

- **Subscription billing.** `BillingRows` holds the rows of one contract and each database transaction as a function
  from rows to rows; `BillingStore` is the same as an object that updates its rows step by step, proved equal to those
  functions. `BillingWorld` is the protocol: rows, provider calls in flight, a clock that does not go back, and a log of
  what was sent. A call in flight may go on later or never, so crashes, replays, retries, sweeps and webhooks are all
  just orders of actions. The provider may answer anything unless a statement says otherwise. `BillingCore`,
  `BillingProgress`, `BillingInvariant` and the `*Steps` files prove that every step keeps the invariant;
  `BillingTheorems`, `BillingLeases`, `BillingMoney`, `BillingStops` and `BillingDeletion` state the promises, for runs
  from a new contract or for any state with the invariant, which every state of such a run has
  (`BillingTheorems.Reached`). `BillingExample` holds concrete runs. `BillingService` is the service as an object whose
  steps are the protocol's. `MockProvider`, `MockComposition` and `Account` are the mock provider, its use by the
  protocol, and account deletion.
- **Calendar and recurrence.** `Calendar` and `CivilText` tie dates, texts and day numbers together, following
  sections 21.4.1 and 21.4.3.4 of ECMA-262. `Recurrence` defines the occurrence set once; `WorkspaceAggregation`,
  `Predictions`, `DueEnumeration`, `PaydayTimeline` and `PaydayGroups` prove each of the program's loops against it.
- **Marketing counts.** `MetricsFile`, `MetricsCounts`, `MetricsStore` and `MetricsTheorems` model the aggregate file
  and the serialized store over it.
- **Text formats.** `Csv` and `Backup` prove that printer and scanner undo each other.

## Where the code differs from what is said about it

- A verified refund can be reopened: when a lookup of the dispatching path finds nothing, its release does not look at
  the record's status (`BillingMoney.VerifiedReopensExactlyWhen`). An honest provider and one lookup that comes back
  empty are enough (`BillingExample.VerifiedRefundIsReopened`). The money bounds hold all the same.
- An account that passes the deletion gate is inert only if the provider never reports a charge or a refund it was not
  sent. A false report can verify a record whose refund call is still in flight; the account is then deleted and the
  refund sent after it (`BillingExample.DeletionMissesARefund`, `BillingDeletion.DeletedContractRefundsExactlyWhen`).
- `enumerateDueOccurrences` passes the month's number where `Date.UTC` expects its index, so its days-until value is off
  by the difference of two month lengths (`DueEnumeration.DaysUntilRightExactlyWhen`, `DueEnumeration.AprilIsOneDayOff`),
  and it lists a due date of the year 10000 because its text compares as smaller (`DueEnumeration.EnumerationExactlyWhen`).
- `kstThirtyDayWindow` cuts an ISO text to ten characters. Of a year outside 0 to 9999 these hold no day of the month,
  so the window starts on the first of the month (`WorkspaceAggregation.KstWindowMeaning`).
- `Date.UTC` reads the years 0 to 99 as 1900 to 1999, so shifting such a date by no days changes it
  (`PlanningTime.ShiftByZero`).
- The store's comment says a failure stays latched until a restart. A clean-up asked for directly, waiting behind a
  failing record, opens it again (`MetricsTheorems.OpensExactlyWhen`). The program only cleans up by its timer and
  initializes first, and then the latch holds (`MetricsTheorems.LatchHoldsForever`).
- With the default limits the oversize refusal of the aggregate and the branch that drops its oldest day cannot happen
  (`MetricsCounts.AlwaysFits`, `MetricsCounts.NeverDropsOldest`).

## Model

| member | source | states |
|---|---|---|
| BillingRefundSteps.StepKeepsInv | apps/api/src/services/service-billing.ts:206-828 | every atomic step of the protocol, in any interleaving with calls in flight, keeps the protocol's invariant: charges, periods, leases, refunds, revocations and receipts stay consistent with the log of what was sent |
| BillingRefundSteps.RunKeepsInv | apps/api/src/services/service-billing.ts:206-828 | every run, in any order of actions, keeps that invariant from any state that has it; a new contract has it |
| BillingHistory.StepAdvances | apps/api/src/services/service-billing.ts:206-828 | no step takes anything back: attempts keep their identity, fences and settlement only grow, stop flags stay set, verified amounts stay |
| BillingHistory.RunAdvances | apps/api/src/services/service-billing.ts:206-828 | over every run, nothing is taken back |
| BillingTheorems.ChargedAtMostOncePerCycle | apps/api/src/services/service-billing.ts:206-286 | over every run of replays, renewals, retries, cancels and crashes, a cycle is charged at most once: any two charges are of different cycles and have different payment ids |
| BillingTheorems.ChargeHasItsMarker | apps/api/src/services/service-billing.ts:206-286 | every charge sent carries the payment id and amount of its cycle's one attempt, whose dispatch marker was stored before |
| BillingTheorems.MarkerPrecedesCharge | apps/api/src/services/service-billing.ts:270-282 | the step that sends a charge finds the dispatch marker already in the attempt's row |
| BillingTheorems.ChargeReplays | apps/api/src/services/service-billing.ts:206-221 | repeating a charge request that once got an attempt returns that attempt and changes nothing, after any number of other steps |
| BillingTheorems.PaidPeriodsFollowTheAnchor | apps/api/src/services/service-billing.ts:363-377 | the paid periods are exactly the cycles before the next one; each starts where the one before ends, and period k ends on the original anchor's boundary for k+1 periods |
| BillingTheorems.PeriodsNeverInconsistent | apps/api/src/services/service-billing.ts:363-370 | the period-inconsistency failure is unreachable, and committing a lookup of an unsettled attempt never fails |
| BillingTheorems.SettledIffPeriod | apps/api/src/services/service-billing.ts:363-377 | an attempt is paid or refunded if and only if a paid period belongs to it |
| BillingTheorems.SettledForever | apps/api/src/services/service-billing.ts:314-388 | an attempt never leaves paid or refunded, and refunded never becomes paid |
| BillingTheorems.ClosedForever | apps/api/src/services/service-billing.ts:297-388 | failed, manual-review and cancelled attempts never change status again, over every run |
| BillingTheorems.CommitTouchesOne | apps/api/src/services/service-billing.ts:314-317 | a lookup's commit writes only its own attempt, and nothing at all unless its lease owner and fence still stand |
| BillingLeases.LaterClaimWins | apps/api/src/services/service-billing.ts:297-317 | a lookup whose attempt was claimed again in the meantime commits nothing, whenever it returns |
| BillingLeases.ClaimMovesFence | apps/api/src/services/service-billing.ts:301-305 | each lookup claim counts one lookup, moves the fence by one, and is granted only when no lease or delay stands |
| BillingLeases.InconclusiveLookupsAreBounded | apps/api/src/services/service-billing.ts:381-387 | however many claims are lost to crashes, an attempt sees at most seven committed inconclusive lookups |
| BillingLeases.EighthLookupMovesOn | apps/api/src/services/service-billing.ts:359-387 | a committed lookup leaves the attempt unknown only below the limit; it is paid exactly on clean evidence with a known date that is not in the future and failed exactly on clean failed evidence, and at the limit everything else, paid evidence without a usable date included, sends it to manual review |
| BillingLeases.ProcessedByFreshCommit | apps/api/src/services/service-billing.ts:811-827 | a processed webhook receipt rests on a committed lookup of its own attempt that began after the receipt was stored and that saw the announced cancellation |
| BillingLeases.CommitsAreConclusive | apps/api/src/services/service-billing.ts:314-388 | every commit in the log passed its fence and matched the payment it was made for |
| BillingMoney.LostCoverageStaysLost | apps/api/src/services/service-billing.ts:341-348 | once a started period no longer covers an instant, it never covers that or a later instant again, although a refund may move its end of access up |
| BillingMoney.RefundsWithinCharge | apps/api/src/services/service-billing.ts:544-602 | of every attempt, the reserved refunds, all refunds ever sent and all refunds ever verified are within the charge, and no record is sent twice |
| BillingMoney.VerifiedReopensExactlyWhen | apps/api/src/services/service-billing.ts:607-613 | whatever the step, a verified refund is reopened if and only if the step is an empty lookup of the dispatching path whose lease and fence still stand |
| BillingExample.VerifiedRefundIsReopened | apps/api/src/services/service-billing.ts:607-613 | with a provider that is honest throughout, a run from a new contract reaches a verified refund that the next step reopens |
| BillingStops.NoMarkerAfterCancel | apps/api/src/services/service-billing.ts:466-501 | after a cancellation no dispatch marker is written in any continuation |
| BillingStops.VerifiedErasesForever | apps/api/src/services/service-billing.ts:414-501 | from the step that verifies a cancellation on, every instrument is revoked with its key material erased, in every continuation |
| BillingStops.ErasedForever | apps/api/src/services/service-billing.ts:414-501 | once a cancelled contract's instruments are all erased they stay so in every continuation, against revocations, confirmations and preparations in flight |
| BillingStops.RenewalsAreOnTime | apps/api/src/services/service-billing.ts:260-269 | every dispatched renewal was dispatched at the instant the previous period ended, which is its own computed start |
| BillingStops.NoRenewalOnceBarred | apps/api/src/services/service-billing.ts:246-269 | once renewals are stopped, under review or cancelled, no renewal is dispatched in any continuation |
| BillingDeletion.DetachedRun | apps/api/src/services/account.ts:107-127 | after deletion no continuation adds an attempt or writes a marker, and none sends a refund unless a refund call was in flight |
| BillingDeletion.DeletedContractRefundsExactlyWhen | apps/api/src/services/account.ts:107-127 | with a provider that may report anything, some continuation of a deleted contract sends a refund if and only if a refund call was in flight |
| BillingExample.DeletionMissesARefund | apps/api/src/services/account.ts:107-127 | with a provider that reports a refund it was not sent, a run from a new contract passes the deletion gate with a refund call in flight, and the next step sends that refund |
| BillingDeletion.DeletedContractIsDead | apps/api/src/services/account.ts:107-127 | with a provider that reports only charges and refunds it was sent, a contract that passes the deletion gate moves no money again: no attempt, no marker, no charge and no refund in any continuation, calls in flight included |
| BillingExample.FirstPeriodIsReachable | apps/api/src/services/service-billing.ts:125-388 | a run from a new contract to its first paid period exists, so the statements about runs are not empty |
| BillingStore.ServiceBillingStore.ValidQuote | apps/api/src/services/service-billing.ts:133-150 | the quote check gives the refusal of the specification, or none |
| BillingStore.ServiceBillingStore.CreateQuote | apps/api/src/services/service-billing.ts:127-131 | the new rows and outcome are those of the quote transaction |
| BillingStore.ServiceBillingStore.Prepare | apps/api/src/services/service-billing.ts:153-163 | a prepared instrument is created once per quote |
| BillingStore.ServiceBillingStore.Confirm | apps/api/src/services/service-billing.ts:180-196 | confirming stores key material only for a bound, unexpired, uncancelled instrument |
| BillingStore.ServiceBillingStore.Charge | apps/api/src/services/service-billing.ts:206-221 | the reservation transaction, or the replay of an earlier one; a refusal changes no row |
| BillingStore.ServiceBillingStore.Dispatch | apps/api/src/services/service-billing.ts:237-275 | the marker-writing transaction with all its refusals (equal to the transaction function of the old rows) |
| BillingStore.ServiceBillingStore.ReleaseDispatch | apps/api/src/services/service-billing.ts:283-285 | gives the dispatch lease back only if it is still held |
| BillingStore.ServiceBillingStore.ClaimReconcile | apps/api/src/services/service-billing.ts:297-307 | the lookup claim |
| BillingStore.ServiceBillingStore.ApplyAll | apps/api/src/services/service-billing.ts:334-340 | the loop over observed cancellations matches each with a refund record, or stops at a taken cancellation id |
| BillingStore.ServiceBillingStore.CommitSettled | apps/api/src/services/service-billing.ts:330-358 | the commit of a lookup on a settled attempt; a unique-key violation rolls everything back |
| BillingStore.ServiceBillingStore.Settle | apps/api/src/services/service-billing.ts:363-377 | the new paid period, the paid attempt and the advanced contract, or the inconsistency failure |
| BillingStore.ServiceBillingStore.CommitReconcile | apps/api/src/services/service-billing.ts:314-388 | the whole second half of a reconcile (equal to the transaction function of the old rows) |
| BillingStore.ServiceBillingStore.Renew | apps/api/src/services/service-billing.ts:511-537 | the renewal reservation (equal to the transaction function of the old rows) |
| BillingStore.ServiceBillingStore.Cancel | apps/api/src/services/service-billing.ts:468-483 | the cancelling transaction with its loop over unsent attempts |
| BillingStore.ServiceBillingStore.VerifyCancel | apps/api/src/services/service-billing.ts:494-501 | verification erases every instrument or changes nothing |
| BillingStore.ServiceBillingStore.ClaimRevoke | apps/api/src/services/service-billing.ts:417-425 | the revocation claim |
| BillingStore.ServiceBillingStore.CommitRevoke | apps/api/src/services/service-billing.ts:438-445 | only the claim whose version and owner stand may revoke |
| BillingStore.ServiceBillingStore.SumReserved | apps/api/src/services/service-billing.ts:551 | the reserved total of an attempt |
| BillingStore.ServiceBillingStore.RequestRefund | apps/api/src/services/service-billing.ts:544-556 | the refund reservation of the remaining amount |
| BillingStore.ServiceBillingStore.ApproveRefund | apps/api/src/services/service-billing.ts:572-578 | an approval is bound once |
| BillingStore.ServiceBillingStore.ClaimRefund | apps/api/src/services/service-billing.ts:590-600 | the refund claim, which is also the intent to send |
| BillingStore.ServiceBillingStore.CommitRefund | apps/api/src/services/service-billing.ts:622-641 | the verified refund, the refunded attempt and the clipped period together (equal to the transaction function of the old rows) |
| BillingStore.ServiceBillingStore.ReleaseRefund | apps/api/src/services/service-billing.ts:607-613 | gives the refund lease back or gives up |
| BillingStore.ServiceBillingStore.ClaimAudit | apps/api/src/services/service-billing.ts:656-682 | the read-only audit's claim |
| BillingStore.ServiceBillingStore.RecordVerifiedEvent | apps/api/src/services/service-billing.ts:756-772 | a receipt is stored once per event id |
| BillingStore.ServiceBillingStore.ClaimEvent | apps/api/src/services/service-billing.ts:787-803 | the receipt claim |
| BillingStore.ServiceBillingStore.FinishEvent | apps/api/src/services/service-billing.ts:811-827 | a receipt is processed only on a fresh, matching commit |
| BillingService.ServiceBilling.Step | apps/api/src/services/service-billing.ts:125-828 | whatever the action, the object of rows, calls in flight and log takes exactly the step of the protocol, failures and refusals included |
| BillingService.ServiceBilling.Serve | apps/api/src/services/service-billing.ts:125-828 | serving any actions in any order is a run of the protocol, so an object that starts with a new contract charges each cycle at most once, has paid periods along the anchor only, and sends no more refunds than it charged |
| MockProvider.SoundAlways | apps/api/src/services/service-billing-provider.ts:47-63 | over every sequence of calls the dispatch count is the number of stored payments, and every cancellation is the full amount of a stored payment |
| MockProvider.NothingIsUndone | apps/api/src/services/service-billing-provider.ts:31-64 | payments and cancellations never change or disappear, stopped schedules stay stopped |
| MockProvider.ChargedAtMostOnce | apps/api/src/services/service-billing-provider.ts:47-53 | once a payment id was charged every later charge of it is refused |
| MockProvider.RefundOnce | apps/api/src/services/service-billing-provider.ts:57-63 | a second refund of a request changes nothing and the first answer stands |
| MockProvider.KnowsOnlySentRefunds | apps/api/src/services/service-billing-provider.ts:57-64 | a cancellation is known only of a refund that was sent |
| MockProvider.MockServiceBillingProvider.ChargePayment | apps/api/src/services/service-billing-provider.ts:47-53 | accepts exactly a known instrument of the subject and a new payment id, and stores it |
| MockProvider.MockServiceBillingProvider.RefundPayment | apps/api/src/services/service-billing-provider.ts:57-63 | accepts exactly the full amount of a stored payment, and stores the first answer per request |
| MockProvider.MockServiceBillingProvider.StopSchedule | apps/api/src/services/service-billing-provider.ts:55 | the subject's schedule is stopped, and nothing else changes |
| MockComposition.MockNeverRefusesACharge | apps/api/src/services/service-billing-provider.ts:47-53 | over every run of the billing protocol, among any other calls and with any instruments it prepared, the mock accepts each charge of the run and counts one dispatch for each |
| Account.AccountStore.DeleteAccount | apps/api/src/services/account.ts:105-186 | the outcome is the first refusal that applies or deletion; a refusal changes nothing; deletion removes exactly the user, its memberships and the workspaces it owns, and detaches the contract |
| Account.OthersLoseNothing | apps/api/src/services/account.ts:142-168 | after a deletion every other member keeps the membership, its role and the workspace's contents |
| Account.OwnedAlone | apps/api/src/services/account.ts:145-157 | an owned workspace that does not block has no other member |
| Account.DeletesTheContract | apps/api/src/services/account.ts:107-127 | deletion succeeds exactly when the billing protocol's own deletion of the contract does, so its theorems apply |
| BillingCalendar.BoundaryIsClampedAnchorDay | apps/api/src/services/service-billing.ts:30-36 | a boundary is KST midnight of the anchor's day of the month, clamped to the target month |
| BillingCalendar.BoundaryIncreases | apps/api/src/services/service-billing.ts:30-36 | more months end strictly later |
| BillingCalendar.BoundaryAfterAnchor | apps/api/src/services/service-billing.ts:30-36 | a positive number of months ends after the anchor |
| BillingCalendar.BoundariesAgree | apps/api/src/services/service-subscription.ts:11-25 | for the anchor's KST date of the years 2000 to 9999, the second implementation gives the same instant at every cycle and refuses only those past the year 9999 |
| Calendar.DayFromYearFormula | apps/web/app/lib/planningTime.ts:28-57 | the closed form of section 21.4.1.3 of ECMA-262 is the sum of the lengths of the years |
| Calendar.CivilOfDayNumber | apps/web/app/lib/planningTime.ts:28-57 | a valid date is found again from its day number (section 21.4.1 of ECMA-262) |
| Calendar.DayNumberOfCivil | apps/web/app/lib/planningTime.ts:28-57 | every day number has a valid date, and the day number of that date |
| Calendar.CivilOrder | apps/web/app/lib/planningTime.ts:28-57 | comparing year, month and day in turn compares day numbers |
| Calendar.LastDayIsLength | apps/web/app/lib/planningTime.ts:43-46 | day 0 of the next month is the last day of this one |
| Calendar.ClampedInMonth | apps/web/app/lib/planningTime.ts:77-79 | a clamped day lies in its month, on the wanted day or the last |
| CivilText.DecimalValue | apps/web/app/lib/planningTime.ts:39 | the text of a number spells the number |
| CivilText.ParseIffText | apps/web/app/lib/planningTime.ts:28-35 | the parser accepts exactly the texts of real dates of the years 1 to 9999 |
| CivilText.CivilToStringIsText | apps/web/app/lib/planningTime.ts:37-41 | printing gives the text of a real date and nothing for any other |
| PlanningTime.TextOrderIsDayOrder | apps/web/app/lib/planningTime.ts:95 | date texts compare as their day numbers do |
| PlanningTime.AddCivilDaysMeaning | apps/web/app/lib/planningTime.ts:49-57 | what a shift returns for every text and count, the year quirk included |
| PlanningTime.AddCivilDaysComposes | apps/web/app/lib/planningTime.ts:49-57 | shifts compose additively while the date in between is of the year 100 or later |
| PlanningTime.AddCivilDaysUndone | apps/web/app/lib/planningTime.ts:49-57 | the negated count undoes a shift |
| PlanningTime.ShiftByZero | apps/web/app/lib/planningTime.ts:49-57 | shifting by no days gives the date back if and only if its year is 100 or later |
| PlanningTime.WeekdayInLastSeven | apps/web/app/lib/planningTime.ts:68-74 | exactly one of the last seven days has the wanted weekday |
| PlanningTime.WeekStartForMeaning | apps/web/app/lib/planningTime.ts:60-74 | the week's start is that day, counted back from the day the date is taken for, and is refused exactly after 9999-12-25; without a readable date or weekday there is none |
| PlanningTime.PaydaysComplete | apps/web/app/lib/planningTime.ts:84-101 | the list holds exactly the clamped paydays of the range |
| PlanningTime.PaydaysAscend | apps/web/app/lib/planningTime.ts:84-101 | in ascending order |
| PlanningTime.PaydayOccurrences | apps/web/app/lib/planningTime.ts:84-101 | the loop lists those paydays as texts, over at most 600 months |
| Recurrence.CalendarDateIsReal | packages/shared/src/billing.ts:4-9 | an anchor is accepted exactly when it is a real date of 1900 or later |
| Recurrence.NextStep | packages/shared/src/predictions.ts:45-54 | the step found in one or two tries is the first whose occurrence is not before the day |
| Recurrence.NextDueIsLeast | packages/shared/src/predictions.ts:35-56 | the next due date is the least occurrence not before the day, among all steps from 0 on, and only that day is |
| Recurrence.OccurrenceDayIsOcc | packages/shared/src/predictions.ts:47-52 | the program's date arithmetic computes the clamped or end-of-month day of the step's month |
| Recurrence.ComputeNextDueDate | packages/shared/src/predictions.ts:35-56 | returns that next due date, and nothing exactly for an unknown schedule |
| Recurrence.WindowMembers | packages/shared/src/workspaceAggregation.ts:49-57 | a window holds exactly the occurrences between its ends |
| Recurrence.OccurrencesFromAscend | packages/shared/src/workspaceAggregation.ts:49-57 | strictly ascending, each once |
| Recurrence.AtMostTwo | packages/shared/src/workspaceAggregation.ts:48 | no schedule falls due more than twice within 30 days |
| DueLists.DuesMembers | packages/shared/src/workspaceAggregation.ts:36-57 | a due is listed exactly when it is an occurrence in the window of a listed cost with a known schedule |
| DueLists.AtMostTwoEach | packages/shared/src/workspaceAggregation.ts:48-57 | a list has at most two dues per known schedule in 30 days |
| WorkspaceAggregation.KstWindowMeaning | packages/shared/src/workspaceAggregation.ts:20-25 | the window is refused exactly when an instant it needs is out of range; its 30 whole days start with the instant's Korean day if and only if that day's year has four digits or the day is the first of its month, and its texts name its ends |
| WorkspaceAggregation.SummarizeWorkspaceBudget | packages/shared/src/workspaceAggregation.ts:30-62 | refused exactly with the window; otherwise the loop's counts and sums are those of the due list from the window's start on, and the sum is unknown exactly when nothing is known and something is unknown |
| WorkspaceAggregation.CountDue | packages/shared/src/workspaceAggregation.ts:45-57 | the inner loop counts the whole window, whatever step it starts from |
| WorkspaceAggregation.SumWorkspaceBudgets | packages/shared/src/workspaceAggregation.ts:65-78 | the loop adds the summaries up |
| WorkspaceAggregation.SumIsSummaryOfAll | packages/shared/src/workspaceAggregation.ts:65-78 | the sum over ledgers is the summary of all their costs at once, unknown dues included |
| Predictions.GetDaysUntilDue | packages/shared/src/predictions.ts:59-68 | the days to the next due date, never negative |
| Predictions.BuildThirtyDayDueSummary | packages/shared/src/predictions.ts:99-118 | the repeated search lists exactly the due list, soonest first, with its total and unknown count |
| Predictions.SearchSummaryIsDues | packages/shared/src/predictions.ts:99-118 | asking for the next due date again and again finds exactly the dues of the window |
| Predictions.SoonestFirst | packages/shared/src/predictions.ts:115 | the list is in order of days left |
| DueEnumeration.DaysUntilRightExactlyWhen | apps/web/app/lib/paydayTimeline.ts:53-63 | the days shown for an occurrence are right if and only if its month is as long as the starting month |
| DueEnumeration.AprilIsOneDayOff | apps/web/app/lib/paydayTimeline.ts:53-63 | from 31 March 2026 the charge of 30 April is shown as 29 days away and is 30 |
| DueEnumeration.EnumerationVisits | apps/web/app/lib/paydayTimeline.ts:54-69 | for every window: the loop lists the window's occurrences up to 130 and, if it gets there, one due date past the year 9999 |
| DueEnumeration.EnumerationExactlyWhen | apps/web/app/lib/paydayTimeline.ts:54-69 | so the list is the window if and only if it has 130 entries, or fewer and the next due date is of the year 9999 or before |
| DueEnumeration.LateChargeIsListed | apps/web/app/lib/paydayTimeline.ts:61-63 | a concrete window whose list holds a charge of January 10000 |
| PaydayTimeline.EnumerateDueOccurrences | apps/web/app/lib/paydayTimeline.ts:44-73 | the nested loop's list, sorted by date text and id |
| PaydayTimeline.EarlierIsAnOrder | apps/web/app/lib/paydayTimeline.ts:71 | date, then id, is a consistent order |
| PaydayTimeline.EnumerationListsTheDues | apps/web/app/lib/paydayTimeline.ts:44-73 | the enumeration is the due list of the window, in the same order, as texts |
| PaydayTimeline.ThreeSummariesAgree | packages/shared/src/workspaceAggregation.ts:30-62 | on every Korean day of the years 100 to 9989 the budget summary, the repeated search and the enumeration rest on the same dues, with the same count, total and unknown count |
| PaydayGroups.GroupsPartition | apps/web/app/lib/paydayTimeline.ts:104-105 | every entry is in exactly one group, on its own side of the payday |
| PaydayGroups.TotalsAddUp | apps/web/app/lib/paydayTimeline.ts:79-113 | without unknowns or overflow the two groups' totals add up to everything due in the window |
| PaydayGroups.GroupTotal | apps/web/app/lib/paydayTimeline.ts:79-89 | a group has no total exactly when it overflows or is empty among unknown schedules |
| PaydayGroups.FirstOfPaydays | apps/web/app/lib/paydayTimeline.ts:102 | looking at 600 months finds the first payday of the range |
| PaydayGroups.BuildPaydayTimeline | apps/web/app/lib/paydayTimeline.ts:94-113 | the timeline's groups, counts and next payday |
| MetricsFile.RealUtcDateIsReal | apps/api/src/services/marketing-metrics.ts:224-236 | a file date is accepted exactly when it is a real date of the year 100 or later |
| MetricsFile.ParseMarketingMetricsFile | apps/api/src/services/marketing-metrics.ts:172-217 | accepts exactly a file within size, entry, count and total limits with distinct real dates |
| MetricsFile.PruneMarketingMetricsDays | apps/api/src/services/marketing-metrics.ts:252-270 | keeps exactly the non-empty days of the window, sorted, and counts the others |
| MetricsFile.PruneMembers | apps/api/src/services/marketing-metrics.ts:252-270 | what pruning keeps |
| MetricsFile.SortedDays | apps/api/src/services/marketing-metrics.ts:272-274 | sorting distinct days orders them strictly and keeps each |
| MetricsCounts.NeverDropsOldest | apps/api/src/services/marketing-metrics.ts:698-704 | the branch that drops the oldest day is unreachable |
| MetricsCounts.RecordedCounts | apps/api/src/services/marketing-metrics.ts:692-722 | recording an event adds one to its own count and changes no other count of the window |
| MetricsCounts.CanonicalKeepsCount | apps/api/src/services/marketing-metrics.ts:281-294 | the canonical form keeps every count |
| MetricsCounts.AlwaysFits | apps/api/src/services/marketing-metrics.ts:758-763 | with the default size limit the written text always fits |
| MetricsTheorems.WrittenReadsBack | apps/api/src/services/marketing-metrics.ts:758-766 | every file the store writes is accepted again by the parser, with the same days |
| MetricsTheorems.UnreadableForever | apps/api/src/services/marketing-metrics.ts:677-690 | over every run, restarts included, a file that cannot be read is never overwritten and no event is acknowledged on it |
| MetricsTheorems.FileCountsRecords | apps/api/src/services/marketing-metrics.ts:592-725 | over every run, restarts included, each count of the window is the number of acknowledged events of its date plus those lost to an ambiguous write or to the end of the process |
| MetricsTheorems.LatchHoldsForever | apps/api/src/services/marketing-metrics.ts:592-609 | in the program's own order of calls, once unavailable the store stays so in every continuation until a restart, and nothing writes or counts again |
| MetricsTheorems.CountsExceedByRestarts | apps/api/src/services/marketing-metrics.ts:592-620 | so all counts together exceed the acknowledged events by at most one for each restart, and one more while the store is unavailable |
| MetricsTheorems.DeathsLoseOneEach | apps/api/src/services/marketing-metrics.ts:592-620 | for every number of restarts the limits allow, an orderly run reaches that bound |
| MetricsTheorems.OpensExactlyWhen | apps/api/src/services/marketing-metrics.ts:626-665 | after a failure a waiting job opens the store again if and only if it is a clean-up or a late initialization, not a record |
| MetricsTheorems.DirectCleanUpLosesTheLatch | apps/api/src/services/marketing-metrics.ts:626-665 | a clean-up asked for directly can therefore let the file exceed the acknowledged events by two without a restart |
| MetricsStore.MarketingMetricsStore.Record | apps/api/src/services/marketing-metrics.ts:592-603 | the accepting half of a record |
| MetricsStore.MarketingMetricsStore.RetainNow | apps/api/src/services/marketing-metrics.ts:626-631 | the accepting half of a clean-up |
| MetricsStore.MarketingMetricsStore.Initialize | apps/api/src/services/marketing-metrics.ts:537-540 | queues the initialization once |
| MetricsStore.MarketingMetricsStore.Tick | apps/api/src/services/marketing-metrics.ts:817-822 | an idle tick asks for a clean-up only when nothing is pending and the threshold has passed |
| MetricsStore.MarketingMetricsStore.Close | apps/api/src/services/marketing-metrics.ts:668-675 | no call is accepted any more |
| MetricsStore.MarketingMetricsStore.LoadFile | apps/api/src/services/marketing-metrics.ts:728-756 | the read with each of its failures |
| MetricsStore.MarketingMetricsStore.PersistFile | apps/api/src/services/marketing-metrics.ts:758-772 | the write with its three outcomes and the latch |
| MetricsStore.MarketingMetricsStore.ApplyEventLocked | apps/api/src/services/marketing-metrics.ts:677-725 | read, prune, check the limits, count, write |
| MetricsStore.MarketingMetricsStore.RetainLocked | apps/api/src/services/marketing-metrics.ts:633-653 | the clean-up's job |
| MetricsStore.MarketingMetricsStore.InitializeLocked | apps/api/src/services/marketing-metrics.ts:550-586 | the initialization's job |
| MetricsStore.MarketingMetricsStore.RunNext | apps/api/src/services/marketing-metrics.ts:775-782 | the head of the chain runs, with its effect on the pending count |
| Csv.ParseCsv | apps/web/app/lib/budgetImportExport.ts:238-286 | the index loop gives the rows of the recursive scanner, or the unclosed-quote refusal |
| Csv.ParsePrinted | apps/web/app/lib/budgetImportExport.ts:234-286 | for every list of rows of any cells, scanning the printed text gives back exactly the rows that are not all blank |
| Csv.KeptExactly | apps/web/app/lib/budgetImportExport.ts:285 | which rows are kept |
| Csv.RefusedIffOddQuotes | apps/web/app/lib/budgetImportExport.ts:279 | a text is refused if and only if it has an odd number of quotes |
| Backup.EscapeIsPerChar | apps/web/app/lib/backup.ts:246-248 | the four replacements in turn do what one pass over the characters does |
| Backup.ReadRow | apps/web/app/lib/backup.ts:216-244 | the loop gives the cells of the recursive reader |
| Backup.ReadsRowBack | apps/web/app/lib/backup.ts:212-244 | a written row of one or more cells is read back, whatever its cells hold |
| Backup.ReadSections | apps/web/app/lib/backup.ts:125-150 | the loop gives the sections of the recursive reader, or the duplicate refusal |
| Backup.SplitsJoined | apps/web/app/lib/backup.ts:64-68 | joined lines split into the same lines |
| Backup.BackupReadsBack | apps/web/app/lib/backup.ts:32-150 | printing distinctly named sections and reading them gives the same sections and rows |
| Backup.TwoCellsReadAsRow | apps/web/app/lib/backup.ts:129-146 | a row of two or more cells with a non-blank first is never taken for a blank line or a header |
| Backup.RowReadsBackExactlyWhen | apps/web/app/lib/backup.ts:129-146 | one row comes back if and only if it has a cell and its line is neither blank nor a header |
| Backup.RefusedIffRepeated | apps/web/app/lib/backup.ts:134-137 | a text is refused if and only if a header repeats a name |

## Left out

- Encryption, hashing, token shapes, webhook signatures, HTTP transport and response schemas: a charge request's hash is
  taken as injective, an encrypted key as one value with its version, and an observation as already consistent.
- Routes, rate limits, readiness, response building, manifest and configuration parsing: capabilities are taken as
  enabled, and the catalog, consent, policy and material versions as one number.
- Prisma and SQL beyond row locks, unique keys and atomic transactions; the serializable retry of a deletion. A row's
  primary key is its index, and a fresh random value is a counter.
- One contract at a time: contracts share nothing in the code but the provider.
- Subject, provider, store, channel, environment and currency of an observation are one scope value, compared as a whole.
- BillingRows.FindRefundFrom: takes the matching record of the lowest index, where the source's `findFirst` names no order.
- BillingRows.RefundClaimTx: reads a refund's approval at its claim, where `executeRefund` reads it just before; an
  approval, once bound, does not change.
- A cancellation's reason names a refund record by its id or names none; the text it is parsed from is not modelled.
- The sweeps that pick due rows (`reconcileOnce`, `renewOnce`): any action may start at any time here, which includes them.
- Instants outside the range of the Date object, save where the 30-day window refuses them.
- Time zones other than fixed offsets: local dates of the browser are calendar dates, as the code intends.
- WorkspaceAggregation.SummarizeWorkspaceBudget: does not model recurrences past the last instant of a Date, whose stamp
  is not a number.
- `monthlyEquivalent` and the other rounded display values; the normalized monthly expense is an exact real here.
- PaydayTimeline.EnumerateDueOccurrences: keeps entries of equal date and id in list order, which the source's comparison
  leaves open.
- File modes, inode checks and fsync: a write has three outcomes, replaced, unchanged and failed, replaced but failed.
- JSON parsing of the aggregate file: its contents are a value with a byte size. The written text is modelled.
- MetricsStore.MarketingMetricsStore.RunNext: runs a job as one step, because the calls made while it waits change nothing
  it reads but the pending count and the closed flag.
- Notices of the store, which carry no state.
- Typed decoding of imported tables and backups (categories, cards, costs, planning data): only the two text formats.
- The byte-order mark at the start of a backup: a printed backup starts with its format name.
- React components, push delivery, email, the coach, themes, the tour, free-text parsing, planning versions, invitations
  and the last-owner rule.
