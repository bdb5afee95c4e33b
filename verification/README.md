# Billing and gateway model

A Dafny model of the billing service's payment protocol and of the pieces around it that are hard to
get right, with proofs over every input, every reachable state and every sequence of events.

- **Payments, provider operations, renewals** (`Dispatch`, `Renewal`, `PaidTime`, `Ledger` and the
  modules built on it). Every database transaction is one atomic step on the rows it locks: checkout,
  user cancel, checkout expiry, disabling and revoking a renewal, administrative cancellation, identity
  deactivation, the scheduler, the charge event, the provider worker (claim, fenced dispatch, failure
  handler, completion), binding, provider cancellation, success, a developer's resolution, referrals.
  What a transaction learns from outside (clock, identity, prices, provider answers) is part of the
  event that triggers it. History flags on each payment record that a creating request was sent
  and that the provider definitely refused one, which no transaction can see. `LedgerStore` holds the same transactions as methods on mutable tables,
  with the loops over a user's payments, each proved equal to its step. `LedgerTheorems`,
  `ConsentTheorems` and `LedgerRewards` hold the results over runs, `BlindRuns` and `LateRewards` the runs
  in which the code loses track. `DispatchLaws`, `RenewalLaws` and `LedgerLaws` say of every transaction
  when it takes effect and what its rows hold then, in terms of the rows before.
- **Idempotent commands** (`CanonicalJson`): the canonical text of a payload and the receipt check.
- **WinCRM subscriptions** (`Workspaces`, `DayGrants`, `GrantStore`, `WincrmPrice`): the three views of
  a subscription, write-once day grants, entitlement versions, seat prices.
- **Calendar** (`Calendar`): clamped UTC months, with the Date mutations in their order.
- **Gateway** (`RateLimiter`, `RateLimiterRuns`, `RateLimiterStore`, `Jwks`): the bounded limiter of the
  public consultant and the signing key cache.
- **Export** (`AudienceExport`): the batched cursor loop.

## Reading guide

A *cell* is one payment with its operations. `Sound` is the bookkeeping every transaction keeps,
`Safe` adds that a sent request leaves a trace and that no locally closed payment was sent. The ledger's
invariant `Inv` joins sound cells, unique bindings, a replayable outbox, one grant per success and earned
rewards. `Run` applies any sequence of events, so "for every run" covers replays, stale and repeated
provider answers, and every interleaving of transactions.

Where a property does not hold of the code as it stands, the model keeps the code and states exactly
when it does:

- A fence (the worker drops an operation because the identity is inactive, the payment is no longer
  pending, or the renewal is not ready) on a second or later attempt makes the operation FAILED although
  an earlier attempt may have been sent; the payment can then be closed locally. On a first attempt a
  fence never loses a request (`FirstFencesLoseNothing`); for every later attempt there is a run in which
  it does (`RepeatedFencesLoseRequests`).
- The deactivation command looks at the newest operation of any kind. It closes a payment that the
  provider may know exactly when a queued or settled lookup hides the ambiguous creation
  (`LocalStopsAreProper`, with the run in `HiddenDeactivationsLoseRequests`).
- A user's cancel closes an open checkout that was never sent unless its operation was fenced: then it is
  refused, and only expiry closes the payment (`StopsCloseExactly`, with the run in
  `FencedCheckoutsResistTheirUsers`).
- The clamped month add is monotone by days but not by milliseconds; `ReorderedExactlyWhenClampedTogether`
  gives the exact condition. `Date.UTC` reads years 0 to 99 as 1900 to 1999, which matters for February
  of year 0 only.
- A reward is for the user's first success when it is given, and need not stay so: an older payment that
  is bound no longer blocks a second checkout once its own has run out, so it can succeed after the second
  one was rewarded and yet have been paid earlier (`LateSuccessesKeepTheReward`). The rewarded payment is
  the first at the end of a run exactly when no later grant of the user comes before it
  (`RewardIsFirstExactlyWhen`).
- Unforced key fetches keep their distance only from a fetch whose time is positive, since a time of 0
  stands for "never" (`FetchIsEarlyExactlyWhen`, with the run in `StartAtZeroIsForgotten`).
- With single-row batches the export loop would repeat a batch that holds the empty identifier for ever;
  for every other batch size, and for single rows without that identifier, it ends
  (`EmptyIdentifierStallsSingleBatches`). The batch size is a constant 2000 in the code, so the case
  cannot occur as it stands.

## Model

| member | source | states |
|---|---|---|
| LedgerTheorems.FulfilmentIsExactlyOnce | apps/billing/src/domain/payment-success.transaction.ts:87-228 | in every run each success has extended its subscription exactly once and nothing else has; provider ids are unique; a success keeps status, id, amount and date for ever |
| LedgerTheorems.OutboxRebuildsTheLedger | apps/billing/src/domain/payment-domain.service.ts:2057-2126 | replaying the payment events of any run rebuilds version, status and amount of every payment; versions have no gaps and sequences strictly ascend |
| LedgerTheorems.VersionsCount | apps/billing/src/domain/payment-domain.service.ts:3720-3727 | the versions announced for one payment are 1, 2, 3 and so on up to its current one |
| LedgerTheorems.PrudentRunsNeverCloseSentPayments | apps/billing/src/domain/billing-legal.constants.ts:26-32 | in a run without blind fences and blind deactivations no locally closed payment was ever sent, and an open, sent, unbound payment shows an ambiguous operation |
| LedgerTheorems.LocalStopsAreProper | apps/billing/src/domain/payment-domain.service.ts:2761-2876 | in every reachable state a local stop leaves a payment the provider may know open, and closes a payment only together with its operation, except for exactly the payments a deactivation misjudges |
| LedgerTheorems.ClosedPaymentsAreNeverSent | apps/billing/src/domain/payment-domain.service.ts:617-739 | a checkout closed unsent is never sent later; a closed charge is not either, unless the scheduler takes it up again |
| LedgerTheorems.UndecidedPaymentsBlockCheckouts | apps/billing/src/domain/payment-domain.service.ts:312-541 | in every prudent run a user with an undecided sent payment gets no second checkout |
| LedgerTheorems.ThreeChargesPerDate | apps/billing/src/scheduler/billing-scheduler.service.ts:560-650 | one charge date of a renewal leads to at most three payments in any run |
| LedgerRewards.RewardsAreEarned | apps/billing/src/domain/payment-success.transaction.ts:528-594 | every pending reward of every run was given at exactly one step, for the payment that was the user's first success in the state after that step, by payment date and then by creation; it is the floored share of its amount and never exceeds it for shares up to 100 percent |
| LedgerRewards.RewardsAreGivenOnce | apps/billing/src/domain/payment-success.transaction.ts:546-553 | a given reward is never taken back, changed or given again in any run |
| LedgerRewards.RewardIsFirstExactlyWhen | apps/billing/src/domain/payment-success.transaction.ts:554-594 | at the end of a run the rewarded payment is the user's first success if and only if no success granted after the reward comes before it |
| LedgerRewards.AwardsAreEarned | apps/billing/src/domain/payment-success.transaction.ts:554-594 | a step that gives a reward gives it for the user's first success |
| LedgerRewards.RegistrationAwards | apps/billing/src/domain/tariff-affiliate.service.ts:324-396 | a late registration rewards the user's first success by payment date and then by creation |
| LateRewards.LateSuccessesKeepTheReward | apps/billing/src/domain/payment-domain.service.ts:380-412 | a run in which the rewarded payment is not the user's first success: an older, bound payment whose checkout ran out succeeds late with an earlier payment date |
| LedgerTheorems.RewardsAreNeverTakenBack | apps/billing/src/domain/payment-domain.service.ts:3038-3071 | closing a payment never finds a reward on it |
| LedgerTheorems.SweepTreatsEachOnce | apps/billing/src/domain/subscription-domain.service.ts:985-1104 | a loop over a user's payments treats each payment once, on its own rows alone |
| LedgerTheorems.StepIsGood | apps/billing/src/domain/payment-domain.service.ts:150-310 | every transaction keeps the ledger's invariant, continues every payment, and keeps safe payments safe if it is prudent |
| ConsentTheorems.WithdrawnConsentIsKept | apps/billing/src/domain/payment-success.transaction.ts:230-354 | a withdrawn renewal holds no payment method and, over any run, leaves that state only through the success of an open checkout whose consent is strictly later than the recorded withdrawal |
| ConsentTheorems.ConsentReturnsOnlyByCheckout | apps/billing/src/domain/payment-domain.service.ts:1442-1648 | no administrator, reconciliation, recurring success or cancellation step undoes a withdrawal |
| ConsentTheorems.NoChargesAfterWithdrawal | apps/billing/src/provider/billing-provider-worker.service.ts:230-533 | from a withdrawal on, in any run, no charge of the user is sent until a checkout with a later consent succeeds |
| ConsentTheorems.ChargesAreAgreed | apps/billing/src/scheduler/billing-scheduler.service.ts:563-650 | every payment the scheduler opens or takes up is for the agreed and current price, the given consent and saved method, the due cycle, and ends within its grace |
| ConsentTheorems.RetriesAreBounded | apps/billing/src/domain/billing-legal.constants.ts:12-39 | over any run at most two retries are scheduled between resets |
| ConsentTheorems.ClosingsAreCountedOnce | apps/billing/src/domain/payment-domain.service.ts:2878-3036 | a stale cancellation leaves the renewal as it is, a counted one is stale afterwards, and after two retries the next retryable failure pauses the renewal |
| BlindRuns.RepeatedFencesLoseRequests | apps/billing/src/provider/billing-provider-worker.service.ts:619-639 | for every attempt from the second on there is a run in which a fence lets a sent payment be closed locally |
| BlindRuns.FirstFencesLoseNothing | apps/billing/src/provider/billing-provider-worker.service.ts:230-533 | in every reachable state a fence on a first attempt finds an unsent payment |
| BlindRuns.HiddenDeactivationsLoseRequests | apps/billing/src/domain/internal-commands.service.ts:137-213 | a run in which a deactivation closes a payment whose request was answered, because a queued lookup hides it |
| LedgerRuns.SweepAdvances | apps/billing/src/domain/payment-domain.service.ts:2761-2876 | the sweeping loops keep the invariant and, unless a creation is hidden, the safety of every payment |
| LedgerRuns.CloseExpiredDispatchAdvances | apps/billing/src/domain/subscription-domain.service.ts:69-278 | closing an expired dispatch keeps the invariant and closes unsent payments only |
| LedgerRuns.DispatchAdvances | apps/billing/src/provider/billing-provider-worker.service.ts:230-533 | a fenced dispatch keeps the invariant, and safety unless its fence is blind |
| LedgerRuns.FailDispatchAdvances | apps/billing/src/provider/billing-provider-worker.service.ts:899-1036 | the failure handler keeps the invariant and the safety of every payment |
| LedgerRuns.SuccessAdvances | apps/billing/src/domain/payment-success.transaction.ts:63-526 | the success transaction keeps the invariant: one grant, one event, unique id, earned reward |
| LedgerRuns.ScheduleAdvances | apps/billing/src/scheduler/billing-scheduler.service.ts:357-657 | the scheduler keeps the invariant and reopens only charges that were never sent |
| LedgerRuns.DeliverChargeAdvances | apps/billing/src/messaging/billing-worker.service.ts:410-478 | the charge event keeps the invariant whether it closes the window or arms the operation |
| LedgerRuns.NoRewardToCancel | apps/billing/src/domain/payment-domain.service.ts:3038-3071 | a payment that has not succeeded carries no pending reward |
| LedgerRuns.OnlySuccess | apps/billing/src/domain/payment-success.transaction.ts:548-565 | a count of one means that this payment is the user's only success |
| LedgerRuns.RegistrationAdvances | apps/billing/src/domain/tariff-affiliate.service.ts:304-422 | a registration keeps the invariant, so that its reward is a share of a success of that user, and touches no reward that was given |
| LedgerConsent.RenewalStep | apps/billing/src/domain/payment-domain.service.ts:1650-1765 | every transaction keeps each renewal row consistent, keeps withdrawn rows withdrawn unless a later consent is granted, and counts retries exactly |
| LedgerConsent.SuccessAlignsDates | apps/billing/src/domain/payment-success.transaction.ts:230-403 | after a first success an active renewal charges next when the extended subscription ends, with no retry under way |
| Dispatch.CloseRequestsAreFirstClaims | apps/billing/src/provider/billing-provider-worker.service.ts:330-470 | the worker asks to close an expired charge only under a first claim that has sent nothing |
| Dispatch.ClosingTheWindowIsSafe | apps/billing/src/domain/subscription-domain.service.ts:125-220 | the conditions under which an expired dispatch is closed imply that nothing was sent |
| Dispatch.OnlyBlindDeactivationsCloseAmbiguousPayments | apps/billing/src/domain/internal-commands.service.ts:137-213 | the deactivation loop closes an ambiguous payment if and only if it is blind; its two siblings never do |
| Dispatch.SiblingsAgree | apps/billing/src/domain/subscription-domain.service.ts:985-1104 | the three loops do the same to a recurring payment without a later lookup |
| Dispatch.DispatchIsSafe | apps/billing/src/provider/billing-provider-worker.service.ts:230-533 | a dispatch keeps its payment safe unless its fence is blind |
| Dispatch.RequestsAreSentInTime | apps/billing/src/provider/billing-provider-worker.service.ts:230-533 | a request is sent only under an unused lease, for an open unbound payment of an active identity, within the retry window and before the checkout or charge window ends |
| Renewal.CancellationFollows | apps/billing/src/domain/payment-domain.service.ts:2878-3008 | a failed charge retries by one, pauses or revokes; retry dates are 24 or 72 hours after the first failure |
| Renewal.SuccessFollows | apps/billing/src/domain/payment-success.transaction.ts:230-403 | a success starts a renewal, regrants one under a later consent, or is an ordinary step of it |
| Renewal.AdminActionsFollow | apps/billing/src/domain/payment-domain.service.ts:1442-1648 | an administrator's action keeps the row consistent and never undoes a withdrawal |
| Renewal.ReconcileFollows | apps/billing/src/domain/payment-domain.service.ts:1650-1765 | a reconciliation keeps the row consistent and never undoes a withdrawal |
| Renewal.WithdrawalsFollow | apps/billing/src/domain/payment-domain.service.ts:802-863 | disabling, revoking and deactivating leave no payment method and stay withdrawn |
| PaidTime.PurchaseExtends | apps/billing/src/domain/payment-success.transaction.ts:171-228 | a same-plan payment adds its full period to the old expiry; a plan change loses less than a day |
| PaidTime.PaidTimeIsConserved | apps/billing/src/domain/payment-success.transaction.ts:171-228 | over any run of purchases the expiry strictly grows by at least the days of every period less a day per plan change |
| LedgerStore.SelectionIsEnough | apps/billing/src/domain/payment-domain.service.ts:2766-2777 | looping over the rows the query selects has the effect of looping over all of them |
| LedgerStore.Store.ClearFutureRecurringPayments | apps/billing/src/domain/payment-domain.service.ts:2761-2876 | the loop leaves the tables exactly as the sweep of all payments |
| LedgerStore.Store.DisableUserAutoRenewal | apps/billing/src/domain/payment-domain.service.ts:802-863 | the method is the ledger's step and keeps the tables good |
| LedgerStore.Store.RevokeForAdministrator | apps/billing/src/domain/subscription-domain.service.ts:921-1105 | the method is the ledger's step and keeps the tables good |
| LedgerStore.Store.RevokeBeforeDeactivate | apps/billing/src/domain/internal-commands.service.ts:62-225 | the method is the ledger's step, keeps the tables good and counts the payments it closed |
| LedgerStore.Store.ApplyRecurringCancellation | apps/billing/src/domain/payment-domain.service.ts:2878-3036 | the method retries, pauses or revokes exactly as the renewal's step |
| LedgerStore.Store.MarkProviderCancelled | apps/billing/src/domain/payment-domain.service.ts:1967-2038 | the method is the ledger's step and keeps the tables good |
| LedgerStore.Store.BindProviderState | apps/billing/src/domain/payment-domain.service.ts:1898-1965 | binds a free identifier or changes nothing |
| LedgerStore.Store.CountSuccesses | apps/billing/src/domain/payment-success.transaction.ts:554-557 | counts the user's successes |
| LedgerLaws.SuccessesLeaveSubscriptions | apps/billing/src/domain/payment-success.transaction.ts:166-228 | every first success leaves the user an active subscription with the payment's plan and period, one version on, with the old start if it was running, ending one period after now, after the old end, or after the whole days left; no other subscription changes |
| LedgerLaws.SuccessesGrantRenewals | apps/billing/src/domain/payment-success.transaction.ts:230-430 | a granting checkout gives an active renewal on the payment's plan, period, amount, currency and consent with the method it saved, charging at the new end; a checkout that does not grant leaves an inactive renewal as it is |
| LedgerLaws.FirstSuccessesFulfil | apps/billing/src/domain/payment-success.transaction.ts:87-127 | a success event changes the ledger if and only if it names an unsuccessful payment, its amount and currency, and an identifier that is its own or nobody's |
| LedgerLaws.SuccessesSettleReferrals | apps/billing/src/domain/payment-success.transaction.ts:546-594 | a first success rewards a registered referral if and only if the programme runs and it is the user's only success, and ends it otherwise |
| LedgerLaws.RegistrationsEnterExactly | apps/billing/src/domain/tariff-affiliate.service.ts:304-410 | a registration enters a referral if and only if there is none, the programme runs and it is in time, rewarded for the first success or waiting for one |
| LedgerLaws.CheckoutsOpenExactly | apps/billing/src/domain/payment-domain.service.ts:312-541 | a checkout is opened if and only if the order is accepted for a paid plan and the user has no open charge, no payable checkout and no undecided one; it has the order's terms and consent, an hour to live and an unclaimed operation |
| LedgerLaws.StopsCloseExactly | apps/billing/src/domain/payment-domain.service.ts:617-739 | in every reachable state a stop closes each open payment it concerns that the provider cannot know, with its operation FAILED, a user's cancel if and only if the operation is not fenced off; payments not concerned keep their rows |
| BlindRuns.FencedCheckoutsResistTheirUsers | apps/billing/src/domain/payment-domain.service.ts:679-691 | a run after which an open checkout that was never sent cannot be cancelled by its user, because its operation was fenced |
| LedgerLaws.ChargesOpenExactly | apps/billing/src/scheduler/billing-scheduler.service.ts:357-657 | a charge is opened or taken up if and only if charges are on, the renewal is due after they were switched on, identity, contact, method, price and subscription are in order and the cycle is free; then it is pending on the renewal's terms and the renewal waits for it |
| LedgerLaws.RenewalsAreScreenedExactly | apps/billing/src/scheduler/billing-scheduler.service.ts:408-460 | when a renewal is left alone, charged, paused for the global pause or a mismatch, or revoked |
| LedgerLaws.ObstaclesAreNamed | apps/billing/src/scheduler/billing-scheduler.service.ts:461-560 | what the renewal row says when date, grace, price, method or contact is in the way |
| LedgerLaws.ChargesAreSentExactly | apps/billing/src/provider/billing-provider-worker.service.ts:278-480 | a charge is sent if and only if a usable claim finds it creatable, in time, and wanted by its renewal and subscription |
| LedgerLaws.WindowsAreClosedExactly | apps/billing/src/domain/subscription-domain.service.ts:69-278 | an outstanding charge is closed if and only if its window is over and nothing was sent, and nothing else changes |
| LedgerLaws.ClosedWindowsWrite | apps/billing/src/domain/subscription-domain.service.ts:186-278 | a closed window leaves the payment cancelled as not sent, its operation FAILED and its renewal paused for it |
| LedgerLaws.DeliveriesArmExactly | apps/billing/src/messaging/billing-worker.service.ts:410-478 | a charge event arms exactly an outstanding charge whose window is open |
| LedgerLaws.RejectionsAreRefusals | apps/billing/src/provider/billing-provider-worker.service.ts:976-1010 | in every run a payment is rejected only after the provider has definitely refused it |
| LedgerLaws.RefusalsComeFromTheProvider | apps/billing/src/provider/billing-provider-worker.service.ts:899-983 | the mark of a refusal is set only by a failure that tells of one, under the claim that sent the request |
| LedgerLaws.RenewalEventsTouchOneRow | apps/billing/src/domain/payment-domain.service.ts:1442-1765 | an event about a renewal changes that user's row and no other, and only a stop touches payments |
| DispatchLaws.FailuresSettleExactly | apps/billing/src/provider/billing-provider-worker.service.ts:899-983 | a failure closes an open payment if and only if the provider definitely refused the request; the operation waits again or turns unknown under exact conditions |
| DispatchLaws.FailuresWrite | apps/billing/src/provider/billing-provider-worker.service.ts:945-1010 | the rows after each outcome of a failure |
| DispatchLaws.RequestsGoOutExactly | apps/billing/src/provider/billing-provider-worker.service.ts:230-500 | a request is sent, an identifier asked for again, or the lease found lost, each under exact conditions |
| DispatchLaws.OperationsAreFencedExactly | apps/billing/src/provider/billing-provider-worker.service.ts:278-420 | exactly when an operation is fenced, and when it must be left uncertain instead |
| DispatchLaws.WindowsCloseExactly | apps/billing/src/provider/billing-provider-worker.service.ts:420-490 | a wanted charge whose window is over is closed if nothing speaks for an earlier request, and left uncertain otherwise |
| DispatchLaws.UserCancelsExactly | apps/billing/src/domain/payment-domain.service.ts:640-721 | a user's cancel closes exactly own, open checkouts that the provider cannot know and whose operation has not failed; the fields that change and no other |
| DispatchLaws.CheckoutsExpireExactly | apps/billing/src/domain/payment-domain.service.ts:2481-2617 | expiry closes exactly the due checkouts that the provider cannot know, and gives up on a repeated request after 23 hours |
| DispatchLaws.FuturePaymentsStopExactly | apps/billing/src/domain/payment-domain.service.ts:2761-2876 | both loops stop exactly the user's open recurring payments: closed if unknown to the provider, uncertain if not |
| DispatchLaws.DeactivationStopsExactly | apps/billing/src/domain/internal-commands.service.ts:137-213 | the deactivation loop stops exactly the user's open payments and closes those the provider cannot know |
| DispatchLaws.ClaimsExactly | apps/billing/src/provider/billing-provider-worker.service.ts:131-176 | a claim takes exactly waiting operations and those whose lease has run out, counts the attempt and lasts 45 seconds |
| DispatchLaws.BindsExactly | apps/billing/src/domain/payment-domain.service.ts:1898-1965 | when an identifier is bound, and the deadline that results |
| DispatchLaws.CancelsExactly | apps/billing/src/domain/payment-domain.service.ts:1993-2020 | when a provider's cancellation is applied, and what it writes |
| DispatchLaws.SucceedsExactly | apps/billing/src/domain/payment-success.transaction.ts:87-161 | when a success is applied, and what it writes to the payment |
| DispatchLaws.ResolvesExactly | apps/billing/src/domain/payment-domain.service.ts:1148-1395 | when a developer's resolution is applied, and what it writes |
| DispatchLaws.ResumesExactly | apps/billing/src/scheduler/billing-scheduler.service.ts:563-612 | when a cancelled charge is taken up again, and on which terms |
| RenewalLaws.FailedChargesWrite | apps/billing/src/domain/payment-domain.service.ts:2878-3008 | a failed charge is retried 24 and 72 hours after the first failure, revoked or paused, each exactly for its reasons; a charge not awaited changes nothing |
| RenewalLaws.AdministratorsActExactly | apps/billing/src/domain/payment-domain.service.ts:1442-1648 | each administrator's action is possible exactly in its states and changes nothing but the state, or withdraws |
| RenewalLaws.ReconciliationsWrite | apps/billing/src/domain/payment-domain.service.ts:1650-1765 | a reconciliation asks for the price of the day and pauses what cannot be charged unless consent is withdrawn |
| RenewalLaws.PricesAreConfirmedExactly | apps/billing/src/domain/payment-domain.service.ts:865-989 | a price is agreed upon exactly when it is the one asked for, with a new consent date |
| RenewalLaws.TariffChangesAsk | apps/billing/src/domain/tariff-affiliate.service.ts:88-165 | a tariff change asks for consent exactly when the price differs, and takes the question back otherwise |
| RenewalLaws.WithdrawalsWrite | apps/billing/src/domain/payment-domain.service.ts:802-863 | what disabling, revoking and deactivating leave on the row |
| RenewalLaws.SuccessesWrite | apps/billing/src/domain/payment-success.transaction.ts:230-430 | what a success makes of a renewal: the terms of a granting checkout, a moved date, or nothing |
| LedgerStore.Store.ApplyInTransaction | apps/billing/src/domain/payment-success.transaction.ts:63-526 | the method is the ledger's success step, and fulfils exactly on a first, matching, free success |
| LedgerStore.Store.SettleRenewal | apps/billing/src/domain/payment-success.transaction.ts:230-430 | the three branches give the renewal that a success leads to |
| LedgerStore.Store.CloseExpiredRecurringDispatch | apps/billing/src/domain/subscription-domain.service.ts:69-278 | result and tables are those of the ledger's step, and the tables stay good unless the trusted claim has sent something after all |
| CanonicalJson.TextDecidesMeaning | apps/billing/src/domain/billing-command-idempotency.ts:55-80 | two payloads have the same canonical text if and only if they mean the same: undefined fields dropped, key order forgotten |
| CanonicalJson.ValueIsReadable | apps/billing/src/domain/billing-command-idempotency.ts:55-80 | a text read up to a delimiter determines the meaning and the rest |
| CanonicalJson.StringIsReadable | apps/billing/src/domain/billing-command-idempotency.ts:57-59 | quoted strings, with escapes and lone surrogates, determine their content and their end |
| CanonicalJson.SortedKeysAgree | apps/billing/src/domain/billing-command-idempotency.ts:73-77 | sorted fields are determined by the set of their keys |
| CanonicalJson.OrderIsByFirstDifference | apps/billing/src/domain/billing-command-idempotency.ts:73-77 | keys are ordered by the first code unit that differs, a prefix first |
| CanonicalJson.EscapesAreStandard | apps/billing/src/domain/billing-command-idempotency.ts:57-59 | the escapes of section 7 of RFC 8259, short where there are short ones, lower-case hexadecimal otherwise |
| CanonicalJson.ExampleText | apps/billing/src/domain/billing-command-idempotency.ts:55-80 | the text of a small payload, with its keys out of order and one undefined |
| CanonicalJson.ReceiptsCompareMeanings | apps/billing/src/domain/billing-command-idempotency.ts:12-42 | with a hash without collisions a receipt answers exactly the same type and meaning, and refuses every other request |
| RateLimiter.ConsumeIsRight | apps/api-gateway/src/server.ts:344-417 | a request is allowed if and only if none of its live counters is exhausted; the map stays within its bound; a denial changes no live counter; an allowed request is counted five times and costs at most unshared counters, or none if all fit |
| RateLimiter.VictimsAreEvictable | apps/api-gateway/src/server.ts:419-450 | with room for seven entries there is always a victim and it is never the global or an operation counter |
| RateLimiter.RoomIsMade | apps/api-gateway/src/server.ts:419-442 | making room always succeeds and takes neither protected nor shared counters |
| RateLimiter.ScreeningIsRight | apps/api-gateway/src/server.ts:371-391 | the scope loop denies exactly the exhausted requests, counts the missing entries and keeps every live counter |
| RateLimiter.EachLimitDenies | apps/api-gateway/src/server.ts:355-391 | a request is denied if and only if its global, address, widget, address-and-widget or operation counter is full at its own limit |
| RateLimiter.PairsGoFirst | apps/api-gateway/src/server.ts:444-450 | the order of eviction |
| RateLimiter.WaitIsLongEnough | apps/api-gateway/src/server.ts:380-417 | a denied request waits, to the second, until the counter that denied it has run out |
| RateLimiterStore.OptionsAreTaken | apps/api-gateway/src/server.ts:313-342 | positive options are taken as they are, others have their defaults, the map has room for seven |
| RateLimiterRuns.SharedCountersAreExact | apps/api-gateway/src/server.ts:364-417 | under any eviction pressure a shared counter equals the requests allowed since its window opened |
| RateLimiterRuns.SharedBudgetsHold | apps/api-gateway/src/server.ts:339-417 | any interval of one window's length has at most twice the limit of allowed requests, globally and per operation |
| RateLimiterRuns.BoundedRefinesUnbounded | apps/api-gateway/src/server.ts:344-450 | while the live keys and the new ones fit, the decisions and live counters are those of a limiter without a bound |
| RateLimiterStore.Limiter.ConsumeRequest | apps/api-gateway/src/server.ts:344-417 | the method is the step of the model, and allows exactly the requests within budget |
| RateLimiterStore.Limiter.EnsureCapacityFor | apps/api-gateway/src/server.ts:419-442 | the eviction loop is the model's |
| RateLimiterStore.Limiter.FindVictim | apps/api-gateway/src/server.ts:428-438 | the first unprotected key of the lowest priority |
| Calendar.AddMonths | apps/billing/src/domain/payment-success.transaction.ts:805-821 | lands in exactly the month so many later, on the same or the last day, at the same time of day |
| Calendar.AddCalendarMonthsClamped | apps/billing/src/domain/subscription-domain.service.ts:1364-1374 | the Date mutations compute the clamped add |
| Calendar.WincrmPeriodEnd | apps/billing/src/domain/wincrm-commerce.helpers.ts:162-177 | equals the clamped add if and only if the target is not late in February of year 0; always lies after the start |
| Calendar.MovesForward | apps/billing/src/domain/payment-success.transaction.ts:798-821 | a month adds 28 to 31 days, a year at least 365 |
| Calendar.DaysAreMonotone | apps/billing/src/domain/payment-success.transaction.ts:805-821 | the add is monotone by days |
| Calendar.ReorderedExactlyWhenClampedTogether | apps/billing/src/domain/payment-success.transaction.ts:805-821 | exactly when the add reorders two instants of the same month |
| Calendar.JanuaryNightsAreReordered | apps/billing/src/domain/payment-success.transaction.ts:805-821 | two January instants that the add reorders |
| Calendar.SingleMonthsNeverExceedOneAdd | apps/billing/src/domain/subscription-domain.service.ts:1276-1286 | n single months end no later than one add of n months |
| Calendar.NextReset | apps/billing/src/domain/subscription-domain.service.ts:1276-1286 | the reset loop stops at the first monthly instant after now, at most 31 days away |
| Workspaces.EndpointsAgree | apps/billing/src/domain/crm-entitlement.service.ts:61-90 | the entitlement answer and the administrator's detail agree on status, plan, seats and window |
| Workspaces.PageIsDetails | apps/billing/src/domain/crm-admin-subscription.service.ts:100-200 | the page assembled from maps is the detail view of each workspace |
| Workspaces.AccessIsShown | apps/billing/src/domain/crm-admin-subscription.service.ts:731-770 | which period or entitlement the views show, and when access runs, is in grace, read only or ended |
| Workspaces.ExtensionsAreBlockedExactly | apps/billing/src/domain/crm-admin-subscription.service.ts:795-809 | exactly what blocks an extension: withheld access, pending orders, commands or dispatches, a full version, pending capacity |
| Workspaces.DetailsAreShown | apps/billing/src/domain/crm-admin-subscription.service.ts:765-794 | owner, versions, latest period and next charge of the detail view |
| Workspaces.Latest | apps/billing/src/domain/crm-admin-subscription.service.ts:690-729 | the period with the latest start, and the greatest identifier among those |
| DayGrants.CommandsHaveOneOutcome | apps/billing/src/domain/crm-admin-subscription.service.ts:281-362 | a receipt never changes; a cancelled command never adds days, a committed one adds them exactly once |
| DayGrants.RunKeeps | apps/billing/src/domain/crm-admin-subscription.service.ts:469-675 | over any run the expiry grows by at least the committed days, and the grace length stays |
| DayGrants.ExtensionAdds | apps/billing/src/domain/crm-admin-subscription.service.ts:505-590 | one grant moves one subscription to the later of now and its end, plus its days, and nothing else |
| DayGrants.CommandsExtendExactly | apps/billing/src/domain/crm-admin-subscription.service.ts:514-583 | a command extends if and only if the subscription is as it was seen, nothing blocks it and the dates fit |
| DayGrants.ExtensionsWrite | apps/billing/src/domain/crm-admin-subscription.service.ts:549-617 | what else an extension writes: running access, account and period versions, the renewal at the new end |
| DayGrants.NewCommandsAreCarriedOut | apps/billing/src/domain/crm-admin-subscription.service.ts:267-345 | a new command or cancellation is carried out under exact conditions, and leaves its receipt |
| DayGrants.KnownCommandsAreAnswered | apps/billing/src/domain/crm-admin-subscription.service.ts:290-310 | a command with a receipt is answered from it alone, and changes nothing |
| DayGrants.VersionCatchesUp | apps/billing/src/domain/crm-entitlement-outbox.ts:30-34 | the announced version is the account's if that is ahead, else the next |
| DayGrants.VersionsIncrease | apps/billing/src/domain/crm-entitlement-outbox.ts:21-38 | announced versions of a workspace strictly increase in sequence order |
| DayGrants.RetriesAnswerTheSame | apps/billing/src/domain/crm-admin-subscription.service.ts:488-512 | a repeated command gets the first outcome and changes nothing |
| DayGrants.CancelledStaysCancelled | apps/billing/src/domain/crm-admin-subscription.service.ts:488-506 | after a cancellation no command of that id adds days |
| DayGrants.LatestOfReplaced | apps/billing/src/domain/crm-admin-subscription.service.ts:549-563 | changing a period in place changes no choice of a latest period |
| GrantStore.Store.EnqueueEntitlementChanged | apps/billing/src/domain/crm-entitlement-outbox.ts:5-78 | takes a fresh sequence number and a greater version, and announces both |
| GrantStore.Store.ExtendDaysOf | apps/billing/src/domain/crm-admin-subscription.service.ts:449-675 | outcome and tables are those of the model's step, and the invariant is kept |
| GrantStore.Store.CancelDaysOf | apps/billing/src/domain/crm-admin-subscription.service.ts:267-362 | outcome and receipts are those of the model's step, and the invariant is kept |
| WincrmPrice.PriceIsBounded | apps/billing/src/domain/wincrm-commerce.helpers.ts:130-155 | every valid price lies between 1 and 999,900,000,000, so the guards on the result never fire |
| WincrmPrice.BoundIsReached | apps/billing/src/domain/wincrm-commerce.helpers.ts:114-155 | the upper bound is a price, so it is the exact maximum |
| WincrmPrice.PriceIsMonotone | apps/billing/src/domain/wincrm-commerce.helpers.ts:130-155 | each further seat adds exactly its price |
| WincrmPrice.CyclesHaveTheirPrices | apps/billing/src/domain/wincrm-commerce.helpers.ts:130-155 | the monthly and the yearly price in terms of their own fields |
| WincrmPrice.PricesAreRefusedExactly | apps/billing/src/domain/wincrm-commerce.helpers.ts:114-155 | exactly when a price is refused, and why |
| WincrmPrice.DecimalRoundTrips | apps/billing/src/domain/wincrm-commerce.helpers.ts:156-161 | every amount has a decimal text from which it is read back exactly |
| WincrmPrice.PricesHaveTexts | apps/billing/src/domain/wincrm-commerce.helpers.ts:114-161 | the decimal rendering accepts every price |
| Jwks.ParseJwks | apps/api-gateway/src/jwks.ts:65-138 | accepts exactly the sets of 1 to 32 usable keys with distinct names, and maps each name to its key |
| Jwks.OneFetchAtATime | apps/api-gateway/src/jwks.ts:222-244 | in every interleaving at most one fetch is under way |
| Jwks.FetchesAreSpaced | apps/api-gateway/src/jwks.ts:222-244 | in every run an unforced fetch keeps the minimal interval from one before it that started at a positive time |
| Jwks.FetchStartsExactlyWhen | apps/api-gateway/src/jwks.ts:222-236 | an unforced call starts a fetch if and only if none is under way and the last start is the minimal interval back or not positive |
| Jwks.FetchIsEarlyExactlyWhen | apps/api-gateway/src/jwks.ts:222-236 | in every run the next unforced fetch starts too soon if and only if it comes too soon after a start at time 0 or before |
| Jwks.StartAtZeroIsForgotten | apps/api-gateway/src/jwks.ts:222-236 | for every minimal interval above a millisecond, a run in which an unforced fetch starts too soon after a start at time 0 |
| Jwks.ReturnedKeysAreFresh | apps/api-gateway/src/jwks.ts:196-220 | every returned key is from the latest accepted set, not older than allowed; a key is called unknown if and only if such a set lacks it and the refresh did not fail |
| Jwks.HeldKeysAreFound | apps/api-gateway/src/jwks.ts:165-205 | in every run, whatever fetches failed, a lookup finds a key at once if and only if the latest accepted set holds it and is not too old |
| Jwks.ReadinessRefreshes | apps/api-gateway/src/jwks.ts:165-176 | a question for readiness refreshes exactly a missing set or one older than the cache may be |
| Jwks.FailuresKeepTheCache | apps/api-gateway/src/jwks.ts:246-286 | a failed fetch changes neither keys nor the time of the last success |
| Jwks.JwksStore.BeginRefresh | apps/api-gateway/src/jwks.ts:222-244 | joins, is throttled or starts, as the model's step |
| Jwks.JwksStore.EndFetch | apps/api-gateway/src/jwks.ts:246-286 | on success the keys are exactly those of the body and the store is that of the model's step; on failure nothing but the promise changes |
| AudienceExport.Export | apps/billing/src/domain/billing-campaign-audience.service.ts:51-93 | for any batch size the cursor loop ends and emits every active subscriber once, in order, with their number |
| AudienceExport.BatchIsNext | apps/billing/src/domain/billing-campaign-audience.service.ts:55-71 | each batch is the next part of the plain scan |
| AudienceExport.EmptyIdentifierStallsSingleBatches | apps/billing/src/domain/billing-campaign-audience.service.ts:51-83 | the loop goes on with its cursor unmoved, and so repeats its batch, if and only if single batches meet the empty identifier |

## Left out

- The retry loops around transactions that end in a serialization conflict: a transaction that fails leaves no trace, so each repetition is one more event of the run.
- Rows of audit logs, consent history, notifications and receipts at the provider: they are written and never read by the protocol.
- The worker's lookup operations beyond their status and attempt: a lookup reads the provider and then binds, cancels or succeeds, which are events of their own.
- Who may call what (roles, guards, request validation), and the search and paging of the administrator's lists.
- Amounts with fractions: a payment's amount is a whole number, so the rounding of `Math.round(Number(amount))` has no effect.
- SHA-256, AES and RSA key import: the hash is a parameter that is assumed not to collide, ciphertexts are opaque texts, a key's checks are one flag.
- Numbers in payloads are named by their shortest decimal text; holes in sparse arrays are not modelled.
- The texts of errors and which of two possible errors comes first in a payload that is not JSON.
- The widget event limiter, request parsing and path patterns of the gateway: the limiter has no global budget, and the patterns would only add easy members.
- Activating a trial and the commerce orders of WinCRM: they appear as changed accounts and announced entitlements.
- The administrator's direct edits of a subscription are one event that sets the row to anything, so no gapless subscription versions are claimed.
- DayGrants.RunKeeps: no purchases or new paid periods happen between the commands of a run, since a purchase moves the expiry on its own account.
- A payment's lookups before the newest one: creating a checkout looks at every operation of an open payment, the model at its creation and its newest lookup.
- The three clock readings of one day grant (for the view, the new end and the current period to mark): the model takes one.
