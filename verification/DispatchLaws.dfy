/**
 * When each transaction on one payment takes effect and what its rows say then: for every cell, exact
 * conditions on the rows, the fields that change and that no other field does.
 */
module DispatchLaws {
  import opened Common
  import opened Dispatch
  import Calendar

  // ---------------------------------------------------------------- which fields change

  /** The payments agree but for their status, the provider's status, the reason and the saved method. */
  predicate OnlyClosed(p: Payment, p': Payment) {
    p'.(status := p.status, providerStatus := p.providerStatus, reason := p.reason, saved := p.saved) == p
  }

  /** The operations agree but for their status and lease. */
  predicate OnlySettled(op: Operation, op': Operation) {
    op'.(status := op.status, lease := op.lease) == op
  }

  /** A payment closed before any request, together with its operation. */
  predicate ClosedUnsent(c: Cell, c': Cell, reason: string) {
    && c'.payment.status == Cancelled && c'.payment.providerStatus == NotSent && c'.payment.reason == reason
    && OnlyClosed(c.payment, c'.payment) && OperationFails(c, c')
  }

  /** The creation operation, if there is one, fails; the rest of the cell stays. */
  predicate OperationFails(c: Cell, c': Cell) {
    && c'.lookup == c.lookup && c'.issued == c.issued && c'.refused == c.refused
    && (c.creation.None? ==> c'.creation.None?)
    && (c.creation.Some? ==> c'.creation.Some? && c'.creation.value.status == Failed && OnlySettled(c.creation.value, c'.creation.value))
  }

  /** An open payment whose fate at the provider has to be found out. */
  predicate LeftUncertain(c: Cell, c': Cell) {
    && c'.payment.status == Pending && c'.payment.providerStatus == Uncertain && OnlyClosed(c.payment, c'.payment)
    && c'.payment.reason == c.payment.reason && c'.issued == c.issued && c'.refused == c.refused
  }

  // ---------------------------------------------------------------- local stops

  /** A user's cancel closes exactly the own, open, unbound checkouts whose operation has not been claimed. */
  lemma UserCancelsExactly(c: Cell, user: UserId)
    requires Sound(c)
    ensures var change := CancelPending(c, user);
            && (change.Written? <==>
                  && c.payment.user == user && c.payment.kind == OneTime && c.payment.status == Pending
                  && !MayBeKnown(c) && c.creation.value.status != Failed)
            && (change.Unchanged? <==> c.payment.user == user && c.payment.kind == OneTime && c.payment.status in {Cancelled, Expired})
            && !change.Touched?
            && (change.Written? ==> ClosedUnsent(c, change.cell, "user_cancelled") && change.cell.payment.saved == c.payment.saved)
  {
  }

  /** Expiry closes exactly the open checkouts that the provider cannot know, and gives up on those not heard of for 23 hours. */
  lemma CheckoutsExpireExactly(c: Cell, now: int)
    requires Sound(c)
    ensures var change := SettleExpiredCheckout(c, now);
            var due := c.payment.kind == OneTime && c.payment.status == Pending && c.payment.checkoutExpiresAt <= now;
            var stale := c.payment.providerId.None? && c.creation.Some? && c.creation.value.status == Waiting && c.creation.value.attempt > 0
                         && c.creation.value.createdAt + RETRY_WINDOW <= now;
            && (change.Written? <==> due && (!MayBeKnown(c) || stale)) && (change.Unchanged? <==> !change.Written?)
            && (due && !MayBeKnown(c) ==>
                  && change.cell.payment.status == Expired && change.cell.payment.reason == "checkout_expired"
                  && OnlyClosed(c.payment, change.cell.payment) && change.cell.payment.providerStatus == c.payment.providerStatus
                  && change.cell.payment.saved == c.payment.saved && OperationFails(c, change.cell))
            && (due && stale ==>
                  && LeftUncertain(c, change.cell) && change.cell.creation.Some? && change.cell.creation.value.status == Unknown
                  && OnlySettled(c.creation.value, change.cell.creation.value) && change.cell.lookup == c.lookup)
  {
  }

  /** A stop of a recurring payment: closed if the provider cannot know it, uncertain if it may. */
  predicate Stops(c: Cell, change: Change, reason: string) {
    && change.Written? && change.cell.payment.saved == None
    && (!MayBeKnown(c) ==> ClosedUnsent(c, change.cell, reason))
    && (MayBeKnown(c) ==>
          && LeftUncertain(c, change.cell) && change.cell.lookup == c.lookup && (change.cell.creation.Some? <==> c.creation.Some?)
          && (c.creation.Some? ==>
                && OnlySettled(c.creation.value, change.cell.creation.value)
                && change.cell.creation.value.status == if c.creation.value.status == Waiting then Unknown else c.creation.value.status))
  }

  /** Both loops over future payments stop exactly the open recurring payments of the user. */
  lemma FuturePaymentsStopExactly(c: Cell, user: UserId, reason: string)
    requires Sound(c)
    ensures var concerned := c.payment.user == user && c.payment.kind == Recurring && c.payment.status == Pending;
            if concerned then Stops(c, ClearFuture(c, user, reason), reason) && Stops(c, ClearForAdmin(c, user, reason), reason)
            else ClearFuture(c, user, reason) == Unchanged && ClearForAdmin(c, user, reason) == Unchanged
  {
  }

  /** The deactivation loop stops exactly the open payments of the user, and closes those the provider cannot know. */
  lemma DeactivationStopsExactly(c: Cell, user: UserId)
    requires Sound(c)
    ensures var change := Deactivate(c, user);
            var concerned := c.payment.user == user && c.payment.status == Pending;
            && (change.Written? <==> concerned) && (change.Unchanged? <==> !concerned)
            && (concerned && !MayBeKnown(c) ==> ClosedUnsent(c, change.cell, "IDENTITY_DEACTIVATION"))
            && (concerned && MayBeKnown(c) && !BlindDeactivation(c) ==> LeftUncertain(c, change.cell))
            && (concerned ==> change.cell.payment.saved == None)
  {
  }

  // ---------------------------------------------------------------- claims

  /** A claim takes exactly the waiting operations and those whose lease has run out, for 45 seconds. */
  lemma ClaimsExactly(c: Cell, token: Token, now: int)
    ensures var change := Claim(c, token, now);
            && (change.Touched? <==>
                  c.creation.Some? && (c.creation.value.status == Waiting || (c.creation.value.status == Processing && c.creation.value.leaseUntil < now)))
            && (change.Unchanged? <==> !change.Touched?)
            && (change.Touched? ==>
                  && change.cell.payment == c.payment && change.cell.lookup == c.lookup && change.cell.issued == c.issued
                  && Holds(change.cell, token) && change.cell.creation.value.attempt == c.creation.value.attempt + 1
                  && change.cell.creation.value.leaseUntil == now + 45000 && change.cell.creation.value.createdAt == c.creation.value.createdAt
                  && var lease := change.cell.creation.value.lease.value;
                  && !lease.called && !lease.answered && lease.knownId == lease.claimedId == c.payment.providerId
                  && (lease.reclaimed <==> c.creation.value.status == Processing))
  {
  }

  // ---------------------------------------------------------------- dispatches

  predicate Usable(c: Cell, token: Token) {
    Holds(c, token) && !c.creation.value.lease.value.called
  }

  /** The payment may still be created: open, priced, and of an active identity. */
  predicate Creatable(p: Payment, env: Surroundings) {
    p.status == Pending && p.plan.Some? && p.period.Some? && env.identityActive
  }

  /** Too late for the same request: 23 hours have passed, or a reclaimed one has outlived its checkout. */
  predicate TooLate(c: Cell, env: Surroundings)
    requires c.creation.Some? && c.creation.value.lease.Some?
  {
    || (c.creation.value.attempt > 1 && c.creation.value.createdAt + RETRY_WINDOW <= env.now)
    || (c.creation.value.lease.value.reclaimed && c.payment.checkoutExpiresAt <= env.now)
  }

  /** A charge is wanted: its renewal waits for it and it has not been given up. */
  predicate Wanted(p: Payment, env: Surroundings) {
    p.kind == Recurring ==> env.renewalReady && p.providerStatus in {Queued, Creating}
  }

  /** The window of a first attempt is over when it is checked first, or a charge's when it is checked last. */
  predicate WindowOver(c: Cell, env: Surroundings)
    requires c.creation.Some? && c.creation.value.lease.Some?
  {
    || (c.payment.checkoutExpiresAt <= env.now && c.creation.value.attempt <= 1)
    || (c.payment.checkoutExpiresAt <= env.laterNow && env.prepared &&
        ((c.payment.kind == Recurring && c.creation.value.attempt <= 1) || c.creation.value.lease.value.reclaimed))
  }

  /** A request goes out exactly when everything is in order, and an identifier that is bound is asked for again. */
  lemma RequestsGoOutExactly(c: Cell, token: Token, env: Surroundings)
    ensures var verdict := DispatchCreation(c, token, env);
            && (verdict.LeaseLost? <==> !Usable(c, token))
            && (verdict.AskedAgain? <==> Usable(c, token) && Creatable(c.payment, env) && c.payment.providerId.Some?)
            && (verdict.Sent? <==>
                  && Usable(c, token) && Creatable(c.payment, env) && c.payment.providerId.None? && !TooLate(c, env)
                  && Wanted(c.payment, env) && !WindowOver(c, env) && env.prepared)
            && (verdict.NotPrepared? <==>
                  && Usable(c, token) && Creatable(c.payment, env) && c.payment.providerId.None? && !TooLate(c, env)
                  && Wanted(c.payment, env) && !(c.payment.checkoutExpiresAt <= env.now && c.creation.value.attempt <= 1) && !env.prepared)
  {
  }

  /** An operation is fenced exactly when nothing is to be created any more, and nothing speaks for an earlier request. */
  lemma OperationsAreFencedExactly(c: Cell, token: Token, env: Surroundings)
    ensures var verdict := DispatchCreation(c, token, env);
            var open := Usable(c, token) && Creatable(c.payment, env) && c.payment.providerId.None? && !TooLate(c, env);
            && (verdict.Fenced? <==>
                  || (Usable(c, token) && !Creatable(c.payment, env))
                  || (open && !Wanted(c.payment, env) && c.payment.providerStatus !in {Creating, Uncertain})
                  || (open && c.payment.kind == OneTime && c.payment.checkoutExpiresAt <= env.now && c.creation.value.attempt <= 1))
            && (verdict.CloseExpired? ==> open && Wanted(c.payment, env) && WindowOver(c, env))
            && (Usable(c, token) && Creatable(c.payment, env) && c.payment.providerId.None? && TooLate(c, env) ==> verdict.Uncertainty?)
            && (open && !Wanted(c.payment, env) && c.payment.providerStatus in {Creating, Uncertain} ==> verdict.Uncertainty?)
  {
  }

  /** A first claim of a queued charge whose window is over is closed; one that may have been sent is uncertain. */
  lemma WindowsCloseExactly(c: Cell, token: Token, env: Surroundings)
    requires Usable(c, token) && Creatable(c.payment, env) && c.payment.providerId.None? && !TooLate(c, env)
    requires Wanted(c.payment, env) && c.payment.kind == Recurring && WindowOver(c, env)
    ensures var verdict := DispatchCreation(c, token, env);
            var sentBefore := c.creation.value.attempt > 1 || c.creation.value.lease.value.reclaimed || c.payment.providerStatus == Creating;
            (verdict.CloseExpired? <==> !sentBefore) && (verdict.Uncertainty? <==> sentBefore)
  {
  }

  /** What the rows say after a dispatch that sent nothing. */
  lemma FencesAndDoubtsWrite(c: Cell, token: Token, env: Surroundings)
    ensures var verdict := DispatchCreation(c, token, env);
            && (verdict.Fenced? ==>
                  && verdict.cell.payment == c.payment && OperationFails(c, verdict.cell) && verdict.cell.creation.value.lease.None?)
            && (verdict.Uncertainty? ==>
                  && LeftUncertain(c, verdict.cell) && verdict.cell.payment.saved == c.payment.saved && verdict.cell.lookup == c.lookup
                  && verdict.cell.creation.Some? && verdict.cell.creation.value.status == Unknown && verdict.cell.creation.value.lease.None?
                  && OnlySettled(c.creation.value, verdict.cell.creation.value))
  {
  }

  /** What the rows say after a request: the claim remembers the call, and a queued charge is marked as being created. */
  lemma RequestsWrite(c: Cell, token: Token, env: Surroundings)
    requires DispatchCreation(c, token, env).Sent?
    ensures var c' := DispatchCreation(c, token, env).cell;
            && c'.issued && Holds(c', token) && c'.creation.value.attempt == c.creation.value.attempt && c'.lookup == c.lookup
            && var lease := c'.creation.value.lease.value;
            && lease.called && lease.answered == env.answered && lease.knownId == (if env.answered then env.answer else None)
            && c'.payment == (if c.payment.kind == Recurring && c.payment.providerStatus == Queued && env.committed
                              then c.payment.(providerStatus := Creating) else c.payment)
  {
  }

  lemma QuestionsWrite(c: Cell, token: Token, env: Surroundings)
    requires DispatchCreation(c, token, env).AskedAgain?
    ensures var c' := DispatchCreation(c, token, env).cell;
            && c'.payment == c.payment && c'.issued == c.issued && c'.lookup == c.lookup && Holds(c', token)
            && var (lease, before) := (c'.creation.value.lease.value, c.creation.value.lease.value);
            && lease.called && lease.answered == env.answered && lease.claimedId == before.claimedId
            && lease.knownId == (if !env.answered then c.payment.providerId else if before.knownId.Some? then before.knownId else env.answer)
  {
  }

  // ---------------------------------------------------------------- failures and completions

  /** The error came from the dispatch, before its request went out. */
  predicate BeforeCall(lease: Lease, f: Failure) {
    f.fromDispatch && !lease.called
  }

  /** The worker holds an answer, which no retry may repeat. */
  predicate AfterAnswer(lease: Lease, f: Failure) {
    f.fromDispatch && lease.answered
  }

  /** An identifier is known, under which the payment can be looked up. */
  predicate IdentifierKnown(lease: Lease, f: Failure) {
    lease.claimedId.Some? || (f.fromDispatch && lease.knownId.Some?)
  }

  /** The provider said what is wrong and that a repetition would not help. */
  predicate FinalError(f: Failure) {
    f.fromDispatch && f.fromProvider && !f.retryable
  }

  /** A failure puts the operation back exactly when nothing was asked for, or the same request may be repeated. */
  predicate PutsBack(op: Operation, lease: Lease, f: Failure) {
    || (BeforeCall(lease, f) && !lease.reclaimed && !AfterAnswer(lease, f))
    || (!BeforeCall(lease, f) && !AfterAnswer(lease, f) && !FinalError(f) && (IdentifierKnown(lease, f) || f.now < op.createdAt + RETRY_WINDOW))
  }

  /**
   * The failure of a held claim on an open payment closes the payment if and only if the provider
   * definitely refused the request; otherwise the operation waits again or turns unknown, under exact
   * conditions.
   */
  lemma FailuresSettleExactly(c: Cell, token: Token, f: Failure)
    requires Sound(c) && Holds(c, token) && c.payment.status == Pending
    ensures var (op, change) := (c.creation.value, WorkerFailed(c, token, f));
            var lease := op.lease.value;
            var conflict := c.payment.providerId.Some? && c.payment.providerId != (if f.fromDispatch then lease.knownId else None);
            var rejected := DefiniteRefusal(lease, f);
            && (change.Touched? <==> PutsBack(op, lease, f))
            && (change.Written? && change.cell.payment.status == Cancelled <==> rejected)
            && (change.Written? && change.cell.payment.status == Pending <==> !PutsBack(op, lease, f) && !rejected && !conflict)
            && (change.Refused? <==> !PutsBack(op, lease, f) && !rejected && conflict)
  {
  }

  /** What the rows say after a failure. */
  lemma FailuresWrite(c: Cell, token: Token, f: Failure)
    requires Sound(c) && Holds(c, token)
    ensures var (op, change) := (c.creation.value, WorkerFailed(c, token, f));
            var lease := op.lease.value;
            && (change.Touched? ==>
                  && change.cell.payment == c.payment && change.cell.creation.Some? && change.cell.creation.value.status == Waiting
                  && change.cell.creation.value.lease.None? && change.cell.issued == c.issued
                  && change.cell.creation.value.attempt == (if BeforeCall(lease, f) then op.attempt - 1 else op.attempt))
            && (change.Written? && change.cell.payment.status == Cancelled ==>
                  && change.cell.payment.providerStatus == Rejected && change.cell.payment.reason == f.code && change.cell.payment.saved == None
                  && OnlyClosed(c.payment, change.cell.payment) && change.cell.creation.Some? && change.cell.creation.value.status == Failed
                  && OnlySettled(op, change.cell.creation.value) && change.cell.refused && change.cell.issued == c.issued)
            && (change.Written? && change.cell.payment.status == Pending ==>
                  && change.cell.payment == c.payment.(providerStatus := Uncertain) && change.cell.creation.Some?
                  && change.cell.creation.value.status == Unknown && change.cell.creation.value.lease.None?
                  && change.cell.creation.value.attempt == op.attempt
                  && change.cell.creation.value.providerId ==
                     (if f.fromDispatch && lease.knownId.Some? then lease.knownId else op.providerId))
  {
  }

  /** A completion ends exactly the held operation whose answer has been applied. */
  lemma CompletesExactly(c: Cell, token: Token)
    ensures var change := WorkerCompleted(c, token);
            && (change.Touched? <==> Holds(c, token) && c.creation.value.lease.value.answered && c.payment.providerId.Some?)
            && (change.Unchanged? <==> !change.Touched?)
            && (change.Touched? ==>
                  && change.cell.payment == c.payment && change.cell.creation.Some? && change.cell.creation.value.status == Done
                  && OnlySettled(c.creation.value, change.cell.creation.value) && change.cell.issued == c.issued)
  {
  }

  // ---------------------------------------------------------------- the provider's answers

  /** An identifier is bound exactly when the payment has none or the same, and no other payment has it. */
  lemma BindsExactly(c: Cell, id: ProviderId, text: string, expiresAt: Option<int>, now: int, free: bool)
    ensures var change := Bind(c, id, text, expiresAt, now, free);
            && (change.Written? <==> free && (c.payment.providerId.None? || c.payment.providerId == Some(id)))
            && (change.Refused? <==> !change.Written?)
            && (change.Written? ==>
                  && change.cell.(payment := c.payment) == c && change.cell.payment.providerId == Some(id)
                  && change.cell.payment.providerStatus == Reported(text)
                  && change.cell.payment.(providerId := c.payment.providerId, providerStatus := c.payment.providerStatus,
                                          checkoutExpiresAt := c.payment.checkoutExpiresAt) == c.payment
                  && change.cell.payment.checkoutExpiresAt ==
                     (if expiresAt.Some? && now < expiresAt.value && expiresAt.value < c.payment.checkoutExpiresAt
                      then expiresAt.value else c.payment.checkoutExpiresAt))
  {
  }

  /** A cancellation is applied exactly to payments that have not succeeded and do not say the same already. */
  lemma CancelsExactly(c: Cell, id: ProviderId, reason: string, free: bool)
    ensures var change := MarkCancelled(c, id, reason, free);
            var said := c.payment.status == Cancelled && c.payment.providerStatus == Reported("canceled") && c.payment.reason == reason;
            && (change.Unchanged? <==> c.payment.status == Succeeded || said)
            && (change.Written? <==> c.payment.status != Succeeded && !said && free)
            && !change.Touched?
            && (change.Written? ==>
                  && change.cell.(payment := c.payment) == c && change.cell.payment.status == Cancelled
                  && change.cell.payment.providerId == Some(id) && change.cell.payment.providerStatus == Reported("canceled")
                  && change.cell.payment.reason == reason && change.cell.payment.saved == None
                  && OnlyClosed(c.payment, change.cell.payment.(providerId := c.payment.providerId)))
  {
  }

  /** A success is applied exactly to the payment it names, over its amount and currency, and once. */
  lemma SucceedsExactly(c: Cell, id: ProviderId, amount: nat, currency: string, paidAt: int, free: bool)
    ensures var change := Succeed(c, id, amount, currency, paidAt, free);
            var fits := free && (c.payment.providerId.None? || c.payment.providerId == Some(id)) && c.payment.amount == amount
                        && c.payment.currency == currency;
            && (change.Unchanged? <==> fits && c.payment.status == Succeeded)
            && (change.Written? <==> fits && c.payment.status != Succeeded && c.payment.plan.Some? && c.payment.period.Some?)
            && !change.Touched?
            && (change.Written? ==>
                  && change.cell.(payment := c.payment) == c && change.cell.payment.status == Succeeded
                  && change.cell.payment.providerId == Some(id) && change.cell.payment.providerStatus == Reported("succeeded")
                  && change.cell.payment.paidAt == Some(paidAt) && change.cell.payment.reason == "" && change.cell.payment.saved == None
                  && OnlyClosed(c.payment, change.cell.payment.(providerId := c.payment.providerId, paidAt := c.payment.paidAt)))
  {
  }

  /** A developer's word closes exactly an open, overdue, unbound payment whose operation ended unknown without an identifier. */
  lemma ResolvesExactly(c: Cell, now: int)
    ensures var change := ResolveUnknown(c, now);
            && (change.Written? <==>
                  && c.payment.status == Pending && c.payment.checkoutExpiresAt <= now && c.payment.providerId.None?
                  && c.payment.providerStatus in {Creating, Uncertain}
                  && c.creation.Some? && c.creation.value.status == Unknown && c.creation.value.providerId.None?)
            && (change.Refused? <==> !change.Written?)
            && (change.Written? ==>
                  && change.cell.payment.status == Cancelled && change.cell.payment.providerStatus == NotFound
                  && change.cell.payment.reason == "manual_unknown_provider" && change.cell.payment.saved == None
                  && OnlyClosed(c.payment, change.cell.payment) && OperationFails(c, change.cell))
  {
  }

  // ---------------------------------------------------------------- scheduling

  /** A cancelled charge is taken up again exactly when it was never sent, under the renewal's present terms. */
  lemma ResumesExactly(c: Cell, amount: nat, currency: string, plan: Plan, period: Calendar.Period, consentedAt: int, saved: Option<string>, until: int)
    ensures var change := Resume(c, amount, currency, plan, period, consentedAt, saved, until);
            && (change.Written? <==> c.payment.status == Cancelled && c.payment.providerStatus == NotSent && c.payment.providerId.None?)
            && (change.Refused? <==> !change.Written?)
            && (change.Written? ==>
                  && change.cell.(payment := c.payment) == c
                  && var p := change.cell.payment;
                  && p.status == Pending && p.providerStatus == Queued && p.amount == amount && p.currency == currency && p.plan == Some(plan)
                  && p.period == Some(period) && p.consentedAt == Some(consentedAt) && p.saved == saved && p.checkoutExpiresAt == until
                  && p.user == c.payment.user && p.kind == c.payment.kind && p.cycle == c.payment.cycle && p.providerId.None? && p.reason == "")
  {
  }

  /** A charge event gives a payment its operation, or a failed operation another chance; it disturbs no other. */
  lemma ArmsExactly(c: Cell, now: int)
    ensures var change := ArmCapture(c, now);
            && (change.Touched? <==> c.creation.None? || c.creation.value.status == Failed)
            && (change.Unchanged? <==> !change.Touched?)
            && (change.Touched? ==>
                  && change.cell.(creation := c.creation) == c && change.cell.creation.Some? && change.cell.creation.value.status == Waiting
                  && (c.creation.None? ==> change.cell.creation.value.attempt == 0 && change.cell.creation.value.createdAt == now)
                  && (c.creation.Some? ==> OnlySettled(c.creation.value, change.cell.creation.value)))
  {
  }

  /** A lookup is queued exactly when an identifier is known: bound, or left by an operation that ended unknown. */
  lemma LooksUpExactly(c: Cell, now: int)
    ensures var change := QueueLookup(c, now);
            && (change.Touched? <==>
                  || c.payment.providerId.Some?
                  || (c.creation.Some? && c.creation.value.status == Unknown && c.creation.value.providerId.Some?))
            && (change.Unchanged? <==> !change.Touched?)
            && (change.Touched? ==>
                  && change.cell.(lookup := c.lookup) == c && change.cell.lookup.Some? && change.cell.lookup.value.status == Waiting
                  && change.cell.lookup.value.attempt == 0 && change.cell.lookup.value.createdAt == now)
  {
  }
}
