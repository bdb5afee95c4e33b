/** When each transaction on a renewal row takes effect, and what the row says then. */
module RenewalLaws {
  import opened Common
  import opened Dispatch
  import opened Renewal
  import Calendar

  /** The rows agree but for their version. */
  predicate SameTerms(r: Renewal, r': Renewal) {
    r'.(version := r.version) == r
  }

  /** Nothing is being retried or waited for. */
  predicate AtRest(r: Renewal) {
    r.retryStartedAt.None? && r.retryAttempt == 0 && r.nextRetryAt.None? && !r.dispatchPending
  }

  // ---------------------------------------------------------------- withdrawing

  /** A withdrawn row: no method, no retry, and everything agreed upon still there to be read. */
  predicate WithdrawnFrom(r: Renewal, r': Renewal, status: RenewalStatus, at: int) {
    && r'.status == status && r'.saved.None? && r'.disabledAt == Some(at) && AtRest(r') && r'.version == r.version + 1
    && r'.(status := r.status, saved := r.saved, disabledAt := r.disabledAt, retryStartedAt := r.retryStartedAt, retryAttempt := r.retryAttempt,
           nextRetryAt := r.nextRetryAt, dispatchPending := r.dispatchPending, version := r.version) == r
  }

  lemma WithdrawalsWrite(r: Renewal, now: int)
    ensures if r.status == UserDisabled || r.status == Revoked then DisableByUser(r, now) == r
            else WithdrawnFrom(r, DisableByUser(r, now), UserDisabled, now)
    ensures if r.status == Revoked then RevokeForAdminCancellation(r, now) == r
            else WithdrawnFrom(r, RevokeForAdminCancellation(r, now), Revoked, now)
    ensures var r' := RevokeForDeactivation(r, now);
            && r'.status == Revoked && r'.saved.None? && r'.disabledAt == Some(now) && !r'.dispatchPending && r'.version == r.version + 1
            && r'.(status := r.status, saved := r.saved, disabledAt := r.disabledAt, dispatchPending := r.dispatchPending, version := r.version) == r
  {
  }

  // ---------------------------------------------------------------- administrators

  /** The row was written: it is one version on. */
  predicate OneVersionOn(r: Renewal, r': Renewal) {
    r'.version == r.version + 1
  }

  /** Only the state of the renewal changes: its terms, method and retries stay. */
  predicate OnlyState(r: Renewal, r': Renewal) {
    r'.(status := r.status, disabledAt := r.disabledAt, errorCode := r.errorCode, version := r.version) == r
  }

  /** Each action is possible exactly in its states, and does what it is called. */
  lemma AdministratorsActExactly(r: Renewal, eligible: bool, found: bool, now: int)
    ensures var r' := AdminAction(r, Pause, eligible, found, now);
            && (r'.Some? <==> r.status == Active)
            && (r'.Some? ==> OneVersionOn(r, r'.value) && OnlyState(r, r'.value) && r'.value.status == AdminPaused && r'.value.disabledAt == Some(now)
                             && r'.value.errorCode == r.errorCode)
    ensures var r' := AdminAction(r, ResumePaused, eligible, found, now);
            && (r'.Some? <==> r.status == AdminPaused && eligible && r.saved.Some? && r.pendingAmount.None?)
            && (r'.Some? ==> OneVersionOn(r, r'.value) && OnlyState(r, r'.value) && r'.value.status == Active && r'.value.disabledAt.None? && r'.value.errorCode == r.errorCode)
    ensures var r' := AdminAction(r, ResumeTechnical, eligible, found, now);
            && (r'.Some? <==> r.status == TechnicalPause && DeliveryError(r.errorCode) && eligible && r.saved.Some? && r.pendingAmount.None? && found)
            && (r'.Some? ==> OneVersionOn(r, r'.value) && OnlyState(r, r'.value) && r'.value.status == Active && r'.value.disabledAt.None? && r'.value.errorCode == "")
    ensures var r' := AdminAction(r, Revoke, eligible, found, now);
            r'.Some? && (if r.status == Revoked then r'.value == r else WithdrawnFrom(r, r'.value, Revoked, now))
  {
  }

  /** A reconciliation asks for the price of the day and pauses what cannot be charged, unless consent is withdrawn. */
  lemma ReconciliationsWrite(r: Renewal, amount: nat, error: Option<string>, now: int)
    ensures var r' := Reconcile(r, amount, error, now);
            && r'.pendingAmount == (if amount != r.amount then Some(amount) else r.pendingAmount)
            && (if error.Some? && !Withdrawn(r)
                then r'.status == TechnicalPause && r'.disabledAt == Some(now) && r'.errorCode == error.value
                else r'.status == r.status && r'.disabledAt == r.disabledAt && r'.errorCode == r.errorCode)
            && OnlyState(r, r'.(pendingAmount := r.pendingAmount))
            && (if amount == r.amount && (error.None? || Withdrawn(r)) then r' == r else OneVersionOn(r, r'))
  {
  }

  // ---------------------------------------------------------------- prices

  /** A price is agreed upon exactly when it is the one asked for and nothing was withdrawn; the consent is new. */
  lemma PricesAreConfirmedExactly(r: Renewal, amount: nat, eligible: bool, now: int)
    ensures var r' := ConfirmPrice(r, amount, eligible, now);
            && (r'.Some? <==> r.pendingAmount == Some(amount) && !Withdrawn(r) && eligible)
            && (r'.Some? ==>
                  && OneVersionOn(r, r'.value) && r'.value.amount == amount && r'.value.pendingAmount.None? && r'.value.consentedAt == now
                  && SameTerms(r, r'.value.(amount := r.amount, pendingAmount := r.pendingAmount, consentedAt := r.consentedAt)))
  {
  }

  /** A tariff change asks for consent exactly when the price differs, and takes the question back when it does not. */
  lemma TariffChangesAsk(r: Renewal, amount: nat)
    ensures var r' := ReviewPrice(r, amount);
            && r'.pendingAmount == (if Withdrawn(r) then r.pendingAmount else if r.amount != amount then Some(amount) else None)
            && SameTerms(r, r'.(pendingAmount := r.pendingAmount)) && (r' == r || OneVersionOn(r, r'))
            && (r'.pendingAmount != r.pendingAmount ==> OneVersionOn(r, r'))
    ensures var r' := RequirePrice(r, amount);
            && r'.pendingAmount == Some(amount) && SameTerms(r, r'.(pendingAmount := r.pendingAmount))
            && (if r.pendingAmount == Some(amount) then r' == r else OneVersionOn(r, r'))
  {
  }

  // ---------------------------------------------------------------- failed charges

  /** The payment is the charge that an active renewal waits for. */
  predicate Awaited(r: Renewal, p: Payment) {
    && r.status == Active && p.kind == Recurring && p.consentedAt == Some(r.consentedAt)
    && p.cycle == Some(CycleKey(p.user, r.nextChargeAt, r.retryAttempt))
  }

  /** A failed charge: retried after 24 and 72 hours from the first failure, revoked or paused, each exactly for its reasons. */
  lemma FailedChargesWrite(r: Renewal, p: Payment, reason: string, now: int)
    ensures var r' := AfterCancellation(r, p, reason, now);
            var retryable := reason == "insufficient_funds" || reason == "issuer_unavailable";
            && (!Awaited(r, p) ==> r' == r)
            && (Awaited(r, p) ==>
                  && !r'.dispatchPending && r'.errorCode == reason && r'.version == r.version + 1
                  && r'.plan == r.plan && r'.period == r.period && r'.amount == r.amount && r'.consentedAt == r.consentedAt
                  && r'.nextChargeAt == r.nextChargeAt && r'.pendingAmount == r.pendingAmount && r'.currency == r.currency)
            && (Awaited(r, p) && retryable && r.retryAttempt < 2 ==>
                  && var first := if r.retryStartedAt.Some? then r.retryStartedAt.value else now;
                  && r'.status == Active && r'.disabledAt.None? && r'.saved == r.saved && r'.retryAttempt == r.retryAttempt + 1
                  && r'.retryStartedAt == Some(first) && r'.nextRetryAt == Some(first + (if r.retryAttempt == 0 then DAY else 3 * DAY)))
            && (Awaited(r, p) && !(retryable && r.retryAttempt < 2) ==>
                  && r'.nextRetryAt.None? && r'.disabledAt == Some(now) && r'.retryAttempt == r.retryAttempt && r'.retryStartedAt == r.retryStartedAt
                  && r'.status == (if reason == "permission_revoked" then Revoked else TechnicalPause)
                  && r'.saved == (if reason == "permission_revoked" then None else r.saved))
  {
  }

  /** A paused row: waiting for nothing, with the reason and the time. */
  lemma PausesWrite(r: Renewal, code: string, now: int)
    ensures var r' := PauseInvalid(r, code, now);
            && r'.status == TechnicalPause && r'.errorCode == code && r'.disabledAt == Some(now) && r'.nextRetryAt.None? && !r'.dispatchPending
            && OnlyState(r, r'.(nextRetryAt := r.nextRetryAt, dispatchPending := r.dispatchPending)) && OneVersionOn(r, r')
    ensures var r' := Enqueue(r); r'.dispatchPending && OneVersionOn(r, r') && SameTerms(r, r'.(dispatchPending := r.dispatchPending))
  {
  }

  /** Following a moved subscription moves the charge date and gives up the retries of the old one. */
  lemma FollowingWrites(r: Renewal, expiresAt: int)
    ensures var r' := FollowSubscription(r, expiresAt);
            && r'.nextChargeAt == expiresAt && OneVersionOn(r, r')
            && (if r.nextRetryAt.Some?
                then AtRest(r') && r'.errorCode == "" &&
                     SameTerms(r, r'.(nextChargeAt := r.nextChargeAt, retryStartedAt := r.retryStartedAt, retryAttempt := r.retryAttempt,
                                      nextRetryAt := r.nextRetryAt, dispatchPending := r.dispatchPending, errorCode := r.errorCode))
                else SameTerms(r, r'.(nextChargeAt := r.nextChargeAt)))
  {
  }

  // ---------------------------------------------------------------- successes

  /** A checkout grants a renewal: open here, asked for, with a complete consent not older than a withdrawal or pause. */
  predicate Grants(prior: Option<Renewal>, p: Payment, saved: Option<string>) {
    && p.kind == OneTime && p.autoRenew && p.status != Cancelled && p.status != Expired && saved.Some? && p.consentComplete && p.consentedAt.Some?
    && (prior.Some? && prior.value.status != Active && prior.value.disabledAt.Some? ==> p.consentedAt.value > prior.value.disabledAt.value)
  }

  /** The charge date moves to the new end, and nothing is retried any more. */
  predicate MovedOn(r: Renewal, r': Renewal, expiresAt: int) {
    && r'.nextChargeAt == expiresAt && AtRest(r') && r'.errorCode == "" && r'.version == r.version + 1
    && SameTerms(r, r'.(nextChargeAt := r.nextChargeAt, retryStartedAt := r.retryStartedAt, retryAttempt := r.retryAttempt,
                        nextRetryAt := r.nextRetryAt, dispatchPending := r.dispatchPending, errorCode := r.errorCode,
                        status := r.status, disabledAt := r.disabledAt))
  }

  /** What a success makes of the renewal: the terms of a granting checkout, a moved date, or nothing. */
  lemma SuccessesWrite(prior: Option<Renewal>, p: Payment, saved: Option<string>, expiresAt: int)
    requires p.plan.Some? && p.period.Some?
    ensures var next := AfterSuccess(prior, p, saved, expiresAt);
            && (Grants(prior, p, saved) ==>
                  && next.Some? && next.value.status == Active && next.value.plan == p.plan.value && next.value.period == p.period.value
                  && next.value.amount == p.amount && next.value.currency == p.currency && next.value.saved == saved
                  && next.value.consentedAt == p.consentedAt.value && next.value.nextChargeAt == expiresAt && AtRest(next.value)
                  && next.value.pendingAmount.None? && next.value.disabledAt.None? && next.value.errorCode == ""
                  && next.value.version == (if prior.Some? then prior.value.version + 1 else 1))
            && (!Grants(prior, p, saved) && prior.None? ==> next.None?)
            && (!Grants(prior, p, saved) && prior.Some? && p.kind == OneTime ==>
                  && next.Some?
                  && (if prior.value.status == Active
                      then MovedOn(prior.value, next.value, expiresAt) && next.value.status == Active && next.value.disabledAt == prior.value.disabledAt
                      else next.value == prior.value))
            && (prior.Some? && p.kind == Recurring ==>
                  && next.Some? && MovedOn(prior.value, next.value, expiresAt)
                  && (if prior.value.status == TechnicalPause && DeliveryError(prior.value.errorCode)
                      then next.value.status == Active && next.value.disabledAt.None?
                      else next.value.status == prior.value.status && next.value.disabledAt == prior.value.disabledAt))
  {
  }
}
