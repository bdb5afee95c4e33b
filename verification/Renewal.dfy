/**
 * The automatic renewal row: consent, saved payment method, charge date and retry state, and what
 * each transaction does to them. A user has at most one row, so the user's identifier names it.
 */
module Renewal {
  import opened Common
  import opened Dispatch
  import Calendar

  const RETRY_DELAYS: seq<int> := [24 * 60 * 60 * 1000, 72 * 60 * 60 * 1000]
  const DUE_GRACE: int := 24 * 60 * 60 * 1000
  const RETRY_DISPATCH_GRACE: int := 60 * 60 * 1000
  const CHARGE_DATE_DRIFT: int := 60000
  const DELIVERY_ERROR := "AUTO_RENEWAL_DELIVERY:"

  datatype RenewalStatus = Active | AdminPaused | TechnicalPause | UserDisabled | Revoked

  datatype Renewal = Renewal(
    status: RenewalStatus,
    plan: Plan,
    period: Calendar.Period,
    amount: nat,
    pendingAmount: Option<nat>,
    currency: string,
    saved: Option<string>,
    consentedAt: int,
    nextChargeAt: int,
    retryStartedAt: Option<int>,
    retryAttempt: nat,
    nextRetryAt: Option<int>,
    dispatchPending: bool,
    disabledAt: Option<int>,
    errorCode: string,
    version: nat)

  /** The user's or an administrator's no: only a new checkout can undo it. */
  predicate Withdrawn(r: Renewal) {
    r.status == UserDisabled || r.status == Revoked
  }

  predicate DeliveryError(code: string) {
    DELIVERY_ERROR <= code
  }

  function Bumped(r: Renewal): Renewal {
    r.(version := r.version + 1)
  }

  function WithoutRetries(r: Renewal): Renewal {
    r.(retryStartedAt := None, retryAttempt := 0, nextRetryAt := None, dispatchPending := false)
  }

  // ---------------------------------------------------------------- withdrawing consent

  function Withdraw(r: Renewal, status: RenewalStatus, at: int): Renewal {
    Bumped(WithoutRetries(r).(status := status, saved := None, disabledAt := Some(at)))
  }

  function DisableByUser(r: Renewal, now: int): Renewal {
    if Withdrawn(r) then r else Withdraw(r, UserDisabled, now)
  }

  function RevokeForAdminCancellation(r: Renewal, now: int): Renewal {
    if r.status == Revoked then r else Withdraw(r, Revoked, now)
  }

  /** The deactivation command keeps the retry fields and takes its date from the command. */
  function RevokeForDeactivation(r: Renewal, occurredAt: int): Renewal {
    Bumped(r.(status := Revoked, saved := None, disabledAt := Some(occurredAt), dispatchPending := false))
  }

  // ---------------------------------------------------------------- pausing and resuming

  datatype Action = Pause | ResumePaused | Revoke | ResumeTechnical

  /** `eligible` stands for the identity, subscription, decryption and price checks. */
  function AdminAction(r: Renewal, action: Action, eligible: bool, retryPaymentFound: bool, now: int): Option<Renewal> {
    match action
    case Pause => if r.status != Active then None else Some(Bumped(r.(status := AdminPaused, disabledAt := Some(now))))
    case ResumePaused =>
      if r.status != AdminPaused || !eligible || r.saved.None? || r.pendingAmount.Some? then None
      else Some(Bumped(r.(status := Active, disabledAt := None)))
    case Revoke => Some(if r.status == Revoked then r else Withdraw(r, Revoked, now))
    case ResumeTechnical =>
      if r.status != TechnicalPause || !DeliveryError(r.errorCode) || !eligible || r.saved.None? || r.pendingAmount.Some? || !retryPaymentFound
      then None
      else Some(Bumped(r.(status := Active, disabledAt := None, errorCode := "")))
  }

  function Reconcile(r: Renewal, amount: nat, technicalError: Option<string>, now: int): Renewal {
    var priced := if amount != r.amount then r.(pendingAmount := Some(amount)) else r;
    var checked :=
      if technicalError.Some? && !Withdrawn(r)
      then priced.(status := TechnicalPause, disabledAt := Some(now), errorCode := technicalError.value)
      else priced;
    if amount == r.amount && (technicalError.None? || Withdrawn(r)) then r else Bumped(checked)
  }

  function PauseInvalid(r: Renewal, code: string, now: int): Renewal {
    Bumped(r.(status := TechnicalPause, nextRetryAt := None, dispatchPending := false, disabledAt := Some(now), errorCode := code))
  }

  function ConfirmPrice(r: Renewal, currentAmount: nat, eligible: bool, now: int): Option<Renewal> {
    if r.pendingAmount != Some(currentAmount) || Withdrawn(r) || !eligible then None
    else Some(Bumped(r.(amount := currentAmount, pendingAmount := None, consentedAt := now)))
  }

  function RequirePrice(r: Renewal, amount: nat): Renewal {
    if r.pendingAmount == Some(amount) then r else Bumped(r.(pendingAmount := Some(amount)))
  }

  /** A tariff change asks for confirmation, or withdraws the question if the old price is back. */
  function ReviewPrice(r: Renewal, amount: nat): Renewal {
    if Withdrawn(r) then r
    else if r.amount != amount then RequirePrice(r, amount)
    else if r.pendingAmount.Some? then Bumped(r.(pendingAmount := None))
    else r
  }

  // ---------------------------------------------------------------- charging and retrying

  predicate RetryableReason(reason: string) {
    reason == "insufficient_funds" || reason == "issuer_unavailable"
  }

  /** The payment is the one this renewal is currently waiting for. */
  predicate CurrentCharge(r: Renewal, p: Payment) {
    p.consentedAt == Some(r.consentedAt) && p.cycle == Some(CycleKey(p.user, r.nextChargeAt, r.retryAttempt))
  }

  predicate SchedulesRetry(r: Renewal, p: Payment, reason: string) {
    p.kind == Recurring && r.status == Active && CurrentCharge(r, p) && RetryableReason(reason) && r.retryAttempt < |RETRY_DELAYS|
  }

  function AfterCancellation(r: Renewal, p: Payment, reason: string, now: int): Renewal {
    if p.kind != Recurring || r.status != Active || !CurrentCharge(r, p) then r
    else if SchedulesRetry(r, p, reason) then
      var startedAt := if r.retryStartedAt.Some? then r.retryStartedAt.value else now;
      Bumped(r.(retryStartedAt := Some(startedAt), retryAttempt := r.retryAttempt + 1,
                nextRetryAt := Some(startedAt + RETRY_DELAYS[r.retryAttempt]),
                dispatchPending := false, disabledAt := None, errorCode := reason))
    else if reason == "permission_revoked" then
      Bumped(r.(status := Revoked, disabledAt := Some(now), nextRetryAt := None, dispatchPending := false,
                errorCode := reason, saved := None))
    else
      Bumped(r.(status := TechnicalPause, disabledAt := Some(now), nextRetryAt := None, dispatchPending := false, errorCode := reason))
  }

  function CloseExpiredWindow(r: Renewal, now: int): Renewal {
    PauseInvalid(r, "CHARGE_WINDOW_EXPIRED", now)
  }

  function FollowSubscription(r: Renewal, expiresAt: int): Renewal {
    Bumped(if r.nextRetryAt.Some? then WithoutRetries(r).(nextChargeAt := expiresAt, errorCode := "")
           else r.(nextChargeAt := expiresAt))
  }

  function Enqueue(r: Renewal): Renewal {
    Bumped(r.(dispatchPending := true))
  }

  // ---------------------------------------------------------------- success

  predicate GrantsRenewal(prior: Option<Renewal>, p: Payment, saved: Option<string>) {
    && p.kind == OneTime && p.autoRenew && p.status !in {Cancelled, Expired} && saved.Some?
    && p.consentedAt.Some? && p.consentComplete
    && !(prior.Some? && prior.value.status != Active && prior.value.disabledAt.Some? && prior.value.disabledAt.value >= p.consentedAt.value)
  }

  /** The renewal after a payment succeeded; `p` is the payment row before the success. */
  function AfterSuccess(prior: Option<Renewal>, p: Payment, saved: Option<string>, expiresAt: int): Option<Renewal>
    requires p.plan.Some? && p.period.Some?
  {
    if p.kind == Recurring && prior.Some? then
      var r := prior.value;
      var settled := Bumped(WithoutRetries(r).(nextChargeAt := expiresAt, errorCode := ""));
      Some(if r.status == TechnicalPause && DeliveryError(r.errorCode)
           then settled.(status := Active, disabledAt := None) else settled)
    else if GrantsRenewal(prior, p, saved) then
      Some(Renewal(Active, p.plan.value, p.period.value, p.amount, None, p.currency, saved, p.consentedAt.value, expiresAt,
                   None, 0, None, false, None, "", if prior.Some? then prior.value.version + 1 else 1))
    else if p.kind == OneTime && prior.Some? && prior.value.status == Active then
      Some(Bumped(WithoutRetries(prior.value).(nextChargeAt := expiresAt, errorCode := "")))
    else prior
  }

  // ---------------------------------------------------------------- what every transaction keeps

  predicate Consistent(r: Renewal) {
    && (Withdrawn(r) ==> r.saved.None?)
    && (r.status == Active <==> r.disabledAt.None?)
    && r.retryAttempt <= |RETRY_DELAYS|
    && (r.retryAttempt > 0 <==> r.retryStartedAt.Some?)
    && (r.nextRetryAt.Some? ==>
          r.retryAttempt > 0 && r.nextRetryAt.value == r.retryStartedAt.value + RETRY_DELAYS[r.retryAttempt - 1])
  }

  /** A transaction other than a granted checkout: consent stays withdrawn, retries are counted. */
  predicate Ordinary(r: Renewal, r': Renewal, retries: bool := false) {
    && (Withdrawn(r) ==> Withdrawn(r'))
    && (if retries then r'.retryAttempt == r.retryAttempt + 1 else r'.retryAttempt == r.retryAttempt || r'.retryAttempt == 0)
  }

  /** A checkout that grants consent again, given strictly after the recorded withdrawal. */
  predicate Regranted(r: Renewal, r': Renewal) {
    && r'.status == Active && r'.retryAttempt == 0
    && (r.status != Active && r.disabledAt.Some? ==> r'.consentedAt > r.disabledAt.value)
  }

  predicate Follows(r: Renewal, r': Renewal, retries: bool := false) {
    (Consistent(r) ==> Consistent(r')) && Ordinary(r, r', retries)
  }

  lemma WithdrawalsFollow(r: Renewal, now: int)
    ensures Follows(r, DisableByUser(r, now))
    ensures Follows(r, RevokeForAdminCancellation(r, now))
    ensures Follows(r, RevokeForDeactivation(r, now))
    ensures Follows(r, Withdraw(r, Revoked, now))
  {
  }

  lemma AdminActionsFollow(r: Renewal, action: Action, eligible: bool, found: bool, now: int)
    requires AdminAction(r, action, eligible, found, now).Some?
    ensures Follows(r, AdminAction(r, action, eligible, found, now).value)
  {
  }

  lemma ReconcileFollows(r: Renewal, amount: nat, error: Option<string>, now: int)
    ensures Follows(r, Reconcile(r, amount, error, now))
  {
  }

  lemma PauseFollows(r: Renewal, code: string, now: int)
    requires r.status == Active
    ensures Follows(r, PauseInvalid(r, code, now))
  {
  }

  lemma PricingFollows(r: Renewal, amount: nat, eligible: bool, now: int)
    ensures Follows(r, RequirePrice(r, amount))
    ensures Follows(r, ReviewPrice(r, amount))
    ensures ConfirmPrice(r, amount, eligible, now).Some? ==> Follows(r, ConfirmPrice(r, amount, eligible, now).value)
  {
  }

  lemma SchedulingFollows(r: Renewal, expiresAt: int)
    ensures Follows(r, FollowSubscription(r, expiresAt))
    ensures Follows(r, Enqueue(r))
  {
  }

  lemma CancellationFollows(r: Renewal, p: Payment, reason: string, now: int)
    ensures Follows(r, AfterCancellation(r, p, reason, now), SchedulesRetry(r, p, reason))
    ensures Consistent(r) && RetryableReason(reason) && r.retryAttempt == |RETRY_DELAYS| && r.status == Active &&
            p.kind == Recurring && CurrentCharge(r, p)
            ==> AfterCancellation(r, p, reason, now).status == TechnicalPause
  {
  }

  /** A success starts a renewal, regrants one, or is an ordinary step of it. */
  lemma SuccessFollows(prior: Option<Renewal>, p: Payment, saved: Option<string>, expiresAt: int)
    requires p.plan.Some? && p.period.Some?
    ensures var next := AfterSuccess(prior, p, saved, expiresAt);
            && (prior.Some? ==> next.Some?)
            && (prior.None? && next.Some? ==> next.value.retryAttempt == 0)
            && ((prior.Some? ==> Consistent(prior.value)) && next.Some? ==> Consistent(next.value))
            && (prior.Some? ==> Ordinary(prior.value, next.value) ||
                                (GrantsRenewal(prior, p, saved) && Regranted(prior.value, next.value)))
  {
  }
}
