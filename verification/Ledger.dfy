/**
 * The billing ledger: every payment, renewal, subscription and referral row, the source sequence
 * and the payment events of the outbox, and one atomic step for each transaction on them.
 *
 * A transaction that throws leaves the state as it was. Everything a transaction learns from
 * outside the ledger (the clock, identity checks, prices, the provider's answers) is part of the
 * event that triggers it, so a run is a sequence of events.
 */
module Ledger {
  import opened Common
  import opened Dispatch
  import opened Renewal
  import opened PaidTime
  import Calendar

  type PaymentId = nat

  /** The part of a payment-changed event that downstream projections keep. */
  datatype PaymentEvent = PaymentEvent(id: PaymentId, version: nat, sequence: nat, status: Status, amount: nat)

  datatype ReferralStatus = Registered | RewardPending | ReferralCancelled

  datatype Referral = Referral(status: ReferralStatus, firstPayment: Option<PaymentId>, paymentAmount: nat, percent: nat, cashback: nat)

  /**
   * `created` lists the payments in order of creation; `grants` lists the payments whose success
   * extended a subscription, in order.
   */
  datatype State = State(
    cells: map<PaymentId, Cell>,
    created: seq<PaymentId>,
    renewals: map<UserId, Renewal>,
    subscriptions: map<UserId, Subscription>,
    referrals: map<UserId, Referral>,
    nextSequence: nat,
    outbox: seq<PaymentEvent>,
    grants: seq<PaymentId>)

  const Empty := State(map[], [], map[], map[], map[], 1, [], [])

  predicate Distinct(ids: seq<PaymentId>) {
    forall i, j | 0 <= i < j < |ids| :: ids[i] != ids[j]
  }

  // ---------------------------------------------------------------- writing rows

  /** A payment row is written together with its next version, a fresh sequence number and its event. */
  function Write(s: State, id: PaymentId, c: Cell): State {
    var version := (if id in s.cells then s.cells[id].payment.version else 0) + 1;
    var p := c.payment.(version := version, sequence := s.nextSequence);
    s.(cells := s.cells[id := c.(payment := p)],
       nextSequence := s.nextSequence + 1,
       outbox := s.outbox + [PaymentEvent(id, version, s.nextSequence, p.status, p.amount)])
  }

  function Commit(s: State, id: PaymentId, change: Change): State {
    match change
    case Refused => s
    case Unchanged => s
    case Touched(c) => s.(cells := s.cells[id := c])
    case Written(c) => Write(s, id, c)
  }

  function Insert(s: State, id: PaymentId, c: Cell): State {
    Write(s, id, c).(created := s.created + [id])
  }

  predicate Free(s: State, id: PaymentId, provider: ProviderId) {
    forall other | other in s.cells && other != id :: s.cells[other].payment.providerId != Some(provider)
  }

  // ---------------------------------------------------------------- checkouts

  datatype Checkout = Checkout(user: UserId, plan: Plan, period: Calendar.Period, autoRenew: bool, amount: nat, consentComplete: bool)

  /** An open payment of the user stands in the way of another checkout. */
  predicate Blocks(c: Cell, user: UserId, now: int) {
    && c.payment.user == user && c.payment.status == Pending
    && (c.payment.kind == Recurring || c.payment.checkoutExpiresAt > now || Ambiguous(c.creation) || Ambiguous(c.lookup))
  }

  function CreateCheckout(s: State, id: PaymentId, order: Checkout, accepted: bool, now: int): State {
    if id in s.cells || !accepted || order.plan == Trial
       || (exists other | other in s.cells :: Blocks(s.cells[other], order.user, now))
    then s
    else
      Insert(s, id, NewCheckout(order, now))
  }

  function NewCheckout(order: Checkout, now: int): Cell {
    Cell(Payment(order.user, OneTime, Pending, None, Creating, None, order.amount, "RUB", Some(order.plan), Some(order.period),
                 order.autoRenew, if order.autoRenew then Some(now) else None, order.consentComplete, None, now + 60 * 60 * 1000,
                 None, "", 0, 0), Some(NewOperation(now)), None, false, false)
  }

  // ---------------------------------------------------------------- loops over a user's payments

  datatype Sweep = FutureSweep(user: UserId, reason: string) | AdminSweep(user: UserId, reason: string) | DeactivationSweep(user: UserId)

  function SweepOne(c: Cell, sweep: Sweep): Change {
    match sweep
    case FutureSweep(user, reason) => ClearFuture(c, user, reason)
    case AdminSweep(user, reason) => ClearForAdmin(c, user, reason)
    case DeactivationSweep(user) => Deactivate(c, user)
  }

  /** The loop over the payments in order of creation. */
  function SweepAll(s: State, sweep: Sweep, ids: seq<PaymentId>): State {
    if ids == [] then s
    else
      var before := SweepAll(s, sweep, ids[..|ids| - 1]);
      var id := ids[|ids| - 1];
      if id in before.cells then Commit(before, id, SweepOne(before.cells[id], sweep)) else before
  }

  // ---------------------------------------------------------------- withdrawing a renewal

  function DisableRenewal(s: State, user: UserId, now: int): State {
    if user !in s.renewals then s
    else SweepAll(s.(renewals := s.renewals[user := DisableByUser(s.renewals[user], now)]),
                  FutureSweep(user, "user_disabled_before_provider_call"), s.created)
  }

  function ActOnRenewal(s: State, user: UserId, action: Action, eligible: bool, found: bool, now: int): State {
    if user !in s.renewals then s
    else
      match AdminAction(s.renewals[user], action, eligible, found, now)
      case None => s
      case Some(r) =>
        var s' := s.(renewals := s.renewals[user := r]);
        if action == Revoke then SweepAll(s', FutureSweep(user, "consent_revoked_before_provider_call"), s.created) else s'
  }

  function CancelSubscription(s: State, user: UserId, now: int): State {
    var s' := if user in s.renewals
              then s.(renewals := s.renewals[user := RevokeForAdminCancellation(s.renewals[user], now)]) else s;
    SweepAll(s', AdminSweep(user, "admin_cancelled"), s.created)
  }

  function DeactivateUser(s: State, user: UserId, occurredAt: int): State {
    var s' := if user in s.renewals
              then s.(renewals := s.renewals[user := RevokeForDeactivation(s.renewals[user], occurredAt)]) else s;
    SweepAll(s', DeactivationSweep(user), s.created)
  }

  function UpdateRenewal(s: State, user: UserId, r: Option<Renewal>): State {
    if r.None? then s else s.(renewals := s.renewals[user := r.value])
  }

  // ---------------------------------------------------------------- the charge window

  datatype CloseResult = Closed | AlreadyClosed | ReconciliationRequired | NotExpired

  function CloseExpiredDispatch(s: State, id: PaymentId, user: UserId, cycle: CycleKey, now: int, claim: Option<Token>): (CloseResult, State) {
    if id !in s.cells || user !in s.renewals then (ReconciliationRequired, s)
    else
      var c, r := s.cells[id], s.renewals[user];
      var p := c.payment;
      if p.kind == Recurring && p.cycle == Some(cycle) && p.status == Cancelled && p.providerStatus == NotSent && p.providerId.None?
         && p.saved.None? && p.reason == "CHARGE_WINDOW_EXPIRED" && user == p.user && r.status == TechnicalPause
         && !r.dispatchPending && r.errorCode == "CHARGE_WINDOW_EXPIRED"
      then (AlreadyClosed, s)
      else if p.providerId.Some? || p.kind != Recurring || p.status != Pending
              || p.providerStatus !in (if claim.Some? then {Queued, Creating} else {Queued})
              || p.cycle != Some(cycle) || user != p.user || r.status != Active || !r.dispatchPending
              || p.cycle != Some(CycleKey(user, r.nextChargeAt, r.retryAttempt))
      then (ReconciliationRequired, s)
      else if p.checkoutExpiresAt > now then (NotExpired, s)
      else if !SafeToClose(c, claim) then (ReconciliationRequired, s)
      else (Closed, Write(s, id, CloseWindow(c)).(renewals := s.renewals[user := CloseExpiredWindow(r, now)]))
  }

  /** The charge event: close an expired window, or arm the capture operation. */
  function DeliverCharge(s: State, id: PaymentId, user: UserId, cycle: CycleKey, now: int): State {
    match CloseExpiredDispatch(s, id, user, cycle, now, None)
    case (Closed, s') => s'
    case (NotExpired, _) => if id in s.cells then Commit(s, id, ArmCapture(s.cells[id], now)) else s
    case (AlreadyClosed, _) => s
    case (ReconciliationRequired, _) => s
  }

  // ---------------------------------------------------------------- the worker

  predicate RenewalReady(s: State, p: Payment) {
    && p.user in s.renewals && p.user in s.subscriptions
    && var (r, sub) := (s.renewals[p.user], s.subscriptions[p.user]);
    && r.status == Active && r.dispatchPending && r.pendingAmount.None? && r.saved.Some?
    && p.cycle == Some(CycleKey(p.user, r.nextChargeAt, r.retryAttempt))
    && sub.expiresAt.Some? && sub.status in {SubscriptionActive, SubscriptionExpired}
    && sub.plan == r.plan && sub.period == Some(r.period)
  }

  function Judge(s: State, id: PaymentId, token: Token, env: Surroundings): Verdict
    requires id in s.cells
  {
    DispatchCreation(s.cells[id], token, env.(renewalReady := RenewalReady(s, s.cells[id].payment)))
  }

  function DispatchPayment(s: State, id: PaymentId, token: Token, env: Surroundings): State {
    if id !in s.cells then s
    else
      match Judge(s, id, token, env)
      case LeaseLost => s
      case NotPrepared => s
      case Fenced(c) => s.(cells := s.cells[id := c])
      case Uncertainty(c) => Write(s, id, c)
      case AskedAgain(c) => s.(cells := s.cells[id := c])
      case Sent(c) => s.(cells := s.cells[id := c])
      case CloseExpired =>
        var c := s.cells[id];
        var now := if c.payment.checkoutExpiresAt <= env.now then env.now else env.laterNow;
        if c.payment.cycle.None? then s
        else
          match CloseExpiredDispatch(s, id, c.payment.user, c.payment.cycle.value, now, Some(token))
          case (Closed, s') => s'
          case (AlreadyClosed, _) => s
          case (NotExpired, _) => s
          case (ReconciliationRequired, _) => if c.creation.Some? then Write(s, id, MarkUnknown(c, None)) else s
  }

  /** A closed payment's effect on the renewal that waited for it, and on a reward for it. */
  function AfterClose(s: State, id: PaymentId, p: Payment, reason: string, now: int): State {
    var s' := if p.user in s.renewals
              then s.(renewals := s.renewals[p.user := AfterCancellation(s.renewals[p.user], p, reason, now)]) else s;
    CancelReward(s', id, p.user)
  }

  predicate Rewarded(s: State, id: PaymentId, user: UserId) {
    user in s.referrals && s.referrals[user].status == RewardPending && s.referrals[user].firstPayment == Some(id)
  }

  function CancelReward(s: State, id: PaymentId, user: UserId): State {
    if Rewarded(s, id, user)
    then s.(referrals := s.referrals[user := s.referrals[user].(status := ReferralCancelled)], nextSequence := s.nextSequence + 1)
    else s
  }

  function FailDispatch(s: State, id: PaymentId, token: Token, f: Failure): State {
    if id !in s.cells then s
    else
      var c := s.cells[id];
      var change := WorkerFailed(c, token, f);
      var s' := Commit(s, id, change);
      if change.Written? && change.cell.payment.status == Cancelled then AfterClose(s', id, c.payment, f.code, f.now) else s'
  }

  // ---------------------------------------------------------------- the provider's answers

  function ApplyCancellation(s: State, id: PaymentId, provider: ProviderId, reason: string, now: int): State {
    if id !in s.cells then s
    else
      var c := s.cells[id];
      var change := MarkCancelled(c, provider, reason, Free(s, id, provider));
      var s' := Commit(s, id, change);
      if change.Written? then AfterClose(s', id, c.payment, reason, now) else s'
  }

  function ResolveAsNotFound(s: State, id: PaymentId, now: int): State {
    if id !in s.cells then s
    else
      var c := s.cells[id];
      var change := ResolveUnknown(c, now);
      var s' := Commit(s, id, change);
      if change.Written? then AfterClose(s', id, c.payment, "manual_unknown_provider", now) else s'
  }

  datatype Program = Program(enabled: bool, percent: nat)

  function SucceededOf(cells: map<PaymentId, Cell>, user: UserId, ids: seq<PaymentId>): nat {
    if ids == [] then 0
    else
      var id := ids[|ids| - 1];
      SucceededOf(cells, user, ids[..|ids| - 1]) +
      (if id in cells && cells[id].payment.user == user && cells[id].payment.status == Succeeded then 1 else 0)
  }

  function ApplyAffiliate(s: State, id: PaymentId, user: UserId, amount: nat, program: Program): State {
    if user !in s.referrals || s.referrals[user].status != Registered then s
    else
      var r := s.referrals[user];
      var first := SucceededOf(s.cells, user, s.created) == 1;
      var r' := if !program.enabled || !first then r.(status := ReferralCancelled)
                else Referral(RewardPending, Some(id), amount, program.percent, amount * program.percent / 100);
      s.(referrals := s.referrals[user := r'], nextSequence := s.nextSequence + 1)
  }

  /** The success transaction: payment, subscription, renewal and referral, in this order. */
  function ApplySuccess(s: State, id: PaymentId, provider: ProviderId, amount: nat, currency: string, saved: Option<string>,
                        program: Program, paidAt: int, now: int): State {
    if id !in s.cells then s
    else
      var change := Succeed(s.cells[id], provider, amount, currency, paidAt, Free(s, id, provider));
      if change.Written? then Fulfil(s, id, change.cell, saved, program, now) else s
  }

  /** What a payment's first success brings about; `c` is its cell as it is to be written. */
  function Fulfil(s: State, id: PaymentId, c: Cell, saved: Option<string>, program: Program, now: int): State
    requires id in s.cells && s.cells[id].payment.plan.Some? && s.cells[id].payment.period.Some?
  {
    var p := s.cells[id].payment;
    var s1 := Write(s, id, c);
    var sub := AfterPayment(Lookup(s.subscriptions, p.user), p.plan.value, p.period.value, now);
    var s2 := s1.(subscriptions := s1.subscriptions[p.user := sub], nextSequence := s1.nextSequence + 1, grants := s1.grants + [id]);
    var s3 := UpdateRenewal(s2, p.user, AfterSuccess(Lookup(s.renewals, p.user), p, saved, sub.expiresAt.value));
    ApplyAffiliate(s3, id, p.user, p.amount, program)
  }

  // ---------------------------------------------------------------- the scheduler

  datatype Schedule = Schedule(enabled: bool, enabledAt: int, identityActive: bool, hasContact: bool, currentAmount: nat, now: int)

  function FindCycle(cells: map<PaymentId, Cell>, ids: seq<PaymentId>, key: CycleKey): (r: Option<PaymentId>)
    ensures r.Some? ==> r.value in cells && cells[r.value].payment.cycle == Some(key)
    ensures r.None? ==> forall id | id in ids && id in cells :: cells[id].payment.cycle != Some(key)
  {
    if ids == [] then None
    else if ids[0] in cells && cells[ids[0]].payment.cycle == Some(key) then Some(ids[0])
    else FindCycle(cells, ids[1..], key)
  }

  predicate BlocksCharge(c: Cell, user: UserId, now: int) {
    && c.payment.user == user
    && (if c.payment.kind == Recurring
        then c.payment.status == Pending || (c.payment.status == Cancelled && c.payment.providerStatus == Reported("pending"))
             || (c.payment.status == Expired && (c.payment.providerId.None? || c.payment.providerStatus == Reported("pending")))
        else c.payment.status == Pending && c.payment.checkoutExpiresAt > now)
  }

  function ChargeDeadline(now: int, dueAt: int, isRetry: bool): int {
    if isRetry then dueAt + RETRY_DISPATCH_GRACE
    else if now + RETRY_WINDOW <= dueAt + DUE_GRACE then now + RETRY_WINDOW else dueAt + DUE_GRACE
  }

  /** What the scheduler decides about one renewal: nothing to do, a new row, or a charge. */
  datatype Screening = Idle | Row(row: Renewal) | Charge(attempt: nat, until: int)

  function Screen(r: Renewal, sub: Option<Subscription>, e: Schedule): Screening {
    var isRetry := r.nextRetryAt.Some?;
    var attempt := if isRetry then r.retryAttempt else 0;
    var dueAt := if isRetry then r.nextRetryAt.value else r.nextChargeAt;
    var pause := (code: string) => Row(PauseInvalid(r, code, e.now));
    if r.status != Active || r.pendingAmount.Some? || r.dispatchPending || dueAt > e.now
       || (isRetry && !(1 <= attempt <= |RETRY_DELAYS|)) then Idle
    else if dueAt < e.enabledAt then pause("CHARGE_MISSED_DURING_GLOBAL_PAUSE")
    else if !e.identityActive then Row(Withdraw(r, Revoked, e.now))
    else if sub.None? || sub.value.expiresAt.None? || sub.value.status == SubscriptionCancelled
            || sub.value.plan != r.plan || sub.value.period != Some(r.period)
    then pause("SUBSCRIPTION_STATE_MISMATCH")
    else if sub.value.expiresAt.value - r.nextChargeAt > CHARGE_DATE_DRIFT || r.nextChargeAt - sub.value.expiresAt.value > CHARGE_DATE_DRIFT
    then Row(FollowSubscription(r, sub.value.expiresAt.value))
    else if e.now - dueAt > (if isRetry then RETRY_DISPATCH_GRACE else DUE_GRACE) then pause("CHARGE_WINDOW_MISSED")
    else if e.currentAmount != r.amount then Row(RequirePrice(r, e.currentAmount))
    else if r.saved.None? then pause("PAYMENT_METHOD_MISSING")
    else if !e.hasContact then pause("RECEIPT_CONTACT_MISSING")
    else Charge(attempt, ChargeDeadline(e.now, dueAt, isRetry))
  }

  /** The scheduler's transaction for one due renewal; `id` names the payment it may create. */
  function ScheduleCharge(s: State, user: UserId, id: PaymentId, e: Schedule): State {
    if user !in s.renewals || id in s.cells || !e.enabled then s
    else
      match Screen(s.renewals[user], Lookup(s.subscriptions, user), e)
      case Idle => s
      case Row(r) => s.(renewals := s.renewals[user := r])
      case Charge(attempt, until) => TakeUpCharge(s, user, id, attempt, until, e.now)
  }

  /** The payment of a cycle that is due: the one there is, if it was never sent, or a new one. */
  function TakeUpCharge(s: State, user: UserId, id: PaymentId, attempt: nat, until: int, now: int): State
    requires user in s.renewals
  {
    var r := s.renewals[user];
    var key := CycleKey(user, r.nextChargeAt, attempt);
    match FindCycle(s.cells, s.created, key)
    case Some(existing) =>
      var change := Resume(s.cells[existing], r.amount, r.currency, r.plan, r.period, r.consentedAt, r.saved, until);
      if change.Written? then Write(s, existing, change.cell).(renewals := s.renewals[user := Enqueue(r)])
      else s.(renewals := s.renewals[user := PauseInvalid(r, "RECURRING_CYCLE_STATE_CONFLICT", now)])
    case None =>
      if exists other | other in s.cells :: BlocksCharge(s.cells[other], user, now)
      then s.(renewals := s.renewals[user := PauseInvalid(r, "OTHER_PAYMENT_IN_PROGRESS", now)])
      else Insert(s, id, NewCharge(user, key, r, until)).(renewals := s.renewals[user := Enqueue(r)])
  }

  function NewCharge(user: UserId, key: CycleKey, r: Renewal, until: int): Cell {
    Cell(Payment(user, Recurring, Pending, None, Queued, Some(key), r.amount, r.currency, Some(r.plan), Some(r.period),
                 true, Some(r.consentedAt), true, r.saved, until, None, "", 0, 0), None, None, false, false)
  }

  // ---------------------------------------------------------------- referrals

  predicate SuccessOf(s: State, id: PaymentId, user: UserId) {
    id in s.cells && s.cells[id].payment.user == user && s.cells[id].payment.status == Succeeded && s.cells[id].payment.paidAt.Some?
  }

  function Position(ids: seq<PaymentId>, id: PaymentId): nat {
    if ids == [] then 0 else if ids[0] == id then 0 else 1 + Position(ids[1..], id)
  }

  /** One success was paid before another, or at the same time and was created no later. */
  predicate Precedes(s: State, id: PaymentId, other: PaymentId, user: UserId)
    requires SuccessOf(s, id, user) && SuccessOf(s, other, user)
  {
    var (a, b) := (s.cells[id].payment.paidAt.value, s.cells[other].payment.paidAt.value);
    a < b || (a == b && Position(s.created, id) <= Position(s.created, other))
  }

  /** The user's first success among the given payments. */
  predicate Earliest(s: State, user: UserId, id: PaymentId, among: seq<PaymentId>) {
    && id in among && SuccessOf(s, id, user)
    && forall other | other in among && SuccessOf(s, other, user) :: Precedes(s, id, other, user)
  }

  /** A late registration rewards the earliest success if the user has already paid. */
  function RegisterReferral(s: State, user: UserId, first: Option<PaymentId>, inTime: bool, program: Program): State {
    if user in s.referrals || !program.enabled || !inTime then s
    else
      match first
      case None =>
        if SucceededOf(s.cells, user, s.created) > 0 then s
        else s.(referrals := s.referrals[user := Referral(Registered, None, 0, 0, 0)], nextSequence := s.nextSequence + 1)
      case Some(id) =>
        if !Earliest(s, user, id, s.created) then s
        else
          var amount := s.cells[id].payment.amount;
          s.(referrals := s.referrals[user := Referral(RewardPending, first, amount, program.percent, amount * program.percent / 100)],
             nextSequence := s.nextSequence + 1)
  }

  // ---------------------------------------------------------------- events and runs

  datatype Event =
    | CheckoutRequested(id: PaymentId, order: Checkout, accepted: bool, now: int)
    | UserCancelled(id: PaymentId, user: UserId)
    | CheckoutExpired(id: PaymentId, now: int)
    | RenewalDisabled(user: UserId, now: int)
    | RenewalActed(user: UserId, action: Action, eligible: bool, found: bool, now: int)
    | RenewalReconciled(user: UserId, amount: nat, error: Option<string>, now: int)
    | PriceConfirmed(user: UserId, amount: nat, eligible: bool, now: int)
    | TariffChanged(user: UserId, amount: nat)
    | SubscriptionWithdrawn(user: UserId, now: int)
    | UserDeactivated(user: UserId, occurredAt: int)
    | ChargeScheduled(user: UserId, id: PaymentId, schedule: Schedule)
    | ChargeDelivered(id: PaymentId, user: UserId, cycle: CycleKey, now: int)
    | OperationClaimed(id: PaymentId, token: Token, now: int)
    | PaymentDispatched(id: PaymentId, token: Token, env: Surroundings)
    | DispatchFailed(id: PaymentId, token: Token, failure: Failure)
    | DispatchCompleted(id: PaymentId, token: Token)
    | ProviderBound(id: PaymentId, provider: ProviderId, text: string, expiresAt: Option<int>, now: int)
    | ProviderCancelled(id: PaymentId, provider: ProviderId, reason: string, now: int)
    | ProviderSucceeded(id: PaymentId, provider: ProviderId, amount: nat, currency: string, saved: Option<string>, program: Program, paidAt: int, now: int)
    | DeveloperResolved(id: PaymentId, now: int)
    | LookupQueued(id: PaymentId, now: int)
    | LookupMoved(id: PaymentId, status: OpStatus, attempt: nat)
    | ReferralRegistered(user: UserId, first: Option<PaymentId>, inTime: bool, program: Program)
    | SubscriptionSet(user: UserId, row: Subscription)

  /** The events that concern the rows of one payment only. */
  function CellChange(s: State, c: Cell, e: Event): Change {
    match e
    case UserCancelled(_, user) => CancelPending(c, user)
    case CheckoutExpired(_, now) => SettleExpiredCheckout(c, now)
    case OperationClaimed(_, token, now) => Claim(c, token, now)
    case DispatchCompleted(_, token) => WorkerCompleted(c, token)
    case ProviderBound(id, provider, text, expiresAt, now) => Bind(c, provider, text, expiresAt, now, Free(s, id, provider))
    case LookupQueued(_, now) => QueueLookup(c, now)
    case LookupMoved(_, status, attempt) =>
      if c.lookup.Some? then Touched(c.(lookup := Some(c.lookup.value.(status := status, attempt := attempt)))) else Unchanged
    case _ => Unchanged
  }

  predicate Single(e: Event) {
    e.UserCancelled? || e.CheckoutExpired? || e.OperationClaimed? || e.DispatchCompleted? || e.ProviderBound? || e.LookupQueued? || e.LookupMoved?
  }

  function Apply(s: State, e: Event): State {
    match e
    case CheckoutRequested(id, order, accepted, now) => CreateCheckout(s, id, order, accepted, now)
    case RenewalDisabled(user, now) => DisableRenewal(s, user, now)
    case RenewalActed(user, action, eligible, found, now) => ActOnRenewal(s, user, action, eligible, found, now)
    case RenewalReconciled(user, amount, error, now) =>
      if user in s.renewals then UpdateRenewal(s, user, Some(Reconcile(s.renewals[user], amount, error, now))) else s
    case PriceConfirmed(user, amount, eligible, now) =>
      if user in s.renewals then UpdateRenewal(s, user, ConfirmPrice(s.renewals[user], amount, eligible, now)) else s
    case TariffChanged(user, amount) =>
      if user in s.renewals then UpdateRenewal(s, user, Some(ReviewPrice(s.renewals[user], amount))) else s
    case SubscriptionWithdrawn(user, now) => CancelSubscription(s, user, now)
    case UserDeactivated(user, occurredAt) => DeactivateUser(s, user, occurredAt)
    case ChargeScheduled(user, id, schedule) => ScheduleCharge(s, user, id, schedule)
    case ChargeDelivered(id, user, cycle, now) => DeliverCharge(s, id, user, cycle, now)
    case PaymentDispatched(id, token, env) => DispatchPayment(s, id, token, env)
    case DispatchFailed(id, token, failure) => FailDispatch(s, id, token, failure)
    case ProviderCancelled(id, provider, reason, now) => ApplyCancellation(s, id, provider, reason, now)
    case ProviderSucceeded(id, provider, amount, currency, saved, program, paidAt, now) =>
      ApplySuccess(s, id, provider, amount, currency, saved, program, paidAt, now)
    case DeveloperResolved(id, now) => ResolveAsNotFound(s, id, now)
    case ReferralRegistered(user, first, inTime, program) => RegisterReferral(s, user, first, inTime, program)
    case SubscriptionSet(user, row) => s.(subscriptions := s.subscriptions[user := row])
    case UserCancelled(id, _) => ApplyToCell(s, id, e)
    case CheckoutExpired(id, _) => ApplyToCell(s, id, e)
    case OperationClaimed(id, _, _) => ApplyToCell(s, id, e)
    case DispatchCompleted(id, _) => ApplyToCell(s, id, e)
    case ProviderBound(id, _, _, _, _) => ApplyToCell(s, id, e)
    case LookupQueued(id, _) => ApplyToCell(s, id, e)
    case LookupMoved(id, _, _) => ApplyToCell(s, id, e)
  }

  function ApplyToCell(s: State, id: PaymentId, e: Event): State {
    if id in s.cells then Commit(s, id, CellChange(s, s.cells[id], e)) else s
  }

  /** The state after a run of events, in the order in which their transactions commit. */
  function Run(s: State, es: seq<Event>): State {
    if es == [] then s else Apply(Run(s, es[..|es| - 1]), es[|es| - 1])
  }
}
