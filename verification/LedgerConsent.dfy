/** What every run keeps about the renewals: withdrawn consent, and the counting of retries. */
module LedgerConsent {
  import opened Common
  import opened Dispatch
  import opened Renewal
  import opened PaidTime
  import opened Ledger
  import opened LedgerSafety
  import opened LedgerRuns

  predicate RenewalsConsistent(s: State) {
    forall user | user in s.renewals :: Consistent(s.renewals[user])
  }

  /** A successful checkout, still open here, with a complete consent later than the recorded withdrawal. */
  predicate GrantedBy(s: State, e: Event, user: UserId) {
    && e.ProviderSucceeded? && e.id in s.cells && user in s.renewals
    && var (p, r) := (s.cells[e.id].payment, s.renewals[user]);
    && p.user == user && p.kind == OneTime && p.autoRenew && p.status == Pending && e.saved.Some? && p.consentComplete
    && p.consentedAt.Some? && (r.status != Active && r.disabledAt.Some? ==> p.consentedAt.value > r.disabledAt.value)
  }

  /** The payment that an event closes on the provider's or a developer's word, and why. */
  datatype Closing = Closing(id: PaymentId, reason: string)

  function ClosedBy(s: State, e: Event): Option<Closing> {
    match e
    case DispatchFailed(id, token, f) =>
      if id in s.cells && WorkerFailed(s.cells[id], token, f).Written? && WorkerFailed(s.cells[id], token, f).cell.payment.status == Cancelled
      then Some(Closing(id, f.code)) else None
    case ProviderCancelled(id, provider, reason, _) =>
      if id in s.cells && MarkCancelled(s.cells[id], provider, reason, Free(s, id, provider)).Written? then Some(Closing(id, reason)) else None
    case DeveloperResolved(id, now) =>
      if id in s.cells && ResolveUnknown(s.cells[id], now).Written? then Some(Closing(id, "manual_unknown_provider")) else None
    case _ => None
  }

  /** The event schedules a retry of the user's charge. */
  predicate Retries(s: State, e: Event, user: UserId) {
    && ClosedBy(s, e).Some? && ClosedBy(s, e).value.id in s.cells && user in s.renewals
    && var p := s.cells[ClosedBy(s, e).value.id].payment;
    p.user == user && SchedulesRetry(s.renewals[user], p, ClosedBy(s, e).value.reason)
  }

  /** A step from one renewal row to the next. */
  predicate Develops(s: State, e: Event, user: UserId, r: Renewal, r': Renewal) {
    && (Consistent(r) ==> Consistent(r'))
    && (Ordinary(r, r', Retries(s, e, user)) || (GrantedBy(s, e, user) && Regranted(r, r')))
  }

  /** Every row develops, and a new row is consistent and has no retries. */
  predicate RenewalsDevelop(s: State, e: Event, renewals: map<UserId, Renewal>) {
    && (forall user | user in s.renewals :: user in renewals && Develops(s, e, user, s.renewals[user], renewals[user]))
    && (forall user | user in renewals && user !in s.renewals :: Consistent(renewals[user]) && renewals[user].retryAttempt == 0)
  }

  /** At most one row changes, and it follows from the old one. */
  lemma OneFollows(s: State, e: Event, user: UserId, r: Renewal)
    requires user in s.renewals && ClosedBy(s, e).None? && Follows(s.renewals[user], r)
    ensures RenewalsDevelop(s, e, s.renewals[user := r])
  {
    hide Consistent, ClosedBy;
  }

  lemma NoneFollows(s: State, e: Event)
    requires ClosedBy(s, e).None?
    ensures RenewalsDevelop(s, e, s.renewals)
  {
    hide Consistent, ClosedBy;
  }

  /** A withdrawal: one row follows from the old one, and the sweep touches no renewal. */
  lemma WithdrawalDevelops(s: State, e: Event, user: UserId, r: Renewal, sweep: Sweep)
    requires Inv(s) && ClosedBy(s, e).None? && user in s.renewals && Follows(s.renewals[user], r)
    ensures RenewalsDevelop(s, e, SweepAll(s.(renewals := s.renewals[user := r]), sweep, s.created).renewals)
    ensures RenewalsDevelop(s, e, s.renewals[user := r])
  {
    hide Inv, Follows, Advances, SweepAll, RenewalsDevelop, ClosedBy, Seeing;
    OneFollows(s, e, user, r);
    WithdrawalAdvances(s, s.renewals[user := r], sweep);
  }

  lemma WithdrawalsDevelop(s: State, e: Event)
    requires Inv(s)
    requires e.RenewalDisabled? || e.RenewalActed? || e.SubscriptionWithdrawn? || e.UserDeactivated?
    ensures RenewalsDevelop(s, e, Apply(s, e).renewals)
  {
    hide Inv, Follows, Advances, SweepAll, RenewalsDevelop, Seeing, DisableByUser, RevokeForAdminCancellation, RevokeForDeactivation, AdminAction;
    NoneFollows(s, e);
    if e.user !in s.renewals {
      WithdrawalAdvances(s, s.renewals, if e.SubscriptionWithdrawn? then AdminSweep(e.user, "admin_cancelled") else DeactivationSweep(e.user));
      assert s == s.(renewals := s.renewals);
      return;
    }
    var r := s.renewals[e.user];
    match e
    case RenewalDisabled(user, now) =>
      WithdrawalsFollow(r, now);
      WithdrawalDevelops(s, e, user, DisableByUser(r, now), FutureSweep(user, "user_disabled_before_provider_call"));
    case SubscriptionWithdrawn(user, now) =>
      WithdrawalsFollow(r, now);
      WithdrawalDevelops(s, e, user, RevokeForAdminCancellation(r, now), AdminSweep(user, "admin_cancelled"));
    case UserDeactivated(user, now) =>
      WithdrawalsFollow(r, now);
      WithdrawalDevelops(s, e, user, RevokeForDeactivation(r, now), DeactivationSweep(user));
    case RenewalActed(user, action, eligible, found, now) =>
      var r' := AdminAction(r, action, eligible, found, now);
      if r'.Some? {
        AdminActionsFollow(r, action, eligible, found, now);
        WithdrawalDevelops(s, e, user, r'.value, FutureSweep(user, "consent_revoked_before_provider_call"));
      }
  }

  lemma ReviewsDevelop(s: State, e: Event)
    requires e.RenewalReconciled? || e.PriceConfirmed? || e.TariffChanged?
    ensures RenewalsDevelop(s, e, Apply(s, e).renewals)
  {
    hide Consistent, RenewalsDevelop, Ordinary;
    NoneFollows(s, e);
    if e.user in s.renewals {
      var r := s.renewals[e.user];
      match e
      case RenewalReconciled(user, amount, error, now) =>
        ReconcileFollows(r, amount, error, now);
        OneFollows(s, e, user, Reconcile(r, amount, error, now));
      case PriceConfirmed(user, amount, eligible, now) =>
        PricingFollows(r, amount, eligible, now);
        if ConfirmPrice(r, amount, eligible, now).Some? {
          OneFollows(s, e, user, ConfirmPrice(r, amount, eligible, now).value);
        }
      case TariffChanged(user, amount) =>
        PricingFollows(r, amount, true, 0);
        OneFollows(s, e, user, ReviewPrice(r, amount));
    }
  }

  lemma ScreeningFollows(r: Renewal, sub: Option<Subscription>, e: Schedule)
    ensures Screen(r, sub, e).Row? ==> Follows(r, Screen(r, sub, e).row)
    ensures !Screen(r, sub, e).Idle? ==> r.status == Active
  {
    hide Follows, PauseInvalid, RequirePrice, FollowSubscription, Withdraw, ChargeDeadline;
    if Screen(r, sub, e).Row? {
      WithdrawalsFollow(r, e.now);
      PricingFollows(r, e.currentAmount, true, 0);
      PauseFollows(r, "CHARGE_MISSED_DURING_GLOBAL_PAUSE", e.now);
      PauseFollows(r, "SUBSCRIPTION_STATE_MISMATCH", e.now);
      PauseFollows(r, "CHARGE_WINDOW_MISSED", e.now);
      PauseFollows(r, "PAYMENT_METHOD_MISSING", e.now);
      PauseFollows(r, "RECEIPT_CONTACT_MISSING", e.now);
      if sub.Some? && sub.value.expiresAt.Some? {
        SchedulingFollows(r, sub.value.expiresAt.value);
      }
    }
  }

  lemma SchedulingDevelops(s: State, e: Event)
    requires e.ChargeScheduled?
    ensures RenewalsDevelop(s, e, Apply(s, e).renewals)
  {
    hide Follows, RenewalsDevelop, Screen, PauseInvalid, Enqueue, Resume, BlocksCharge, FindCycle;
    NoneFollows(s, e);
    if e.user in s.renewals {
      var user, r := e.user, s.renewals[e.user];
      ScreeningFollows(r, Lookup(s.subscriptions, user), e.schedule);
      match Screen(r, Lookup(s.subscriptions, user), e.schedule)
      case Idle =>
      case Row(r') => OneFollows(s, e, user, r');
      case Charge(_, _) =>
        SchedulingFollows(r, 0);
        PauseFollows(r, "RECURRING_CYCLE_STATE_CONFLICT", e.schedule.now);
        PauseFollows(r, "OTHER_PAYMENT_IN_PROGRESS", e.schedule.now);
        OneFollows(s, e, user, Enqueue(r));
        OneFollows(s, e, user, PauseInvalid(r, "RECURRING_CYCLE_STATE_CONFLICT", e.schedule.now));
        OneFollows(s, e, user, PauseInvalid(r, "OTHER_PAYMENT_IN_PROGRESS", e.schedule.now));
    }
  }

  /** Closing an expired window pauses an active renewal. */
  lemma ClosedRow(s: State, e: Event, id: PaymentId, user: UserId, cycle: CycleKey, now: int, claim: Option<Token>)
    requires ClosedBy(s, e).None?
    ensures RenewalsDevelop(s, e, CloseExpiredDispatch(s, id, user, cycle, now, claim).1.renewals)
  {
    hide Follows, RenewalsDevelop, ClosedBy, SafeToClose, CloseWindow, PauseInvalid;
    NoneFollows(s, e);
    if CloseExpiredDispatch(s, id, user, cycle, now, claim).0 == Closed {
      var r := s.renewals[user];
      PauseFollows(r, "CHARGE_WINDOW_EXPIRED", now);
      OneFollows(s, e, user, CloseExpiredWindow(r, now));
    }
  }

  lemma WindowsDevelop(s: State, e: Event)
    requires e.ChargeDelivered? || e.PaymentDispatched?
    ensures RenewalsDevelop(s, e, Apply(s, e).renewals)
  {
    hide RenewalsDevelop, CloseExpiredDispatch, DispatchCreation, RenewalReady, ArmCapture, MarkUnknown;
    NoneFollows(s, e);
    match e
    case ChargeDelivered(id, user, cycle, now) =>
      ClosedRow(s, e, id, user, cycle, now, None);
    case PaymentDispatched(id, token, env) =>
      if id in s.cells && s.cells[id].payment.cycle.Some? {
        var p := s.cells[id].payment;
        ClosedRow(s, e, id, p.user, p.cycle.value, if p.checkoutExpiresAt <= env.now then env.now else env.laterNow, Some(token));
      }
  }

  /** A closed payment's renewal retries, pauses or is revoked; the other rows stay. */
  lemma ClosingDevelops(s: State, e: Event, s1: State, id: PaymentId, reason: string, now: int)
    requires id in s.cells && s1.renewals == s.renewals
    requires ClosedBy(s, e) == Some(Closing(id, reason))
    ensures RenewalsDevelop(s, e, AfterClose(s1, id, s.cells[id].payment, reason, now).renewals)
  {
    hide AfterCancellation, SchedulesRetry, Rewarded, ClosedBy, Develops;
    var p := s.cells[id].payment;
    var renewals := AfterClose(s1, id, p, reason, now).renewals;
    forall user | user in s.renewals ensures user in renewals && Develops(s, e, user, s.renewals[user], renewals[user]) {
      ClosedRowDevelops(s, e, id, user, reason, now);
    }
  }

  lemma ClosedRowDevelops(s: State, e: Event, id: PaymentId, user: UserId, reason: string, now: int)
    requires id in s.cells && user in s.renewals && ClosedBy(s, e) == Some(Closing(id, reason))
    ensures var p, r := s.cells[id].payment, s.renewals[user];
            Develops(s, e, user, r, if user == p.user then AfterCancellation(r, p, reason, now) else r)
  {
    hide AfterCancellation, SchedulesRetry, ClosedBy, GrantedBy, Consistent;
    CancellationFollows(s.renewals[user], s.cells[id].payment, reason, now);
  }

  lemma ClosingsDevelop(s: State, e: Event)
    requires e.DispatchFailed? || e.ProviderCancelled? || e.DeveloperResolved?
    ensures RenewalsDevelop(s, e, Apply(s, e).renewals)
  {
    hide RenewalsDevelop, AfterClose, WorkerFailed, MarkCancelled, ResolveUnknown, Free;
    if ClosedBy(s, e).None? {
      NoneFollows(s, e);
      return;
    }
    var id := e.id;
    match e
    case DispatchFailed(_, token, f) =>
      ClosingDevelops(s, e, Commit(s, id, WorkerFailed(s.cells[id], token, f)), id, f.code, f.now);
    case ProviderCancelled(_, provider, reason, now) =>
      ClosingDevelops(s, e, Commit(s, id, MarkCancelled(s.cells[id], provider, reason, Free(s, id, provider))), id, reason, now);
    case DeveloperResolved(_, now) =>
      ClosingDevelops(s, e, Commit(s, id, ResolveUnknown(s.cells[id], now)), id, "manual_unknown_provider", now);
  }

  lemma SuccessDevelops(s: State, e: Event)
    requires e.ProviderSucceeded?
    ensures RenewalsDevelop(s, e, Apply(s, e).renewals)
  {
    hide RenewalsDevelop, AfterSuccess, AfterPayment, ApplyAffiliate, Consistent;
    NoneFollows(s, e);
    if Apply(s, e) != s {
      var p := s.cells[e.id].payment;
      var sub := AfterPayment(Lookup(s.subscriptions, p.user), p.plan.value, p.period.value, e.now);
      var prior := Lookup(s.renewals, p.user);
      var next := AfterSuccess(prior, p, e.saved, sub.expiresAt.value);
      AffiliateKeepsRenewals(s, e, next);
      SuccessFollows(prior, p, e.saved, sub.expiresAt.value);
      SucceededRow(s, e, next);
    }
  }

  lemma AffiliateKeepsRenewals(s: State, e: Event, next: Option<Renewal>)
    requires e.ProviderSucceeded? && Apply(s, e) != s
    requires var p := s.cells[e.id].payment;
             next == AfterSuccess(Lookup(s.renewals, p.user), p, e.saved,
                                  AfterPayment(Lookup(s.subscriptions, p.user), p.plan.value, p.period.value, e.now).expiresAt.value)
    ensures Apply(s, e).renewals == if next.None? then s.renewals else s.renewals[s.cells[e.id].payment.user := next.value]
  {
    hide AfterSuccess, AfterPayment;
  }

  lemma SucceededRow(s: State, e: Event, next: Option<Renewal>)
    requires e.ProviderSucceeded? && e.id in s.cells && s.cells[e.id].payment.status != Succeeded
    requires var p, prior := s.cells[e.id].payment, Lookup(s.renewals, s.cells[e.id].payment.user);
             && (prior.Some? ==> next.Some?)
             && (prior.None? && next.Some? ==> next.value.retryAttempt == 0)
             && ((prior.Some? ==> Consistent(prior.value)) && next.Some? ==> Consistent(next.value))
             && (prior.Some? ==> Ordinary(prior.value, next.value) ||
                                 (GrantsRenewal(prior, p, e.saved) && Regranted(prior.value, next.value)))
    ensures RenewalsDevelop(s, e, if next.None? then s.renewals else s.renewals[s.cells[e.id].payment.user := next.value])
  {
    hide Consistent;
  }

  /** After a first success an active renewal charges next when the extended subscription ends, with no retry under way. */
  lemma SuccessAlignsDates(s: State, e: Event)
    requires e.ProviderSucceeded? && Apply(s, e) != s
    ensures var (s', user) := (Apply(s, e), s.cells[e.id].payment.user);
            && user in s'.subscriptions && s'.subscriptions[user].expiresAt.Some?
            && (user in s'.renewals && s'.renewals[user].status == Active ==>
                  && s'.renewals[user].nextChargeAt == s'.subscriptions[user].expiresAt.value
                  && s'.renewals[user].retryAttempt == 0 && !s'.renewals[user].dispatchPending)
  {
    hide AfterSuccess, AfterPayment;
    var p := s.cells[e.id].payment;
    var sub := AfterPayment(Lookup(s.subscriptions, p.user), p.plan.value, p.period.value, e.now);
    var next := AfterSuccess(Lookup(s.renewals, p.user), p, e.saved, sub.expiresAt.value);
    AffiliateKeepsRenewals(s, e, next);
    SettledRows(Lookup(s.renewals, p.user), p, e.saved, sub.expiresAt.value);
  }

  lemma SettledRows(prior: Option<Renewal>, p: Payment, saved: Option<string>, expiresAt: int)
    requires p.plan.Some? && p.period.Some?
    ensures var next := AfterSuccess(prior, p, saved, expiresAt);
            && (next.None? ==> prior.None?)
            && (next.Some? && next.value.status == Active ==>
                  next.value.nextChargeAt == expiresAt && next.value.retryAttempt == 0 && !next.value.dispatchPending)
  {
  }

  /** Every event develops every renewal row. */
  lemma RenewalStep(s: State, e: Event)
    requires Inv(s)
    ensures RenewalsDevelop(s, e, Apply(s, e).renewals)
  {
    hide Inv, RenewalsDevelop;
    if e.RenewalDisabled? || e.RenewalActed? || e.SubscriptionWithdrawn? || e.UserDeactivated? {
      WithdrawalsDevelop(s, e);
    } else if e.RenewalReconciled? || e.PriceConfirmed? || e.TariffChanged? {
      ReviewsDevelop(s, e);
    } else if e.ChargeScheduled? {
      SchedulingDevelops(s, e);
    } else if e.ChargeDelivered? || e.PaymentDispatched? {
      WindowsDevelop(s, e);
    } else if e.DispatchFailed? || e.ProviderCancelled? || e.DeveloperResolved? {
      ClosingsDevelop(s, e);
    } else if e.ProviderSucceeded? {
      SuccessDevelops(s, e);
    } else {
      OthersKeepRenewals(s, e);
      NoneFollows(s, e);
    }
  }

  lemma OthersKeepRenewals(s: State, e: Event)
    requires Single(e) || e.CheckoutRequested? || e.ReferralRegistered? || e.SubscriptionSet?
    ensures Apply(s, e).renewals == s.renewals
  {
    hide CellChange, CreateCheckout, RegisterReferral, Commit;
    if e.CheckoutRequested? {
      CheckoutKeepsRenewals(s, e.id, e.order, e.accepted, e.now);
    } else if e.ReferralRegistered? {
      RegistrationKeepsRenewals(s, e.user, e.first, e.inTime, e.program);
    } else if Single(e) && e.id in s.cells {
      CommitKeepsRenewals(s, e.id, CellChange(s, s.cells[e.id], e));
    }
  }

  lemma CheckoutKeepsRenewals(s: State, id: PaymentId, order: Checkout, accepted: bool, now: int)
    ensures CreateCheckout(s, id, order, accepted, now).renewals == s.renewals
  {
    hide Blocks;
  }

  lemma RegistrationKeepsRenewals(s: State, user: UserId, first: Option<PaymentId>, inTime: bool, program: Program)
    ensures RegisterReferral(s, user, first, inTime, program).renewals == s.renewals
  {
    hide Earliest, SucceededOf;
  }

  lemma CommitKeepsRenewals(s: State, id: PaymentId, change: Change)
    ensures Commit(s, id, change).renewals == s.renewals
  {
  }
}
