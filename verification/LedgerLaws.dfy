/**
 * When the ledger's transactions take effect and what they leave behind, said over the rows before and
 * after: subscriptions and renewals after a success, checkouts, charges, closed windows and referrals.
 */
module LedgerLaws {
  import opened Common
  import opened Dispatch
  import opened DispatchLaws
  import opened Renewal
  import opened RenewalLaws
  import opened PaidTime
  import opened Ledger
  import opened LedgerSafety
  import opened LedgerRuns
  import opened LedgerConsent
  import opened LedgerTheorems
  import opened ConsentTheorems
  import Calendar

  // ---------------------------------------------------------------- successes

  /** The event is the first success of a payment: it names the payment, its amount and currency, and no other payment's identifier. */
  predicate FirstSuccess(s: State, e: Event) {
    && e.ProviderSucceeded? && e.id in s.cells
    && var p := s.cells[e.id].payment;
    && p.status != Succeeded && p.amount == e.amount && p.currency == e.currency && p.plan.Some? && p.period.Some?
    && (p.providerId.None? || p.providerId == Some(e.provider))
    && (forall other | other in s.cells && other != e.id :: s.cells[other].payment.providerId != Some(e.provider))
  }

  /** The subscription runs at that time. */
  predicate Runs(sub: Option<Subscription>, now: int) {
    sub.Some? && sub.value.status == SubscriptionActive && sub.value.expiresAt.Some? && now < sub.value.expiresAt.value
  }

  /** One period later, by the calendar. */
  function PeriodAfter(t: int, period: Calendar.Period): int {
    Calendar.AddMonths(t, if period == Calendar.Yearly then 12 else 1)
  }

  /** The row that a payment leaves behind. */
  ghost predicate Paid(before: Option<Subscription>, p: Payment, now: int, after: Subscription) {
    && p.plan == Some(after.plan) && p.period == after.period && after.period.Some? && after.status == SubscriptionActive
    && after.version == (if before.Some? then before.value.version else 0) + 1
    && after.startsAt == (if Runs(before, now) then before.value.startsAt else now) && after.expiresAt.Some?
    && (!Runs(before, now) ==> after.expiresAt.value == PeriodAfter(now, after.period.value))
    && (Runs(before, now) && before.value.plan == after.plan ==>
          after.expiresAt.value == PeriodAfter(before.value.expiresAt.value, after.period.value))
    && (Runs(before, now) && before.value.plan != after.plan ==>
          exists days: nat ::
            && now + days * DAY <= before.value.expiresAt.value < now + (days + 1) * DAY
            && after.expiresAt.value == PeriodAfter(now + days * DAY, after.period.value))
  }

  lemma PaymentsLeaveSubscriptions(before: Option<Subscription>, p: Payment, now: int)
    requires p.plan.Some? && p.period.Some?
    ensures Paid(before, p, now, AfterPayment(before, p.plan.value, p.period.value, now))
  {
    hide PeriodAfter, Calendar.AddPeriod;
    PeriodsAgree(StackingBase(before, p.plan.value, now), p.period.value);
    if Runs(before, now) && before.value.plan != p.plan.value {
      var left := before.value.expiresAt.value - now;
      WholeDays(left);
      var days: nat := left / DAY;
      assert now + days * DAY <= before.value.expiresAt.value < now + (days + 1) * DAY;
    }
  }

  lemma PeriodsAgree(t: int, period: Calendar.Period)
    ensures Calendar.AddPeriod(t, period) == PeriodAfter(t, period)
  {
    hide Calendar.AddMonths;
  }

  lemma WholeDays(left: int)
    requires left >= 0
    ensures 0 <= left / DAY && left / DAY * DAY <= left < (left / DAY + 1) * DAY
  {
  }

  /** A first success fulfils, and nothing else that a success event says changes anything. */
  lemma FirstSuccessesFulfil(s: State, e: Event)
    requires e.ProviderSucceeded?
    ensures FirstSuccess(s, e) <==> Apply(s, e) != s
    ensures FirstSuccess(s, e) ==>
              var change := Succeed(s.cells[e.id], e.provider, e.amount, e.currency, e.paidAt, Free(s, e.id, e.provider));
              change.Written? && Apply(s, e) == Fulfil(s, e.id, change.cell, e.saved, e.program, e.now)
  {
    hide AfterPayment, AfterSuccess, ApplyAffiliate;
    if FirstSuccess(s, e) {
      var change := Succeed(s.cells[e.id], e.provider, e.amount, e.currency, e.paidAt, Free(s, e.id, e.provider));
      FulfilGrants(s, e.id, change.cell, e.saved, e.program, e.now);
    }
  }

  lemma FulfilGrants(s: State, id: PaymentId, c: Cell, saved: Option<string>, program: Program, now: int)
    requires id in s.cells && s.cells[id].payment.plan.Some? && s.cells[id].payment.period.Some?
    ensures var (s', p) := (Fulfil(s, id, c, saved, program, now), s.cells[id].payment);
            var sub := AfterPayment(Lookup(s.subscriptions, p.user), p.plan.value, p.period.value, now);
            var next := AfterSuccess(Lookup(s.renewals, p.user), p, saved, sub.expiresAt.value);
            && s'.grants == s.grants + [id] && s'.cells == Write(s, id, c).cells && s'.created == s.created
            && s'.subscriptions == s.subscriptions[p.user := sub]
            && s'.renewals == (if next.None? then s.renewals else s.renewals[p.user := next.value])
  {
    hide AfterPayment, AfterSuccess, SucceededOf;
  }

  /**
   * Every first success leaves the user a running subscription with the payment's plan and period, one
   * version on, from the old start if it was running, to the right end; no other subscription changes.
   */
  lemma SuccessesLeaveSubscriptions(s: State, e: Event)
    requires FirstSuccess(s, e)
    ensures var (s', p) := (Apply(s, e), s.cells[e.id].payment);
            && p.user in s'.subscriptions && Paid(Lookup(s.subscriptions, p.user), p, e.now, s'.subscriptions[p.user])
            && s'.subscriptions == s.subscriptions[p.user := s'.subscriptions[p.user]]
  {
    hide AfterPayment, AfterSuccess, Fulfil, Succeed, Paid;
    var p := s.cells[e.id].payment;
    FirstSuccessesFulfil(s, e);
    var change := Succeed(s.cells[e.id], e.provider, e.amount, e.currency, e.paidAt, Free(s, e.id, e.provider));
    FulfilGrants(s, e.id, change.cell, e.saved, e.program, e.now);
    PaymentsLeaveSubscriptions(Lookup(s.subscriptions, p.user), p, e.now);
  }

  /** Every first success that grants a renewal grants it on the payment's terms, with the method it saved. */
  lemma SuccessesGrantRenewals(s: State, e: Event)
    requires FirstSuccess(s, e)
    ensures var (s', p) := (Apply(s, e), s.cells[e.id].payment);
            var prior := Lookup(s.renewals, p.user);
            && (Grants(prior, p, e.saved) ==>
                  && p.user in s'.renewals && p.user in s'.subscriptions
                  && var r := s'.renewals[p.user];
                  && r.status == Active && p.plan == Some(r.plan) && p.period == Some(r.period) && r.amount == p.amount && r.currency == p.currency
                  && r.saved == e.saved && p.consentedAt == Some(r.consentedAt) && s'.subscriptions[p.user].expiresAt == Some(r.nextChargeAt)
                  && AtRest(r) && r.pendingAmount.None? && r.disabledAt.None?)
            && (!Grants(prior, p, e.saved) && p.kind == OneTime && (prior.None? || prior.value.status != Active) ==> s'.renewals == s.renewals)
            && (forall user | user in s.renewals && user != p.user :: user in s'.renewals && s'.renewals[user] == s.renewals[user])
  {
    hide AfterPayment, AfterSuccess, Fulfil, Succeed;
    var p := s.cells[e.id].payment;
    FirstSuccessesFulfil(s, e);
    var change := Succeed(s.cells[e.id], e.provider, e.amount, e.currency, e.paidAt, Free(s, e.id, e.provider));
    FulfilGrants(s, e.id, change.cell, e.saved, e.program, e.now);
    var sub := AfterPayment(Lookup(s.subscriptions, p.user), p.plan.value, p.period.value, e.now);
    SuccessesWrite(Lookup(s.renewals, p.user), p, e.saved, sub.expiresAt.value);
  }

  // ---------------------------------------------------------------- checkouts

  /** Nothing of the user's is open that a second checkout could collide with. */
  predicate NothingOpen(s: State, user: UserId, now: int) {
    forall other | other in s.cells && s.cells[other].payment.user == user && s.cells[other].payment.status == Pending ::
      && s.cells[other].payment.kind == OneTime && s.cells[other].payment.checkoutExpiresAt <= now
      && !Ambiguous(s.cells[other].creation) && !Ambiguous(s.cells[other].lookup)
  }

  /** An accepted order for a paid plan with nothing in the way. */
  predicate CanOrder(s: State, id: PaymentId, order: Checkout, accepted: bool, now: int) {
    id !in s.cells && accepted && order.plan != Trial && NothingOpen(s, order.user, now)
  }

  /** A new checkout: the order's terms, open for an hour, with an operation that nobody has claimed. */
  predicate Ordered(c: Cell, order: Checkout, now: int) {
    && var p := c.payment;
    && p.user == order.user && p.kind == OneTime && p.status == Pending && p.providerId.None? && p.cycle.None? && p.amount == order.amount
    && p.currency == "RUB" && p.plan == Some(order.plan) && p.period == Some(order.period) && p.autoRenew == order.autoRenew
    && p.consentedAt == (if order.autoRenew then Some(now) else None) && p.consentComplete == order.consentComplete && p.saved.None?
    && p.checkoutExpiresAt == now + 3600000 && p.paidAt.None? && p.version == 1
    && c.creation.Some? && c.creation.value.status == Waiting && c.creation.value.attempt == 0 && c.creation.value.lease.None?
    && c.creation.value.createdAt == now && c.lookup.None? && !c.issued && !c.refused
  }

  /** A checkout is opened exactly when nothing is in the way, on the order's terms; no other payment changes. */
  lemma CheckoutsOpenExactly(s: State, id: PaymentId, order: Checkout, accepted: bool, now: int)
    ensures var s' := Apply(s, CheckoutRequested(id, order, accepted, now));
            && (CanOrder(s, id, order, accepted, now) ==> id in s'.cells && Ordered(s'.cells[id], order, now)
                                                          && s'.cells == s.cells[id := s'.cells[id]] && s'.created == s.created + [id])
            && (!CanOrder(s, id, order, accepted, now) ==> s' == s)
  {
    if NothingOpen(s, order.user, now) {
      forall other | other in s.cells ensures !Blocks(s.cells[other], order.user, now) {
      }
    } else {
      var other :| other in s.cells && s.cells[other].payment.user == order.user && s.cells[other].payment.status == Pending
                   && !(&& s.cells[other].payment.kind == OneTime && s.cells[other].payment.checkoutExpiresAt <= now
                        && !Ambiguous(s.cells[other].creation) && !Ambiguous(s.cells[other].lookup));
      assert Blocks(s.cells[other], order.user, now);
    }
  }

  // ---------------------------------------------------------------- charges

  function DueAt(r: Renewal): int {
    if r.nextRetryAt.Some? then r.nextRetryAt.value else r.nextChargeAt
  }

  /** The charge that is due: the planned one, or the retry that is scheduled. */
  function DueKey(user: UserId, r: Renewal): CycleKey {
    CycleKey(user, r.nextChargeAt, if r.nextRetryAt.Some? then r.retryAttempt else 0)
  }

  /** The scheduler looks at the renewal: active, agreed, not waiting, and due. */
  predicate Considered(r: Renewal, now: int) {
    && r.status == Active && r.pendingAmount.None? && !r.dispatchPending && DueAt(r) <= now
    && (r.nextRetryAt.Some? ==> 1 <= r.retryAttempt <= 2)
  }

  /** The subscription that the renewal is to prolong. */
  predicate Matches(sub: Option<Subscription>, r: Renewal) {
    && sub.Some? && sub.value.expiresAt.Some? && sub.value.status in {SubscriptionActive, SubscriptionExpired}
    && sub.value.plan == r.plan && sub.value.period == Some(r.period)
  }

  /** The charge date is the end of the subscription, give or take a minute. */
  predicate OnTime(sub: Subscription, r: Renewal)
    requires sub.expiresAt.Some?
  {
    r.nextChargeAt - 60000 <= sub.expiresAt.value <= r.nextChargeAt + 60000
  }

  /** Charges may be made for a day after the planned date, and for an hour after a retry's. */
  predicate InGrace(r: Renewal, now: int) {
    now <= DueAt(r) + (if r.nextRetryAt.Some? then 3600000 else DAY)
  }

  /** Everything that must hold of the rows before a charge. */
  predicate Chargeable(r: Renewal, sub: Option<Subscription>, e: Schedule) {
    && Considered(r, e.now) && e.enabledAt <= DueAt(r) && e.identityActive && Matches(sub, r) && OnTime(sub.value, r) && InGrace(r, e.now)
    && e.currentAmount == r.amount && r.saved.Some? && e.hasContact
  }

  /** How long the charge may be sent: an hour for a retry, else 23 hours but not beyond the day of grace. */
  predicate Deadline(r: Renewal, now: int, until: int) {
    if r.nextRetryAt.Some? then until == r.nextRetryAt.value + 3600000
    else until <= now + RETRY_WINDOW && until <= r.nextChargeAt + DAY && (until == now + RETRY_WINDOW || until == r.nextChargeAt + DAY)
  }

  predicate PausedFor(r: Renewal, r': Renewal, code: string, now: int) {
    && r'.status == TechnicalPause && r'.errorCode == code && r'.disabledAt == Some(now) && r'.nextRetryAt.None? && !r'.dispatchPending
    && OnlyState(r, r'.(nextRetryAt := r.nextRetryAt, dispatchPending := r.dispatchPending))
  }

  /** The scheduler charges exactly what is chargeable, and otherwise says on the row what is in the way. */
  lemma RenewalsAreScreenedExactly(r: Renewal, sub: Option<Subscription>, e: Schedule)
    ensures var verdict := Screen(r, sub, e);
            && (verdict.Idle? <==> !Considered(r, e.now))
            && (verdict.Charge? <==> Chargeable(r, sub, e))
            && (verdict.Charge? ==> verdict.attempt == DueKey(0, r).attempt && Deadline(r, e.now, verdict.until))
            && (Considered(r, e.now) && DueAt(r) < e.enabledAt ==> verdict.Row? && PausedFor(r, verdict.row, "CHARGE_MISSED_DURING_GLOBAL_PAUSE", e.now))
            && (Considered(r, e.now) && DueAt(r) >= e.enabledAt && !e.identityActive ==> verdict.Row? && WithdrawnFrom(r, verdict.row, Revoked, e.now))
            && (Considered(r, e.now) && DueAt(r) >= e.enabledAt && e.identityActive && !Matches(sub, r) ==>
                  verdict.Row? && PausedFor(r, verdict.row, "SUBSCRIPTION_STATE_MISMATCH", e.now))
  {
    hide PauseInvalid, Withdraw, FollowSubscription, RequirePrice;
    PausesWrite(r, "CHARGE_MISSED_DURING_GLOBAL_PAUSE", e.now);
    PausesWrite(r, "SUBSCRIPTION_STATE_MISMATCH", e.now);
    if r.status == Active {
      WithdrawalsWrite(r, e.now);
    }
  }

  /** What the row says when the subscription matches and something else is in the way. */
  lemma ObstaclesAreNamed(r: Renewal, sub: Option<Subscription>, e: Schedule)
    requires Considered(r, e.now) && e.enabledAt <= DueAt(r) && e.identityActive && Matches(sub, r) && !Chargeable(r, sub, e)
    ensures var verdict := Screen(r, sub, e);
            && verdict.Row?
            && (!OnTime(sub.value, r) ==> Some(verdict.row.nextChargeAt) == sub.value.expiresAt && verdict.row.status == Active)
            && (OnTime(sub.value, r) && !InGrace(r, e.now) ==> PausedFor(r, verdict.row, "CHARGE_WINDOW_MISSED", e.now))
            && (OnTime(sub.value, r) && InGrace(r, e.now) && e.currentAmount != r.amount ==>
                  verdict.row.pendingAmount == Some(e.currentAmount) && SameTerms(r, verdict.row.(pendingAmount := r.pendingAmount)))
            && (OnTime(sub.value, r) && InGrace(r, e.now) && e.currentAmount == r.amount ==>
                  PausedFor(r, verdict.row, if r.saved.None? then "PAYMENT_METHOD_MISSING" else "RECEIPT_CONTACT_MISSING", e.now))
  {
    hide PauseInvalid, Withdraw, FollowSubscription, RequirePrice;
    PausesWrite(r, "CHARGE_WINDOW_MISSED", e.now);
    PausesWrite(r, "PAYMENT_METHOD_MISSING", e.now);
    PausesWrite(r, "RECEIPT_CONTACT_MISSING", e.now);
    TariffChangesAsk(r, e.currentAmount);
    FollowingWrites(r, sub.value.expiresAt.value);
    FollowingKeepsState(r, sub.value.expiresAt.value);
  }

  lemma FollowingKeepsState(r: Renewal, expiresAt: int)
    ensures FollowSubscription(r, expiresAt).status == r.status
  {
  }

  /** The payment stands in the way of a new charge: an open charge, or a checkout that can still be paid. */
  predicate InTheWay(p: Payment, user: UserId, now: int) {
    && p.user == user
    && (if p.kind == OneTime then p.status == Pending && now < p.checkoutExpiresAt
        else || p.status == Pending
             || (p.status == Cancelled && p.providerStatus == Reported("pending"))
             || (p.status == Expired && (p.providerId.None? || p.providerStatus == Reported("pending"))))
  }

  /** The cycle is free: it has a payment that was never sent, or it has none and nothing is in the way. */
  predicate CycleFree(s: State, key: CycleKey, user: UserId, now: int) {
    if exists id | id in s.cells :: s.cells[id].payment.cycle == Some(key)
    then exists id | id in s.cells :: s.cells[id].payment.cycle == Some(key) && Unsent(s.cells[id].payment)
    else forall id | id in s.cells :: !InTheWay(s.cells[id].payment, user, now)
  }

  predicate Unsent(p: Payment) {
    p.status == Cancelled && p.providerStatus == NotSent && p.providerId.None?
  }

  /** The charge that the scheduler opened. */
  predicate Opened(s: State, s': State, charge: PaymentId, user: UserId, e: Schedule)
    requires user in s.renewals
  {
    && charge in s'.cells && (charge in s.cells ==> Unsent(s.cells[charge].payment))
    && s'.cells == s.cells[charge := s'.cells[charge]] && s'.cells[charge].payment.status == Pending
    && s'.cells[charge].payment.cycle == Some(DueKey(user, s.renewals[user])) && s'.cells[charge].payment.providerStatus == Queued
    && Agreed(s'.cells[charge].payment, user, s.renewals[user], e) && Deadline(s.renewals[user], e.now, s'.cells[charge].payment.checkoutExpiresAt)
    && s'.cells[charge].payment.plan == Some(s.renewals[user].plan) && s'.cells[charge].payment.period == Some(s.renewals[user].period)
    && s'.cells[charge].payment.currency == s.renewals[user].currency
  }

  /** The found payment is the one with that key. */
  lemma CycleIsFound(s: State, key: CycleKey)
    requires CreatedAgrees(s) && Unique(s.cells)
    ensures var found := FindCycle(s.cells, s.created, key);
            && (found.Some? <==> exists id | id in s.cells :: s.cells[id].payment.cycle == Some(key))
            && (found.Some? ==> forall id | id in s.cells && s.cells[id].payment.cycle == Some(key) :: id == found.value)
  {
  }

  lemma NothingBlocks(s: State, user: UserId, now: int)
    ensures (exists other | other in s.cells :: BlocksCharge(s.cells[other], user, now)) <==>
            (exists id | id in s.cells :: InTheWay(s.cells[id].payment, user, now))
  {
    forall id | id in s.cells ensures BlocksCharge(s.cells[id], user, now) <==> InTheWay(s.cells[id].payment, user, now) {
    }
  }

  lemma PausedRows(r: Renewal, now: int)
    ensures PausedFor(r, PauseInvalid(r, "RECURRING_CYCLE_STATE_CONFLICT", now), "RECURRING_CYCLE_STATE_CONFLICT", now)
    ensures PausedFor(r, PauseInvalid(r, "OTHER_PAYMENT_IN_PROGRESS", now), "OTHER_PAYMENT_IN_PROGRESS", now)
  {
  }

  lemma TakesUpExactly(s: State, user: UserId, id: PaymentId, attempt: nat, until: int, now: int)
    requires Inv(s) && user in s.renewals && id !in s.cells
    ensures var (s', r) := (TakeUpCharge(s, user, id, attempt, until, now), s.renewals[user]);
            var key := CycleKey(user, r.nextChargeAt, attempt);
            if CycleFree(s, key, user, now)
            then exists charge ::
                   && charge in s'.cells && (charge in s.cells ==> Unsent(s.cells[charge].payment)) && s'.cells == s.cells[charge := s'.cells[charge]]
                   && s'.renewals == s.renewals[user := Enqueue(r)] && Terms(s'.cells[charge].payment, user, key, r, until)
            else && s' == s.(renewals := s'.renewals) && user in s'.renewals
                 && PausedFor(r, s'.renewals[user], if exists other | other in s.cells :: s.cells[other].payment.cycle == Some(key)
                                                    then "RECURRING_CYCLE_STATE_CONFLICT" else "OTHER_PAYMENT_IN_PROGRESS", now)
  {
    hide Inv, FindCycle, TakeUpCharge, CycleFree, Enqueue, PausedFor, Terms;
    var key := CycleKey(user, s.renewals[user].nextChargeAt, attempt);
    InvKeepsOrder(s);
    CycleIsFound(s, key);
    if FindCycle(s.cells, s.created, key).Some? {
      TakesUpExisting(s, user, id, attempt, until, now, FindCycle(s.cells, s.created, key).value);
    } else {
      TakesUpNew(s, user, id, attempt, until, now);
    }
  }

  lemma InvKeepsOrder(s: State)
    requires Inv(s)
    ensures CreatedAgrees(s) && Unique(s.cells) && CellsSound(s.cells)
  {
  }

  lemma TakesUpExisting(s: State, user: UserId, id: PaymentId, attempt: nat, until: int, now: int, existing: PaymentId)
    requires user in s.renewals && CellsSound(s.cells) && Unique(s.cells) && existing in s.cells
    requires var key := CycleKey(user, s.renewals[user].nextChargeAt, attempt);
             && FindCycle(s.cells, s.created, key) == Some(existing)
             && (forall other | other in s.cells && s.cells[other].payment.cycle == Some(key) :: other == existing)
    ensures var (s', r) := (TakeUpCharge(s, user, id, attempt, until, now), s.renewals[user]);
            var key := CycleKey(user, r.nextChargeAt, attempt);
            && (CycleFree(s, key, user, now) <==> Unsent(s.cells[existing].payment))
            && (Unsent(s.cells[existing].payment) ==>
                  && existing in s'.cells && s'.cells == s.cells[existing := s'.cells[existing]]
                  && s'.renewals == s.renewals[user := Enqueue(r)] && Terms(s'.cells[existing].payment, user, key, r, until))
            && (!Unsent(s.cells[existing].payment) ==>
                  && s' == s.(renewals := s'.renewals) && user in s'.renewals
                  && PausedFor(r, s'.renewals[user], "RECURRING_CYCLE_STATE_CONFLICT", now))
            && (exists other | other in s.cells :: s.cells[other].payment.cycle == Some(key))
  {
    hide CellsSound, Unique, Enqueue, PauseInvalid, PausedFor, Resume, InTheWay;
    var r := s.renewals[user];
    PausedRows(r, now);
    ResumesExactly(s.cells[existing], r.amount, r.currency, r.plan, r.period, r.consentedAt, r.saved, until);
    CyclesAreCharges(s, existing);
  }

  lemma TakesUpNew(s: State, user: UserId, id: PaymentId, attempt: nat, until: int, now: int)
    requires user in s.renewals && id !in s.cells
    requires var key := CycleKey(user, s.renewals[user].nextChargeAt, attempt);
             FindCycle(s.cells, s.created, key).None? && !(exists other | other in s.cells :: s.cells[other].payment.cycle == Some(key))
    ensures var (s', r) := (TakeUpCharge(s, user, id, attempt, until, now), s.renewals[user]);
            var key := CycleKey(user, r.nextChargeAt, attempt);
            && (CycleFree(s, key, user, now) ==>
                  && id in s'.cells && s'.cells == s.cells[id := s'.cells[id]]
                  && s'.renewals == s.renewals[user := Enqueue(r)] && Terms(s'.cells[id].payment, user, key, r, until))
            && (!CycleFree(s, key, user, now) ==>
                  && s' == s.(renewals := s'.renewals) && user in s'.renewals
                  && PausedFor(r, s'.renewals[user], "OTHER_PAYMENT_IN_PROGRESS", now))
  {
    hide Enqueue, PauseInvalid, PausedFor, InTheWay, BlocksCharge, FindCycle;
    PausedRows(s.renewals[user], now);
    NothingBlocks(s, user, now);
  }

  /** The terms of a charge. */
  predicate Terms(p: Payment, user: UserId, key: CycleKey, r: Renewal, until: int) {
    && p.user == user && p.kind == Recurring && p.status == Pending && p.providerStatus == Queued && p.providerId.None? && p.cycle == Some(key)
    && p.amount == r.amount && p.currency == r.currency && p.plan == Some(r.plan) && p.period == Some(r.period)
    && p.consentedAt == Some(r.consentedAt) && p.saved == r.saved && p.checkoutExpiresAt == until
  }

  /**
   * A charge is opened or taken up exactly when charges are switched on, the rows are chargeable and the
   * cycle is free; then it is the renewal's charge on its terms and the renewal waits for it. Otherwise no
   * payment changes.
   */
  lemma ChargesOpenExactly(s: State, user: UserId, id: PaymentId, e: Schedule)
    requires Inv(s) && id !in s.cells
    ensures var s' := Apply(s, ChargeScheduled(user, id, e));
            if && user in s.renewals && e.enabled && Chargeable(s.renewals[user], Lookup(s.subscriptions, user), e)
               && CycleFree(s, DueKey(user, s.renewals[user]), user, e.now)
            then && (exists charge :: Opened(s, s', charge, user, e))
                 && user in s'.renewals && s'.renewals[user].dispatchPending
                 && SameTerms(s.renewals[user], s'.renewals[user].(dispatchPending := false))
            else s' == s.(renewals := s'.renewals)
  {
    hide Inv, Screen, TakeUpCharge, Chargeable, CycleFree, Deadline;
    if user in s.renewals && e.enabled {
      var r := s.renewals[user];
      var verdict := Screen(r, Lookup(s.subscriptions, user), e);
      RenewalsAreScreenedExactly(r, Lookup(s.subscriptions, user), e);
      if verdict.Charge? {
        ScreeningIsStrict(r, Lookup(s.subscriptions, user), e);
        TakesUpExactly(s, user, id, verdict.attempt, verdict.until, e.now);
        PausesWrite(r, "", 0);
        var s' := TakeUpCharge(s, user, id, verdict.attempt, verdict.until, e.now);
        if CycleFree(s, DueKey(user, r), user, e.now) {
          var charge :| && charge in s'.cells && (charge in s.cells ==> Unsent(s.cells[charge].payment))
                        && s'.cells == s.cells[charge := s'.cells[charge]] && s'.renewals == s.renewals[user := Enqueue(r)]
                        && Terms(s'.cells[charge].payment, user, DueKey(user, r), r, verdict.until);
          assert Opened(s, s', charge, user, e);
        }
      }
    }
  }

  // ---------------------------------------------------------------- local stops

  /** The event is a stop that concerns this payment. */
  predicate Concerns(s: State, e: Event, id: PaymentId)
    requires id in s.cells
  {
    var p := s.cells[id].payment;
    match e
    case UserCancelled(i, user) => i == id && p.user == user && p.kind == OneTime
    case CheckoutExpired(i, now) => i == id && p.kind == OneTime && p.checkoutExpiresAt <= now
    case RenewalDisabled(user, _) => user in s.renewals && p.user == user && p.kind == Recurring
    case RenewalActed(user, action, _, _, _) => action == Revoke && user in s.renewals && p.user == user && p.kind == Recurring
    case SubscriptionWithdrawn(user, _) => p.user == user && p.kind == Recurring
    case UserDeactivated(user, _) => p.user == user
    case _ => false
  }

  /** A stop by the user, the clock, a withdrawn renewal, an administrator or a deactivation. */
  predicate IsStop(e: Event) {
    e.UserCancelled? || e.CheckoutExpired? || e.RenewalDisabled? || (e.RenewalActed? && e.action == Revoke) || e.SubscriptionWithdrawn? || e.UserDeactivated?
  }

  /** Closed here, together with its operation. */
  predicate ClosedHere(c: Cell) {
    LocallyClosed(c.payment) && (c.creation.None? || c.creation.value.status == Failed)
  }

  /** A payment that the sweep leaves alone keeps its rows. */
  lemma {:induction false} SweepLeavesUnchanged(s: State, sweep: Sweep, ids: seq<PaymentId>, id: PaymentId)
    requires id in s.cells && Distinct(ids) && SweepOne(s.cells[id], sweep) == Unchanged
    ensures id in SweepAll(s, sweep, ids).cells && SweepAll(s, sweep, ids).cells[id] == s.cells[id]
  {
    hide SweepOne;
    if ids != [] {
      SweepLeavesUnchanged(s, sweep, ids[..|ids| - 1], id);
    }
  }

  predicate SweepConcerns(c: Cell, sweep: Sweep) {
    c.payment.user == sweep.user && (sweep.DeactivationSweep? || c.payment.kind == Recurring)
  }

  /** One payment after a sweep of the whole ledger. */
  lemma SweepsClose(s: State, renewals: map<UserId, Renewal>, sweep: Sweep, id: PaymentId)
    requires Inv(s) && id in s.cells
    ensures var (c, s') := (s.cells[id], SweepAll(s.(renewals := renewals), sweep, s.created));
            && id in s'.cells
            && (SweepConcerns(c, sweep) && c.payment.status == Pending && !MayBeKnown(c) ==> ClosedHere(s'.cells[id]))
            && (!SweepConcerns(c, sweep) || c.payment.status != Pending ==> s'.cells[id] == c)
  {
    hide SweepAll, Unique, OutboxAgrees, GrantsAgree, RewardsAgree, Stopped, StoppedOperation, ClearFuture, ClearForAdmin, Deactivate;
    var c := s.cells[id];
    var s1 := s.(renewals := renewals);
    assert Sound(c);
    match sweep {
      case FutureSweep(user, reason) => FuturePaymentsStopExactly(c, user, reason);
      case AdminSweep(user, reason) => FuturePaymentsStopExactly(c, user, reason);
      case DeactivationSweep(user) => DeactivationStopsExactly(c, user);
    }
    SweepTreatsEachOnce(s1, sweep, s.created, id);
    if SweepOne(c, sweep) == Unchanged {
      SweepLeavesUnchanged(s1, sweep, s.created, id);
    } else {
      BareCloses(After(c, SweepOne(c, sweep)), SweepAll(s1, sweep, s.created).cells[id]);
    }
  }

  lemma BareCloses(c: Cell, c': Cell)
    requires Bare(c') == Bare(c)
    ensures ClosedHere(c') == ClosedHere(c)
  {
    assert c'.payment.status == Bare(c').payment.status && c'.payment.providerStatus == Bare(c').payment.providerStatus;
    assert c.payment.status == Bare(c).payment.status && c.payment.providerStatus == Bare(c).payment.providerStatus;
    assert c'.creation == Bare(c').creation && c.creation == Bare(c).creation;
  }

  /** A user's cancel is the one stop that a fenced operation resists. */
  predicate FencedOff(e: Event, c: Cell) {
    e.UserCancelled? && c.creation.Some? && c.creation.value.status == Failed
  }

  lemma CheckoutsHaveOperations(c: Cell)
    requires Sound(c) && c.payment.kind == OneTime
    ensures c.creation.Some?
  {
  }

  lemma UserCancelCloses(s: State, i: PaymentId, user: UserId, id: PaymentId)
    requires Inv(s) && id in s.cells
    ensures var (c, e) := (s.cells[id], UserCancelled(i, user));
            var s' := Apply(s, e);
            && id in s'.cells
            && (Concerns(s, e, id) && c.payment.status == Pending && !MayBeKnown(c) ==> (ClosedHere(s'.cells[id]) <==> !FencedOff(e, c)))
            && (!Concerns(s, e, id) || c.payment.status != Pending ==> s'.cells[id] == c)
  {
    hide Unique, OutboxAgrees, GrantsAgree, RewardsAgree, CreatedAgrees, CancelPending, Sound;
    UserCancelsExactly(s.cells[id], user);
    if s.cells[id].payment.kind == OneTime { CheckoutsHaveOperations(s.cells[id]); }
    WrittenCloses(s, id, CancelPending(s.cells[id], user));
  }

  lemma ExpiryCloses(s: State, i: PaymentId, now: int, id: PaymentId)
    requires Inv(s) && id in s.cells
    ensures var (c, e) := (s.cells[id], CheckoutExpired(i, now));
            var s' := Apply(s, e);
            && id in s'.cells
            && (Concerns(s, e, id) && c.payment.status == Pending && !MayBeKnown(c) ==> ClosedHere(s'.cells[id]))
            && (!Concerns(s, e, id) || c.payment.status != Pending ==> s'.cells[id] == c)
  {
    hide Unique, OutboxAgrees, GrantsAgree, RewardsAgree, CreatedAgrees, SettleExpiredCheckout, Sound;
    CheckoutsExpireExactly(s.cells[id], now);
    WrittenCloses(s, id, SettleExpiredCheckout(s.cells[id], now));
  }

  /** A written cell is closed as the change says. */
  lemma WrittenCloses(s: State, id: PaymentId, change: Change)
    requires id in s.cells
    ensures var s' := Commit(s, id, change);
            id in s'.cells && (change.Written? ==> ClosedHere(s'.cells[id]) == ClosedHere(change.cell))
            && (change.Unchanged? || change.Refused? ==> s' == s)
  {
  }

  /**
   * In every reachable state a stop closes each open payment that it concerns and that the provider
   * cannot know, together with its operation - a user's cancel exactly if the operation is not fenced off -
   * and leaves every payment that it does not concern as it is.
   */
  lemma StopsCloseExactly(es: seq<Event>, e: Event, id: PaymentId)
    requires IsStop(e) && id in Run(Empty, es).cells
    ensures var s := Run(Empty, es);
            var (c, s') := (s.cells[id], Apply(s, e));
            && id in s'.cells
            && (Concerns(s, e, id) && c.payment.status == Pending && !MayBeKnown(c) ==> (ClosedHere(s'.cells[id]) <==> !FencedOff(e, c)))
            && (!Concerns(s, e, id) || c.payment.status != Pending ==> s'.cells[id] == c)
  {
    hide Run, Inv, Apply, ClosedHere;
    EmptyIsGood();
    RunIsGood(Empty, es);
    var s := Run(Empty, es);
    if e.UserCancelled? {
      UserCancelCloses(s, e.id, e.user, id);
    } else if e.CheckoutExpired? {
      ExpiryCloses(s, e.id, e.now, id);
    } else {
      SweepingStopsClose(s, e, id);
    }
  }

  lemma SweepingStopsClose(s: State, e: Event, id: PaymentId)
    requires Inv(s) && IsStop(e) && !e.UserCancelled? && !e.CheckoutExpired? && id in s.cells
    ensures var (c, s') := (s.cells[id], Apply(s, e));
            && id in s'.cells
            && (Concerns(s, e, id) && c.payment.status == Pending && !MayBeKnown(c) ==> ClosedHere(s'.cells[id]))
            && (!Concerns(s, e, id) || c.payment.status != Pending ==> s'.cells[id] == c)
  {
    hide Inv, SweepAll, ClosedHere, AdminAction, DisableByUser, RevokeForAdminCancellation, RevokeForDeactivation, MayBeKnown;
    assert s == s.(renewals := s.renewals);
    match e
    case RenewalDisabled(user, now) =>
      if user in s.renewals {
        SweepsClose(s, s.renewals[user := DisableByUser(s.renewals[user], now)], FutureSweep(user, "user_disabled_before_provider_call"), id);
      }
    case RenewalActed(user, action, eligible, found, now) =>
      if user in s.renewals {
        AdministratorsActExactly(s.renewals[user], eligible, found, now);
        SweepsClose(s, s.renewals[user := AdminAction(s.renewals[user], action, eligible, found, now).value],
                    FutureSweep(user, "consent_revoked_before_provider_call"), id);
      }
    case SubscriptionWithdrawn(user, now) =>
      SweepsClose(s, s.renewals, AdminSweep(user, "admin_cancelled"), id);
      if user in s.renewals {
        SweepsClose(s, s.renewals[user := RevokeForAdminCancellation(s.renewals[user], now)], AdminSweep(user, "admin_cancelled"), id);
      }
    case UserDeactivated(user, now) =>
      SweepsClose(s, s.renewals, DeactivationSweep(user), id);
      if user in s.renewals {
        SweepsClose(s, s.renewals[user := RevokeForDeactivation(s.renewals[user], now)], DeactivationSweep(user), id);
      }
  }

  // ---------------------------------------------------------------- rejections

  /** In every run a payment is rejected only after the provider has definitely refused it. */
  lemma RejectionsAreRefusals(es: seq<Event>, id: PaymentId)
    requires id in Run(Empty, es).cells && Run(Empty, es).cells[id].payment.providerStatus == Rejected
    ensures Run(Empty, es).cells[id].refused && Run(Empty, es).cells[id].payment.status == Cancelled
  {
    hide Run, Unique, OutboxAgrees, GrantsAgree, RewardsAgree, CreatedAgrees;
    EmptyIsGood();
    RunIsGood(Empty, es);
    assert Sound(Run(Empty, es).cells[id]);
  }

  /** The mark of a refusal is set only by a failure that tells of one, under the claim that sent the request. */
  lemma RefusalsComeFromTheProvider(s: State, e: Event, id: PaymentId)
    requires Good(s) && id in s.cells
    ensures id in Apply(s, e).cells
    ensures Apply(s, e).cells[id].refused && !s.cells[id].refused ==> e.DispatchFailed? && e.id == id && RefusedUnder(s.cells[id], e.token, e.failure)
  {
    hide Inv, RenewalsConsistent, WorkerFailed, Apply, Commit, RefusedUnder;
    if IsRefusal(s, e) {
      ClosingsTouchOneCell(s, e);
      CommitOne(s, e.id, ChangeBy(s, e), id);
    } else {
      hide IsRefusal;
      StepIsGood(s, e);
    }
  }

  // ---------------------------------------------------------------- the charge window

  /** The payment is the charge its renewal waits for, and nothing of it has been heard yet. */
  predicate Outstanding(s: State, id: PaymentId, user: UserId, cycle: CycleKey, claim: Option<Token>) {
    && id in s.cells && user in s.renewals
    && var (p, r) := (s.cells[id].payment, s.renewals[user]);
    && p.kind == Recurring && p.status == Pending && p.providerId.None? && p.user == user && p.cycle == Some(cycle)
    && cycle == CycleKey(user, r.nextChargeAt, r.retryAttempt) && r.status == Active && r.dispatchPending
    && (p.providerStatus == Queued || (claim.Some? && p.providerStatus == Creating))
  }

  /** Nobody has claimed the operation, or only the claim at hand has, for the first time. */
  predicate Untouched(c: Cell, claim: Option<Token>) {
    if claim.None?
    then c.creation.Some? ==> c.creation.value.providerId.None? && c.creation.value.status == Waiting && c.creation.value.attempt == 0
    else c.creation.Some? && c.creation.value.providerId.None? && HeldBy(c.creation.value, claim.value) && c.creation.value.attempt == 1
  }

  /** An outstanding charge is closed exactly when its window is over and nothing was sent; its renewal is paused for that. */
  lemma WindowsAreClosedExactly(s: State, id: PaymentId, user: UserId, cycle: CycleKey, now: int, claim: Option<Token>)
    ensures var (result, s') := CloseExpiredDispatch(s, id, user, cycle, now, claim);
            && (result == NotExpired <==> Outstanding(s, id, user, cycle, claim) && now < s.cells[id].payment.checkoutExpiresAt)
            && (result == Closed <==>
                  Outstanding(s, id, user, cycle, claim) && s.cells[id].payment.checkoutExpiresAt <= now && Untouched(s.cells[id], claim))
            && (result != Closed ==> s' == s)
            && (result == Closed ==>
                  && s'.cells.Keys == s.cells.Keys && s'.renewals.Keys == s.renewals.Keys
                  && (forall other | other in s.cells && other != id :: s'.cells[other] == s.cells[other])
                  && (forall u | u in s.renewals && u != user :: s'.renewals[u] == s.renewals[u]))
  {
    hide CloseWindow, CloseExpiredWindow;
  }

  lemma ClosedWindowsWrite(s: State, id: PaymentId, user: UserId, cycle: CycleKey, now: int, claim: Option<Token>)
    requires CloseExpiredDispatch(s, id, user, cycle, now, claim).0 == Closed
    ensures var s' := CloseExpiredDispatch(s, id, user, cycle, now, claim).1;
            && id in s.cells && id in s'.cells && user in s.renewals && user in s'.renewals
            && PausedFor(s.renewals[user], s'.renewals[user], "CHARGE_WINDOW_EXPIRED", now)
            && var (p, p') := (s.cells[id].payment, s'.cells[id].payment);
            && p'.status == Cancelled && p'.providerStatus == NotSent && p'.reason == "CHARGE_WINDOW_EXPIRED" && p'.saved.None?
            && OnlyClosed(p, p'.(version := p.version, sequence := p.sequence)) && OperationFails(s.cells[id], s'.cells[id])
  {
  }

  /** A charge event arms exactly an outstanding charge whose window is open. */
  lemma DeliveriesArmExactly(s: State, id: PaymentId, user: UserId, cycle: CycleKey, now: int)
    ensures var s' := Apply(s, ChargeDelivered(id, user, cycle, now));
            && (Outstanding(s, id, user, cycle, None) && now < s.cells[id].payment.checkoutExpiresAt ==> s' == Commit(s, id, ArmCapture(s.cells[id], now)))
            && (!Outstanding(s, id, user, cycle, None) ==> s' == s)
            && (Outstanding(s, id, user, cycle, None) && s.cells[id].payment.checkoutExpiresAt <= now && !Untouched(s.cells[id], None) ==> s' == s)
  {
    hide CloseExpiredDispatch, ArmCapture, Untouched;
    WindowsAreClosedExactly(s, id, user, cycle, now, None);
  }

  /** What the worker checks of the renewal and the subscription under its locks. */
  predicate StillWanted(s: State, p: Payment) {
    && p.user in s.renewals && p.user in s.subscriptions
    && var (r, sub) := (s.renewals[p.user], s.subscriptions[p.user]);
    && r.status == Active && r.dispatchPending && r.pendingAmount.None? && r.saved.Some? && p.cycle.Some?
    && p.cycle.value == CycleKey(p.user, r.nextChargeAt, r.retryAttempt) && Matches(Some(sub), r)
  }

  /** A charge is sent exactly under a usable claim while its renewal and subscription still want it, in its window. */
  lemma ChargesAreSentExactly(s: State, id: PaymentId, token: Token, env: Surroundings)
    requires id in s.cells && s.cells[id].payment.kind == Recurring
    ensures var c := s.cells[id];
            Dispatches(s, id, token, env) <==>
              && Usable(c, token) && Creatable(c.payment, env) && c.payment.providerId.None? && !TooLate(c, env)
              && StillWanted(s, c.payment) && c.payment.providerStatus in {Queued, Creating} && !WindowOver(c, env) && env.prepared
  {
    hide DispatchCreation, Usable;
    var c := s.cells[id];
    RequestsGoOutExactly(c, token, env.(renewalReady := RenewalReady(s, c.payment)));
  }

  // ---------------------------------------------------------------- referrals

  /** The user's referral after a success: untouched unless registered, then rewarded or ended. */
  function SettledReferrals(referrals: map<UserId, Referral>, user: UserId, id: PaymentId, amount: nat, program: Program, only: bool): map<UserId, Referral> {
    if user !in referrals || referrals[user].status != Registered then referrals
    else if program.enabled && only
    then referrals[user := Referral(RewardPending, Some(id), amount, program.percent, amount * program.percent / 100)]
    else referrals[user := referrals[user].(status := ReferralCancelled)]
  }

  /** No other payment of the user has succeeded. */
  predicate NoOtherSuccess(s: State, id: PaymentId, user: UserId) {
    forall other | other in s.cells && other != id && s.cells[other].payment.user == user :: s.cells[other].payment.status != Succeeded
  }

  /** A first success rewards a registered referral exactly if the programme runs and it is the only success, and else ends it. */
  lemma SuccessesSettleReferrals(s: State, e: Event)
    requires FirstSuccess(s, e) && CreatedAgrees(s)
    ensures var p := s.cells[e.id].payment;
            Apply(s, e).referrals == SettledReferrals(s.referrals, p.user, e.id, p.amount, e.program, NoOtherSuccess(s, e.id, p.user))
  {
    hide Fulfil, Succeed, SucceededOf, SettledReferrals, NoOtherSuccess, Free;
    var p := s.cells[e.id].payment;
    FirstSuccessesFulfil(s, e);
    SucceedsExactly(s.cells[e.id], e.provider, e.amount, e.currency, e.paidAt, Free(s, e.id, e.provider));
    var change := Succeed(s.cells[e.id], e.provider, e.amount, e.currency, e.paidAt, Free(s, e.id, e.provider));
    FulfilSettles(s, e.id, change.cell, e.saved, e.program, e.now);
    CountsOthers(s, Write(s, e.id, change.cell).cells, e.id, p.user);
  }

  lemma AffiliateSettles(s: State, id: PaymentId, user: UserId, amount: nat, program: Program)
    ensures ApplyAffiliate(s, id, user, amount, program).referrals ==
            SettledReferrals(s.referrals, user, id, amount, program, SucceededOf(s.cells, user, s.created) == 1)
  {
    hide SucceededOf;
  }

  lemma FulfilSettles(s: State, id: PaymentId, c: Cell, saved: Option<string>, program: Program, now: int)
    requires id in s.cells && s.cells[id].payment.plan.Some? && s.cells[id].payment.period.Some?
    ensures var p := s.cells[id].payment;
            Fulfil(s, id, c, saved, program, now).referrals ==
            SettledReferrals(s.referrals, p.user, id, p.amount, program, SucceededOf(Write(s, id, c).cells, p.user, s.created) == 1)
  {
    hide AfterPayment, AfterSuccess, SucceededOf, ApplyAffiliate, SettledReferrals;
    var p := s.cells[id].payment;
    var s1 := Write(s, id, c);
    var sub := AfterPayment(Lookup(s.subscriptions, p.user), p.plan.value, p.period.value, now);
    var s2 := s1.(subscriptions := s1.subscriptions[p.user := sub], nextSequence := s1.nextSequence + 1, grants := s1.grants + [id]);
    var s3 := UpdateRenewal(s2, p.user, AfterSuccess(Lookup(s.renewals, p.user), p, saved, sub.expiresAt.value));
    AffiliateSettles(s3, id, p.user, p.amount, program);
  }

  /** The count is one exactly when no other payment of the user has succeeded. */
  lemma CountsOthers(s: State, cells: map<PaymentId, Cell>, id: PaymentId, user: UserId)
    requires CreatedAgrees(s) && id in s.cells && cells.Keys == s.cells.Keys && PaidBy(cells, id, user)
    requires forall other | other in s.cells && other != id :: cells[other] == s.cells[other]
    ensures SucceededOf(cells, user, s.created) == 1 <==> NoOtherSuccess(s, id, user)
  {
    var s1 := s.(cells := cells);
    if SucceededOf(cells, user, s.created) == 1 {
      forall other | other in s.cells && other != id && s.cells[other].payment.user == user ensures s.cells[other].payment.status != Succeeded {
        if s.cells[other].payment.status == Succeeded {
          OnlySuccess(s1, user, id, other);
        }
      }
    }
    if forall other | other in s.cells && other != id && s.cells[other].payment.user == user :: s.cells[other].payment.status != Succeeded {
      CountsExactlyOne(cells, user, s.created, id);
    }
  }

  lemma {:induction false} CountsExactlyOne(cells: map<PaymentId, Cell>, user: UserId, ids: seq<PaymentId>, id: PaymentId)
    requires Distinct(ids) && PaidBy(cells, id, user) && forall other | other in cells && other != id :: !PaidBy(cells, other, user)
    ensures SucceededOf(cells, user, ids) == if id in ids then 1 else 0
  {
    if ids != [] {
      CountsExactlyOne(cells, user, ids[..|ids| - 1], id);
    }
  }

  /** A reward for this payment. */
  function RewardFor(s: State, id: PaymentId, program: Program): Referral {
    var amount := if id in s.cells then s.cells[id].payment.amount else 0;
    Referral(RewardPending, Some(id), amount, program.percent, amount * program.percent / 100)
  }

  /** A registration in time enters a new referral: rewarded for the first success there is, or waiting for one. */
  lemma RegistrationsEnterExactly(s: State, user: UserId, first: Option<PaymentId>, inTime: bool, program: Program)
    requires CreatedAgrees(s)
    ensures var s' := Apply(s, ReferralRegistered(user, first, inTime, program));
            var fits := if first.Some? then Earliest(s, user, first.value, s.created) else NeverPaid(s, user);
            && (user !in s.referrals && program.enabled && inTime && fits ==>
                  && user in s'.referrals && s'.cells == s.cells
                  && s'.referrals[user] == (if first.None? then Referral(Registered, None, 0, 0, 0)
                                            else RewardFor(s, first.value, program)))
            && (!(user !in s.referrals && program.enabled && inTime && fits) ==> s' == s)
  {
    hide Earliest, SucceededOf, CreatedAgrees, NeverPaid;
    CountsNever(s, user);
    EarliestIsPaid(s, user, first);
  }

  lemma EarliestIsPaid(s: State, user: UserId, first: Option<PaymentId>)
    ensures first.Some? && Earliest(s, user, first.value, s.created) ==> first.value in s.cells
  {
  }

  /** The user has paid nothing yet. */
  predicate NeverPaid(s: State, user: UserId) {
    forall id | id in s.cells && s.cells[id].payment.user == user :: s.cells[id].payment.status != Succeeded
  }

  lemma CountsNever(s: State, user: UserId)
    requires CreatedAgrees(s)
    ensures SucceededOf(s.cells, user, s.created) == 0 <==> NeverPaid(s, user)
  {
    if NeverPaid(s, user) {
      CountsNone(s.cells, user, s.created);
    } else {
      var id :| id in s.cells && s.cells[id].payment.user == user && s.cells[id].payment.status == Succeeded;
      var i :| 0 <= i < |s.created| && s.created[i] == id;
      OneIsCounted(s.cells, user, s.created, i);
    }
  }

  lemma {:induction false} CountsNone(cells: map<PaymentId, Cell>, user: UserId, ids: seq<PaymentId>)
    requires forall id | id in cells && cells[id].payment.user == user :: cells[id].payment.status != Succeeded
    ensures SucceededOf(cells, user, ids) == 0
  {
    if ids != [] {
      CountsNone(cells, user, ids[..|ids| - 1]);
    }
  }

  // ---------------------------------------------------------------- which rows an event touches

  /** The row that an event about one renewal leaves behind; each of these functions has its own law. */
  function RowAfter(r: Renewal, e: Event): Renewal {
    match e
    case RenewalDisabled(_, now) => DisableByUser(r, now)
    case RenewalActed(_, action, eligible, found, now) =>
      var r' := AdminAction(r, action, eligible, found, now);
      if r'.Some? then r'.value else r
    case RenewalReconciled(_, amount, error, now) => Reconcile(r, amount, error, now)
    case PriceConfirmed(_, amount, eligible, now) =>
      var r' := ConfirmPrice(r, amount, eligible, now);
      if r'.Some? then r'.value else r
    case TariffChanged(_, amount) => ReviewPrice(r, amount)
    case SubscriptionWithdrawn(_, now) => RevokeForAdminCancellation(r, now)
    case UserDeactivated(_, occurredAt) => RevokeForDeactivation(r, occurredAt)
    case _ => r
  }

  predicate AboutRenewal(e: Event) {
    e.RenewalDisabled? || e.RenewalActed? || e.RenewalReconciled? || e.PriceConfirmed? || e.TariffChanged? || e.SubscriptionWithdrawn? || e.UserDeactivated?
  }

  /** Such an event changes the user's renewal and no other; only a stop touches payments. */
  lemma RenewalEventsTouchOneRow(s: State, e: Event)
    requires Inv(s) && AboutRenewal(e)
    ensures Apply(s, e).renewals == if e.user in s.renewals then s.renewals[e.user := RowAfter(s.renewals[e.user], e)] else s.renewals
    ensures !IsStop(e) ==> Apply(s, e) == s.(renewals := Apply(s, e).renewals)
  {
    hide Inv, SweepAll, DisableByUser, AdminAction, Reconcile, ConfirmPrice, ReviewPrice, RevokeForAdminCancellation, RevokeForDeactivation;
    assert s == s.(renewals := s.renewals);
    if e.user in s.renewals {
      assert s.renewals == s.renewals[e.user := s.renewals[e.user]];
    }
    match e
    case RenewalDisabled(user, now) =>
      SweepsKeepRenewals(s, e, FutureSweep(user, "user_disabled_before_provider_call"));
    case RenewalActed(user, action, eligible, found, now) =>
      SweepsKeepRenewals(s, e, FutureSweep(user, "consent_revoked_before_provider_call"));
    case SubscriptionWithdrawn(user, now) =>
      SweepsKeepRenewals(s, e, AdminSweep(user, "admin_cancelled"));
    case UserDeactivated(user, _) =>
      SweepsKeepRenewals(s, e, DeactivationSweep(user));
    case RenewalReconciled(_, _, _, _) =>
    case PriceConfirmed(_, _, _, _) =>
    case TariffChanged(_, _) =>
  }

  lemma SweepsKeepRenewals(s: State, e: Event, sweep: Sweep)
    requires Inv(s) && AboutRenewal(e)
    ensures SweepAll(s, sweep, s.created).renewals == s.renewals
    ensures e.user in s.renewals ==>
              var renewals := s.renewals[e.user := RowAfter(s.renewals[e.user], e)];
              SweepAll(s.(renewals := renewals), sweep, s.created).renewals == renewals
  {
    hide Inv, SweepAll, RowAfter, Advances;
    assert s == s.(renewals := s.renewals);
    WithdrawalAdvances(s, s.renewals, sweep);
    if e.user in s.renewals {
      WithdrawalAdvances(s, s.renewals[e.user := RowAfter(s.renewals[e.user], e)], sweep);
    }
  }

  /** A dispatch writes its verdict to its own payment and touches no other; an expired charge is closed or left uncertain. */
  lemma DispatchesTouchOneCell(s: State, id: PaymentId, token: Token, env: Surroundings)
    requires id in s.cells
    ensures var (s', verdict) := (Apply(s, PaymentDispatched(id, token, env)), Judge(s, id, token, env));
            && s'.cells.Keys == s.cells.Keys && (forall other | other in s.cells && other != id :: s'.cells[other] == s.cells[other])
            && (verdict.LeaseLost? || verdict.NotPrepared? ==> s' == s)
            && (verdict.Fenced? || verdict.AskedAgain? || verdict.Sent? ==> s' == s.(cells := s.cells[id := verdict.cell]))
            && (verdict.Uncertainty? ==> s' == Write(s, id, verdict.cell))
  {
    hide DispatchCreation, CloseExpiredDispatch, RenewalReady, MarkUnknown;
    var c := s.cells[id];
    if Judge(s, id, token, env).CloseExpired? && c.payment.cycle.Some? {
      WindowsAreClosedExactly(s, id, c.payment.user, c.payment.cycle.value,
                              if c.payment.checkoutExpiresAt <= env.now then env.now else env.laterNow, Some(token));
    }
  }

  /** A failure, a cancellation and a resolution write their own payment, and touch a renewal and no subscription. */
  lemma ClosingsTouchOneCell(s: State, e: Event)
    requires e.DispatchFailed? || e.ProviderCancelled? || e.DeveloperResolved?
    ensures var change := ChangeBy(s, e);
            && Apply(s, e).cells == Commit(s, e.id, change).cells && Apply(s, e).outbox == Commit(s, e.id, change).outbox
            && Apply(s, e).subscriptions == s.subscriptions && Apply(s, e).created == s.created && Apply(s, e).grants == s.grants
  {
    hide WorkerFailed, MarkCancelled, ResolveUnknown, Free, AfterClose, Commit;
    if e.id in s.cells {
      var p := s.cells[e.id].payment;
      match e {
      case DispatchFailed(id, token, f) => ClosingTouchesRenewals(Commit(s, id, WorkerFailed(s.cells[id], token, f)), id, p, f.code, f.now);
      case ProviderCancelled(id, provider, reason, now) =>
        ClosingTouchesRenewals(Commit(s, id, MarkCancelled(s.cells[id], provider, reason, Free(s, id, provider))), id, p, reason, now);
      case DeveloperResolved(id, now) =>
        ClosingTouchesRenewals(Commit(s, id, ResolveUnknown(s.cells[id], now)), id, p, "manual_unknown_provider", now);
      }
      CommitsTouchCells(s, e.id, ChangeBy(s, e));
    } else {
      CommitsTouchCells(s, e.id, Unchanged);
    }
  }

  /** The change that such an event makes to its payment. */
  function ChangeBy(s: State, e: Event): Change
    requires e.DispatchFailed? || e.ProviderCancelled? || e.DeveloperResolved?
  {
    if e.id !in s.cells then Unchanged
    else if e.DispatchFailed? then WorkerFailed(s.cells[e.id], e.token, e.failure)
    else if e.ProviderCancelled? then MarkCancelled(s.cells[e.id], e.provider, e.reason, Free(s, e.id, e.provider))
    else ResolveUnknown(s.cells[e.id], e.now)
  }

  lemma ClosingTouchesRenewals(s: State, id: PaymentId, p: Payment, reason: string, now: int)
    ensures var s' := AfterClose(s, id, p, reason, now);
            s'.cells == s.cells && s'.outbox == s.outbox && s'.subscriptions == s.subscriptions && s'.created == s.created && s'.grants == s.grants
  {
    hide AfterCancellation, Rewarded;
  }

  lemma CommitsTouchCells(s: State, id: PaymentId, change: Change)
    ensures var s' := Commit(s, id, change);
            s'.subscriptions == s.subscriptions && s'.created == s.created && s'.grants == s.grants && (change.Unchanged? ==> s' == s)
  {
  }
}
