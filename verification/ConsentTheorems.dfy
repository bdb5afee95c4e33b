/** Consent and retries over whole runs. */
module ConsentTheorems {
  import opened Common
  import opened Dispatch
  import opened Renewal
  import PaidTime
  import opened Ledger
  import opened LedgerSafety
  import opened LedgerRuns
  import opened LedgerConsent
  import opened LedgerTheorems

  // ---------------------------------------------------------------- consent

  /** The event is the success of an open checkout that the user consented to after withdrawing. */
  predicate Regrants(s: State, e: Event, user: UserId) {
    && user in s.renewals && Withdrawn(s.renewals[user]) && s.renewals[user].disabledAt.Some?
    && e.ProviderSucceeded? && e.id in s.cells
    && var p := s.cells[e.id].payment;
    && p.user == user && p.kind == OneTime && p.status == Pending && p.autoRenew && p.consentComplete && e.saved.Some?
    && p.consentedAt.Some? && p.consentedAt.value > s.renewals[user].disabledAt.value
  }

  lemma RegrantingStep(s: State, e: Event, user: UserId)
    requires Good(s) && user in s.renewals && Withdrawn(s.renewals[user])
    ensures user in Apply(s, e).renewals && (Withdrawn(Apply(s, e).renewals[user]) || Regrants(s, e, user))
  {
    hide Inv, Apply;
    RenewalStep(s, e);
  }

  /**
   * Whatever happens between two moments of a run: if the user's renewal was withdrawn at the first
   * and is not at the second, a checkout with a later consent succeeded in between.
   */
  lemma {:induction false} ConsentReturnsOnlyByCheckout(s: State, es: seq<Event>, user: UserId)
    requires Good(s) && user in s.renewals && Withdrawn(s.renewals[user])
    ensures user in Run(s, es).renewals
    ensures !Withdrawn(Run(s, es).renewals[user]) ==> exists j | 0 <= j < |es| :: Regrants(Run(s, es[..j]), es[j], user)
  {
    hide Good, Apply, Regrants;
    if es != [] {
      var before, e := es[..|es| - 1], es[|es| - 1];
      ConsentReturnsOnlyByCheckout(s, before, user);
      RunIsGood(s, before);
      if Withdrawn(Run(s, before).renewals[user]) {
        RegrantingStep(Run(s, before), e, user);
      } else {
        var j :| 0 <= j < |before| && Regrants(Run(s, before[..j]), before[j], user);
        assert before[..j] == es[..j] && before[j] == es[j];
        RenewalRowsStay(Run(s, before), e, user);
      }
    }
  }

  lemma RenewalRowsStay(s: State, e: Event, user: UserId)
    requires Good(s) && user in s.renewals
    ensures user in Apply(s, e).renewals
  {
    hide Inv, Apply;
    RenewalStep(s, e);
  }

  /** Consent over every run of the service; a withdrawn renewal holds no payment method throughout. */
  lemma WithdrawnConsentIsKept(es: seq<Event>, i: nat, user: UserId)
    requires i <= |es| && user in Run(Empty, es[..i]).renewals && Withdrawn(Run(Empty, es[..i]).renewals[user])
    ensures Run(Empty, es[..i]).renewals[user].saved.None?
    ensures user in Run(Empty, es).renewals
    ensures !Withdrawn(Run(Empty, es).renewals[user]) ==>
              exists j | i <= j < |es| :: Regrants(Run(Empty, es[..j]), es[j], user)
  {
    hide Inv, Advances, Run, Regrants;
    EmptyIsGood();
    PrefixAdvances(Empty, es, i);
    var s, rest := Run(Empty, es[..i]), es[i..];
    ConsentReturnsOnlyByCheckout(s, rest, user);
    if !Withdrawn(Run(Empty, es).renewals[user]) {
      var k :| 0 <= k < |rest| && Regrants(Run(s, rest[..k]), rest[k], user);
      RunInTwoParts(Empty, es[..i], rest[..k]);
      assert es[..i] + rest[..k] == es[..i + k] && rest[k] == es[i + k];
      assert Regrants(Run(Empty, es[..i + k]), es[i + k], user);
    }
  }

  // ---------------------------------------------------------------- charges

  /** A charge is sent only while its renewal is active and waits for it. */
  lemma ChargesNeedActiveRenewals(s: State, e: Event, id: PaymentId)
    requires Good(s) && id in s.cells && s.cells[id].payment.kind == Recurring
    requires var user := s.cells[id].payment.user; user !in s.renewals || s.renewals[user].status != Active
    ensures id in Apply(s, e).cells && Apply(s, e).cells[id].issued == s.cells[id].issued
  {
    hide Inv, RenewalsConsistent, DispatchCreation, DispatchPayment, Holds;
    if Sends(s, e) {
      var c := s.cells[e.id];
      RequestsAreSentInTime(c, e.token, e.env.(renewalReady := RenewalReady(s, c.payment)));
      SendTouchesOneCell(s, e.id, e.token, e.env);
    } else {
      hide Apply, Sends;
      StepIsGood(s, e);
    }
  }

  /** From a withdrawal on, no charge of the user is sent until a later consent is granted. */
  lemma {:induction false} NoChargesAfterWithdrawal(s: State, es: seq<Event>, id: PaymentId)
    requires Good(s) && id in s.cells && s.cells[id].payment.kind == Recurring
    requires var user := s.cells[id].payment.user; user in s.renewals && Withdrawn(s.renewals[user])
    requires forall j | 0 <= j < |es| :: !Regrants(Run(s, es[..j]), es[j], s.cells[id].payment.user)
    ensures id in Run(s, es).cells && Run(s, es).cells[id].issued == s.cells[id].issued
  {
    hide Good, Apply, Regrants, Inv, Advances;
    if es != [] {
      var before := es[..|es| - 1];
      forall j | 0 <= j < |before| ensures !Regrants(Run(s, before[..j]), before[j], s.cells[id].payment.user) {
        assert before[..j] == es[..j] && before[j] == es[j];
      }
      NoChargesAfterWithdrawal(s, before, id);
      RunIsGood(s, before);
      SamePayment(s, Run(s, before), id, PrudentRun(s, before), Schedules(before));
      ConsentReturnsOnlyByCheckout(s, before, s.cells[id].payment.user);
      ChargesNeedActiveRenewals(Run(s, before), es[|es| - 1], id);
    }
  }

  lemma SamePayment(s: State, s': State, id: PaymentId, safely: bool, reopens: bool)
    requires Advances(s, s', safely, reopens, true, true, true) && id in s.cells
    ensures id in s'.cells && s'.cells[id].payment.user == s.cells[id].payment.user && s'.cells[id].payment.kind == s.cells[id].payment.kind
  {
    hide Inv;
  }

  /** What the scheduler opens a payment for, and until when. */
  predicate Agreed(p: Payment, user: UserId, r: Renewal, e: Schedule) {
    var dueAt := if r.nextRetryAt.Some? then r.nextRetryAt.value else r.nextChargeAt;
    && p.user == user && p.kind == Recurring && r.status == Active && r.pendingAmount.None? && !r.dispatchPending
    && p.amount == r.amount == e.currentAmount && p.saved == r.saved && r.saved.Some? && p.consentedAt == Some(r.consentedAt)
    && p.cycle == Some(CycleKey(user, r.nextChargeAt, if r.nextRetryAt.Some? then r.retryAttempt else 0))
    && e.identityActive && dueAt <= e.now <= dueAt + DUE_GRACE && e.now <= p.checkoutExpiresAt <= dueAt + DUE_GRACE
  }

  /** Every payment that the scheduler opens is for the agreed price, the given consent and the date that is due. */
  lemma ChargesAreAgreed(s: State, user: UserId, id: PaymentId, e: Schedule, charge: PaymentId)
    requires Inv(s) && charge in ScheduleCharge(s, user, id, e).cells
    requires ScheduleCharge(s, user, id, e).cells[charge].payment.status == Pending
    requires charge in s.cells ==> s.cells[charge].payment.status != Pending
    ensures user in s.renewals && Agreed(ScheduleCharge(s, user, id, e).cells[charge].payment, user, s.renewals[user], e)
  {
    hide Inv, Screen, TakeUpCharge;
    var r := s.renewals[user];
    var screening := Screen(r, Lookup(s.subscriptions, user), e);
    ScreeningIsStrict(r, Lookup(s.subscriptions, user), e);
    TakenUpTerms(s, user, id, screening.attempt, screening.until, e.now, charge);
  }

  /** A payment that is taken up has the terms of the renewal. */
  lemma TakenUpTerms(s: State, user: UserId, id: PaymentId, attempt: nat, until: int, now: int, charge: PaymentId)
    requires Inv(s) && user in s.renewals && charge in TakeUpCharge(s, user, id, attempt, until, now).cells
    requires TakeUpCharge(s, user, id, attempt, until, now).cells[charge].payment.status == Pending
    requires charge in s.cells ==> s.cells[charge].payment.status != Pending
    ensures var (p, r) := (TakeUpCharge(s, user, id, attempt, until, now).cells[charge].payment, s.renewals[user]);
            && p.user == user && p.kind == Recurring && p.amount == r.amount && p.saved == r.saved && p.consentedAt == Some(r.consentedAt)
            && p.cycle == Some(CycleKey(user, r.nextChargeAt, attempt)) && p.checkoutExpiresAt == until
  {
    hide CellsSound, Unique, CreatedAgrees, OutboxAgrees, GrantsAgree, RewardsAgree, BlocksCharge, PauseInvalid, Enqueue, Resume;
    var r := s.renewals[user];
    var found := FindCycle(s.cells, s.created, CycleKey(user, r.nextChargeAt, attempt));
    if found.Some? {
      CyclesAreCharges(s, found.value);
      ResumedTerms(s.cells[found.value], r, until);
    }
  }

  lemma CyclesAreCharges(s: State, id: PaymentId)
    requires CellsSound(s.cells) && Unique(s.cells) && id in s.cells && s.cells[id].payment.cycle.Some?
    ensures s.cells[id].payment.kind == Recurring && s.cells[id].payment.user == s.cells[id].payment.cycle.value.renewal
  {
    assert Sound(s.cells[id]);
  }

  lemma ResumedTerms(c: Cell, r: Renewal, until: int)
    ensures var change := Resume(c, r.amount, r.currency, r.plan, r.period, r.consentedAt, r.saved, until);
            change.Written? ==>
              var p := change.cell.payment;
              && p.user == c.payment.user && p.kind == c.payment.kind && p.cycle == c.payment.cycle && p.amount == r.amount
              && p.saved == r.saved && p.consentedAt == Some(r.consentedAt) && p.checkoutExpiresAt == until
  {
  }

  lemma ScreeningIsStrict(r: Renewal, sub: Option<PaidTime.Subscription>, e: Schedule)
    ensures var screening := Screen(r, sub, e);
            var dueAt := if r.nextRetryAt.Some? then r.nextRetryAt.value else r.nextChargeAt;
            screening.Charge? ==>
              && r.status == Active && r.pendingAmount.None? && !r.dispatchPending && r.amount == e.currentAmount && r.saved.Some?
              && screening.attempt == (if r.nextRetryAt.Some? then r.retryAttempt else 0)
              && e.identityActive && dueAt <= e.now <= dueAt + DUE_GRACE && e.now <= screening.until <= dueAt + DUE_GRACE
  {
    hide PauseInvalid, Withdraw, RequirePrice, FollowSubscription;
  }

  // ---------------------------------------------------------------- retries

  function Attempt(s: State, user: UserId): nat {
    if user in s.renewals then s.renewals[user].retryAttempt else 0
  }

  function RetryCount(s: State, es: seq<Event>, user: UserId): nat {
    if es == [] then 0
    else RetryCount(s, es[..|es| - 1], user) + (if Retries(Run(s, es[..|es| - 1]), es[|es| - 1], user) then 1 else 0)
  }

  /** How often the retry state was reset: by a payment, a withdrawal or a moved charge date. */
  function ResetCount(s: State, es: seq<Event>, user: UserId): nat {
    if es == [] then 0
    else ResetCount(s, es[..|es| - 1], user) + (if Attempt(Run(s, es), user) < Attempt(Run(s, es[..|es| - 1]), user) then 1 else 0)
  }

  lemma AttemptStep(s: State, e: Event, user: UserId)
    requires Good(s)
    ensures if Retries(s, e, user) then Attempt(Apply(s, e), user) == Attempt(s, user) + 1
            else Attempt(Apply(s, e), user) == Attempt(s, user) || Attempt(Apply(s, e), user) == 0
  {
    hide Inv, Apply, Retries, GrantedBy, Consistent;
    RenewalStep(s, e);
    RetriesAreNotGrants(s, e, user);
  }

  lemma RetriesAreNotGrants(s: State, e: Event, user: UserId)
    ensures Retries(s, e, user) ==> user in s.renewals && !GrantedBy(s, e, user)
  {
  }

  lemma AttemptsAreBounded(s: State, user: UserId)
    requires Good(s)
    ensures Attempt(s, user) <= 2
  {
    hide Inv;
  }

  /** Between resets at most two retries are scheduled, however often cancellations arrive. */
  lemma {:induction false} RetriesAreBounded(s: State, es: seq<Event>, user: UserId)
    requires Good(s)
    ensures Attempt(s, user) + RetryCount(s, es, user) <= 2 * ResetCount(s, es, user) + Attempt(Run(s, es), user)
    ensures RetryCount(s, es, user) <= 2 * (ResetCount(s, es, user) + 1)
  {
    hide Good, Apply, Retries, Attempt;
    RunIsGood(s, es);
    AttemptsAreBounded(Run(s, es), user);
    if es != [] {
      var before := es[..|es| - 1];
      RetriesAreBounded(s, before, user);
      RunIsGood(s, before);
      AttemptStep(Run(s, before), es[|es| - 1], user);
      AttemptsAreBounded(Run(s, before), user);
    }
  }

  /** The charge that a closing event stops is not the one the renewal waits for. */
  predicate Stale(s: State, e: Event, user: UserId) {
    && ClosedBy(s, e).Some? && ClosedBy(s, e).value.id in s.cells && user in s.renewals
    && var p := s.cells[ClosedBy(s, e).value.id].payment;
    p.user != user || p.kind != Recurring || !CurrentCharge(s.renewals[user], p)
  }

  /**
   * A stale cancellation leaves the renewal as it is, and so does the same cancellation once more;
   * after the second retry the next retryable failure pauses the renewal.
   */
  lemma ClosingsAreCountedOnce(s: State, e: Event, user: UserId)
    requires Good(s) && user in s.renewals && ClosedBy(s, e).Some?
    ensures user in Apply(s, e).renewals
    ensures Stale(s, e, user) ==> Apply(s, e).renewals[user] == s.renewals[user]
    ensures Retries(s, e, user) ==>
              var p := s.cells[ClosedBy(s, e).value.id].payment; !CurrentCharge(Apply(s, e).renewals[user], p)
    ensures !Stale(s, e, user) && s.renewals[user].status == Active && s.renewals[user].retryAttempt == 2
            && RetryableReason(ClosedBy(s, e).value.reason)
            ==> Apply(s, e).renewals[user].status == TechnicalPause
  {
    hide Inv, AfterCancellation, WorkerFailed, MarkCancelled, ResolveUnknown, Free, Rewarded, CurrentCharge, RetryableReason, SchedulesRetry;
    var id, reason := ClosedBy(s, e).value.id, ClosedBy(s, e).value.reason;
    var now := if e.DispatchFailed? then e.failure.now else e.now;
    ClosedRows(s.renewals[user], s.cells[id].payment, reason, now);
    ClosedRenewals(s, e);
  }

  lemma ClosedRenewals(s: State, e: Event)
    requires ClosedBy(s, e).Some?
    ensures var (id, reason) := (ClosedBy(s, e).value.id, ClosedBy(s, e).value.reason);
            var now := if e.DispatchFailed? then e.failure.now else e.now;
            id in s.cells && var p := s.cells[id].payment;
            Apply(s, e).renewals == if p.user in s.renewals
                                    then s.renewals[p.user := AfterCancellation(s.renewals[p.user], p, reason, now)] else s.renewals
  {
    hide AfterCancellation, WorkerFailed, MarkCancelled, ResolveUnknown, Free, Rewarded;
  }

  lemma ClosedRows(r: Renewal, p: Payment, reason: string, now: int)
    ensures p.kind != Recurring || !CurrentCharge(r, p) ==> AfterCancellation(r, p, reason, now) == r
    ensures SchedulesRetry(r, p, reason) ==> !CurrentCharge(AfterCancellation(r, p, reason, now), p)
    ensures p.kind == Recurring && CurrentCharge(r, p) && r.status == Active && r.retryAttempt == 2 && RetryableReason(reason)
            ==> AfterCancellation(r, p, reason, now).status == TechnicalPause
  {
  }
}
