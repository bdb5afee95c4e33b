/** The ledger over whole runs: every sequence of events, in every order and with every repetition. */
module LedgerTheorems {
  import opened Common
  import opened Dispatch
  import opened Renewal
  import opened PaidTime
  import opened Ledger
  import opened LedgerSafety
  import opened LedgerRuns
  import opened LedgerConsent

  // ---------------------------------------------------------------- steps and runs

  /** Neither a blind fence nor a blind deactivation: the two ways to lose track of a sent request. */
  predicate Prudent(s: State, e: Event) {
    && (e.PaymentDispatched? ==> !DispatchesBlindly(s, e.id, e.token, e.env))
    && (e.UserDeactivated? ==> NothingHidden(s, e.user))
  }

  predicate PrudentRun(s: State, es: seq<Event>) {
    es == [] || (PrudentRun(s, es[..|es| - 1]) && Prudent(Run(s, es[..|es| - 1]), es[|es| - 1]))
  }

  /** The event sends a creating request to the provider. */
  predicate Sends(s: State, e: Event) {
    e.PaymentDispatched? && Dispatches(s, e.id, e.token, e.env)
  }

  /** Only a success and a registration touch referrals. */
  predicate MayAward(e: Event) {
    e.ProviderSucceeded? || e.ReferralRegistered?
  }

  /** The event brings the provider's definite refusal. */
  predicate IsRefusal(s: State, e: Event) {
    e.DispatchFailed? && Refuses(s, e.id, e.token, e.failure)
  }

  predicate Schedules(es: seq<Event>) {
    exists i | 0 <= i < |es| :: es[i].ChargeScheduled?
  }

  predicate Good(s: State) {
    Inv(s) && RenewalsConsistent(s)
  }

  lemma RenewalEventsAdvance(s: State, e: Event)
    requires Good(s)
    requires e.RenewalDisabled? || e.RenewalActed? || e.SubscriptionWithdrawn? || e.UserDeactivated?
             || e.RenewalReconciled? || e.PriceConfirmed? || e.TariffChanged?
    ensures Advances(s, Apply(s, e), Prudent(s, e))
  {
    hide Inv, Advances, SweepAll, AdminAction, Reconcile, ConfirmPrice, ReviewPrice, RevokeForDeactivation, RevokeForAdminCancellation,
         DisableByUser, NothingHidden, RenewalsConsistent;
    assert s == s.(renewals := s.renewals);
    RenewalChangeAdvances(s, s.renewals);
    match e
    case RenewalDisabled(user, now) =>
      if user in s.renewals {
        WithdrawalAdvances(s, s.renewals[user := DisableByUser(s.renewals[user], now)], FutureSweep(user, "user_disabled_before_provider_call"));
      }
    case RenewalActed(user, action, eligible, found, now) =>
      if user in s.renewals && AdminAction(s.renewals[user], action, eligible, found, now).Some? {
        var renewals := s.renewals[user := AdminAction(s.renewals[user], action, eligible, found, now).value];
        WithdrawalAdvances(s, renewals, FutureSweep(user, "consent_revoked_before_provider_call"));
        RenewalChangeAdvances(s, renewals);
      }
    case SubscriptionWithdrawn(user, now) =>
      WithdrawalAdvances(s, s.renewals, AdminSweep(user, "admin_cancelled"));
      if user in s.renewals {
        WithdrawalAdvances(s, s.renewals[user := RevokeForAdminCancellation(s.renewals[user], now)], AdminSweep(user, "admin_cancelled"));
      }
    case UserDeactivated(user, now) =>
      WithdrawalAdvances(s, s.renewals, DeactivationSweep(user));
      if user in s.renewals {
        WithdrawalAdvances(s, s.renewals[user := RevokeForDeactivation(s.renewals[user], now)], DeactivationSweep(user));
      }
    case RenewalReconciled(user, amount, error, now) =>
      if user in s.renewals { RenewalChangeAdvances(s, s.renewals[user := Reconcile(s.renewals[user], amount, error, now)]); }
    case PriceConfirmed(user, amount, eligible, now) =>
      if user in s.renewals && ConfirmPrice(s.renewals[user], amount, eligible, now).Some? {
        RenewalChangeAdvances(s, s.renewals[user := ConfirmPrice(s.renewals[user], amount, eligible, now).value]);
      }
    case TariffChanged(user, amount) =>
      if user in s.renewals { RenewalChangeAdvances(s, s.renewals[user := ReviewPrice(s.renewals[user], amount)]); }
  }

  lemma StepAdvances(s: State, e: Event)
    requires Good(s)
    ensures Advances(s, Apply(s, e), Prudent(s, e), e.ChargeScheduled?, Sends(s, e), MayAward(e), IsRefusal(s, e))
  {
    hide Inv, Advances, CreateCheckout, DisableRenewal, ActOnRenewal, CancelSubscription, DeactivateUser, ScheduleCharge, DeliverCharge,
         DispatchPayment, FailDispatch, ApplyCancellation, ApplySuccess, ResolveAsNotFound, RegisterReferral, ApplyToCell, UpdateRenewal,
         DispatchesBlindly, NothingHidden;
    match e
    case CheckoutRequested(id, order, accepted, now) => CheckoutAdvances(s, id, order, accepted, now);
    case RenewalDisabled(_, _) => RenewalEventsAdvance(s, e);
    case RenewalActed(_, _, _, _, _) => RenewalEventsAdvance(s, e);
    case SubscriptionWithdrawn(_, _) => RenewalEventsAdvance(s, e);
    case UserDeactivated(_, _) => RenewalEventsAdvance(s, e);
    case RenewalReconciled(_, _, _, _) => RenewalEventsAdvance(s, e);
    case PriceConfirmed(_, _, _, _) => RenewalEventsAdvance(s, e);
    case TariffChanged(_, _) => RenewalEventsAdvance(s, e);
    case ChargeScheduled(user, id, schedule) => ScheduleAdvances(s, user, id, schedule);
    case ChargeDelivered(id, user, cycle, now) => DeliverChargeAdvances(s, id, user, cycle, now);
    case PaymentDispatched(id, token, env) => DispatchAdvances(s, id, token, env);
    case DispatchFailed(id, token, failure) => FailDispatchAdvances(s, id, token, failure);
    case ProviderCancelled(id, provider, reason, now) => CancellationAdvances(s, id, provider, reason, now);
    case ProviderSucceeded(id, provider, amount, currency, saved, program, paidAt, now) =>
      SuccessAdvances(s, id, provider, amount, currency, saved, program, paidAt, now);
    case DeveloperResolved(id, now) => ResolutionAdvances(s, id, now);
    case ReferralRegistered(user, first, inTime, program) => RegistrationAdvances(s, user, first, inTime, program);
    case SubscriptionSet(user, row) => BystandersAdvance(s, s.(subscriptions := s.subscriptions[user := row]));
    case UserCancelled(id, _) => SingleAdvances(s, id, e);
    case CheckoutExpired(id, _) => SingleAdvances(s, id, e);
    case OperationClaimed(id, _, _) => SingleAdvances(s, id, e);
    case DispatchCompleted(id, _) => SingleAdvances(s, id, e);
    case ProviderBound(id, _, _, _, _) => SingleAdvances(s, id, e);
    case LookupQueued(id, _) => SingleAdvances(s, id, e);
    case LookupMoved(id, _, _) => SingleAdvances(s, id, e);
  }

  /** One event keeps the ledger and its renewals good. */
  lemma StepIsGood(s: State, e: Event)
    requires Good(s)
    ensures Good(Apply(s, e)) && Advances(s, Apply(s, e), Prudent(s, e), e.ChargeScheduled?, Sends(s, e), MayAward(e), IsRefusal(s, e))
  {
    hide Inv, Apply, Consistent, CellsContinue, CellsSafe;
    StepAdvances(s, e);
    RenewalStep(s, e);
  }

  /** Any run of events keeps the ledger good, and continues every payment. */
  lemma {:induction false} RunIsGood(s: State, es: seq<Event>)
    requires Good(s)
    ensures Good(Run(s, es)) && Advances(s, Run(s, es), PrudentRun(s, es), Schedules(es), true, true, true)
  {
    hide Inv, RenewalsConsistent, Apply, CellsContinue, CellsSafe, Prudent;
    if es == [] {
      BystandersAdvance(s, s);
      AdvancesLess(s, s, true, true, false, false, false, true, false, true, false, true);
    } else {
      var before, e := es[..|es| - 1], es[|es| - 1];
      RunIsGood(s, before);
      var middle := Run(s, before);
      StepIsGood(middle, e);
      AdvancesLess(s, middle, PrudentRun(s, before), PrudentRun(s, es), Schedules(before), Schedules(es), true, true, true, true, true, true);
      AdvancesLess(middle, Run(s, es), Prudent(middle, e), PrudentRun(s, es), e.ChargeScheduled?, Schedules(es), Sends(middle, e), true, MayAward(e), true, IsRefusal(middle, e), true);
      AdvancesTwice(s, middle, Run(s, es), PrudentRun(s, es), Schedules(es), true, true, true);
    }
  }

  lemma {:induction false} RunInTwoParts(s: State, es: seq<Event>, fs: seq<Event>)
    ensures Run(s, es + fs) == Run(Run(s, es), fs)
  {
    if fs == [] {
      assert es + fs == es;
    } else {
      var whole, before := es + fs, fs[..|fs| - 1];
      assert whole[..|whole| - 1] == es + before && whole[|whole| - 1] == fs[|fs| - 1];
      RunInTwoParts(s, es, before);
    }
  }

  /** The state after the first events of a run, and the state at its end. */
  lemma PrefixAdvances(s: State, es: seq<Event>, i: nat)
    requires Good(s) && i <= |es|
    ensures Good(Run(s, es[..i])) && Run(Run(s, es[..i]), es[i..]) == Run(s, es)
    ensures Advances(Run(s, es[..i]), Run(s, es), PrudentRun(Run(s, es[..i]), es[i..]), Schedules(es[i..]), true, true, true)
  {
    hide Good, Advances;
    RunIsGood(s, es[..i]);
    RunIsGood(Run(s, es[..i]), es[i..]);
    RunInTwoParts(s, es[..i], es[i..]);
    assert es[..i] + es[i..] == es;
  }

  lemma EmptyIsGood()
    ensures Good(Empty) && CellsSafe(Empty.cells)
  {
  }

  // ---------------------------------------------------------------- exactly-once fulfilment

  function Successes(s: State): set<PaymentId> {
    set id | id in s.cells && s.cells[id].payment.status == Succeeded
  }

  function Members(ids: seq<PaymentId>): set<PaymentId> {
    set id | id in ids
  }

  lemma {:induction false} DistinctMembers(xs: seq<PaymentId>)
    requires Distinct(xs)
    ensures |Members(xs)| == |xs|
  {
    if xs != [] {
      var init, last := xs[..|xs| - 1], xs[|xs| - 1];
      DistinctMembers(init);
      assert Members(xs) == Members(init) + {last};
    }
  }

  /**
   * Exactly-once fulfilment: whatever is replayed, reordered or repeated, every success has
   * extended its subscription once and nothing else has, no two payments share a provider
   * identifier, and a success keeps its status, identifier, amount and payment date for ever.
   */
  lemma FulfilmentIsExactlyOnce(es: seq<Event>, i: nat)
    requires i <= |es|
    ensures var s := Run(Empty, es);
            |s.grants| == |Successes(s)| && Members(s.grants) == Successes(s) && Unique(s.cells)
    ensures var (s, s') := (Run(Empty, es[..i]), Run(Empty, es));
            forall id | id in Successes(s) ::
              && id in Successes(s') && s'.cells[id].payment.providerId.Some?
              && s'.cells[id].payment.providerId == s.cells[id].payment.providerId
              && s'.cells[id].payment.amount == s.cells[id].payment.amount && s'.cells[id].payment.paidAt == s.cells[id].payment.paidAt
  {
    hide OutboxAgrees, RewardsAgree, CreatedAgrees, Unique;
    EmptyIsGood();
    PrefixAdvances(Empty, es, i);
    DistinctMembers(Run(Empty, es).grants);
    assert Members(Run(Empty, es).grants) == Successes(Run(Empty, es));
  }

  /** The payments made for one charge date of a renewal. */
  function ChargesFor(s: State, user: UserId, chargeAt: int): set<PaymentId> {
    set id | id in s.cells && s.cells[id].payment.cycle.Some?
             && s.cells[id].payment.cycle.value.renewal == user && s.cells[id].payment.cycle.value.chargeAt == chargeAt
  }

  lemma AtMostOne(ids: set<PaymentId>)
    requires forall i, j | i in ids && j in ids :: i == j
    ensures |ids| <= 1
  {
    if ids != {} {
      var i :| i in ids;
      assert ids == {i};
    }
  }

  /** One charge date leads to at most three payments: the charge and its two retries. */
  lemma ThreeChargesPerDate(es: seq<Event>, user: UserId, chargeAt: int)
    ensures |ChargesFor(Run(Empty, es), user, chargeAt)| <= 3
  {
    hide CellsSound, CreatedAgrees, OutboxAgrees, GrantsAgree, RewardsAgree, Unique, ChargesFor, ChargesAt;
    EmptyIsGood();
    RunIsGood(Empty, es);
    var s := Run(Empty, es);
    var first, second, third := ChargesAt(s, user, chargeAt, 0), ChargesAt(s, user, chargeAt, 1), ChargesAt(s, user, chargeAt, 2);
    OneChargePerAttempt(s, user, chargeAt, 0);
    OneChargePerAttempt(s, user, chargeAt, 1);
    OneChargePerAttempt(s, user, chargeAt, 2);
    ThreeAttempts(s, user, chargeAt);
  }

  function ChargesAt(s: State, user: UserId, chargeAt: int, attempt: nat): set<PaymentId> {
    set id | id in s.cells && s.cells[id].payment.cycle == Some(CycleKey(user, chargeAt, attempt))
  }

  lemma OneChargePerAttempt(s: State, user: UserId, chargeAt: int, attempt: nat)
    requires Unique(s.cells)
    ensures |ChargesAt(s, user, chargeAt, attempt)| <= 1
  {
    AtMostOne(ChargesAt(s, user, chargeAt, attempt));
  }

  lemma ThreeAttempts(s: State, user: UserId, chargeAt: int)
    requires Unique(s.cells)
    ensures ChargesFor(s, user, chargeAt) == ChargesAt(s, user, chargeAt, 0) + ChargesAt(s, user, chargeAt, 1) + ChargesAt(s, user, chargeAt, 2)
  {
  }

  /** No closing of a payment, in any reachable state, finds a reward to take back. */
  lemma RewardsAreNeverTakenBack(es: seq<Event>, id: PaymentId, user: UserId)
    requires id in Run(Empty, es).cells && Run(Empty, es).cells[id].payment.status != Succeeded
    ensures !Rewarded(Run(Empty, es), id, user)
  {
    hide Inv;
    EmptyIsGood();
    RunIsGood(Empty, es);
    NoRewardToCancel(Run(Empty, es), id, user);
  }

  // ---------------------------------------------------------------- the outbox

  /** Replaying the events of any run in order of their sequence rebuilds every payment's row. */
  lemma OutboxRebuildsTheLedger(es: seq<Event>)
    ensures var s := Run(Empty, es);
            Replay(s.outbox) == Projection(s.cells) && Gapless(s.outbox) && Ascending(s.outbox, s.nextSequence)
  {
    hide Replay, Projection, Gapless, Ascending, CellsSound, Unique, GrantsAgree, RewardsAgree, CreatedAgrees;
    EmptyIsGood();
    RunIsGood(Empty, es);
  }

  function VersionsOf(es: seq<PaymentEvent>, id: PaymentId): seq<nat> {
    if es == [] then []
    else VersionsOf(es[..|es| - 1], id) + (if es[|es| - 1].id == id then [es[|es| - 1].version] else [])
  }

  /** Gapless events number the versions of each payment 1, 2, 3 and so on. */
  lemma {:induction false} VersionsCount(es: seq<PaymentEvent>, id: PaymentId)
    requires Gapless(es)
    ensures var vs := VersionsOf(es, id);
            && (forall i | 0 <= i < |vs| :: vs[i] == i + 1)
            && |vs| == (if id in Replay(es) then Replay(es)[id].version else 0)
  {
    if es != [] {
      VersionsCount(es[..|es| - 1], id);
    }
  }

  // ---------------------------------------------------------------- sent payments

  /**
   * In a prudent run no payment is closed locally once its request has been sent, and every open,
   * sent and unbound payment still shows it.
   */
  lemma PrudentRunsNeverCloseSentPayments(es: seq<Event>, id: PaymentId)
    requires PrudentRun(Empty, es) && id in Run(Empty, es).cells
    ensures var c := Run(Empty, es).cells[id];
            && (LocallyClosed(c.payment) ==> !c.issued)
            && (c.issued && c.payment.status == Pending && c.payment.providerId.None? ==> Ambiguous(c.creation))
  {
    hide Inv;
    EmptyIsGood();
    RunIsGood(Empty, es);
  }

  /** So a user whose request is still undecided cannot start another checkout. */
  lemma UndecidedPaymentsBlockCheckouts(es: seq<Event>, id: PaymentId, other: PaymentId, order: Checkout, accepted: bool, now: int)
    requires PrudentRun(Empty, es) && id in Run(Empty, es).cells
    requires var c := Run(Empty, es).cells[id];
             c.issued && c.payment.status == Pending && c.payment.providerId.None? && c.payment.user == order.user
    ensures CreateCheckout(Run(Empty, es), other, order, accepted, now) == Run(Empty, es)
  {
    hide Insert;
    PrudentRunsNeverCloseSentPayments(es, id);
    assert Blocks(Run(Empty, es).cells[id], order.user, now);
  }

  /** A checkout that is closed unsent is never sent; a closed charge is not, unless the scheduler takes it up again. */
  lemma ClosedPaymentsAreNeverSent(es: seq<Event>, i: nat, id: PaymentId)
    requires i <= |es| && id in Run(Empty, es[..i]).cells
    requires var c := Run(Empty, es[..i]).cells[id]; c.payment.status != Pending && !c.issued && (c.payment.kind == OneTime || !Schedules(es[i..]))
    ensures id in Run(Empty, es).cells && !Run(Empty, es).cells[id].issued && Run(Empty, es).cells[id].payment.status != Pending
  {
    hide Inv, Schedules;
    EmptyIsGood();
    PrefixAdvances(Empty, es, i);
  }

  // ---------------------------------------------------------------- local closings, one step at a time

  /** A cell without the version and sequence that its row is written with. */
  function Bare(c: Cell): Cell {
    c.(payment := c.payment.(version := 0, sequence := 0))
  }

  /** Committing a change touches its own cell alone. */
  lemma CommitOne(s: State, id: PaymentId, change: Change, other: PaymentId)
    requires id in s.cells && other in s.cells
    ensures var s' := Commit(s, id, change);
            other in s'.cells && (if other == id then Bare(s'.cells[id]) == Bare(After(s.cells[id], change)) else s'.cells[other] == s.cells[other])
  {
  }

  /** A sweep treats every payment once, on its own rows alone. */
  lemma {:induction false} SweepTreatsEachOnce(s: State, sweep: Sweep, ids: seq<PaymentId>, id: PaymentId)
    requires id in s.cells && Distinct(ids)
    ensures var s' := SweepAll(s, sweep, ids);
            && id in s'.cells
            && (id in ids ==> Bare(s'.cells[id]) == Bare(After(s.cells[id], SweepOne(s.cells[id], sweep))))
            && (id !in ids ==> s'.cells[id] == s.cells[id])
  {
    hide SweepOne, Commit;
    if ids != [] {
      var init, last := ids[..|ids| - 1], ids[|ids| - 1];
      SweepTreatsEachOnce(s, sweep, init, id);
      var before := SweepAll(s, sweep, init);
      assert id in init ==> id != last;
      if last in before.cells {
        CommitOne(before, last, SweepOne(before.cells[last], sweep), id);
      }
    }
  }

  /** A local stop: by the user, the clock, a withdrawn renewal, an administrator or a deactivation. */
  predicate StopsLocally(e: Event) {
    e.UserCancelled? || e.CheckoutExpired? || e.RenewalDisabled? || (e.RenewalActed? && e.action == Revoke) || e.SubscriptionWithdrawn?
    || e.UserDeactivated? || e.ChargeDelivered?
  }

  /** What a local stop may do to an open payment: only an unknown one is closed, and its operation fails with it. */
  predicate StopsProperly(c: Cell, c': Cell) {
    && (c.payment.status == Pending && MayBeKnown(c) ==> c'.payment.status == Pending)
    && (c.payment.status == Pending && c'.payment.status != Pending ==>
          LocallyClosed(c'.payment) && (c'.creation.None? || c'.creation.value.status == Failed))
  }

  lemma SweepOneStopsProperly(c: Cell, sweep: Sweep)
    requires Sound(c)
    ensures StopsProperly(c, After(c, SweepOne(c, sweep))) <==>
            !(sweep.DeactivationSweep? && sweep.user == c.payment.user && BlindDeactivation(c))
  {
  }

  /** A payment after a sweep of the whole ledger. */
  lemma SweptCell(s: State, renewals: map<UserId, Renewal>, sweep: Sweep, id: PaymentId)
    requires Inv(s) && id in s.cells
    ensures var s' := SweepAll(s.(renewals := renewals), sweep, s.created);
            id in s'.cells &&
            (StopsProperly(s.cells[id], s'.cells[id]) <==>
             !(sweep.DeactivationSweep? && sweep.user == s.cells[id].payment.user && BlindDeactivation(s.cells[id])))
  {
    hide SweepOne, Sound, Unique, OutboxAgrees, GrantsAgree, RewardsAgree, BlindDeactivation, SweepAll;
    SweepTreatsEachOnce(s.(renewals := renewals), sweep, s.created, id);
    SweepOneStopsProperly(s.cells[id], sweep);
    var s' := SweepAll(s.(renewals := renewals), sweep, s.created);
    assert Bare(s'.cells[id]) == Bare(After(s.cells[id], SweepOne(s.cells[id], sweep)));
  }

  lemma SingleStopsProperly(c: Cell, user: UserId, now: int)
    requires Sound(c)
    ensures StopsProperly(c, After(c, CancelPending(c, user)))
    ensures StopsProperly(c, After(c, SettleExpiredCheckout(c, now)))
    ensures StopsProperly(c, After(c, ArmCapture(c, now)))
    ensures c.payment.providerId.None? && SafeToClose(c, None) ==> StopsProperly(c, CloseWindow(c))
    ensures StopsProperly(c, c)
  {
  }

  /**
   * In every reachable state and for every payment, a local stop leaves a payment that the provider
   * may know open, and closes an unknown one together with its operation - except for exactly the
   * payments that a deactivation misjudges.
   */
  lemma LocalStopsAreProper(es: seq<Event>, e: Event, id: PaymentId)
    requires StopsLocally(e) && id in Run(Empty, es).cells
    ensures var s := Run(Empty, es);
            id in Apply(s, e).cells &&
            (StopsProperly(s.cells[id], Apply(s, e).cells[id]) <==>
             !(e.UserDeactivated? && e.user == s.cells[id].payment.user && BlindDeactivation(s.cells[id])))
  {
    EmptyIsGood();
    RunIsGood(Empty, es);
    LocalStopIsProper(Run(Empty, es), e, id);
  }

  lemma LocalStopIsProper(s: State, e: Event, id: PaymentId)
    requires Inv(s) && StopsLocally(e) && id in s.cells
    ensures id in Apply(s, e).cells &&
            (StopsProperly(s.cells[id], Apply(s, e).cells[id]) <==>
             !(e.UserDeactivated? && e.user == s.cells[id].payment.user && BlindDeactivation(s.cells[id])))
  {
    hide Inv, Apply, BlindDeactivation, StopsProperly;
    if e.UserCancelled? || e.CheckoutExpired? || e.ChargeDelivered? {
      SingleStopIsProper(s, e, id);
    } else {
      SweepingStopIsProper(s, e, id);
    }
  }

  lemma SingleStopIsProper(s: State, e: Event, id: PaymentId)
    requires Inv(s) && id in s.cells && (e.UserCancelled? || e.CheckoutExpired? || e.ChargeDelivered?)
    ensures id in Apply(s, e).cells && StopsProperly(s.cells[id], Apply(s, e).cells[id])
  {
    hide Unique, OutboxAgrees, GrantsAgree, RewardsAgree, CreatedAgrees, Sound, StopsProperly, CancelPending, SettleExpiredCheckout,
         ArmCapture, SafeToClose, CloseWindow;
    var c := s.cells[id];
    SingleStopsProperly(c, 0, 0);
    match e
    case UserCancelled(_, user) => SingleStopsProperly(c, user, 0); VersionsDoNotMatter(c, CancelPending(c, user), s);
    case CheckoutExpired(_, now) => SingleStopsProperly(c, 0, now); VersionsDoNotMatter(c, SettleExpiredCheckout(c, now), s);
    case ChargeDelivered(paymentId, user, cycle, now) => DeliveryStopsProperly(s, paymentId, user, cycle, now, id);
  }

  lemma DeliveryStopsProperly(s: State, paymentId: PaymentId, user: UserId, cycle: CycleKey, now: int, id: PaymentId)
    requires CellsSound(s.cells) && id in s.cells
    ensures var s' := DeliverCharge(s, paymentId, user, cycle, now); id in s'.cells && StopsProperly(s.cells[id], s'.cells[id])
  {
    hide Sound, StopsProperly, ArmCapture, SafeToClose, CloseWindow, PauseInvalid;
    var c := s.cells[id];
    SingleStopsProperly(c, 0, now);
    VersionsDoNotMatter(c, ArmCapture(c, now), s);
    VersionsDoNotMatter(c, Written(CloseWindow(c)), s);
  }

  lemma SweepingStopIsProper(s: State, e: Event, id: PaymentId)
    requires Inv(s) && id in s.cells
    requires e.RenewalDisabled? || (e.RenewalActed? && e.action == Revoke) || e.SubscriptionWithdrawn? || e.UserDeactivated?
    ensures id in Apply(s, e).cells &&
            (StopsProperly(s.cells[id], Apply(s, e).cells[id]) <==>
             !(e.UserDeactivated? && e.user == s.cells[id].payment.user && BlindDeactivation(s.cells[id])))
  {
    hide Unique, OutboxAgrees, GrantsAgree, RewardsAgree, CreatedAgrees, Sound, SweepAll, BlindDeactivation, StopsProperly,
         AdminAction, DisableByUser, RevokeForAdminCancellation, RevokeForDeactivation;
    assert s == s.(renewals := s.renewals);
    UnchangedStopsProperly(s.cells[id]);
    match e
    case RenewalDisabled(user, now) =>
      if user in s.renewals {
        SweptCell(s, s.renewals[user := DisableByUser(s.renewals[user], now)], FutureSweep(user, "user_disabled_before_provider_call"), id);
      }
    case RenewalActed(user, action, eligible, found, now) =>
      if user in s.renewals && AdminAction(s.renewals[user], action, eligible, found, now).Some? {
        SweptCell(s, s.renewals[user := AdminAction(s.renewals[user], action, eligible, found, now).value],
                  FutureSweep(user, "consent_revoked_before_provider_call"), id);
      }
    case SubscriptionWithdrawn(user, now) =>
      SweptCell(s, s.renewals, AdminSweep(user, "admin_cancelled"), id);
      if user in s.renewals {
        SweptCell(s, s.renewals[user := RevokeForAdminCancellation(s.renewals[user], now)], AdminSweep(user, "admin_cancelled"), id);
      }
    case UserDeactivated(user, now) =>
      SweptCell(s, s.renewals, DeactivationSweep(user), id);
      if user in s.renewals {
        SweptCell(s, s.renewals[user := RevokeForDeactivation(s.renewals[user], now)], DeactivationSweep(user), id);
      }
  }

  lemma UnchangedStopsProperly(c: Cell)
    ensures StopsProperly(c, c)
  {
  }

  lemma VersionsDoNotMatter(c: Cell, change: Change, s: State)
    ensures change.Written? ==>
              forall version: nat :: StopsProperly(c, change.cell.(payment := change.cell.payment.(version := version, sequence := s.nextSequence)))
                                     == StopsProperly(c, change.cell)
  {
  }
}
