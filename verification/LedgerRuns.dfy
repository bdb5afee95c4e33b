/** Every event keeps the ledger's invariant, and what that says about whole runs. */
module LedgerRuns {
  import opened Common
  import opened Dispatch
  import opened Renewal
  import opened PaidTime
  import opened Ledger
  import opened LedgerSafety

  // ---------------------------------------------------------------- each event

  lemma CheckoutAdvances(s: State, id: PaymentId, order: Checkout, accepted: bool, now: int)
    requires Inv(s)
    ensures Advances(s, CreateCheckout(s, id, order, accepted, now))
  {
    hide Inv;
    var s' := CreateCheckout(s, id, order, accepted, now);
    if s' == s {
      BystandersAdvance(s, s);
    } else {
      InsertAdvances(s, id, NewCheckout(order, now));
    }
  }

  /** Each of these changes keeps its cell, and only a free identifier is bound. */
  lemma SingleChangeKeeps(s: State, id: PaymentId, e: Event)
    requires id in s.cells && Single(e) && (e.ProviderBound? ==> e.id == id)
    ensures var c, change := s.cells[id], CellChange(s, s.cells[id], e);
            && Keeps(c, change) && Quiet(c, change)
            && (After(c, change).payment.providerId != c.payment.providerId ==>
                  && change.Written? && After(c, change).payment.providerId.Some?
                  && Free(s, id, After(c, change).payment.providerId.value))
  {
    hide Sound, Safe, Free;
    var c := s.cells[id];
    match e
    case UserCancelled(_, user) => CancelPendingKeeps(c, user);
    case CheckoutExpired(_, now) => SettleExpiredCheckoutKeeps(c, now);
    case OperationClaimed(_, token, now) => ClaimKeeps(c, token, now);
    case DispatchCompleted(_, token) => WorkerCompletedKeeps(c, token);
    case ProviderBound(_, provider, text, expiresAt, now) => BindKeeps(c, provider, text, expiresAt, now, Free(s, id, provider));
    case LookupQueued(_, now) => QueueLookupKeeps(c, now);
    case LookupMoved(_, status, attempt) => if c.lookup.Some? { LookupMovedKeeps(c, status, attempt); }
  }

  lemma SingleAdvances(s: State, id: PaymentId, e: Event)
    requires Inv(s) && Single(e) && (e.ProviderBound? ==> e.id == id)
    ensures Advances(s, ApplyToCell(s, id, e))
  {
    hide Inv, CellChange, Keeps, Quiet, Single, CellsContinue, CellsSafe;
    BystandersAdvance(s, s);
    if id in s.cells {
      SingleChangeKeeps(s, id, e);
      CommitAdvances(s, id, CellChange(s, s.cells[id], e), true);
    }
  }

  /** No payment of the user hides an ambiguous creation behind a settled lookup. */
  predicate NothingHidden(s: State, user: UserId) {
    forall id | id in s.cells && s.cells[id].payment.user == user :: !BlindDeactivation(s.cells[id])
  }

  predicate Seeing(s: State, sweep: Sweep) {
    sweep.DeactivationSweep? ==> NothingHidden(s, sweep.user)
  }

  lemma SweepOneAdvances(s: State, sweep: Sweep, id: PaymentId)
    requires Inv(s) && id in s.cells
    ensures var s' := Commit(s, id, SweepOne(s.cells[id], sweep));
            Advances(s, s', Seeing(s, sweep)) && (Seeing(s, sweep) ==> Seeing(s', sweep))
  {
    hide Inv, Sound, Safe;
    var c := s.cells[id];
    match sweep {
      case FutureSweep(user, reason) => ClearFutureKeeps(c, user, reason);
      case AdminSweep(user, reason) => ClearForAdminKeeps(c, user, reason);
      case DeactivationSweep(user) => DeactivationKeeps(c, user); DeactivationHidesNothing(c, user);
    }
    CommitAdvances(s, id, SweepOne(c, sweep), Seeing(s, sweep));
  }

  lemma {:induction false} SweepAdvances(s: State, sweep: Sweep, ids: seq<PaymentId>)
    requires Inv(s)
    ensures var s' := SweepAll(s, sweep, ids);
            Advances(s, s', Seeing(s, sweep)) && (Seeing(s, sweep) ==> Seeing(s', sweep))
    ensures SweepAll(s, sweep, ids).renewals == s.renewals
  {
    hide Inv, SweepOne, CellsContinue, CellsSafe;
    if ids == [] {
      BystandersAdvance(s, s);
    } else {
      var before := SweepAll(s, sweep, ids[..|ids| - 1]);
      SweepAdvances(s, sweep, ids[..|ids| - 1]);
      var id := ids[|ids| - 1];
      if id in before.cells {
        SweepOneAdvances(before, sweep, id);
        AdvancesTwice(s, before, Commit(before, id, SweepOne(before.cells[id], sweep)), Seeing(s, sweep));
      }
    }
  }

  /** Changing a renewal row and then sweeping the user's payments. */
  lemma WithdrawalAdvances(s: State, renewals: map<UserId, Renewal>, sweep: Sweep)
    requires Inv(s)
    ensures var s' := SweepAll(s.(renewals := renewals), sweep, s.created);
            Advances(s, s', Seeing(s, sweep)) && s'.renewals == renewals
  {
    hide Inv, CellsContinue, CellsSafe;
    var s1 := s.(renewals := renewals);
    BystandersAdvance(s, s1);
    SweepAdvances(s1, sweep, s.created);
    AdvancesTwice(s, s1, SweepAll(s1, sweep, s.created), Seeing(s, sweep));
  }

  lemma RenewalChangeAdvances(s: State, renewals: map<UserId, Renewal>)
    requires Inv(s)
    ensures Advances(s, s.(renewals := renewals)) && Advances(s, s.(renewals := renewals), true, true)
  {
    hide Inv;
    BystandersAdvance(s, s.(renewals := renewals));
    AdvancesLess(s, s.(renewals := renewals), true, true, false, true);
  }

  lemma CloseExpiredDispatchAdvances(s: State, id: PaymentId, user: UserId, cycle: CycleKey, now: int, claim: Option<Token>)
    requires Inv(s)
    requires claim.Some? && id in s.cells && Holds(s.cells[id], claim.value) ==> !s.cells[id].creation.value.lease.value.called
    ensures var (result, s') := CloseExpiredDispatch(s, id, user, cycle, now, claim);
            if result == Closed then Advances(s, s') else s' == s
    ensures CloseExpiredDispatch(s, id, user, cycle, now, claim).0.NotExpired? ==>
              id in s.cells && s.cells[id].payment.status == Pending
  {
    hide Unique, CreatedAgrees, OutboxAgrees, GrantsAgree, RewardsAgree;
    if CloseExpiredDispatch(s, id, user, cycle, now, claim).0 == Closed {
      var c, r := s.cells[id], s.renewals[user];
      ClosingTheWindowIsSafe(c, claim);
      CloseAdvances(s, id, user, CloseExpiredWindow(r, now));
    }
  }

  lemma CloseAdvances(s: State, id: PaymentId, user: UserId, r: Renewal)
    requires Inv(s) && id in s.cells && s.cells[id].payment.status == Pending && s.cells[id].payment.providerId.None?
    requires var c' := CloseWindow(s.cells[id]); Sound(c') && Safe(c') && Continues(s.cells[id], c')
    ensures Advances(s, Write(s, id, CloseWindow(s.cells[id])).(renewals := s.renewals[user := r]))
  {
    hide Inv, Sound, Safe, Continues;
    var s1 := Write(s, id, CloseWindow(s.cells[id]));
    WriteAdvances(s, id, CloseWindow(s.cells[id]), true);
    RenewalChangeAdvances(s1, s.renewals[user := r]);
    AdvancesTwice(s, s1, s1.(renewals := s.renewals[user := r]), true);
  }

  lemma DeliverChargeAdvances(s: State, id: PaymentId, user: UserId, cycle: CycleKey, now: int)
    requires Inv(s)
    ensures Advances(s, DeliverCharge(s, id, user, cycle, now))
  {
    hide Inv, CloseExpiredDispatch, Sound, Safe;
    CloseExpiredDispatchAdvances(s, id, user, cycle, now, None);
    BystandersAdvance(s, s);
    if CloseExpiredDispatch(s, id, user, cycle, now, None).0.NotExpired? {
      ArmCaptureKeeps(s.cells[id], now);
      CommitAdvances(s, id, ArmCapture(s.cells[id], now), true);
    }
  }

  /** A dispatch drops the evidence of a sent request only through a fence after the first attempt. */
  predicate DispatchesBlindly(s: State, id: PaymentId, token: Token, env: Surroundings) {
    id in s.cells && BlindFence(s.cells[id], token, env.(renewalReady := RenewalReady(s, s.cells[id].payment)))
  }

  /** A dispatch sends a creating request. */
  predicate Dispatches(s: State, id: PaymentId, token: Token, env: Surroundings) {
    id in s.cells && Judge(s, id, token, env).Sent?
  }

  /** A sent request is written to its own payment and nowhere else. */
  lemma SendTouchesOneCell(s: State, id: PaymentId, token: Token, env: Surroundings)
    requires Dispatches(s, id, token, env)
    ensures DispatchPayment(s, id, token, env) == s.(cells := s.cells[id := Judge(s, id, token, env).cell])
  {
    hide DispatchCreation, RenewalReady, CloseExpiredDispatch;
  }

  lemma DispatchAdvances(s: State, id: PaymentId, token: Token, env: Surroundings)
    requires Inv(s)
    ensures Advances(s, DispatchPayment(s, id, token, env), !DispatchesBlindly(s, id, token, env), false, Dispatches(s, id, token, env))
  {
    hide CloseExpiredDispatch, Unique, CreatedAgrees, OutboxAgrees, GrantsAgree, RewardsAgree, RenewalReady;
    hide Sound, Safe, Continues, DispatchCreation, BlindFence;
    BystandersAdvance(s, s);
    if id in s.cells {
      var c := s.cells[id];
      var env' := env.(renewalReady := RenewalReady(s, c.payment));
      var verdict := DispatchCreation(c, token, env');
      var safely := !BlindFence(c, token, env');
      DispatchIsSound(c, token, env');
      DispatchKeepsRow(c, token, env');
      if safely && Safe(c) { DispatchIsSafe(c, token, env'); }
      match verdict
      case LeaseLost =>
      case NotPrepared =>
      case Fenced(c') => TouchAdvances(s, id, c', safely);
      case AskedAgain(c') => TouchAdvances(s, id, c', safely);
      case Sent(c') => TouchAdvances(s, id, c', safely, true);
      case Uncertainty(c') => WriteAdvances(s, id, c', safely);
      case CloseExpired => CloseRequestAdvances(s, id, token, env);
    }
  }

  lemma CloseRequestAdvances(s: State, id: PaymentId, token: Token, env: Surroundings)
    requires Inv(s) && id in s.cells && Judge(s, id, token, env).CloseExpired?
    ensures Advances(s, DispatchPayment(s, id, token, env))
  {
    hide CloseExpiredDispatch, Unique, CreatedAgrees, OutboxAgrees, GrantsAgree, RewardsAgree, RenewalReady;
    hide Sound, Safe, Continues, DispatchCreation;
    BystandersAdvance(s, s);
    var c := s.cells[id];
    CloseRequestsAreFirstClaims(c, token, env.(renewalReady := RenewalReady(s, c.payment)));
    MarkUnknownKeeps(c);
    var now := if c.payment.checkoutExpiresAt <= env.now then env.now else env.laterNow;
    if c.payment.cycle.Some? {
      CloseExpiredDispatchAdvances(s, id, c.payment.user, c.payment.cycle.value, now, Some(token));
      WriteAdvances(s, id, MarkUnknown(c, None), true);
    }
  }

  /** A reward is never found on a payment that is being closed. */
  lemma NoRewardToCancel(s: State, id: PaymentId, user: UserId)
    requires Inv(s) && id in s.cells && s.cells[id].payment.status != Succeeded
    ensures !Rewarded(s, id, user) && CancelReward(s, id, user) == s
  {
    hide Sound, Unique, OutboxAgrees, GrantsAgree, CreatedAgrees;
  }

  lemma AfterCloseAdvances(s: State, id: PaymentId, p: Payment, reason: string, now: int)
    requires Inv(s) && id in s.cells && s.cells[id].payment.status != Succeeded
    ensures Advances(s, AfterClose(s, id, p, reason, now))
  {
    hide Inv, Rewarded;
    NoRewardToCancel(s, id, p.user);
    var s' := if p.user in s.renewals
              then s.(renewals := s.renewals[p.user := AfterCancellation(s.renewals[p.user], p, reason, now)]) else s;
    BystandersAdvance(s, s');
    NoRewardToCancel(s', id, p.user);
  }

  /** Closing a payment on a refusal, a cancellation or a developer's word. */
  lemma ClosingAdvances(s: State, id: PaymentId, change: Change, reason: string, now: int, closes: bool, refuses: bool := false)
    requires Inv(s) && id in s.cells && Keeps(s.cells[id], change, true, false, refuses) && Quiet(s.cells[id], change)
    requires var p, p' := s.cells[id].payment, After(s.cells[id], change).payment;
             p'.providerId != p.providerId ==> change.Written? && p'.providerId.Some? && Free(s, id, p'.providerId.value)
    requires closes ==> change.Written? && change.cell.payment.status == Cancelled
    ensures var s' := Commit(s, id, change);
            Advances(s, if closes then AfterClose(s', id, s.cells[id].payment, reason, now) else s', true, false, false, false, refuses)
  {
    hide Inv, AfterClose, Keeps, Quiet;
    var s' := Commit(s, id, change);
    CommitAdvances(s, id, change, true, false, refuses);
    if closes {
      var s'' := AfterClose(s', id, s.cells[id].payment, reason, now);
      AfterCloseAdvances(s', id, s.cells[id].payment, reason, now);
      AdvancesLess(s', s'', true, true, false, false, false, false, false, false, false, refuses);
      AdvancesTwice(s, s', s'', true, false, false, false, refuses);
    }
  }

  /** The failure tells that the provider has refused the payment's request. */
  predicate Refuses(s: State, id: PaymentId, token: Token, f: Failure) {
    id in s.cells && RefusedUnder(s.cells[id], token, f)
  }

  lemma FailDispatchAdvances(s: State, id: PaymentId, token: Token, f: Failure)
    requires Inv(s)
    ensures Advances(s, FailDispatch(s, id, token, f), true, false, false, false, Refuses(s, id, token, f))
  {
    hide Inv, Sound, Safe, AfterClose;
    BystandersAdvance(s, s);
    if id in s.cells {
      WorkerFailedKeeps(s.cells[id], token, f);
      var change := WorkerFailed(s.cells[id], token, f);
      ClosingAdvances(s, id, change, f.code, f.now, change.Written? && change.cell.payment.status == Cancelled,
                      RefusedUnder(s.cells[id], token, f));
    }
  }

  lemma CancellationAdvances(s: State, id: PaymentId, provider: ProviderId, reason: string, now: int)
    requires Inv(s)
    ensures Advances(s, ApplyCancellation(s, id, provider, reason, now))
  {
    hide Inv, Sound, Safe, AfterClose;
    BystandersAdvance(s, s);
    if id in s.cells {
      MarkCancelledKeeps(s.cells[id], provider, reason, Free(s, id, provider));
      var change := MarkCancelled(s.cells[id], provider, reason, Free(s, id, provider));
      ClosingAdvances(s, id, change, reason, now, change.Written?);
    }
  }

  lemma ResolutionAdvances(s: State, id: PaymentId, now: int)
    requires Inv(s)
    ensures Advances(s, ResolveAsNotFound(s, id, now))
  {
    hide Inv, Sound, Safe, AfterClose;
    BystandersAdvance(s, s);
    if id in s.cells {
      ResolveUnknownKeeps(s.cells[id], now);
      var change := ResolveUnknown(s.cells[id], now);
      ClosingAdvances(s, id, change, "manual_unknown_provider", now, change.Written?);
    }
  }

  // ---------------------------------------------------------------- success

  /** A new success and its grant come together. */
  lemma GrantsGrow(s: State, s': State, id: PaymentId)
    requires GrantsAgree(s) && id in s.cells && s.cells[id].payment.status != Succeeded && s'.grants == s.grants + [id]
    requires s'.cells.Keys == s.cells.Keys && s'.cells[id].payment.status == Succeeded
    requires forall other | other in s.cells && other != id :: s'.cells[other] == s.cells[other]
    ensures GrantsAgree(s')
  {
    assert s'.grants[|s.grants|] == id;
    assert id !in s.grants;
  }

  /** A first success is granted in the same transaction. */
  lemma GrantAdvances(s: State, id: PaymentId, c: Cell)
    requires Inv(s) && Fits(s, id, c) && s.cells[id].payment.status != Succeeded && c.payment.status == Succeeded
    requires CellsSafe(s.cells) ==> Safe(c)
    ensures Advances(s, Write(s, id, c).(grants := s.grants + [id]))
  {
    hide Sound, Safe, RewardsAgree, OutboxAgrees, Unique, GrantsAgree;
    var s1 := Write(s, id, c);
    var s' := s1.(grants := s.grants + [id]);
    GrantsGrow(s, s', id);
    SoundIgnoresVersions(c, s1.cells[id].payment.version, s1.cells[id].payment.sequence);
    UniqueAfter(s, id, s1.cells[id]);
    WriteKeepsOutbox(s, id, c);
    SameOutbox(s1, s');
    RewardsStay(s, s');
  }

  predicate PaidBy(cells: map<PaymentId, Cell>, id: PaymentId, user: UserId) {
    id in cells && cells[id].payment.user == user && cells[id].payment.status == Succeeded
  }

  lemma {:induction false} OneIsCounted(cells: map<PaymentId, Cell>, user: UserId, ids: seq<PaymentId>, i: nat)
    requires i < |ids| && PaidBy(cells, ids[i], user)
    ensures SucceededOf(cells, user, ids) >= 1
  {
    if i < |ids| - 1 {
      OneIsCounted(cells, user, ids[..|ids| - 1], i);
    }
  }

  lemma {:induction false} TwoAreCounted(cells: map<PaymentId, Cell>, user: UserId, ids: seq<PaymentId>, i: nat, j: nat)
    requires i < j < |ids| && PaidBy(cells, ids[i], user) && PaidBy(cells, ids[j], user)
    ensures SucceededOf(cells, user, ids) >= 2
  {
    if j < |ids| - 1 {
      TwoAreCounted(cells, user, ids[..|ids| - 1], i, j);
    } else {
      OneIsCounted(cells, user, ids[..|ids| - 1], i);
    }
  }

  /** If the count of successes is one, this payment is the user's only success. */
  lemma OnlySuccess(s: State, user: UserId, id: PaymentId, other: PaymentId)
    requires CreatedAgrees(s) && SucceededOf(s.cells, user, s.created) == 1
    requires PaidBy(s.cells, id, user) && PaidBy(s.cells, other, user)
    ensures other == id
  {
    var i :| 0 <= i < |s.created| && s.created[i] == id;
    var j :| 0 <= j < |s.created| && s.created[j] == other;
    if i < j {
      TwoAreCounted(s.cells, user, s.created, i, j);
    } else if j < i {
      TwoAreCounted(s.cells, user, s.created, j, i);
    }
  }

  /** A changed referral row leaves the rest of the ledger alone. */
  lemma ReferralAdvances(s: State, user: UserId, r: Referral)
    requires Inv(s) && !Rewarding(s, user) && (r.status == RewardPending ==> RewardAgrees(s, user, r))
    ensures Advances(s, s.(referrals := s.referrals[user := r], nextSequence := s.nextSequence + 1), true, false, false, true)
  {
    hide Sound, Safe, OutboxAgrees, Unique;
    var s' := s.(referrals := s.referrals[user := r], nextSequence := s.nextSequence + 1);
    SameOutbox(s, s');
  }

  lemma AffiliateAdvances(s: State, id: PaymentId, user: UserId, program: Program)
    requires Inv(s) && SuccessOf(s, id, user)
    ensures Advances(s, ApplyAffiliate(s, id, user, s.cells[id].payment.amount, program), true, false, false, true)
  {
    hide Sound, Safe, OutboxAgrees, Unique, RewardsAgree, Advances;
    if user !in s.referrals || s.referrals[user].status != Registered {
      BystandersAdvance(s, s);
      AdvancesLess(s, s, true, true, false, false, false, false, false, true);
    } else if !program.enabled || SucceededOf(s.cells, user, s.created) != 1 {
      ReferralAdvances(s, user, s.referrals[user].(status := ReferralCancelled));
    } else {
      var amount := s.cells[id].payment.amount;
      ReferralAdvances(s, user, Referral(RewardPending, Some(id), amount, program.percent, amount * program.percent / 100));
    }
  }

  lemma RegistrationAdvances(s: State, user: UserId, first: Option<PaymentId>, inTime: bool, program: Program)
    requires Inv(s)
    ensures Advances(s, RegisterReferral(s, user, first, inTime, program), true, false, false, true)
  {
    hide Sound, Safe, OutboxAgrees, Unique, RewardsAgree, Precedes, Advances;
    var s' := RegisterReferral(s, user, first, inTime, program);
    if s' == s {
      BystandersAdvance(s, s);
      AdvancesLess(s, s, true, true, false, false, false, false, false, true);
    } else if first.None? {
      ReferralAdvances(s, user, Referral(Registered, None, 0, 0, 0));
    } else {
      var amount := s.cells[first.value].payment.amount;
      ReferralAdvances(s, user, Referral(RewardPending, first, amount, program.percent, amount * program.percent / 100));
    }
  }

  lemma SuccessAdvances(s: State, id: PaymentId, provider: ProviderId, amount: nat, currency: string, saved: Option<string>,
                        program: Program, paidAt: int, now: int)
    requires Inv(s)
    ensures Advances(s, ApplySuccess(s, id, provider, amount, currency, saved, program, paidAt, now), true, false, false, true)
  {
    hide Inv, Sound, Safe, Fulfil, Continues, CellsContinue, CellsSafe, Quiet;
    BystandersAdvance(s, s);
    AdvancesLess(s, s, true, true, false, false, false, false, false, true);
    if id in s.cells {
      var c := s.cells[id];
      var change := Succeed(c, provider, amount, currency, paidAt, Free(s, id, provider));
      SucceedKeeps(c, provider, amount, currency, paidAt, Free(s, id, provider));
      if change.Written? {
        SuccessFits(s, id, change.cell);
        FulfilAdvances(s, id, change.cell, saved, program, now);
      }
    }
  }

  lemma FulfilAdvances(s: State, id: PaymentId, c: Cell, saved: Option<string>, program: Program, now: int)
    requires Inv(s) && Fits(s, id, c) && s.cells[id].payment.status != Succeeded && c.payment.status == Succeeded
    requires s.cells[id].payment.plan.Some? && s.cells[id].payment.period.Some?
    requires c.payment.user == s.cells[id].payment.user && c.payment.amount == s.cells[id].payment.amount && c.payment.paidAt.Some?
    requires CellsSafe(s.cells) ==> Safe(c)
    ensures Advances(s, Fulfil(s, id, c, saved, program, now), true, false, false, true)
  {
    hide Inv, Sound, Safe, AfterPayment, AfterSuccess, ApplyAffiliate, Continues, CellsContinue, CellsSafe;
    GrantAdvances(s, id, c);
    var s1 := Write(s, id, c).(grants := s.grants + [id]);
    var p := s.cells[id].payment;
    var sub := AfterPayment(Lookup(s.subscriptions, p.user), p.plan.value, p.period.value, now);
    var s2 := s1.(subscriptions := s1.subscriptions[p.user := sub], nextSequence := s1.nextSequence + 1);
    var s3 := UpdateRenewal(s2, p.user, AfterSuccess(Lookup(s.renewals, p.user), p, saved, sub.expiresAt.value));
    BystandersAdvance(s1, s3);
    AdvancesTwice(s, s1, s3, true);
    AdvancesLess(s, s3, true, true, false, false, false, false, false, true);
    AffiliateAdvances(s3, id, p.user, program);
    AdvancesTwice(s, s3, ApplyAffiliate(s3, id, p.user, p.amount, program), true, false, false, true);
  }

  lemma SuccessFits(s: State, id: PaymentId, c: Cell)
    requires Inv(s) && id in s.cells && Keeps(s.cells[id], Written(c))
    requires c.payment.providerId.Some? && Free(s, id, c.payment.providerId.value)
    ensures Fits(s, id, c) && (CellsSafe(s.cells) ==> Safe(c))
  {
    hide Sound, Safe, Unique, OutboxAgrees, GrantsAgree, CreatedAgrees, RewardsAgree;
  }

  // ---------------------------------------------------------------- the scheduler

  lemma ScheduleAdvances(s: State, user: UserId, id: PaymentId, e: Schedule)
    requires Inv(s) && (user in s.renewals ==> Consistent(s.renewals[user]))
    ensures Advances(s, ScheduleCharge(s, user, id, e), true, true)
  {
    hide Inv, Advances, TakeUpCharge, ChargeDeadline, PauseInvalid, RequirePrice, FollowSubscription, Withdraw;
    RenewalChangeAdvances(s, s.renewals);
    if user in s.renewals && id !in s.cells {
      match Screen(s.renewals[user], Lookup(s.subscriptions, user), e)
      case Idle =>
      case Row(r) => RenewalChangeAdvances(s, s.renewals[user := r]);
      case Charge(attempt, until) => TakingUpAdvances(s, user, id, attempt, until, e.now);
    }
  }

  lemma TakingUpAdvances(s: State, user: UserId, id: PaymentId, attempt: nat, until: int, now: int)
    requires Inv(s) && user in s.renewals && id !in s.cells && attempt <= 2
    ensures Advances(s, TakeUpCharge(s, user, id, attempt, until, now), true, true)
  {
    hide Inv, CellsContinue, CellsSafe, Resume, Enqueue, PauseInvalid, BlocksCharge;
    var s' := TakeUpCharge(s, user, id, attempt, until, now);
    var r := s.renewals[user];
    var key := CycleKey(user, r.nextChargeAt, attempt);
    if s' == s.(renewals := s'.renewals) {
      RenewalChangeAdvances(s, s'.renewals);
    } else {
      var s1 := s'.(renewals := s.renewals);
      match FindCycle(s.cells, s.created, key) {
        case Some(existing) => ResumeAdvances(s, existing, r, until);
        case None =>
          NewChargeAdvances(s, id, NewCharge(user, key, r, until));
          AdvancesLess(s, s1, true, true, false, true);
      }
      RenewalChangeAdvances(s1, s'.renewals);
      AdvancesTwice(s, s1, s', true, true);
    }
  }

  lemma ResumeAdvances(s: State, id: PaymentId, r: Renewal, until: int)
    requires Inv(s) && id in s.cells && s.cells[id].payment.cycle.Some?
    requires Resume(s.cells[id], r.amount, r.currency, r.plan, r.period, r.consentedAt, r.saved, until).Written?
    ensures Advances(s, Write(s, id, Resume(s.cells[id], r.amount, r.currency, r.plan, r.period, r.consentedAt, r.saved, until).cell), true, true)
  {
    hide Safe, Unique, OutboxAgrees, GrantsAgree, CreatedAgrees, RewardsAgree;
    ResumeKeeps(s.cells[id], r.amount, r.currency, r.plan, r.period, r.consentedAt, r.saved, until);
    CommitAdvances(s, id, Resume(s.cells[id], r.amount, r.currency, r.plan, r.period, r.consentedAt, r.saved, until), true, true);
  }

  lemma NewChargeAdvances(s: State, id: PaymentId, c: Cell)
    requires Inv(s) && id !in s.cells && Safe(c) && c.payment.providerId.None? && c.payment.status == Pending
    requires c.payment.cycle.Some? && c.payment.cycle.value.attempt <= 2 && c.payment.cycle.value.renewal == c.payment.user
    requires FindCycle(s.cells, s.created, c.payment.cycle.value).None?
    ensures Advances(s, Insert(s, id, c))
  {
    hide Sound, Safe, Unique, OutboxAgrees, GrantsAgree, RewardsAgree;
    InsertAdvances(s, id, c);
  }
}
