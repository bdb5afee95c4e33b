/**
 * The transactions as the services carry them out: row by row on mutable tables, with the loops
 * over a user's payments, each proved equal to its step of the ledger.
 */
module LedgerStore {
  import opened Common
  import opened Dispatch
  import opened Renewal
  import opened PaidTime
  import opened Ledger
  import opened LedgerSafety
  import opened LedgerRuns
  import opened LedgerConsent
  import opened LedgerTheorems
  import Calendar

  // ---------------------------------------------------------------- the query in front of a loop

  /** The rows that the query in front of a sweep selects. */
  predicate Matches(c: Cell, sweep: Sweep) {
    match sweep
    case FutureSweep(user, _) => Stoppable(c.payment, user)
    case AdminSweep(user, _) => Stoppable(c.payment, user)
    case DeactivationSweep(user) => c.payment.user == user && c.payment.status == Pending
  }

  function Selected(cells: map<PaymentId, Cell>, sweep: Sweep, ids: seq<PaymentId>): (r: seq<PaymentId>)
    ensures forall id | id in r :: id in ids && id in cells && Matches(cells[id], sweep)
  {
    if ids == [] then []
    else
      var (init, id) := (ids[..|ids| - 1], ids[|ids| - 1]);
      Selected(cells, sweep, init) + (if id in cells && Matches(cells[id], sweep) then [id] else [])
  }

  lemma UnmatchedRowsStay(c: Cell, sweep: Sweep)
    requires !Matches(c, sweep)
    ensures SweepOne(c, sweep) == Unchanged
  {
  }

  /** Sweeping the selected payments only is sweeping them all. */
  lemma {:induction false} SelectionIsEnough(s: State, sweep: Sweep, ids: seq<PaymentId>)
    requires Distinct(ids)
    ensures SweepAll(s, sweep, Selected(s.cells, sweep, ids)) == SweepAll(s, sweep, ids)
  {
    hide SweepOne, Matches, Commit, Bare;
    if ids != [] {
      var init, id := ids[..|ids| - 1], ids[|ids| - 1];
      SelectionIsEnough(s, sweep, init);
      SweepAddsNoCells(s, sweep, init);
      var chosen := Selected(s.cells, sweep, init);
      assert (chosen + [id])[..|chosen|] == chosen;
      assert chosen + [] == chosen;
      if id in s.cells && !Matches(s.cells[id], sweep) {
        SweepTreatsEachOnce(s, sweep, init, id);
        UnmatchedRowsStay(s.cells[id], sweep);
        UnchangedCommit(SweepAll(s, sweep, init), id);
      }
    }
  }

  lemma UnchangedCommit(s: State, id: PaymentId)
    ensures Commit(s, id, Unchanged) == s
  {
  }

  lemma {:induction false} SweepAddsNoCells(s: State, sweep: Sweep, ids: seq<PaymentId>)
    ensures SweepAll(s, sweep, ids).cells.Keys == s.cells.Keys && SweepAll(s, sweep, ids).created == s.created
  {
    hide SweepOne;
    if ids != [] {
      SweepAddsNoCells(s, sweep, ids[..|ids| - 1]);
    }
  }

  lemma SweepExtends(s: State, sweep: Sweep, ids: seq<PaymentId>, i: nat)
    requires i < |ids|
    ensures SweepAll(s, sweep, ids[..i + 1]) ==
            var before := SweepAll(s, sweep, ids[..i]);
            if ids[i] in before.cells then Commit(before, ids[i], SweepOne(before.cells[ids[i]], sweep)) else before
  {
    assert ids[..i + 1][..i] == ids[..i];
  }

  lemma {:induction false} SelectedAreDistinct(cells: map<PaymentId, Cell>, sweep: Sweep, ids: seq<PaymentId>)
    requires Distinct(ids)
    ensures var r := Selected(cells, sweep, ids); Distinct(r)
  {
    if ids != [] {
      var init, id := ids[..|ids| - 1], ids[|ids| - 1];
      SelectedAreDistinct(cells, sweep, init);
      var chosen := Selected(cells, sweep, init);
      forall i | 0 <= i < |chosen| ensures chosen[i] != id {
        assert chosen[i] in init;
      }
    }
  }

  /** How many of the payments a deactivation closes. */
  function ClosedCount(cells: map<PaymentId, Cell>, user: UserId, ids: seq<PaymentId>): nat {
    if ids == [] then 0
    else
      var id := ids[|ids| - 1];
      ClosedCount(cells, user, ids[..|ids| - 1]) +
      (if id in cells && LocallyClosed(After(cells[id], Deactivate(cells[id], user)).payment) then 1 else 0)
  }

  lemma BindingStep(s: State, id: PaymentId, provider: ProviderId, text: string, expiresAt: Option<int>, now: int)
    ensures ApplyToCell(s, id, ProviderBound(id, provider, text, expiresAt, now)) ==
            if id in s.cells then Commit(s, id, Bind(s.cells[id], provider, text, expiresAt, now, Free(s, id, provider))) else s
  {
    hide Free, Bind, Commit;
  }

  lemma StaysGood(s: State, e: Event)
    requires Good(s)
    ensures Good(Apply(s, e)) && CreatedAgrees(s)
  {
    hide Apply;
    StepIsGood(s, e);
  }

  /** The claim that is trusted to have sent nothing has sent something after all. */
  predicate CalledUnder(cells: map<PaymentId, Cell>, id: PaymentId, claim: Option<Token>) {
    claim.Some? && id in cells && Holds(cells[id], claim.value) && cells[id].creation.value.lease.value.called
  }

  /** Closing an expired dispatch keeps the tables good. */
  lemma ClosingStaysGood(s: State, id: PaymentId, user: UserId, cycle: CycleKey, now: int, claim: Option<Token>)
    requires Good(s) && !CalledUnder(s.cells, id, claim)
    ensures Good(CloseExpiredDispatch(s, id, user, cycle, now, claim).1)
  {
    hide Inv, CellsContinue, CellsSafe, Remembers, Consistent, SafeToClose, PauseInvalid, Write;
    CloseExpiredDispatchAdvances(s, id, user, cycle, now, claim);
    ClosedRenewalsStay(s, id, user, cycle, now, claim);
  }

  lemma ClosedRenewalsStay(s: State, id: PaymentId, user: UserId, cycle: CycleKey, now: int, claim: Option<Token>)
    requires RenewalsConsistent(s)
    ensures RenewalsConsistent(CloseExpiredDispatch(s, id, user, cycle, now, claim).1)
  {
    hide Consistent, SafeToClose, PauseInvalid;
    if CloseExpiredDispatch(s, id, user, cycle, now, claim).0 == Closed {
      PauseFollows(s.renewals[user], "CHARGE_WINDOW_EXPIRED", now);
    }
  }

  lemma StoppedIsClosed(p: Payment)
    requires p.status == Pending
    ensures LocallyClosed(Stopped(p, false, "IDENTITY_DEACTIVATION")) && !LocallyClosed(Stopped(p, true, "IDENTITY_DEACTIVATION"))
  {
  }

  lemma CountExtends(cells: map<PaymentId, Cell>, user: UserId, ids: seq<PaymentId>, i: nat)
    requires i < |ids|
    ensures ClosedCount(cells, user, []) == 0
    ensures ClosedCount(cells, user, ids[..i + 1]) ==
            ClosedCount(cells, user, ids[..i]) +
            (if ids[i] in cells && LocallyClosed(After(cells[ids[i]], Deactivate(cells[ids[i]], user)).payment) then 1 else 0)
  {
    hide Deactivate, LocallyClosed;
    assert ids[..i + 1][..i] == ids[..i];
  }

  lemma NothingSweeps(s: State, sweep: Sweep)
    ensures SweepAll(s, sweep, []) == s && (sweep.DeactivationSweep? ==> ClosedCount(s.cells, sweep.user, []) == 0)
  {
  }

  lemma FirstsAreDistinct(ids: seq<PaymentId>, i: nat)
    requires Distinct(ids) && i < |ids|
    ensures Distinct(ids[..i]) && ids[i] !in ids[..i]
  {
  }

  class Store {
    var cells: map<PaymentId, Cell>
    var created: seq<PaymentId>
    var renewals: map<UserId, Renewal>
    var subscriptions: map<UserId, Subscription>
    var referrals: map<UserId, Referral>
    var nextSequence: nat
    var outbox: seq<PaymentEvent>
    var grants: seq<PaymentId>

    constructor ()
      ensures View() == Empty && Valid()
    {
      EmptyIsGood();
      cells, created, renewals, subscriptions, referrals := map[], [], map[], map[], map[];
      nextSequence, outbox, grants := 1, [], [];
    }

    ghost function View(): State
      reads this
    {
      State(cells, created, renewals, subscriptions, referrals, nextSequence, outbox, grants)
    }

    /** The tables of a reachable ledger; every transaction keeps it. */
    ghost predicate Valid()
      reads this
    {
      Good(View())
    }

    // -------------------------------------------------------------- rows

    method NextSequence() returns (sequence: nat)
      modifies this`nextSequence
      ensures sequence == old(nextSequence) && nextSequence == sequence + 1
    {
      sequence := nextSequence;
      nextSequence := nextSequence + 1;
    }

    /** Writes the payment row with its next version and a fresh sequence number, and emits its state. */
    method UpdatePayment(id: PaymentId, c: Cell)
      modifies this`cells, this`nextSequence, this`outbox
      ensures View() == Write(old(View()), id, c)
    {
      var sequence := NextSequence();
      var version := if id in cells then cells[id].payment.version + 1 else 1;
      var p := c.payment.(version := version, sequence := sequence);
      cells := cells[id := c.(payment := p)];
      outbox := outbox + [PaymentEvent(id, version, sequence, p.status, p.amount)];
    }

    // -------------------------------------------------------------- stopping the future payments

    /** The rows of a stopped payment: the waiting operation fails or turns unknown, the payment is closed or uncertain. */
    method StopRows(c: Cell, mayHaveReceived: bool, reason: string) returns (r: Cell)
      ensures r == c.(payment := Stopped(c.payment, mayHaveReceived, reason), creation := StoppedOperation(c.creation, mayHaveReceived))
    {
      r := c;
      if c.creation.Some? && c.creation.value.status == Waiting {
        r := r.(creation := Some(c.creation.value.(status := if mayHaveReceived then Unknown else Failed)));
      }
      var p := c.payment;
      if p.status == Pending {
        p := p.(status := if mayHaveReceived then Pending else Cancelled,
                providerStatus := if mayHaveReceived then Uncertain else NotSent,
                reason := if mayHaveReceived then p.reason else reason);
      }
      r := r.(payment := p.(saved := None));
    }

    /** One round of the loop below: the row is read again, and closed or marked as uncertain. */
    method StopFuturePayment(id: PaymentId, user: UserId, reason: string)
      requires id in cells
      modifies this`cells, this`nextSequence, this`outbox
      ensures View() == Commit(old(View()), id, ClearFuture(old(cells)[id], user, reason))
    {
      hide Stopped, StoppedOperation, Write;
      var c := cells[id];
      var p := c.payment;
      if p.user != user || p.kind != Recurring || (p.status != Pending && p.saved.None?) {
        return;
      }
      var pending := p.status == Pending;
      var open := c.creation.Some? && c.creation.value.status in {Waiting, Processing, Unknown};
      var ambiguous := open && MayHaveReachedProvider(c.creation.value);
      var mayHaveReceived := pending && (p.providerId.Some? || ambiguous);
      var stopped := StopRows(c, mayHaveReceived, reason);
      UpdatePayment(id, stopped);
    }

    method ClearFutureRecurringPayments(user: UserId, reason: string)
      requires CreatedAgrees(View())
      modifies this`cells, this`nextSequence, this`outbox
      ensures View() == SweepAll(old(View()), FutureSweep(user, reason), old(created))
    {
      hide Commit, ClearFuture, Matches;
      ghost var start := View();
      ghost var sweep := FutureSweep(user, reason);
      var candidates := Selected(cells, FutureSweep(user, reason), created);
      for i := 0 to |candidates|
        invariant View() == SweepAll(start, sweep, candidates[..i])
      {
        SweepExtends(start, sweep, candidates, i);
        SweepAddsNoCells(start, sweep, candidates[..i]);
        StopFuturePayment(candidates[i], user, reason);
      }
      assert candidates[..|candidates|] == candidates;
      SelectionIsEnough(start, sweep, start.created);
    }

    /** One round of the loop of the administrative cancellation. */
    method StopForAdministrator(id: PaymentId, user: UserId, reason: string)
      requires id in cells
      modifies this`cells, this`nextSequence, this`outbox
      ensures View() == Commit(old(View()), id, ClearForAdmin(old(cells)[id], user, reason))
    {
      hide Stopped, StoppedOperation, Write;
      var c := cells[id];
      var p := c.payment;
      if p.user != user || p.kind != Recurring || (p.status != Pending && p.saved.None?) {
        return;
      }
      var mayHaveReceived := p.providerId.Some? || (c.creation.Some? && MayHaveReachedProvider(c.creation.value));
      var stopped := StopRows(c, mayHaveReceived, reason);
      UpdatePayment(id, stopped);
    }

    method ClearForAdminCancellation(user: UserId, reason: string)
      requires CreatedAgrees(View())
      modifies this`cells, this`nextSequence, this`outbox
      ensures View() == SweepAll(old(View()), AdminSweep(user, reason), old(created))
    {
      hide Commit, ClearForAdmin, Matches;
      ghost var start := View();
      ghost var sweep := AdminSweep(user, reason);
      var candidates := Selected(cells, AdminSweep(user, reason), created);
      for i := 0 to |candidates|
        invariant View() == SweepAll(start, sweep, candidates[..i])
      {
        SweepExtends(start, sweep, candidates, i);
        SweepAddsNoCells(start, sweep, candidates[..i]);
        StopForAdministrator(candidates[i], user, reason);
      }
      assert candidates[..|candidates|] == candidates;
      SelectionIsEnough(start, sweep, start.created);
    }

    method DisableUserAutoRenewal(user: UserId, now: int) returns (found: bool)
      requires Valid()
      modifies this
      ensures Valid()
      ensures found == (user in old(renewals))
      ensures View() == DisableRenewal(old(View()), user, now)
    {
      hide Good;
      StaysGood(View(), RenewalDisabled(user, now));
      if user !in renewals {
        return false;
      }
      var r := renewals[user];
      if r.status != UserDisabled && r.status != Revoked {
        renewals := renewals[user := r.(status := UserDisabled, disabledAt := Some(now), saved := None, retryStartedAt := None,
                                        retryAttempt := 0, nextRetryAt := None, dispatchPending := false, version := r.version + 1)];
      } else {
        assert renewals == renewals[user := r];
      }
      ClearFutureRecurringPayments(user, "user_disabled_before_provider_call");
      return true;
    }

    method RevokeForAdministrator(user: UserId, now: int)
      requires Valid()
      modifies this
      ensures Valid()
      ensures View() == CancelSubscription(old(View()), user, now)
    {
      hide Good;
      StaysGood(View(), SubscriptionWithdrawn(user, now));
      if user in renewals {
        var r := renewals[user];
        if r.status != Revoked {
          renewals := renewals[user := r.(status := Revoked, disabledAt := Some(now), saved := None, retryStartedAt := None,
                                          retryAttempt := 0, nextRetryAt := None, dispatchPending := false, version := r.version + 1)];
        } else {
          assert renewals == renewals[user := r];
        }
      }
      ClearForAdminCancellation(user, "admin_cancelled");
    }

    /** One round of the loop of the deactivation command, on a pending payment of the user. */
    method StopForDeactivation(id: PaymentId, user: UserId) returns (closed: bool)
      requires id in cells && cells[id].payment.user == user && cells[id].payment.status == Pending
      modifies this`cells, this`nextSequence, this`outbox
      ensures View() == Commit(old(View()), id, Deactivate(old(cells)[id], user))
      ensures closed == LocallyClosed(After(old(cells)[id], Deactivate(old(cells)[id], user)).payment)
    {
      hide Write, Stopped;
      StoppedIsClosed(cells[id].payment);
      var c := cells[id];
      var newest := if c.lookup.Some? then c.lookup else c.creation;
      var mayHaveReceived := c.payment.providerId.Some? || (newest.Some? && MayHaveReachedProvider(newest.value));
      var stopped := StopNewest(c, mayHaveReceived);
      UpdatePayment(id, stopped);
      closed := !mayHaveReceived;
    }

    method StopNewest(c: Cell, mayHaveReceived: bool) returns (r: Cell)
      requires c.payment.status == Pending
      ensures r.payment == Stopped(c.payment, mayHaveReceived, "IDENTITY_DEACTIVATION") && r.issued == c.issued && r.refused == c.refused
      ensures r.lookup == StoppedOperation(c.lookup, mayHaveReceived)
      ensures r.creation == if c.lookup.Some? then c.creation else StoppedOperation(c.creation, mayHaveReceived)
    {
      r := c;
      var newest := if c.lookup.Some? then c.lookup else c.creation;
      if newest.Some? && newest.value.status == Waiting {
        var op := newest.value.(status := if mayHaveReceived then Unknown else Failed);
        if c.lookup.Some? {
          r := r.(lookup := Some(op));
        } else {
          r := r.(creation := Some(op));
        }
      }
      r := r.(payment := c.payment.(
        status := if mayHaveReceived then Pending else Cancelled,
        providerStatus := if mayHaveReceived then Uncertain else NotSent,
        saved := None,
        reason := if mayHaveReceived then c.payment.reason else "IDENTITY_DEACTIVATION"));
    }

    method ClearForDeactivation(user: UserId) returns (cancelled: nat)
      requires CreatedAgrees(View())
      modifies this`cells, this`nextSequence, this`outbox
      ensures View() == SweepAll(old(View()), DeactivationSweep(user), old(created))
      ensures cancelled == ClosedCount(old(cells), user, Selected(old(cells), DeactivationSweep(user), old(created)))
    {
      hide Commit, Deactivate, LocallyClosed, Bare, ClosedCount, SweepAll, Selected, Stopped;
      ghost var start := View();
      NothingSweeps(start, DeactivationSweep(user));
      ghost var sweep := DeactivationSweep(user);
      var candidates := Selected(cells, DeactivationSweep(user), created);
      SelectedAreDistinct(cells, sweep, created);
      cancelled := 0;
      for i := 0 to |candidates|
        invariant View() == SweepAll(start, sweep, candidates[..i])
        invariant cancelled == ClosedCount(start.cells, user, candidates[..i])
      {
        SweepExtends(start, sweep, candidates, i);
        assert candidates[i] in candidates;
        FirstsAreDistinct(candidates, i);
        SweepTreatsEachOnce(start, sweep, candidates[..i], candidates[i]);
        CountExtends(start.cells, user, candidates, i);
        var closed := StopForDeactivation(candidates[i], user);
        if closed {
          cancelled := cancelled + 1;
        }
      }
      assert candidates[..|candidates|] == candidates;
      SelectionIsEnough(start, sweep, start.created);
    }

    /** The deactivation command; it reports how many payments it closed. */
    method RevokeBeforeDeactivate(user: UserId, occurredAt: int) returns (cancelled: nat)
      requires Valid()
      modifies this
      ensures Valid()
      ensures View() == DeactivateUser(old(View()), user, occurredAt)
      ensures cancelled == ClosedCount(old(cells), user, Selected(old(cells), DeactivationSweep(user), old(created)))
    {
      hide Good, SweepAll, ClosedCount, Selected;
      StaysGood(View(), UserDeactivated(user, occurredAt));
      if user in renewals {
        var r := renewals[user];
        renewals := renewals[user := r.(status := Revoked, disabledAt := Some(occurredAt), saved := None,
                                        dispatchPending := false, version := r.version + 1)];
      }
      cancelled := ClearForDeactivation(user);
    }

    // -------------------------------------------------------------- a closed payment

    /** A failed charge: schedules a retry, pauses the renewal or revokes it. */
    method ApplyRecurringCancellation(p: Payment, reason: string, now: int)
      modifies this`renewals
      ensures renewals == if p.user in old(renewals)
                          then old(renewals)[p.user := AfterCancellation(old(renewals)[p.user], p, reason, now)] else old(renewals)
    {
      if p.user !in renewals {
        return;
      }
      var r := renewals[p.user];
      if p.kind != Recurring || r.status != Active || p.consentedAt != Some(r.consentedAt)
         || p.cycle != Some(CycleKey(p.user, r.nextChargeAt, r.retryAttempt)) {
        assert renewals == renewals[p.user := r];
        return;
      }
      if RetryableReason(reason) && r.retryAttempt < |RETRY_DELAYS| {
        var nextAttempt := r.retryAttempt + 1;
        var startedAt := if r.retryStartedAt.Some? then r.retryStartedAt.value else now;
        renewals := renewals[p.user := r.(retryStartedAt := Some(startedAt), retryAttempt := nextAttempt,
                                          nextRetryAt := Some(startedAt + RETRY_DELAYS[nextAttempt - 1]), dispatchPending := false,
                                          disabledAt := None, errorCode := reason, version := r.version + 1)];
        return;
      }
      var permissionRevoked := reason == "permission_revoked";
      renewals := renewals[p.user := r.(status := if permissionRevoked then Revoked else TechnicalPause, disabledAt := Some(now),
                                        nextRetryAt := None, dispatchPending := false, errorCode := reason,
                                        saved := if permissionRevoked then None else r.saved, version := r.version + 1)];
    }

    method CancelAffiliateReward(id: PaymentId, user: UserId)
      modifies this`referrals, this`nextSequence
      ensures View() == CancelReward(old(View()), id, user)
    {
      if user !in referrals || referrals[user].firstPayment != Some(id) || referrals[user].status != RewardPending {
        return;
      }
      var _ := NextSequence();
      referrals := referrals[user := referrals[user].(status := ReferralCancelled)];
    }

    method IsFree(id: PaymentId, provider: ProviderId) returns (free: bool)
      ensures free == Free(View(), id, provider)
    {
      free := forall other | other in cells && other != id :: cells[other].payment.providerId != Some(provider);
    }

    method MarkProviderCancelled(id: PaymentId, provider: ProviderId, reason: string, now: int) returns (found: bool)
      requires Valid()
      modifies this
      ensures Valid()
      ensures found == (id in old(cells))
      ensures View() == ApplyCancellation(old(View()), id, provider, reason, now)
    {
      hide Good, ApplyCancellation;
      StaysGood(View(), ProviderCancelled(id, provider, reason, now));
      found := CancelRows(id, provider, reason, now);
    }

    method CancelRows(id: PaymentId, provider: ProviderId, reason: string, now: int) returns (found: bool)
      modifies this
      ensures found == (id in old(cells))
      ensures View() == ApplyCancellation(old(View()), id, provider, reason, now)
    {
      hide AfterCancellation, Rewarded, Free;
      if id !in cells {
        return false;
      }
      var current := cells[id].payment;
      if current.status == Succeeded
         || (current.status == Cancelled && current.providerStatus == Reported("canceled") && current.reason == reason) {
        return true;
      }
      var free := IsFree(id, provider);
      if free {
        UpdatePayment(id, cells[id].(payment := current.(providerId := Some(provider), providerStatus := Reported("canceled"),
                                                         status := Cancelled, saved := None, reason := reason)));
        ApplyRecurringCancellation(current, reason, now);
        CancelAffiliateReward(id, current.user);
      }
      return true;
    }

    method BindProviderState(id: PaymentId, provider: ProviderId, text: string, expiresAt: Option<int>, now: int) returns (bound: bool)
      requires Valid()
      modifies this
      ensures Valid()
      ensures View() == ApplyToCell(old(View()), id, ProviderBound(id, provider, text, expiresAt, now))
      ensures bound ==> id in cells && cells[id].payment.providerId == Some(provider)
      ensures !bound ==> View() == old(View())
    {
      hide Good, Free, CreatedAgrees, CellChange, ApplyToCell;
      StaysGood(View(), ProviderBound(id, provider, text, expiresAt, now));
      BindingStep(View(), id, provider, text, expiresAt, now);
      if id !in cells {
        return false;
      }
      var current := cells[id].payment;
      if current.providerId.Some? && current.providerId.value != provider {
        return false;
      }
      var free := IsFree(id, provider);
      if !free {
        return false;
      }
      var until := current.checkoutExpiresAt;
      if expiresAt.Some? && expiresAt.value > now && expiresAt.value < until {
        until := expiresAt.value;
      }
      UpdatePayment(id, cells[id].(payment := current.(providerId := Some(provider), providerStatus := Reported(text), checkoutExpiresAt := until)));
      return true;
    }

    // -------------------------------------------------------------- success

    method ApplyAffiliateReward(id: PaymentId, user: UserId, amount: nat, program: Program)
      modifies this`referrals, this`nextSequence
      ensures View() == ApplyAffiliate(old(View()), id, user, amount, program)
    {
      if user !in referrals || referrals[user].status != Registered {
        return;
      }
      var count := CountSuccesses(user);
      var _ := NextSequence();
      if !program.enabled || count != 1 {
        referrals := referrals[user := referrals[user].(status := ReferralCancelled)];
        return;
      }
      var cashback := amount * program.percent / 100;
      referrals := referrals[user := Referral(RewardPending, Some(id), amount, program.percent, cashback)];
    }

    method CountSuccesses(user: UserId) returns (count: nat)
      ensures count == SucceededOf(cells, user, created)
    {
      count := 0;
      for i := 0 to |created|
        invariant count == SucceededOf(cells, user, created[..i])
      {
        assert created[..i + 1][..i] == created[..i];
        if created[i] in cells && cells[created[i]].payment.user == user && cells[created[i]].payment.status == Succeeded {
          count := count + 1;
        }
      }
      assert created[..|created|] == created;
    }

    /** Extends or starts the user's subscription. */
    method ExtendSubscription(p: Payment, now: int) returns (expiresAt: int)
      requires p.plan.Some? && p.period.Some?
      modifies this`subscriptions, this`nextSequence
      ensures subscriptions == old(subscriptions)[p.user := AfterPayment(Lookup(old(subscriptions), p.user), p.plan.value, p.period.value, now)]
      ensures nextSequence == old(nextSequence) + 1 && subscriptions[p.user].expiresAt == Some(expiresAt)
    {
      hide Calendar.AddPeriod;
      var active := p.user in subscriptions && subscriptions[p.user].status == SubscriptionActive
                    && subscriptions[p.user].expiresAt.Some? && subscriptions[p.user].expiresAt.value > now;
      var base := now;
      if active {
        if subscriptions[p.user].plan == p.plan.value {
          base := subscriptions[p.user].expiresAt.value;
        } else {
          var remainingDays := (subscriptions[p.user].expiresAt.value - now) / DAY;
          base := now + remainingDays * DAY;
        }
      }
      var _ := NextSequence();
      var version := if p.user in subscriptions then subscriptions[p.user].version + 1 else 1;
      expiresAt := Calendar.AddPeriod(base, p.period.value);
      subscriptions := subscriptions[p.user := Subscription(p.plan.value, p.period, SubscriptionActive,
                                                            if active then subscriptions[p.user].startsAt else now, Some(expiresAt), version)];
    }

    /** The renewal after a success: its date moves on, it is granted anew, or it stays. */
    method SettleRenewal(p: Payment, saved: Option<string>, expiresAt: int)
      requires p.plan.Some? && p.period.Some?
      modifies this`renewals
      ensures var next := AfterSuccess(Lookup(old(renewals), p.user), p, saved, expiresAt);
              renewals == if next.None? then old(renewals) else old(renewals)[p.user := next.value]
    {
      var current := Lookup(renewals, p.user);
      var locallyClosed := p.kind == OneTime && (p.status == Cancelled || p.status == Expired);
      if p.kind == Recurring && current.Some? {
        var r := current.value;
        var recovers := r.status == TechnicalPause && DeliveryError(r.errorCode);
        renewals := renewals[p.user := r.(nextChargeAt := expiresAt, retryStartedAt := None, retryAttempt := 0, nextRetryAt := None,
                                          dispatchPending := false, errorCode := "", version := r.version + 1,
                                          status := if recovers then Active else r.status,
                                          disabledAt := if recovers then None else r.disabledAt)];
      } else if p.kind == OneTime && p.autoRenew && !locallyClosed && saved.Some? && p.consentedAt.Some? && p.consentComplete
                && !(current.Some? && current.value.status != Active && current.value.disabledAt.Some?
                     && current.value.disabledAt.value >= p.consentedAt.value) {
        var version := if current.Some? then current.value.version + 1 else 1;
        renewals := renewals[p.user := Renewal(Active, p.plan.value, p.period.value, p.amount, None, p.currency, saved, p.consentedAt.value,
                                               expiresAt, None, 0, None, false, None, "", version)];
      } else if p.kind == OneTime && current.Some? && current.value.status == Active {
        var r := current.value;
        renewals := renewals[p.user := r.(nextChargeAt := expiresAt, retryStartedAt := None, retryAttempt := 0, nextRetryAt := None,
                                          dispatchPending := false, errorCode := "", version := r.version + 1)];
      } else if current.Some? {
        assert renewals == renewals[p.user := current.value];
      }
    }

    method Fulfilment(id: PaymentId, c: Cell, saved: Option<string>, program: Program, now: int)
      requires id in cells && cells[id].payment.plan.Some? && cells[id].payment.period.Some?
      modifies this
      ensures View() == Fulfil(old(View()), id, c, saved, program, now)
    {
      hide AfterSuccess, AfterPayment, ApplyAffiliate;
      var p := cells[id].payment;
      UpdatePayment(id, c);
      grants := grants + [id];
      var expiresAt := ExtendSubscription(p, now);
      SettleRenewal(p, saved, expiresAt);
      ApplyAffiliateReward(id, p.user, p.amount, program);
    }

    /** The success transaction; it reports whether this call fulfilled the payment. */
    method ApplyInTransaction(id: PaymentId, provider: ProviderId, amount: nat, currency: string, saved: Option<string>,
                              program: Program, paidAt: int, now: int) returns (fulfilled: bool)
      requires Valid()
      modifies this
      ensures Valid()
      ensures View() == ApplySuccess(old(View()), id, provider, amount, currency, saved, program, paidAt, now)
      ensures fulfilled == (id in old(cells) && Succeed(old(cells)[id], provider, amount, currency, paidAt, Free(old(View()), id, provider)).Written?)
    {
      hide Good, Fulfil;
      StaysGood(View(), ProviderSucceeded(id, provider, amount, currency, saved, program, paidAt, now));
      if id !in cells {
        return false;
      }
      var p := cells[id].payment;
      if p.providerId.Some? && p.providerId.value != provider {
        return false;
      }
      var free := IsFree(id, provider);
      if !free || p.amount != amount || p.currency != currency || p.status == Succeeded || p.plan.None? || p.period.None? {
        return false;
      }
      Fulfilment(id, cells[id].(payment := p.(providerId := Some(provider), status := Succeeded, providerStatus := Reported("succeeded"),
                                              paidAt := Some(paidAt), reason := "", saved := None)), saved, program, now);
      return true;
    }

    // -------------------------------------------------------------- the charge window

    method CloseExpiredRecurringDispatch(id: PaymentId, user: UserId, cycle: CycleKey, now: int, claim: Option<Token>) returns (result: CloseResult)
      modifies this
      ensures (result, View()) == CloseExpiredDispatch(old(View()), id, user, cycle, now, claim)
      ensures old(Valid()) && !CalledUnder(old(cells), id, claim) ==> Valid()
    {
      hide Good, CloseExpiredDispatch;
      if Valid() && !CalledUnder(cells, id, claim) {
        ClosingStaysGood(View(), id, user, cycle, now, claim);
      }
      result := CloseRows(id, user, cycle, now, claim);
    }

    /** The checks in their order, and the rows of a closed dispatch. */
    method CloseRows(id: PaymentId, user: UserId, cycle: CycleKey, now: int, claim: Option<Token>) returns (result: CloseResult)
      modifies this
      ensures (result, View()) == CloseExpiredDispatch(old(View()), id, user, cycle, now, claim)
    {
      if id !in cells || user !in renewals {
        return ReconciliationRequired;
      }
      var c, r := cells[id], renewals[user];
      var p := c.payment;
      if p.kind == Recurring && p.cycle == Some(cycle) && p.status == Cancelled && p.providerStatus == NotSent && p.providerId.None?
         && p.saved.None? && p.reason == "CHARGE_WINDOW_EXPIRED" && user == p.user && r.status == TechnicalPause
         && !r.dispatchPending && r.errorCode == "CHARGE_WINDOW_EXPIRED" {
        return AlreadyClosed;
      }
      var sendable := p.providerStatus == Queued || (claim.Some? && p.providerStatus == Creating);
      if p.providerId.Some? || p.kind != Recurring || p.status != Pending || !sendable || p.cycle != Some(cycle) || user != p.user
         || r.status != Active || !r.dispatchPending || p.cycle != Some(CycleKey(user, r.nextChargeAt, r.retryAttempt)) {
        return ReconciliationRequired;
      }
      if p.checkoutExpiresAt > now {
        return NotExpired;
      }
      if claim.None? {
        if c.creation.Some? && (c.creation.value.providerId.Some? || c.creation.value.status != Waiting || c.creation.value.attempt != 0) {
          return ReconciliationRequired;
        }
      } else if c.creation.None? || c.creation.value.providerId.Some? || !HeldBy(c.creation.value, claim.value) || c.creation.value.attempt != 1 {
        return ReconciliationRequired;
      }
      if c.creation.Some? {
        c := c.(creation := Some(c.creation.value.(status := Failed, lease := None)));
      }
      renewals := renewals[user := r.(status := TechnicalPause, nextRetryAt := None, dispatchPending := false, disabledAt := Some(now),
                                      errorCode := "CHARGE_WINDOW_EXPIRED", version := r.version + 1)];
      UpdatePayment(id, c.(payment := p.(status := Cancelled, providerStatus := NotSent, reason := "CHARGE_WINDOW_EXPIRED", saved := None)));
      return Closed;
    }
  }
}
