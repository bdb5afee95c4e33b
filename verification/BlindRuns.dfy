/**
 * The two ways in which a run loses track of a sent request, each with the condition under which
 * it happens: a fence on a repeated attempt, and a deactivation behind a queued lookup.
 */
module BlindRuns {
  import opened Common
  import opened Dispatch
  import opened Renewal
  import opened PaidTime
  import opened Ledger
  import opened LedgerSafety
  import opened LedgerTheorems
  import Calendar

  const HOUR: int := 60 * 60 * 1000
  const Order := Checkout(0, Easy, Calendar.Monthly, false, 499, false)
  const Reachable := Surroundings(0, 0, true, false, true, false, None, true)
  const Inactive := Reachable.(identityActive := false)
  const Answered := Reachable.(answered := true, answer := Some(7))
  const Timeout := Failure(true, true, true, false, "timeout", 0)

  lemma RunThen(s: State, es: seq<Event>, e: Event)
    ensures Run(s, es + [e]) == Apply(Run(s, es), e)
  {
    assert (es + [e])[..|es|] == es;
  }

  /** A claim, a request and a timeout, as often as wanted. */
  function Attempts(n: nat): seq<Event> {
    if n == 0 then [CheckoutRequested(0, Order, true, 0)]
    else Attempts(n - 1) + [OperationClaimed(0, n, 0)] + [PaymentDispatched(0, n, Reachable)] + [DispatchFailed(0, n, Timeout)]
  }

  /** A checkout that waits for its next attempt. */
  predicate AwaitsAttempt(s: State, n: nat) {
    0 in s.cells && s.created == [0] && Awaits(s.cells[0], n)
  }

  /** The rows of a checkout that waits for its next attempt. */
  predicate Awaits(c: Cell, n: nat) {
    && c.payment.user == 0 && c.payment.kind == OneTime && c.payment.status == Pending && c.payment.providerId.None?
    && c.payment.plan.Some? && c.payment.period.Some? && c.payment.checkoutExpiresAt == HOUR
    && c.creation.Some? && c.creation.value == Operation(Waiting, n, None, c.creation.value.leaseUntil, None, 0)
    && c.lookup.None? && (n > 0 ==> c.issued)
  }

  function Claimed(c: Cell, n: nat): Cell
    requires c.creation.Some?
  {
    c.(creation := Some(c.creation.value.(status := Processing, attempt := n, leaseUntil := LEASE,
                                          lease := Some(Lease(n, false, false, false, None, None)))))
  }

  lemma ClaimStep(s: State, n: nat)
    requires AwaitsAttempt(s, n)
    ensures var s' := Apply(s, OperationClaimed(0, n + 1, 0));
            && s'.cells.Keys == s.cells.Keys && s'.referrals == s.referrals
            && s'.created == [0] && s'.cells[0] == Claimed(s.cells[0], n + 1)
  {
  }

  /** A claimed checkout is sent, and the answer or its absence is remembered. */
  lemma SendCell(c: Cell, n: nat, env: Surroundings)
    requires Awaits(c, n) && (env == Reachable || env == Answered)
    ensures var c' := Claimed(c, n + 1);
            DispatchCreation(c', n + 1, env) ==
            Sent(c'.(creation := Some(c'.creation.value.(lease := Some(Lease(n + 1, false, true, env.answered, env.answer, None)))), issued := true))
  {
  }

  lemma SendStep(s: State, c: Cell, n: nat, env: Surroundings)
    requires Awaits(c, n) && (env == Reachable || env == Answered)
    requires 0 in s.cells && s.created == [0] && s.cells[0] == Claimed(c, n + 1)
    ensures var s' := Apply(s, PaymentDispatched(0, n + 1, env));
            && s'.cells.Keys == s.cells.Keys && s'.referrals == s.referrals && s'.created == [0]
            && s'.cells[0] == DispatchCreation(Claimed(c, n + 1), n + 1, env).cell
  {
    hide RenewalReady, CloseExpiredDispatch, DispatchCreation;
    SendCell(c, n, env);
    RenewalsDoNotMatter(Claimed(c, n + 1), n + 1, env, RenewalReady(s, s.cells[0].payment));
  }

  lemma RenewalsDoNotMatter(c: Cell, token: Token, env: Surroundings, ready: bool)
    requires c.payment.kind == OneTime
    ensures DispatchCreation(c, token, env.(renewalReady := ready)) == DispatchCreation(c, token, env)
  {
  }

  lemma AttemptAgain(s: State, n: nat)
    requires AwaitsAttempt(s, n)
    ensures AwaitsAttempt(Apply(Apply(Apply(s, OperationClaimed(0, n + 1, 0)), PaymentDispatched(0, n + 1, Reachable)),
                                DispatchFailed(0, n + 1, Timeout)), n + 1)
  {
    hide DispatchPayment, ApplyToCell, AfterClose, DispatchCreation;
    ClaimStep(s, n);
    var s1 := Apply(s, OperationClaimed(0, n + 1, 0));
    SendCell(s.cells[0], n, Reachable);
    SendStep(s1, s.cells[0], n, Reachable);
  }

  lemma CheckoutAwaits()
    ensures AwaitsAttempt(Apply(Empty, CheckoutRequested(0, Order, true, 0)), 0)
  {
  }

  lemma RunThreeMore(es: seq<Event>, a: Event, b: Event, c: Event)
    ensures Run(Empty, es + [a] + [b] + [c]) == Apply(Apply(Apply(Run(Empty, es), a), b), c)
  {
    hide Apply, Run;
    RunThen(Empty, es, a);
    RunThen(Empty, es + [a], b);
    RunThen(Empty, es + [a] + [b], c);
  }

  lemma {:induction false} AttemptsAreReached(n: nat)
    ensures AwaitsAttempt(Run(Empty, Attempts(n)), n)
  {
    hide Apply, AwaitsAttempt;
    if n == 0 {
      CheckoutAwaits();
      RunThen(Empty, [], CheckoutRequested(0, Order, true, 0));
      assert [] + [CheckoutRequested(0, Order, true, 0)] == Attempts(0);
    } else {
      hide Run;
      AttemptsAreReached(n - 1);
      RunThreeMore(Attempts(n - 1), OperationClaimed(0, n, 0), PaymentDispatched(0, n, Reachable), DispatchFailed(0, n, Timeout));
      AttemptAgain(Run(Empty, Attempts(n - 1)), n - 1);
    }
  }

  /** A fenced claim, and the checkout runs out. */
  function FencedRun(n: nat): seq<Event> {
    Attempts(n) + [OperationClaimed(0, n + 1, 0)] + [PaymentDispatched(0, n + 1, Inactive)] + [CheckoutExpired(0, HOUR)]
  }

  lemma FenceAndExpire(s: State, n: nat)
    requires AwaitsAttempt(s, n + 1)
    ensures var s' := Apply(Apply(Apply(s, OperationClaimed(0, n + 2, 0)), PaymentDispatched(0, n + 2, Inactive)), CheckoutExpired(0, HOUR));
            && 0 in s'.cells && s'.cells[0].creation.Some? && s'.cells[0].creation.value.attempt == n + 2
            && LocallyClosed(s'.cells[0].payment) && s'.cells[0].issued
  {
    hide RenewalReady, CloseExpiredDispatch, DispatchCreation;
    ClaimStep(s, n + 1);
    var c1 := Claimed(s.cells[0], n + 2);
    FenceCell(s.cells[0], n + 1);
    var s1 := Apply(s, OperationClaimed(0, n + 2, 0));
    RenewalsDoNotMatter(c1, n + 2, Inactive, RenewalReady(s1, c1.payment));
    var s2 := Apply(s1, PaymentDispatched(0, n + 2, Inactive));
    assert s2.cells[0] == Fence(c1);
  }

  lemma FenceCell(c: Cell, n: nat)
    requires Awaits(c, n)
    ensures var c' := Claimed(c, n + 1); DispatchCreation(c', n + 1, Inactive) == Fenced(Fence(c'))
  {
  }

  /** On every attempt after the first, a fence can close a payment whose request has been sent. */
  lemma RepeatedFencesLoseRequests(attempt: nat)
    requires attempt >= 2
    ensures 0 in Run(Empty, FencedRun(attempt - 1)).cells
    ensures var c := Run(Empty, FencedRun(attempt - 1)).cells[0];
            c.creation.Some? && c.creation.value.attempt == attempt && LocallyClosed(c.payment) && c.issued
  {
    hide Apply, Run, Attempts, AwaitsAttempt;
    var n := attempt - 1;
    AttemptsAreReached(n);
    RunThreeMore(Attempts(n), OperationClaimed(0, n + 1, 0), PaymentDispatched(0, n + 1, Inactive), CheckoutExpired(0, HOUR));
    FenceAndExpire(Run(Empty, Attempts(n)), n - 1);
  }

  /** On a first attempt, a fence finds an unsent payment in every reachable state. */
  lemma FirstFencesLoseNothing(es: seq<Event>, id: PaymentId, token: Token, env: Surroundings)
    requires id in Run(Empty, es).cells && Judge(Run(Empty, es), id, token, env).Fenced?
    requires Run(Empty, es).cells[id].creation.value.attempt <= 1
    ensures !Run(Empty, es).cells[id].issued
  {
    hide Unique, OutboxAgrees, GrantsAgree, RewardsAgree, CreatedAgrees, Sound;
    EmptyIsGood();
    RunIsGood(Empty, es);
    FirstClaimsAreUnsent(Run(Empty, es).cells[id], token);
  }


  const HiddenRun := Attempts(0) + [OperationClaimed(0, 1, 0)] + [PaymentDispatched(0, 1, Answered)] + [DispatchFailed(0, 1, Timeout)]
                     + [LookupQueued(0, 0)] + [UserDeactivated(0, 0)]

  lemma AnswerAndFail(s: State)
    requires AwaitsAttempt(s, 0)
    ensures var s' := Apply(Apply(Apply(s, OperationClaimed(0, 1, 0)), PaymentDispatched(0, 1, Answered)), DispatchFailed(0, 1, Timeout));
            && s'.created == [0] && 0 in s'.cells && var c := s'.cells[0];
            && c.payment.user == 0 && c.payment.status == Pending && c.payment.providerId.None? && c.issued && c.lookup.None?
            && c.creation.Some? && c.creation.value.status == Unknown && c.creation.value.providerId == Some(7)
  {
    hide DispatchPayment, ApplyToCell, AfterClose, DispatchCreation;
    ClaimStep(s, 0);
    var s1 := Apply(s, OperationClaimed(0, 1, 0));
    SendCell(s.cells[0], 0, Answered);
    SendStep(s1, s.cells[0], 0, Answered);
  }

  lemma LookUpAndDeactivate(s: State)
    requires s.created == [0] && 0 in s.cells
    requires var c := s.cells[0];
             && c.payment.user == 0 && c.payment.status == Pending && c.payment.providerId.None? && c.issued && c.lookup.None?
             && c.creation.Some? && c.creation.value.status == Unknown && c.creation.value.providerId == Some(7)
    ensures var s' := Apply(Apply(s, LookupQueued(0, 0)), UserDeactivated(0, 0));
            0 in s'.cells && LocallyClosed(s'.cells[0].payment) && s'.cells[0].issued && Ambiguous(s'.cells[0].creation)
  {
    hide Apply, HiddenCell;
    LookUp(s);
    DeactivateHidden(Apply(s, LookupQueued(0, 0)));
  }

  /** An unknown creation behind a queued lookup. */
  predicate HiddenCell(c: Cell) {
    && c.payment.user == 0 && c.payment.status == Pending && c.payment.providerId.None? && c.issued && c.lookup == Some(NewOperation(0))
    && c.creation.Some? && c.creation.value.status == Unknown
  }

  lemma LookUp(s: State)
    requires s.created == [0] && 0 in s.cells
    requires var c := s.cells[0];
             && c.payment.user == 0 && c.payment.status == Pending && c.payment.providerId.None? && c.issued && c.lookup.None?
             && c.creation.Some? && c.creation.value.status == Unknown && c.creation.value.providerId == Some(7)
    ensures var s' := Apply(s, LookupQueued(0, 0)); s'.created == [0] && 0 in s'.cells && HiddenCell(s'.cells[0])
  {
  }

  lemma DeactivateHidden(s: State)
    requires s.created == [0] && 0 in s.cells && HiddenCell(s.cells[0])
    ensures var s' := Apply(s, UserDeactivated(0, 0));
            0 in s'.cells && LocallyClosed(s'.cells[0].payment) && s'.cells[0].issued && Ambiguous(s'.cells[0].creation)
  {
    hide SweepAll, RevokeForDeactivation;
    var s2 := if 0 in s.renewals then s.(renewals := s.renewals[0 := RevokeForDeactivation(s.renewals[0], 0)]) else s;
    SweepTreatsEachOnce(s2, DeactivationSweep(0), [0], 0);
    assert Bare(Apply(s, UserDeactivated(0, 0)).cells[0]) == Bare(After(s.cells[0], Deactivate(s.cells[0], 0)));
  }

  /** A deactivation can close a payment whose request the provider has even answered. */
  lemma HiddenDeactivationsLoseRequests()
    ensures 0 in Run(Empty, HiddenRun).cells
    ensures var c := Run(Empty, HiddenRun).cells[0]; LocallyClosed(c.payment) && c.issued && Ambiguous(c.creation)
  {
    hide Apply, Run, Attempts, AwaitsAttempt;
    var es, e2, e3 := Attempts(0), OperationClaimed(0, 1, 0), PaymentDispatched(0, 1, Answered);
    var e4, e5, e6 := DispatchFailed(0, 1, Timeout), LookupQueued(0, 0), UserDeactivated(0, 0);
    AttemptsAreReached(0);
    RunThreeMore(es, e2, e3, e4);
    RunThen(Empty, es + [e2] + [e3] + [e4], e5);
    RunThen(Empty, es + [e2] + [e3] + [e4] + [e5], e6);
    AnswerAndFail(Run(Empty, es));
    LookUpAndDeactivate(Run(Empty, es + [e2] + [e3] + [e4]));
  }

  /** A fence on a first attempt leaves an open checkout that was never sent and that its user cannot cancel. */
  lemma FencedCheckoutsResistTheirUsers()
    ensures var s := Run(Empty, Attempts(0) + [OperationClaimed(0, 1, 0)] + [PaymentDispatched(0, 1, Inactive)]);
            && 0 in s.cells && s.cells[0].payment.status == Pending && s.cells[0].payment.user == 0 && !MayBeKnown(s.cells[0])
            && Apply(s, UserCancelled(0, 0)) == s
  {
    hide Attempts, Apply, Run, AwaitsAttempt, MayBeKnown;
    AttemptsAreReached(0);
    RunThen(Empty, Attempts(0), OperationClaimed(0, 1, 0));
    RunThen(Empty, Attempts(0) + [OperationClaimed(0, 1, 0)], PaymentDispatched(0, 1, Inactive));
    FenceFirst(Run(Empty, Attempts(0)));
    FencedResists(Apply(Apply(Run(Empty, Attempts(0)), OperationClaimed(0, 1, 0)), PaymentDispatched(0, 1, Inactive)));
  }

  /** An open, unsent checkout whose operation was fenced. */
  predicate FencedCell(c: Cell) {
    c.payment.user == 0 && c.payment.kind == OneTime && c.payment.status == Pending && c.payment.providerId.None? && c.creation.Some?
    && c.creation.value.status == Failed
  }

  lemma FenceFirst(s: State)
    requires AwaitsAttempt(s, 0)
    ensures var s' := Apply(Apply(s, OperationClaimed(0, 1, 0)), PaymentDispatched(0, 1, Inactive)); 0 in s'.cells && FencedCell(s'.cells[0])
  {
    hide RenewalReady, CloseExpiredDispatch, DispatchCreation, ApplyToCell;
    ClaimStep(s, 0);
    FenceCell(s.cells[0], 0);
    var s1 := Apply(s, OperationClaimed(0, 1, 0));
    RenewalsDoNotMatter(s1.cells[0], 1, Inactive, RenewalReady(s1, s1.cells[0].payment));
  }

  lemma FencedResists(s: State)
    requires 0 in s.cells && FencedCell(s.cells[0])
    ensures s.cells[0].payment.status == Pending && s.cells[0].payment.user == 0 && !MayBeKnown(s.cells[0]) && Apply(s, UserCancelled(0, 0)) == s
  {
  }
}
