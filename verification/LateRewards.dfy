/**
 * A run in which the reward does not stay with the user's first success: a payment is bound and its
 * checkout runs out, a second checkout succeeds and is rewarded, and then the first one succeeds late
 * with an earlier payment date.
 */
module LateRewards {
  import opened Common
  import opened Dispatch
  import opened Renewal
  import opened PaidTime
  import opened Ledger
  import opened LedgerSafety
  import opened LedgerTheorems
  import opened LedgerRewards
  import opened BlindRuns

  const Tenth := Program(true, 10)
  const Joined := ReferralRegistered(0, None, true, Tenth)
  const Bound := ProviderBound(0, 7, "pending", None, 0)
  const Second := CheckoutRequested(1, Order, true, HOUR)
  const Rewarded := ProviderSucceeded(1, 8, 499, "RUB", None, Tenth, HOUR + 20, HOUR + 20)
  const Late := ProviderSucceeded(0, 7, 499, "RUB", None, Tenth, HOUR - 10, HOUR + 30)

  /** The first checkout alone, of a user who has been referred. */
  predicate FirstOnly(s: State) {
    s.cells.Keys == {0} && s.created == [0] && s.referrals == map[0 := Referral(Registered, None, 0, 0, 0)]
  }

  /** An open payment of the user over the agreed amount. */
  predicate Payable(p: Payment, id: Option<ProviderId>, until: int) {
    && p.user == 0 && p.kind == OneTime && p.status == Pending && p.providerId == id && p.amount == 499 && p.currency == "RUB"
    && p.plan.Some? && p.period.Some? && p.checkoutExpiresAt == until
  }

  lemma JoinAndOrder()
    ensures var s := Apply(Apply(Empty, Joined), CheckoutRequested(0, Order, true, 0));
            FirstOnly(s) && AwaitsAttempt(s, 0) && Payable(s.cells[0].payment, None, HOUR)
  {
    assert SucceededOf(map[], 0, []) == 0;
  }

  /** A sent request whose answer the worker remembers. */
  predicate SentCell(c: Cell) {
    && Payable(c.payment, None, HOUR) && c.lookup.None? && Holds(c, 1) && c.creation.value.lease.value.answered
  }

  lemma Send(s: State)
    requires FirstOnly(s) && AwaitsAttempt(s, 0) && Payable(s.cells[0].payment, None, HOUR)
    ensures var s' := Apply(Apply(s, OperationClaimed(0, 1, 0)), PaymentDispatched(0, 1, Answered));
            FirstOnly(s') && SentCell(s'.cells[0])
  {
    hide DispatchCreation, Apply;
    ClaimStep(s, 0);
    SendCell(s.cells[0], 0, Answered);
    SendStep(Apply(s, OperationClaimed(0, 1, 0)), s.cells[0], 0, Answered);
  }

  /** A bound payment whose worker still holds its claim. */
  predicate BoundCell(c: Cell) {
    && Payable(c.payment, Some(7), HOUR) && c.lookup.None? && Holds(c, 1) && c.creation.value.lease.value.answered
  }

  lemma Bind7(s: State)
    requires FirstOnly(s) && SentCell(s.cells[0])
    ensures FirstOnly(Apply(s, Bound)) && BoundCell(Apply(s, Bound).cells[0])
  {
    assert Free(s, 0, 7);
  }

  lemma Complete(s: State)
    requires FirstOnly(s) && BoundCell(s.cells[0])
    ensures var s' := Apply(s, DispatchCompleted(0, 1));
            FirstOnly(s') && Payable(s'.cells[0].payment, Some(7), HOUR) && !Ambiguous(s'.cells[0].creation) && s'.cells[0].lookup.None?
  {
  }

  /** The provider answers, its payment is bound and the operation completes. */
  lemma SendAndBind(s: State)
    requires FirstOnly(s) && AwaitsAttempt(s, 0) && Payable(s.cells[0].payment, None, HOUR)
    ensures var s' := Apply(Apply(Apply(Apply(s, OperationClaimed(0, 1, 0)), PaymentDispatched(0, 1, Answered)), Bound), DispatchCompleted(0, 1));
            FirstOnly(s') && Payable(s'.cells[0].payment, Some(7), HOUR) && !Ambiguous(s'.cells[0].creation) && s'.cells[0].lookup.None?
  {
    hide Apply, SentCell, BoundCell, FirstOnly, Payable;
    Send(s);
    var s2 := Apply(Apply(s, OperationClaimed(0, 1, 0)), PaymentDispatched(0, 1, Answered));
    Bind7(s2);
    Complete(Apply(s2, Bound));
  }

  /** Nothing stands in the way of a second checkout once the first has run out. */
  lemma OrderAgain(s: State)
    requires FirstOnly(s) && Payable(s.cells[0].payment, Some(7), HOUR) && !Ambiguous(s.cells[0].creation) && s.cells[0].lookup.None?
    ensures var s' := Apply(s, Second);
            && s'.cells.Keys == {0, 1} && s'.created == [0, 1] && s'.referrals == s.referrals
            && Payable(s'.cells[0].payment, Some(7), HOUR) && Payable(s'.cells[1].payment, None, HOUR + HOUR)
  {
    assert !Blocks(s.cells[0], 0, HOUR);
    assert Apply(s, Second) == Insert(s, 1, NewCheckout(Order, HOUR));
  }

  /** What a fulfilment does to the rows that matter here. */
  lemma FulfilEffect(s: State, id: PaymentId, c: Cell, now: int)
    requires id in s.cells && Payable(s.cells[id].payment, s.cells[id].payment.providerId, s.cells[id].payment.checkoutExpiresAt)
    ensures var s' := Fulfil(s, id, c, None, Tenth, now);
            && s'.cells == Write(s, id, c).cells && s'.created == s.created && s'.grants == s.grants + [id]
            && s'.referrals == AfterAffiliate(s, id, s'.cells)
  {
    hide AfterPayment, AfterSuccess, SucceededOf;
  }

  /** A first success: its row, its grant and what the referral makes of it. */
  lemma SucceedOnce(s: State, id: PaymentId, e: Event)
    requires s.cells.Keys == {0, 1} && s.created == [0, 1] && id in {0, 1}
    requires e.ProviderSucceeded? && e.id == id && e.amount == 499 && e.currency == "RUB" && e.program == Tenth && e.saved == None
    requires Payable(s.cells[id].payment, s.cells[id].payment.providerId, s.cells[id].payment.checkoutExpiresAt)
    requires s.cells[id].payment.providerId.Some? ==> s.cells[id].payment.providerId.value == e.provider
    requires s.cells[1 - id].payment.providerId != Some(e.provider)
    ensures var s' := Apply(s, e);
            && s'.cells.Keys == {0, 1} && s'.created == [0, 1] && s'.grants == s.grants + [id] && s'.cells[1 - id] == s.cells[1 - id]
            && SuccessOf(s', id, 0) && s'.cells[id].payment.paidAt == Some(e.paidAt) && s'.cells[id].payment.providerId == Some(e.provider)
            && s'.referrals == AfterAffiliate(s, id, s'.cells)
  {
    hide Fulfil, AfterAffiliate;
    assert Free(s, id, e.provider);
    var change := Succeed(s.cells[id], e.provider, 499, "RUB", e.paidAt, true);
    FulfilEffect(s, id, change.cell, e.now);
  }

  /** The referrals after a success over the agreed amount. */
  function AfterAffiliate(s: State, id: PaymentId, cells: map<PaymentId, Cell>): map<UserId, Referral> {
    if 0 !in s.referrals || s.referrals[0].status != Registered then s.referrals
    else if SucceededOf(cells, 0, s.created) != 1 then s.referrals[0 := s.referrals[0].(status := ReferralCancelled)]
    else s.referrals[0 := Referral(RewardPending, Some(id), 499, 10, 499 * 10 / 100)]
  }

  /** The second payment is rewarded; the late first one does not change that, though it was paid earlier. */
  lemma RewardThenLate(s: State)
    requires s.cells.Keys == {0, 1} && s.created == [0, 1] && s.referrals == map[0 := Referral(Registered, None, 0, 0, 0)]
    requires Payable(s.cells[0].payment, Some(7), HOUR) && Payable(s.cells[1].payment, None, HOUR + HOUR)
    ensures var s1 := Apply(s, Rewarded);
            var s2 := Apply(s1, Late);
            && !Rewarding(s, 0) && Rewarding(s1, 0) && Rewarding(s2, 0) && s2.referrals == s1.referrals
            && s2.referrals[0].firstPayment == Some(1) && SuccessOf(s2, 0, 0) && SuccessOf(s2, 1, 0) && s2.created == [0, 1]
            && !Precedes(s2, 1, 0, 0)
  {
    hide Apply, Position;
    SucceedOnce(s, 1, Rewarded);
    var s1 := Apply(s, Rewarded);
    CountOne(s1.cells);
    SucceedOnce(s1, 0, Late);
  }

  lemma CountOne(cells: map<PaymentId, Cell>)
    requires 0 in cells && 1 in cells && cells[0].payment.status != Succeeded && cells[1].payment.status == Succeeded && cells[1].payment.user == 0
    ensures SucceededOf(cells, 0, [0, 1]) == 1
  {
    assert [0, 1][..1] == [0] && [0][..0] == [];
    assert SucceededOf(cells, 0, [0]) == SucceededOf(cells, 0, []) + 0;
  }

  const LateRun: seq<Event> :=
    [] + [Joined] + [CheckoutRequested(0, Order, true, 0)] + [OperationClaimed(0, 1, 0)] + [PaymentDispatched(0, 1, Answered)]
    + [Bound] + [DispatchCompleted(0, 1)] + [Second] + [Rewarded] + [Late]

  /** The reward of this run was given at its eighth event and is not for the user's first success at its end. */
  lemma LateSuccessesKeepTheReward()
    ensures |LateRun| == 9 && GivenAt(LateRun, 7, 0)
    ensures !EarnedReward(Run(Empty, LateRun), 0)
  {
    hide Apply, Run, FirstOnly, Payable, AwaitsAttempt, Precedes, EarnedReward;
    var es1 := [] + [Joined] + [CheckoutRequested(0, Order, true, 0)];
    RunThen(Empty, [], Joined);
    RunThen(Empty, [] + [Joined], CheckoutRequested(0, Order, true, 0));
    assert Run(Empty, []) == Empty by { NothingRuns(); }
    JoinAndOrder();
    var es2 := es1 + [OperationClaimed(0, 1, 0)] + [PaymentDispatched(0, 1, Answered)] + [Bound];
    RunThreeMore(es1, OperationClaimed(0, 1, 0), PaymentDispatched(0, 1, Answered), Bound);
    RunThen(Empty, es2, DispatchCompleted(0, 1));
    SendAndBind(Run(Empty, es1));
    var es3 := es2 + [DispatchCompleted(0, 1)];
    RunThreeMore(es3, Second, Rewarded, Late);
    OrderAgain(Run(Empty, es3));
    LateEnding(es3);
  }

  lemma NothingRuns()
    ensures Run(Empty, []) == Empty
  {
  }

  lemma LateEnding(es: seq<Event>)
    requires |es| == 6 && FirstOnly(Run(Empty, es)) && LateRun == es + [Second] + [Rewarded] + [Late]
    requires Payable(Run(Empty, es).cells[0].payment, Some(7), HOUR) && !Ambiguous(Run(Empty, es).cells[0].creation)
    requires Run(Empty, es).cells[0].lookup.None?
    ensures GivenAt(LateRun, 7, 0) && !EarnedReward(Run(Empty, LateRun), 0)
  {
    hide Apply, Run, Payable, Precedes;
    var s := Run(Empty, es);
    OrderAgain(s);
    RewardThenLate(Apply(s, Second));
    RunThen(Empty, es, Second);
    RunThen(Empty, es + [Second], Rewarded);
    RunThen(Empty, es + [Second] + [Rewarded], Late);
    assert LateRun[..7] == es + [Second] && LateRun[..8] == es + [Second] + [Rewarded] && LateRun[7] == Rewarded;
    assert LateRun[..9] == LateRun;
    var end := Run(Empty, LateRun);
    assert 0 in end.created;
  }
}
