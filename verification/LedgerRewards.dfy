/**
 * Affiliate rewards over whole runs: a reward is given once, for the success that is the user's first
 * when it is given, and stays the first exactly until an earlier payment succeeds late.
 */
module LedgerRewards {
  import opened Common
  import opened Dispatch
  import opened Renewal
  import opened PaidTime
  import opened Ledger
  import opened LedgerSafety
  import opened LedgerRuns
  import opened LedgerTheorems

  /** The event gives the user's referral its reward. */
  predicate Awards(s: State, e: Event, user: UserId) {
    Rewarding(Apply(s, e), user) && !Rewarding(s, user)
  }

  // ---------------------------------------------------------------- the step that gives a reward

  /** A reward for the first success of the user, and its share. */
  predicate EarnedReward(s: State, user: UserId) {
    && Rewarding(s, user) && s.referrals[user].firstPayment.Some?
    && Earliest(s, user, s.referrals[user].firstPayment.value, s.created)
  }

  lemma RegistrationAwards(s: State, user: UserId, first: Option<PaymentId>, inTime: bool, program: Program, u: UserId)
    requires var s' := RegisterReferral(s, user, first, inTime, program); Rewarding(s', u) && !Rewarding(s, u)
    ensures EarnedReward(RegisterReferral(s, user, first, inTime, program), u)
  {
    hide Precedes, SucceededOf, Position;
    var s' := RegisterReferral(s, user, first, inTime, program);
    assert u == user && Earliest(s, user, first.value, s.created);
    EarliestIgnores(s, s', user, first.value);
  }

  /** Only cells and the order of creation decide which success is first. */
  lemma EarliestIgnores(s: State, s': State, user: UserId, id: PaymentId)
    requires s'.cells == s.cells && s'.created == s.created
    ensures Earliest(s', user, id, s'.created) == Earliest(s, user, id, s.created)
  {
    hide Position;
    forall other | SuccessOf(s, id, user) && SuccessOf(s, other, user) ensures Precedes(s', id, other, user) == Precedes(s, id, other, user) {
    }
  }

  lemma AffiliateAwards(s: State, id: PaymentId, user: UserId, amount: nat, program: Program, u: UserId)
    requires CreatedAgrees(s) && SuccessOf(s, id, user)
    requires Rewarding(ApplyAffiliate(s, id, user, amount, program), u) && !Rewarding(s, u)
    ensures EarnedReward(ApplyAffiliate(s, id, user, amount, program), u)
  {
    hide SucceededOf, Position;
    var s' := ApplyAffiliate(s, id, user, amount, program);
    assert u == user && SucceededOf(s.cells, user, s.created) == 1;
    forall other | other in s.created && SuccessOf(s, other, user) ensures other == id {
      OnlySuccess(s, user, id, other);
    }
    assert Earliest(s, user, id, s.created);
    EarliestIgnores(s, s', user, id);
  }

  lemma FulfilmentAwards(s: State, id: PaymentId, c: Cell, saved: Option<string>, program: Program, now: int, u: UserId)
    requires Inv(s) && id in s.cells && s.cells[id].payment.plan.Some? && s.cells[id].payment.period.Some?
    requires c.payment.user == s.cells[id].payment.user && c.payment.status == Succeeded && c.payment.paidAt.Some?
    requires Rewarding(Fulfil(s, id, c, saved, program, now), u) && !Rewarding(s, u)
    ensures EarnedReward(Fulfil(s, id, c, saved, program, now), u)
  {
    hide AfterPayment, AfterSuccess, ApplyAffiliate, EarnedReward, CellsSound, Unique, OutboxAgrees, GrantsAgree, RewardsAgree;
    var p := s.cells[id].payment;
    var s1 := Write(s, id, c);
    var sub := AfterPayment(Lookup(s.subscriptions, p.user), p.plan.value, p.period.value, now);
    var s2 := s1.(subscriptions := s1.subscriptions[p.user := sub], nextSequence := s1.nextSequence + 1, grants := s1.grants + [id]);
    var s3 := UpdateRenewal(s2, p.user, AfterSuccess(Lookup(s.renewals, p.user), p, saved, sub.expiresAt.value));
    assert CreatedAgrees(s3) && SuccessOf(s3, id, p.user) && !Rewarding(s3, u);
    AffiliateAwards(s3, id, p.user, p.amount, program, u);
  }

  /** A reward is given for the user's first success, by payment date and then by creation. */
  lemma AwardsAreEarned(s: State, e: Event, user: UserId)
    requires Good(s) && Awards(s, e, user)
    ensures EarnedReward(Apply(s, e), user)
  {
    hide Inv, RegisterReferral, Fulfil, EarnedReward, Prudent, CellsContinue, CellsSafe;
    if e.ReferralRegistered? {
      RegistrationAwards(s, e.user, e.first, e.inTime, e.program, user);
    } else if e.ProviderSucceeded? {
      var change := Succeed(s.cells[e.id], e.provider, e.amount, e.currency, e.paidAt, Free(s, e.id, e.provider));
      FulfilmentAwards(s, e.id, change.cell, e.saved, e.program, e.now, user);
    } else {
      hide Apply;
      StepIsGood(s, e);
    }
  }

  // ---------------------------------------------------------------- rewards over runs

  /** Each referral is rewarded at most once: a given reward is never taken back, changed or given again. */
  lemma RewardsAreGivenOnce(es: seq<Event>, i: nat, user: UserId)
    requires i <= |es| && Rewarding(Run(Empty, es[..i]), user)
    ensures Rewarding(Run(Empty, es), user)
    ensures Run(Empty, es).referrals[user] == Run(Empty, es[..i]).referrals[user]
    ensures forall j | i <= j < |es| :: !Awards(Run(Empty, es[..j]), es[j], user)
  {
    hide Inv, Run, Apply, CellsContinue, CellsSafe;
    EmptyIsGood();
    PrefixAdvances(Empty, es, i);
    forall j | i <= j < |es| ensures !Awards(Run(Empty, es[..j]), es[j], user) {
      PrefixAdvances(Empty, es[..j], i);
      assert es[..j][..i] == es[..i];
    }
  }

  lemma {:induction false} RewardHasStep(es: seq<Event>, user: UserId)
    requires Rewarding(Run(Empty, es), user)
    ensures exists i | 0 <= i < |es| :: Awards(Run(Empty, es[..i]), es[i], user)
  {
    hide Apply;
    if es != [] {
      var before := es[..|es| - 1];
      if Rewarding(Run(Empty, before), user) {
        RewardHasStep(before, user);
        var i :| 0 <= i < |before| && Awards(Run(Empty, before[..i]), before[i], user);
        assert before[..i] == es[..i] && before[i] == es[i];
      } else {
        assert Awards(Run(Empty, es[..|es| - 1]), es[|es| - 1], user);
      }
    }
  }

  lemma ShareIsFloored(amount: nat, percent: nat)
    ensures var share := amount * percent / 100;
            share * 100 <= amount * percent < (share + 1) * 100 && (percent <= 100 ==> share <= amount)
  {
    if percent <= 100 {
      assert amount * percent <= amount * 100;
    }
  }

  lemma RewardsAreShares(s: State, user: UserId)
    requires RewardsAgree(s) && Rewarding(s, user)
    ensures var r := s.referrals[user];
            && r.firstPayment.Some? && SuccessOf(s, r.firstPayment.value, user)
            && r.paymentAmount == s.cells[r.firstPayment.value].payment.amount
            && r.cashback * 100 <= r.paymentAmount * r.percent < (r.cashback + 1) * 100
            && (r.percent <= 100 ==> r.cashback <= r.paymentAmount)
  {
    var r := s.referrals[user];
    assert RewardAgrees(s, user, r);
    ShareIsFloored(r.paymentAmount, r.percent);
  }

  /** The step at which the reward was given, and the row it gave. */
  predicate GivenAt(es: seq<Event>, i: nat, user: UserId) {
    && i < |es| && Awards(Run(Empty, es[..i]), es[i], user)
    && Rewarding(Run(Empty, es), user) && Rewarding(Run(Empty, es[..i + 1]), user)
    && Run(Empty, es).referrals[user] == Run(Empty, es[..i + 1]).referrals[user]
  }

  lemma AwardStepGives(es: seq<Event>, i: nat, user: UserId)
    requires i < |es| && Awards(Run(Empty, es[..i]), es[i], user)
    ensures GivenAt(es, i, user) && EarnedReward(Run(Empty, es[..i + 1]), user)
  {
    hide Apply, EarnedReward, Inv;
    assert es[..i + 1][..i] == es[..i] && es[..i + 1][i] == es[i];
    EmptyIsGood();
    RunIsGood(Empty, es[..i]);
    AwardsAreEarned(Run(Empty, es[..i]), es[i], user);
    RewardsAreGivenOnce(es, i + 1, user);
  }

  /**
   * Every pending reward of every run was given at exactly one step, for the payment that was the
   * user's first success in the state after that step; it is the floored share of its amount.
   */
  lemma RewardsAreEarned(es: seq<Event>, user: UserId)
    requires Rewarding(Run(Empty, es), user)
    ensures exists i | 0 <= i < |es| ::
              && GivenAt(es, i, user) && EarnedReward(Run(Empty, es[..i + 1]), user)
              && forall j | 0 <= j < |es| && j != i :: !Awards(Run(Empty, es[..j]), es[j], user)
    ensures var s := Run(Empty, es); var r := s.referrals[user];
            && r.firstPayment.Some? && SuccessOf(s, r.firstPayment.value, user)
            && r.paymentAmount == s.cells[r.firstPayment.value].payment.amount
            && r.cashback * 100 <= r.paymentAmount * r.percent < (r.cashback + 1) * 100
            && (r.percent <= 100 ==> r.cashback <= r.paymentAmount)
  {
    hide Run, Apply, EarnedReward, CellsSound, CreatedAgrees, OutboxAgrees, GrantsAgree, Unique, RewardsAgree, Advances;
    EmptyIsGood();
    RunIsGood(Empty, es);
    RewardsAreShares(Run(Empty, es), user);
    RewardHasStep(es, user);
    var i :| 0 <= i < |es| && Awards(Run(Empty, es[..i]), es[i], user);
    AwardStepGives(es, i, user);
    forall j | 0 <= j < |es| && j != i ensures !Awards(Run(Empty, es[..j]), es[j], user) {
      if Awards(Run(Empty, es[..j]), es[j], user) {
        OneStepOnly(es, i, j, user);
      }
    }
  }

  lemma OneStepOnly(es: seq<Event>, i: nat, j: nat, user: UserId)
    requires i < |es| && j < |es| && Awards(Run(Empty, es[..i]), es[i], user) && Awards(Run(Empty, es[..j]), es[j], user)
    ensures i == j
  {
    hide Run, Apply, EarnedReward;
    AwardStepGives(es, i, user);
    AwardStepGives(es, j, user);
    if i < j {
      RewardsAreGivenOnce(es, i + 1, user);
    } else if j < i {
      RewardsAreGivenOnce(es, j + 1, user);
    }
  }

  // ---------------------------------------------------------------- when the reward stays with the first success

  lemma {:induction false} PositionIsStable(ids: seq<PaymentId>, more: seq<PaymentId>, id: PaymentId)
    requires ids <= more && id in ids
    ensures Position(more, id) == Position(ids, id)
  {
    if ids[0] != id {
      PositionIsStable(ids[1..], more[1..], id);
    }
  }

  lemma PrecedenceIsStable(s: State, s': State, id: PaymentId, other: PaymentId, user: UserId)
    requires CellsContinue(s.cells, s'.cells, true, true, true) && s.created <= s'.created && CreatedAgrees(s)
    requires SuccessOf(s, id, user) && SuccessOf(s, other, user)
    ensures SuccessOf(s', id, user) && SuccessOf(s', other, user) && Precedes(s', id, other, user) == Precedes(s, id, other, user)
  {
    PositionIsStable(s.created, s'.created, id);
    PositionIsStable(s.created, s'.created, other);
  }

  /** None of these payments is a success of the user that comes before the rewarded one. */
  predicate NoneEarlier(s: State, user: UserId, id: PaymentId, later: seq<PaymentId>)
    requires SuccessOf(s, id, user)
  {
    forall g | g in later && SuccessOf(s, g, user) :: Precedes(s, id, g, user)
  }

  lemma FirstStaysFirst(s: State, s': State, user: UserId, id: PaymentId)
    requires Inv(s) && Inv(s') && CellsContinue(s.cells, s'.cells, true, true, true) && Remembers(s, s', true)
    requires Earliest(s, user, id, s.created)
    ensures SuccessOf(s', id, user) && (Earliest(s', user, id, s'.created) <==> NoneEarlier(s', user, id, s'.grants[|s.grants|..]))
  {
    hide CellsSound, Unique, OutboxAgrees, RewardsAgree, Precedes, Continues;
    SuccessStays(s, s', user, id);
    if Earliest(s', user, id, s'.created) {
      forall g | g in s'.grants[|s.grants|..] && SuccessOf(s', g, user) ensures Precedes(s', id, g, user) {
        assert g in s'.created;
      }
    }
    if NoneEarlier(s', user, id, s'.grants[|s.grants|..]) {
      forall other | other in s'.created && SuccessOf(s', other, user) ensures Precedes(s', id, other, user) {
        assert other in s'.grants;
        if other in s.grants {
          EarlierSuccess(s, s', user, other);
          PrecedenceIsStable(s, s', id, other, user);
        } else {
          assert other in s'.grants[|s.grants|..];
        }
      }
      assert id in s'.created;
    }
  }

  lemma SuccessStays(s: State, s': State, user: UserId, id: PaymentId)
    requires CellsContinue(s.cells, s'.cells, true, true, true) && SuccessOf(s, id, user)
    ensures SuccessOf(s', id, user)
  {
  }

  lemma EarlierSuccess(s: State, s': State, user: UserId, id: PaymentId)
    requires CellsSound(s.cells) && GrantsAgree(s) && CellsContinue(s.cells, s'.cells, true, true, true) && id in s.grants && SuccessOf(s', id, user)
    ensures SuccessOf(s, id, user)
  {
    assert Sound(s.cells[id]);
  }

  /**
   * At the end of a run the rewarded payment is the user's first success if and only if no success
   * granted after the reward was paid earlier, or at the same time for an older payment.
   */
  lemma RewardIsFirstExactlyWhen(es: seq<Event>, i: nat, user: UserId)
    requires i < |es| && Awards(Run(Empty, es[..i]), es[i], user)
    ensures GivenAt(es, i, user)
    ensures var (given, s) := (Run(Empty, es[..i + 1]), Run(Empty, es));
            var r := s.referrals[user];
            && given.grants <= s.grants && r.firstPayment.Some? && SuccessOf(s, r.firstPayment.value, user)
            && (EarnedReward(s, user) <==> NoneEarlier(s, user, r.firstPayment.value, s.grants[|given.grants|..]))
  {
    hide Run, Apply, Inv, Earliest, NoneEarlier, Awards;
    AwardStepGives(es, i, user);
    EmptyIsGood();
    PrefixAdvances(Empty, es, i + 1);
    var given, s := Run(Empty, es[..i + 1]), Run(Empty, es);
    FirstStaysFirst(given, s, user, given.referrals[user].firstPayment.value);
  }
}
