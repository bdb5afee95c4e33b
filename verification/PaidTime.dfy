/** The subscription row: how a successful payment stacks its period onto the time already paid. */
module PaidTime {
  import opened Common
  import opened Calendar
  import opened Dispatch

  datatype SubscriptionStatus = SubscriptionActive | SubscriptionExpired | SubscriptionCancelled

  datatype Subscription = Subscription(
    plan: Plan,
    period: Option<Period>,
    status: SubscriptionStatus,
    startsAt: int,
    expiresAt: Option<int>,
    version: nat)

  predicate ActiveAt(s: Option<Subscription>, now: int) {
    s.Some? && s.value.status == SubscriptionActive && s.value.expiresAt.Some? && s.value.expiresAt.value > now
  }

  /** Where the new period starts: after the paid time of the same plan, or after the whole days left. */
  function StackingBase(s: Option<Subscription>, plan: Plan, now: int): int {
    if !ActiveAt(s, now) then now
    else if s.value.plan == plan then s.value.expiresAt.value
    else now + (s.value.expiresAt.value - now) / DAY * DAY
  }

  function AfterPayment(s: Option<Subscription>, plan: Plan, period: Period, now: int): (r: Subscription)
    ensures r.expiresAt.Some?
  {
    Subscription(plan, Some(period), SubscriptionActive,
                 if ActiveAt(s, now) then s.value.startsAt else now,
                 Some(AddPeriod(StackingBase(s, plan, now), period)),
                 if s.Some? then s.value.version + 1 else 1)
  }

  /** A payment's plan and period, and when its success was applied. */
  datatype Purchase = Purchase(plan: Plan, period: Period, now: int)

  function AfterPurchases(s: Subscription, ps: seq<Purchase>): Subscription {
    if ps == [] then s
    else
      var last := ps[|ps| - 1];
      AfterPayment(Some(AfterPurchases(s, ps[..|ps| - 1])), last.plan, last.period, last.now)
  }

  /** Every purchase is applied while the subscription is still active. */
  predicate Uninterrupted(s: Subscription, ps: seq<Purchase>) {
    ps == [] ||
    (Uninterrupted(s, ps[..|ps| - 1]) && ActiveAt(Some(AfterPurchases(s, ps[..|ps| - 1])), ps[|ps| - 1].now))
  }

  function PaidDays(ps: seq<Purchase>): int {
    if ps == [] then 0 else PaidDays(ps[..|ps| - 1]) + MinimumDays(ps[|ps| - 1].period)
  }

  function PlanChanges(s: Subscription, ps: seq<Purchase>): nat {
    if ps == [] then 0
    else PlanChanges(s, ps[..|ps| - 1]) +
         (if AfterPurchases(s, ps[..|ps| - 1]).plan == ps[|ps| - 1].plan then 0 else 1)
  }

  /** One purchase: the full period after the old expiry, less under a day if the plan changes. */
  lemma PurchaseExtends(s: Subscription, p: Purchase)
    requires ActiveAt(Some(s), p.now)
    ensures var r := AfterPayment(Some(s), p.plan, p.period, p.now);
            && (s.plan == p.plan ==> r.expiresAt.value == AddPeriod(s.expiresAt.value, p.period))
            && (s.plan != p.plan ==> r.expiresAt.value > s.expiresAt.value + MinimumDays(p.period) * DAY - DAY)
            && r.expiresAt.value > s.expiresAt.value && r.startsAt == s.startsAt
  {
    hide AddMonths;
    var left := s.expiresAt.value - p.now;
    assert left - DAY < left / DAY * DAY <= left;
  }

  /**
   * Paid time is conserved over any run of purchases: the expiry never moves back, and it gains at
   * least the days of every period, less one day for each change of plan.
   */
  lemma {:induction false} PaidTimeIsConserved(s: Subscription, ps: seq<Purchase>)
    requires s.expiresAt.Some? && Uninterrupted(s, ps)
    ensures var r := AfterPurchases(s, ps);
            && r.expiresAt.Some? && r.startsAt == s.startsAt && r.version == s.version + |ps|
            && r.expiresAt.value >= s.expiresAt.value + (PaidDays(ps) - PlanChanges(s, ps)) * DAY
            && (ps != [] ==> r.expiresAt.value > s.expiresAt.value)
  {
    hide AddMonths, AddPeriod;
    if ps != [] {
      var shorter, last := ps[..|ps| - 1], ps[|ps| - 1];
      PaidTimeIsConserved(s, shorter);
      PurchaseExtends(AfterPurchases(s, shorter), last);
    }
  }
}
