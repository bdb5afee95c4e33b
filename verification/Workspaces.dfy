/**
 * The WinCRM subscription of a workspace: its rows, and the three views of them that clients see -
 * the entitlement answer, the administrator's detail and the administrator's list page.
 */
module Workspaces {
  import opened Common

  type WorkspaceId = nat
  type PeriodId = nat

  datatype AccessStatus = Running | Grace | ReadOnly | Ended | Suspended | Withdrawn

  datatype Entitlement = Entitlement(
    plan: string, status: AccessStatus, seats: nat, from: int, until: int, graceUntil: Option<int>,
    activatedBy: string, version: nat, sequence: nat)

  datatype PaidPeriod = PaidPeriod(
    id: PeriodId, workspace: WorkspaceId, startsAt: int, expiresAt: int, graceUntil: int, graceDays: nat, seats: nat,
    version: nat, notified: bool)

  datatype Account = Account(owner: string, version: nat, capacityPending: bool)

  datatype CrmRenewal = CrmRenewal(nextChargeAt: int, nextRetryAt: Option<int>, retryAttempt: nat, dispatchPending: bool, version: nat)

  /** `orders` and `commands` name the workspaces of the pending orders and commands, one entry each. */
  datatype Tables = Tables(
    entitlements: map<WorkspaceId, Entitlement>,
    periods: seq<PaidPeriod>,
    accounts: map<WorkspaceId, Account>,
    renewals: map<WorkspaceId, CrmRenewal>,
    orders: seq<WorkspaceId>,
    commands: seq<WorkspaceId>)

  /** A period starts later than another one, or at the same time under a greater identifier. */
  predicate LaterThan(p: PaidPeriod, q: PaidPeriod) {
    p.startsAt > q.startsAt || (p.startsAt == q.startsAt && p.id > q.id)
  }

  predicate Eligible(p: PaidPeriod, w: WorkspaceId, bound: Option<int>) {
    p.workspace == w && (bound.Some? ==> p.startsAt <= bound.value)
  }

  /** The first row of the query by descending start and identifier. */
  function Latest(ps: seq<PaidPeriod>, w: WorkspaceId, bound: Option<int>): (r: Option<PaidPeriod>)
    ensures r.Some? ==> r.value in ps && Eligible(r.value, w, bound)
    ensures r.Some? ==> forall p | p in ps && Eligible(p, w, bound) :: !LaterThan(p, r.value)
    ensures r.None? ==> forall p | p in ps :: !Eligible(p, w, bound)
  {
    if ps == [] then None
    else
      var (best, p) := (Latest(ps[..|ps| - 1], w, bound), ps[|ps| - 1]);
      if Eligible(p, w, bound) && (best.None? || LaterThan(p, best.value)) then Some(p) else best
  }

  function Count(ids: seq<WorkspaceId>, w: WorkspaceId): nat {
    if ids == [] then 0 else Count(ids[..|ids| - 1], w) + (if ids[|ids| - 1] == w then 1 else 0)
  }

  // ---------------------------------------------------------------- the entitlement answer

  /** What the entitlement endpoint reports. */
  datatype Access = Access(status: AccessStatus, plan: string, seats: nat, from: int, until: int, graceUntil: Option<int>)

  function Response(e: Entitlement, now: int): Access {
    var status := if e.status == Running && e.until <= now
                  then (if e.graceUntil.Some? then (if now < e.graceUntil.value then Grace else ReadOnly) else Ended)
                  else e.status;
    Access(status, e.plan, e.seats, e.from, e.until, e.graceUntil)
  }

  function GetAccess(t: Tables, w: WorkspaceId, now: int): Option<Access> {
    if w !in t.entitlements then None
    else
      var e := t.entitlements[w];
      if e.status in {Suspended, Withdrawn} then Some(Response(e, now))
      else
        match Latest(t.periods, w, Some(now))
        case None => Some(Response(e, now))
        case Some(p) => Some(Response(e.(plan := "PAID", status := Running, seats := p.seats, from := p.startsAt,
                                         until := p.expiresAt, graceUntil := Some(p.graceUntil)), now))
  }

  // ---------------------------------------------------------------- the administrator's views

  datatype Blocked = NotBlocked | AccessSuspended | OperationPending | VersionLimit | CapacityPending

  datatype Subscription = Subscription(
    workspace: WorkspaceId, owner: string, entitlementVersion: nat, billingVersion: nat, access: Access,
    period: Option<PaidPeriod>, renewal: Option<int>, blocked: Blocked)

  /** The projection shared by the detail and the list page. */
  function Project(w: WorkspaceId, now: int, e: Entitlement, account: Option<Account>, period: Option<PaidPeriod>,
                   current: Option<PaidPeriod>, renewal: Option<CrmRenewal>, orders: nat, commands: nat): Subscription {
    var active := if e.status in {Suspended, Withdrawn} then None else current;
    var until := if active.Some? then active.value.expiresAt else e.until;
    var graceUntil := if active.Some? then Some(active.value.graceUntil) else e.graceUntil;
    var base := if active.Some? then Running else e.status;
    var status := if base != Running then base
                  else if until > now then Running
                  else if graceUntil.Some? then (if graceUntil.value > now then Grace else ReadOnly)
                  else Ended;
    var blocked := if e.status in {Suspended, Withdrawn} then AccessSuspended
                   else if orders > 0 || commands > 0 || (renewal.Some? && renewal.value.dispatchPending) then OperationPending
                   else if renewal.Some? && renewal.value.version >= 2147483646 then VersionLimit
                   else if account.Some? && account.value.capacityPending then CapacityPending
                   else NotBlocked;
    Subscription(w, if account.Some? then account.value.owner else e.activatedBy, e.version,
                 if account.Some? then account.value.version else 0,
                 Access(status, if active.Some? then "PAID" else e.plan, if active.Some? then active.value.seats else e.seats,
                        if active.Some? then active.value.startsAt else e.from, until, graceUntil),
                 period, if renewal.Some? then Some(renewal.value.nextChargeAt) else None, blocked)
  }

  function Read(t: Tables, w: WorkspaceId, now: int): Option<Subscription> {
    if w !in t.entitlements then None
    else Some(Project(w, now, t.entitlements[w], Lookup(t.accounts, w), Latest(t.periods, w, None), Latest(t.periods, w, Some(now)),
                      Lookup(t.renewals, w), Count(t.orders, w), Count(t.commands, w)))
  }

  /** The entitlement endpoint and the administrator's detail agree on status, plan, seats and window. */
  lemma EndpointsAgree(t: Tables, w: WorkspaceId, now: int)
    ensures GetAccess(t, w, now).Some? == Read(t, w, now).Some?
    ensures Read(t, w, now).Some? ==> GetAccess(t, w, now) == Some(Read(t, w, now).value.access)
  {
  }

  /** The paid period that counts: the latest that has started, unless access is suspended or withdrawn. */
  function Counting(t: Tables, w: WorkspaceId, now: int): Option<PaidPeriod>
    requires w in t.entitlements
  {
    if t.entitlements[w].status == Suspended || t.entitlements[w].status == Withdrawn then None else Latest(t.periods, w, Some(now))
  }

  /** What the views show: the paid period if one counts, else the entitlement; running to its end, then in grace, then read only or ended. */
  lemma AccessIsShown(t: Tables, w: WorkspaceId, now: int)
    requires w in t.entitlements
    ensures var (e, paid, a) := (t.entitlements[w], Counting(t, w, now), Read(t, w, now).value.access);
            && (paid.Some? ==>
                  && a.plan == "PAID" && a.seats == paid.value.seats && a.from == paid.value.startsAt && a.until == paid.value.expiresAt
                  && a.graceUntil == Some(paid.value.graceUntil)
                  && a.status == (if now < paid.value.expiresAt then Running else if now < paid.value.graceUntil then Grace else ReadOnly))
            && (paid.None? ==>
                  && a.plan == e.plan && a.seats == e.seats && a.from == e.from && a.until == e.until && a.graceUntil == e.graceUntil
                  && (e.status != Running ==> a.status == e.status)
                  && (e.status == Running ==>
                        && (a.status == Running <==> now < e.until) && (a.status == Ended <==> e.until <= now && e.graceUntil.None?)
                        && (a.status == Grace <==> e.until <= now && e.graceUntil.Some? && now < e.graceUntil.value)
                        && (a.status == ReadOnly <==> e.until <= now && e.graceUntil.Some? && e.graceUntil.value <= now)))
  {
  }

  lemma {:induction false} PendingIsCounted(ids: seq<WorkspaceId>, w: WorkspaceId)
    ensures Count(ids, w) > 0 <==> w in ids
  {
    if ids != [] {
      PendingIsCounted(ids[..|ids| - 1], w);
    }
  }

  /** An extension is blocked exactly by withheld access, by anything under way, by a full version, or by pending capacity, in this order. */
  lemma ExtensionsAreBlockedExactly(t: Tables, w: WorkspaceId, now: int)
    requires w in t.entitlements
    ensures var (e, b) := (t.entitlements[w], Read(t, w, now).value.blocked);
            var withheld := e.status == Suspended || e.status == Withdrawn;
            var underWay := w in t.orders || w in t.commands || (w in t.renewals && t.renewals[w].dispatchPending);
            var full := w in t.renewals && t.renewals[w].version >= 2147483646;
            var capacity := w in t.accounts && t.accounts[w].capacityPending;
            && (b == AccessSuspended <==> withheld) && (b == OperationPending <==> !withheld && underWay)
            && (b == VersionLimit <==> !withheld && !underWay && full) && (b == CapacityPending <==> !withheld && !underWay && !full && capacity)
            && (b == NotBlocked <==> !withheld && !underWay && !full && !capacity)
  {
    PendingIsCounted(t.orders, w);
    PendingIsCounted(t.commands, w);
  }

  /** Whose subscription it is and where its versions stand. */
  lemma DetailsAreShown(t: Tables, w: WorkspaceId, now: int)
    requires w in t.entitlements
    ensures var d := Read(t, w, now).value;
            && d.workspace == w && d.entitlementVersion == t.entitlements[w].version && d.period == Latest(t.periods, w, None)
            && d.owner == (if w in t.accounts then t.accounts[w].owner else t.entitlements[w].activatedBy)
            && d.billingVersion == (if w in t.accounts then t.accounts[w].version else 0)
            && d.renewal == (if w in t.renewals then Some(t.renewals[w].nextChargeAt) else None)
  {
  }

  // ---------------------------------------------------------------- the list page

  /** The identifiers of a workspace's latest and current period, as the page query returns them. */
  datatype Reference = Reference(latest: Option<PeriodId>, current: Option<PeriodId>)

  function IdOf(p: Option<PaidPeriod>): Option<PeriodId> {
    if p.Some? then Some(p.value.id) else None
  }

  function ReferencesFor(t: Tables, ids: seq<WorkspaceId>, now: int): map<WorkspaceId, Reference> {
    map w | w in t.entitlements && w in ids ::
      Reference(IdOf(Latest(t.periods, w, None)), IdOf(Latest(t.periods, w, Some(now))))
  }

  function PeriodIds(references: map<WorkspaceId, Reference>): set<PeriodId> {
    (set w | w in references && references[w].latest.Some? :: references[w].latest.value) +
    (set w | w in references && references[w].current.Some? :: references[w].current.value)
  }

  /** The map by identifier of the periods that the second query fetches. */
  function PeriodsById(ps: seq<PaidPeriod>, ids: seq<WorkspaceId>, wanted: set<PeriodId>): (m: map<PeriodId, PaidPeriod>)
    ensures forall id | id in m :: m[id] in ps && m[id].id == id && id in wanted && m[id].workspace in ids
    ensures forall p | p in ps && p.id in wanted && p.workspace in ids :: p.id in m
  {
    if ps == [] then map[]
    else
      var (m, p) := (PeriodsById(ps[..|ps| - 1], ids, wanted), ps[|ps| - 1]);
      if p.id in wanted && p.workspace in ids then m[p.id := p] else m
  }

  /** The counts of a grouped query, which has no group without rows. */
  function Groups(rows: seq<WorkspaceId>, ids: seq<WorkspaceId>): map<WorkspaceId, nat> {
    map w | w in rows && w in ids :: Count(rows, w)
  }

  function CountIn(groups: map<WorkspaceId, nat>, w: WorkspaceId): nat {
    if w in groups then groups[w] else 0
  }

  function Resolve(periods: map<PeriodId, PaidPeriod>, id: Option<PeriodId>, w: WorkspaceId): Option<Option<PaidPeriod>> {
    if id.None? then Some(None)
    else if id.value in periods && periods[id.value].workspace == w then Some(Some(periods[id.value]))
    else None
  }

  /** One item of the page, put together from the maps; None where the service reports a broken snapshot. */
  function PageItem(t: Tables, ids: seq<WorkspaceId>, now: int, w: WorkspaceId): Option<Subscription>
    requires w in ids
  {
    var references := ReferencesFor(t, ids, now);
    var periods := PeriodsById(t.periods, ids, PeriodIds(references));
    if w !in t.entitlements || w !in references then None
    else
      var latest := Resolve(periods, references[w].latest, w);
      var current := Resolve(periods, references[w].current, w);
      if latest.None? || current.None? then None
      else Some(Project(w, now, t.entitlements[w], Lookup(t.accounts, w), latest.value, current.value, Lookup(t.renewals, w),
                        CountIn(Groups(t.orders, ids), w), CountIn(Groups(t.commands, ids), w)))
  }

  predicate DistinctPeriods(ps: seq<PaidPeriod>) {
    forall p, q | p in ps && q in ps && p.id == q.id :: p == q
  }

  lemma {:induction false} AbsentIsNotCounted(ids: seq<WorkspaceId>, w: WorkspaceId)
    requires w !in ids
    ensures Count(ids, w) == 0
  {
    if ids != [] {
      AbsentIsNotCounted(ids[..|ids| - 1], w);
    }
  }

  lemma Resolves(t: Tables, ids: seq<WorkspaceId>, now: int, w: WorkspaceId, p: Option<PaidPeriod>)
    requires DistinctPeriods(t.periods) && w in ids && w in t.entitlements
    requires p == Latest(t.periods, w, None) || p == Latest(t.periods, w, Some(now))
    ensures var references := ReferencesFor(t, ids, now);
            Resolve(PeriodsById(t.periods, ids, PeriodIds(references)), IdOf(p), w) == Some(p)
  {
    if p.Some? {
      var references := ReferencesFor(t, ids, now);
      assert w in references;
      assert p.value.id in PeriodIds(references);
    }
  }

  /** The page that the maps assemble is the detail view of each workspace on it, in the same order. */
  lemma PageIsDetails(t: Tables, ids: seq<WorkspaceId>, now: int, i: nat)
    requires DistinctPeriods(t.periods) && i < |ids|
    ensures PageItem(t, ids, now, ids[i]) == Read(t, ids[i], now)
  {
    hide Project, Latest;
    var w := ids[i];
    if w in t.entitlements {
      Resolves(t, ids, now, w, Latest(t.periods, w, None));
      Resolves(t, ids, now, w, Latest(t.periods, w, Some(now)));
      if w !in t.orders { AbsentIsNotCounted(t.orders, w); }
      if w !in t.commands { AbsentIsNotCounted(t.commands, w); }
    }
  }
}
