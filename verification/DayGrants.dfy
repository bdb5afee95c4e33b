/**
 * Days that an administrator adds to a WinCRM subscription: commands with write-once receipts, the
 * race between adding and cancelling, and the versions of the entitlement that follow.
 */
module DayGrants {
  import opened Common
  import opened Workspaces

  type CommandId = nat

  datatype CommandKind = ExtendDays | CancelExtend | OtherCommand

  datatype Receipt = Receipt(kind: CommandKind, hash: nat, hashVersion: nat, workspace: WorkspaceId, command: CommandId, actor: string)

  datatype Grant = Grant(command: CommandId, workspace: WorkspaceId, days: nat, oldExpiresAt: int, newExpiresAt: int)

  /** The part of an entitlement event that orders it. */
  datatype EntitlementEvent = EntitlementEvent(workspace: WorkspaceId, version: nat, sequence: nat)

  datatype State = State(
    tables: Tables, receipts: map<CommandId, Receipt>, grants: seq<Grant>, outbox: seq<EntitlementEvent>, nextSequence: nat)

  datatype Command = Command(
    id: CommandId, workspace: WorkspaceId, actor: string, expectedActor: string, days: nat, hash: nat,
    entitlementVersion: nat, billingVersion: nat, periodId: Option<PeriodId>, periodVersion: Option<nat>)

  datatype Refusal =
    | ActorChanged | Malformed | CommandConflict | AlreadyCancelled | NotProvisioned | VersionConflict | BlockedBy(reason: Blocked)
    | VersionsExhausted | DateOutOfRange | GraceInvalid

  datatype Outcome = Refused(why: Refusal) | Committed | Cancelled

  /** The last instant of year 9999, and the range of a Date. */
  predicate InRange(t: int) {
    -8640000000000000 <= t < 253402300800000
  }

  function Max(a: int, b: int): int { if a >= b then a else b }

  function ReplacePeriod(ps: seq<PaidPeriod>, p: PaidPeriod): seq<PaidPeriod> {
    seq(|ps|, i requires 0 <= i < |ps| => if ps[i].id == p.id then p else ps[i])
  }

  // ---------------------------------------------------------------- the entitlement event

  function NextVersion(base: nat, account: Option<Account>): (v: nat)
    ensures v > base
  {
    if account.Some? && account.value.version > base then account.value.version else base + 1
  }

  /** A changed entitlement takes a fresh sequence number and a greater version, and tells both. */
  function Enqueue(s: State, w: WorkspaceId, now: int): State {
    var t := s.tables;
    if w !in t.entitlements then s
    else
      var version := NextVersion(t.entitlements[w].version, Lookup(t.accounts, w));
      var current := Latest(t.periods, w, Some(now));
      var periods := if current.Some? && !current.value.notified
                     then ReplacePeriod(t.periods, current.value.(notified := true)) else t.periods;
      s.(tables := t.(entitlements := t.entitlements[w := t.entitlements[w].(version := version, sequence := s.nextSequence)], periods := periods),
         outbox := s.outbox + [EntitlementEvent(w, version, s.nextSequence)],
         nextSequence := s.nextSequence + 1)
  }

  // ---------------------------------------------------------------- the two commands

  /** What an existing receipt says to a retried command, or that there is none. */
  function AnswerExtend(s: State, c: Command): Option<Outcome> {
    if c.id !in s.receipts then None
    else
      var r := s.receipts[c.id];
      if r.kind == CancelExtend
      then Some(Refused(if r.workspace == c.workspace && r.actor == c.actor then AlreadyCancelled else CommandConflict))
      else if r.kind != ExtendDays || r.hashVersion != 1 || r.hash != c.hash then Some(Refused(CommandConflict))
      else Some(Committed)
  }

  function AnswerCancel(s: State, c: Command): Option<Outcome> {
    if c.id !in s.receipts then None
    else
      var r := s.receipts[c.id];
      if r.workspace != c.workspace || r.command != c.id || r.kind == OtherCommand || r.actor != c.actor then Some(Refused(CommandConflict))
      else if r.kind == ExtendDays then Some(Committed)
      else if r.hashVersion != 1 || r.hash != c.hash then Some(Refused(CommandConflict))
      else Some(Cancelled)
  }

  /** Why the subscription as it is cannot be extended by this command. */
  function Objection(b: Subscription, c: Command): Option<Refusal> {
    if b.entitlementVersion != c.entitlementVersion || b.billingVersion != c.billingVersion || IdOf(b.period) != c.periodId
       || (if b.period.Some? then Some(b.period.value.version) else None) != c.periodVersion
    then Some(VersionConflict)
    else if b.blocked != NotBlocked then Some(BlockedBy(b.blocked))
    else if b.entitlementVersion >= 9223372036854775806 || b.billingVersion >= 9223372036854775806
            || (b.period.Some? && b.period.value.version >= 2147483646)
    then Some(VersionsExhausted)
    else None
  }

  /** The paid period, or else the entitlement, with its new end and the grace after it. */
  function Moved(t: Tables, w: WorkspaceId, period: Option<PaidPeriod>, expiresAt: int, grace: Option<int>): Tables
    requires w in t.entitlements && (period.Some? ==> grace.Some?)
  {
    var e := t.entitlements[w];
    match period
    case Some(p) =>
      t.(periods := ReplacePeriod(t.periods, p.(expiresAt := expiresAt, graceUntil := expiresAt + grace.value, version := p.version + 1)),
         entitlements := t.entitlements[w := e.(status := Running)])
    case None =>
      t.(entitlements := t.entitlements[w := e.(status := Running, until := expiresAt,
                                                graceUntil := if grace.Some? then Some(expiresAt + grace.value) else None)])
  }

  /** The commerce account and the renewal follow the new end. */
  function Followed(t: Tables, w: WorkspaceId, expiresAt: int): Tables {
    var t1 := if w in t.accounts && t.accounts[w].version != 0
              then t.(accounts := t.accounts[w := t.accounts[w].(version := t.accounts[w].version + 1)]) else t;
    if w in t.renewals
    then t1.(renewals := t.renewals[w := t.renewals[w].(nextChargeAt := expiresAt, nextRetryAt := None, retryAttempt := 0,
                                                        version := t.renewals[w].version + 1)]) else t1
  }

  /** The new rows of the extended subscription, or why it cannot be extended. */
  function Extended(t: Tables, c: Command, now: int): Result<(Tables, Grant), Refusal> {
    var before := Read(t, c.workspace, now);
    if before.None? then Err(NotProvisioned)
    else
      var b, e := before.value, t.entitlements[c.workspace];
      var objection := Objection(b, c);
      if objection.Some? then Err(objection.value)
      else
        var previous := if b.period.Some? then b.period.value.expiresAt else b.access.until;
        var expiresAt := Max(now, previous) + c.days * DAY;
        var grace := if b.period.Some? then Some(b.period.value.graceDays * DAY)
                     else if e.graceUntil.Some? then Some(e.graceUntil.value - e.until) else None;
        if !InRange(expiresAt) then Err(DateOutOfRange)
        else if b.period.None? && grace.Some? && grace.value <= 0 then Err(GraceInvalid)
        else if grace.Some? && !InRange(expiresAt + grace.value) then Err(DateOutOfRange)
        else Ok((Followed(Moved(t, c.workspace, b.period, expiresAt, grace), c.workspace, expiresAt),
                 Grant(c.id, c.workspace, c.days, previous, expiresAt)))
  }

  function Extend(s: State, c: Command, now: int): (Outcome, State) {
    if c.expectedActor != c.actor then (Refused(ActorChanged), s)
    else if c.periodId.None? != c.periodVersion.None? then (Refused(Malformed), s)
    else
      var prior := AnswerExtend(s, c);
      if prior.Some? then (prior.value, s)
      else
        match Extended(s.tables, c, now)
        case Err(why) => (Refused(why), s)
        case Ok((tables, grant)) =>
          var s1 := Enqueue(s.(tables := tables), c.workspace, now);
          (Committed, s1.(grants := s.grants + [grant],
                          receipts := s.receipts[c.id := Receipt(ExtendDays, c.hash, 1, c.workspace, c.id, c.actor)]))
  }

  function Cancel(s: State, c: Command): (Outcome, State) {
    if c.expectedActor != c.actor then (Refused(ActorChanged), s)
    else
      var prior := AnswerCancel(s, c);
      if prior.Some? then (prior.value, s)
      else if c.workspace !in s.tables.entitlements then (Refused(NotProvisioned), s)
      else (Cancelled, s.(receipts := s.receipts[c.id := Receipt(CancelExtend, c.hash, 1, c.workspace, c.id, c.actor)]))
  }

  /** Other commands write receipts too, and other transactions change accounts and announce entitlements. */
  datatype Event =
    | ExtendRequested(command: Command, now: int)
    | CancelRequested(command: Command)
    | OtherRequested(id: CommandId, hash: nat, workspace: WorkspaceId, actor: string)
    | AccountChanged(workspace: WorkspaceId)
    | EntitlementAnnounced(workspace: WorkspaceId, now: int)

  function Apply(s: State, e: Event): State {
    match e
    case ExtendRequested(c, now) => Extend(s, c, now).1
    case CancelRequested(c) => Cancel(s, c).1
    case OtherRequested(id, hash, w, actor) =>
      if id in s.receipts then s else s.(receipts := s.receipts[id := Receipt(OtherCommand, hash, 1, w, id, actor)])
    case AccountChanged(w) =>
      if w in s.tables.accounts
      then s.(tables := s.tables.(accounts := s.tables.accounts[w := s.tables.accounts[w].(version := s.tables.accounts[w].version + 1)])) else s
    case EntitlementAnnounced(w, now) => Enqueue(s, w, now)
  }

  function Run(s: State, es: seq<Event>): State {
    if es == [] then s else Apply(Run(s, es[..|es| - 1]), es[|es| - 1])
  }

  // ---------------------------------------------------------------- what every run keeps

  /** A receipt never changes once written. */
  predicate ReceiptsGrow(s: State, s': State) {
    forall id | id in s.receipts :: id in s'.receipts && s'.receipts[id] == s.receipts[id]
  }

  predicate GrantedTo(grants: seq<Grant>, id: CommandId) {
    exists i | 0 <= i < |grants| :: grants[i].command == id
  }

  /** One grant for each committed command, and none for any other. */
  predicate GrantsMatch(s: State) {
    && (forall i, j | 0 <= i < j < |s.grants| :: s.grants[i].command != s.grants[j].command)
    && (forall i | 0 <= i < |s.grants| :: s.grants[i].command in s.receipts && s.receipts[s.grants[i].command].kind == ExtendDays)
    && (forall id | id in s.receipts && s.receipts[id].kind == ExtendDays :: GrantedTo(s.grants, id))
  }

  /** Events carry ever greater sequence numbers, and ever greater versions of their workspace. */
  predicate Ordered(s: State) {
    && (forall i | 0 <= i < |s.outbox| ::
          s.outbox[i].sequence < s.nextSequence && s.outbox[i].workspace in s.tables.entitlements
          && s.outbox[i].version <= s.tables.entitlements[s.outbox[i].workspace].version)
    && (forall i, j | 0 <= i < j < |s.outbox| ::
          s.outbox[i].sequence < s.outbox[j].sequence &&
          (s.outbox[i].workspace == s.outbox[j].workspace ==> s.outbox[i].version < s.outbox[j].version))
  }

  /** The paid grace lasts the period's days. */
  predicate GraceMatches(t: Tables) {
    forall p | p in t.periods :: p.graceUntil == p.expiresAt + p.graceDays * DAY
  }

  predicate Inv(s: State) {
    GrantsMatch(s) && Ordered(s) && DistinctPeriods(s.tables.periods) && GraceMatches(s.tables)
  }

  lemma ReplacedPeriods(ps: seq<PaidPeriod>, p: PaidPeriod)
    ensures forall q | q in ReplacePeriod(ps, p) :: q in ps || q == p
    ensures DistinctPeriods(ps) ==> DistinctPeriods(ReplacePeriod(ps, p))
  {
    forall q | q in ReplacePeriod(ps, p) ensures (q in ps && q.id != p.id) || q == p {
      var i :| 0 <= i < |ps| && ReplacePeriod(ps, p)[i] == q;
    }
  }

  predicate SamePlace(p: PaidPeriod, q: PaidPeriod) {
    p.id == q.id && p.workspace == q.workspace && p.startsAt == q.startsAt
  }

  /** Changing a period in place changes no choice of a latest period. */
  lemma {:induction false} LatestOfReplaced(ps: seq<PaidPeriod>, p: PaidPeriod, w: WorkspaceId, bound: Option<int>)
    requires forall q | q in ps && q.id == p.id :: SamePlace(p, q)
    ensures var r := Latest(ps, w, bound);
            Latest(ReplacePeriod(ps, p), w, bound) == if r.Some? && r.value.id == p.id then Some(p) else r
  {
    if ps != [] {
      var before := ps[..|ps| - 1];
      LatestOfReplaced(before, p, w, bound);
      assert ReplacePeriod(ps, p)[..|ps| - 1] == ReplacePeriod(before, p);
      assert ps[|ps| - 1] in ps;
    }
  }

  /** When the subscription runs out: its latest paid period, or else the entitlement itself. */
  function Expiry(t: Tables, w: WorkspaceId): Option<int> {
    if w !in t.entitlements then None
    else match Latest(t.periods, w, None) { case Some(p) => Some(p.expiresAt) case None => Some(t.entitlements[w].until) }
  }

  /** How long access lasts after that. */
  function GraceLength(t: Tables, w: WorkspaceId): Option<int> {
    if w !in t.entitlements then None
    else
      match Latest(t.periods, w, None)
      case Some(p) => Some(p.graceUntil - p.expiresAt)
      case None =>
        var e := t.entitlements[w];
        if e.graceUntil.Some? then Some(e.graceUntil.value - e.until) else None
  }

  /** The rows agree on every workspace's end and grace. */
  ghost predicate SameTerms(t: Tables, t': Tables) {
    forall w :: Expiry(t', w) == Expiry(t, w) && GraceLength(t', w) == GraceLength(t, w)
  }

  /** The rows agree on every entitlement's version. */
  predicate SameVersions(t: Tables, t': Tables) {
    && t'.entitlements.Keys == t.entitlements.Keys
    && forall w | w in t.entitlements :: t'.entitlements[w].version == t.entitlements[w].version
  }

  /** An added grant moves one workspace's end by its days, and no grace. */
  ghost predicate Adds(t: Tables, t': Tables, g: Grant) {
    && Expiry(t, g.workspace) == Some(g.oldExpiresAt) && Expiry(t', g.workspace) == Some(g.newExpiresAt)
    && g.newExpiresAt >= g.oldExpiresAt + g.days * DAY
    && (forall w | w != g.workspace :: Expiry(t', w) == Expiry(t, w))
    && (forall w :: GraceLength(t', w) == GraceLength(t, w))
  }

  lemma PeriodChange(t: Tables, t': Tables, p: PaidPeriod, q: PaidPeriod)
    requires DistinctPeriods(t.periods) && p in t.periods && SamePlace(q, p) && t'.periods == ReplacePeriod(t.periods, q)
    ensures DistinctPeriods(t'.periods)
    ensures forall w, bound :: Latest(t'.periods, w, bound) ==
              var r := Latest(t.periods, w, bound); if r == Some(p) then Some(q) else r
  {
    hide Latest;
    ReplacedPeriods(t.periods, q);
    forall w, bound ensures Latest(t'.periods, w, bound) == var r := Latest(t.periods, w, bound); if r == Some(p) then Some(q) else r {
      LatestOfReplaced(t.periods, q, w, bound);
    }
  }

  /** Moving the end of a paid period moves nothing else. */
  lemma MovingPeriodAdds(t: Tables, w: WorkspaceId, p: PaidPeriod, expiresAt: int)
    requires DistinctPeriods(t.periods) && GraceMatches(t) && w in t.entitlements && Latest(t.periods, w, None) == Some(p)
    ensures var t' := Moved(t, w, Some(p), expiresAt, Some(p.graceDays * DAY));
            && DistinctPeriods(t'.periods) && GraceMatches(t') && SameVersions(t, t') && Expiry(t', w) == Some(expiresAt)
            && (forall v | v != w :: Expiry(t', v) == Expiry(t, v)) && (forall v :: GraceLength(t', v) == GraceLength(t, v))
  {
    hide Latest, DistinctPeriods, ReplacePeriod, GraceMatches, Expiry, GraceLength;
    var q := p.(expiresAt := expiresAt, graceUntil := expiresAt + p.graceDays * DAY, version := p.version + 1);
    var t' := Moved(t, w, Some(p), expiresAt, Some(p.graceDays * DAY));
    ReplacedPeriods(t.periods, q);
    GraceMoves(t, t', p, q);
    forall v ensures Latest(t'.periods, v, None) == if v == w then Some(q) else Latest(t.periods, v, None) {
      LatestMoves(t, t', p, q, w, v);
    }
    forall v ensures GraceLength(t', v) == GraceLength(t, v) && (if v == w then Expiry(t', v) == Some(expiresAt) else Expiry(t', v) == Expiry(t, v)) {
      TermsMove(t, t', p, q, w, v);
    }
  }

  lemma GraceMoves(t: Tables, t': Tables, p: PaidPeriod, q: PaidPeriod)
    requires GraceMatches(t) && t'.periods == ReplacePeriod(t.periods, q) && q.graceUntil == q.expiresAt + q.graceDays * DAY
    ensures GraceMatches(t')
  {
    hide ReplacePeriod;
    ReplacedPeriods(t.periods, q);
  }

  /** The moved period stays the latest of its workspace, and no other workspace notices. */
  lemma LatestMoves(t: Tables, t': Tables, p: PaidPeriod, q: PaidPeriod, w: WorkspaceId, v: WorkspaceId)
    requires DistinctPeriods(t.periods) && Latest(t.periods, w, None) == Some(p) && SamePlace(q, p) && t'.periods == ReplacePeriod(t.periods, q)
    ensures Latest(t'.periods, v, None) == if v == w then Some(q) else Latest(t.periods, v, None)
  {
    hide Latest, ReplacePeriod;
    LatestOfReplaced(t.periods, q, v, None);
    if v != w {
      LatestIsOwn(t.periods, v, w);
    }
  }

  lemma TermsMove(t: Tables, t': Tables, p: PaidPeriod, q: PaidPeriod, w: WorkspaceId, v: WorkspaceId)
    requires GraceMatches(t) && w in t.entitlements && t'.entitlements.Keys == t.entitlements.Keys && Latest(t.periods, w, None) == Some(p)
    requires v in t.entitlements && v != w ==> t'.entitlements[v] == t.entitlements[v]
    requires Latest(t'.periods, v, None) == if v == w then Some(q) else Latest(t.periods, v, None)
    requires q.graceUntil == q.expiresAt + q.graceDays * DAY && q.graceDays == p.graceDays
    ensures GraceLength(t', v) == GraceLength(t, v) && (if v == w then Expiry(t', v) == Some(q.expiresAt) else Expiry(t', v) == Expiry(t, v))
  {
    hide Latest;
  }

  lemma LatestIsOwn(ps: seq<PaidPeriod>, v: WorkspaceId, w: WorkspaceId)
    requires v != w
    ensures Latest(ps, v, None).Some? ==> Latest(ps, v, None) != Latest(ps, w, None)
  {
  }

  /** Moving the end of an entitlement without paid periods moves nothing else. */
  lemma MovingEntitlementAdds(t: Tables, w: WorkspaceId, expiresAt: int)
    requires w in t.entitlements && Latest(t.periods, w, None).None?
    ensures var t' := Moved(t, w, None, expiresAt, GraceLength(t, w));
            && t'.periods == t.periods && SameVersions(t, t') && Expiry(t', w) == Some(expiresAt)
            && (forall v | v != w :: Expiry(t', v) == Expiry(t, v)) && (forall v :: GraceLength(t', v) == GraceLength(t, v))
  {
    hide Latest;
  }

  lemma MovingAdds(t: Tables, w: WorkspaceId, expiresAt: int, grace: Option<int>)
    requires DistinctPeriods(t.periods) && GraceMatches(t) && w in t.entitlements
    requires var p := Latest(t.periods, w, None); grace == if p.Some? then Some(p.value.graceDays * DAY) else GraceLength(t, w)
    ensures var t' := Moved(t, w, Latest(t.periods, w, None), expiresAt, grace);
            && DistinctPeriods(t'.periods) && GraceMatches(t') && SameVersions(t, t') && Expiry(t', w) == Some(expiresAt)
            && (forall v | v != w :: Expiry(t', v) == Expiry(t, v)) && (forall v :: GraceLength(t', v) == GraceLength(t, v))
  {
    hide Latest, Moved, Expiry, GraceLength, DistinctPeriods, SameVersions;
    var p := Latest(t.periods, w, None);
    if p.Some? {
      MovingPeriodAdds(t, w, p.value, expiresAt);
    } else {
      MovingEntitlementAdds(t, w, expiresAt);
    }
  }

  lemma ExtensionAdds(t: Tables, c: Command, now: int)
    requires DistinctPeriods(t.periods) && GraceMatches(t) && Extended(t, c, now).Ok?
    ensures var (t', g) := Extended(t, c, now).value;
            && DistinctPeriods(t'.periods) && GraceMatches(t') && SameVersions(t, t') && Adds(t, t', g)
            && g.command == c.id && g.workspace == c.workspace && g.days == c.days
            && g.newExpiresAt == Max(now, g.oldExpiresAt) + c.days * DAY
  {
    hide Latest, Moved, Objection;
    var (t', g) := Extended(t, c, now).value;
    var p, e := Latest(t.periods, c.workspace, None), t.entitlements[c.workspace];
    var grace := if p.Some? then Some(p.value.graceDays * DAY)
                 else if e.graceUntil.Some? then Some(e.graceUntil.value - e.until) else None;
    if p.None? {
      NoCurrentWithoutLatest(t.periods, c.workspace, now);
    }
    MovingAdds(t, c.workspace, g.newExpiresAt, grace);
    SameRowsSameTerms(Moved(t, c.workspace, p, g.newExpiresAt, grace), t');
  }

  lemma SameRowsSameTerms(t: Tables, t': Tables)
    requires t'.entitlements == t.entitlements && t'.periods == t.periods
    ensures forall w :: Expiry(t', w) == Expiry(t, w) && GraceLength(t', w) == GraceLength(t, w)
  {
  }

  lemma NoCurrentWithoutLatest(ps: seq<PaidPeriod>, w: WorkspaceId, now: int)
    requires Latest(ps, w, None).None?
    ensures Latest(ps, w, Some(now)).None?
  {
    assert forall p | p in ps :: Eligible(p, w, Some(now)) ==> Eligible(p, w, None);
  }

  lemma AnnouncementKeeps(s: State, w: WorkspaceId, now: int)
    requires DistinctPeriods(s.tables.periods) && GraceMatches(s.tables) && Ordered(s)
    ensures var s' := Enqueue(s, w, now);
            DistinctPeriods(s'.tables.periods) && GraceMatches(s'.tables) && SameTerms(s.tables, s'.tables) && Ordered(s')
  {
    hide Latest;
    var s' := Enqueue(s, w, now);
    var current := Latest(s.tables.periods, w, Some(now));
    if w in s.tables.entitlements && current.Some? && !current.value.notified {
      PeriodChange(s.tables, s'.tables, current.value, current.value.(notified := true));
      ReplacedPeriods(s.tables.periods, current.value.(notified := true));
    }
  }

  // ---------------------------------------------------------------- steps and runs

  /** One event: nothing granted and no term changed, or one grant that adds its days. */
  ghost predicate Steps(s: State, s': State) {
    && Inv(s') && ReceiptsGrow(s, s')
    && ((s'.grants == s.grants && SameTerms(s.tables, s'.tables))
        || (|s'.grants| == |s.grants| + 1 && s'.grants[..|s.grants|] == s.grants && Adds(s.tables, s'.tables, s'.grants[|s.grants|])))
  }

  /** Rows that keep every version keep the order of the events. */
  lemma OrderStays(s: State, s': State)
    requires Ordered(s) && s'.outbox == s.outbox && s'.nextSequence == s.nextSequence && SameVersions(s.tables, s'.tables)
    ensures Ordered(s')
  {
  }

  lemma GrantMatches(s: State, s': State, g: Grant, r: Receipt)
    requires GrantsMatch(s) && g.command !in s.receipts && r.kind == ExtendDays
    requires s'.grants == s.grants + [g] && s'.receipts == s.receipts[g.command := r]
    ensures GrantsMatch(s')
  {
    assert s'.grants[|s.grants|] == g;
    assert forall i | 0 <= i < |s.grants| :: s'.grants[i] == s.grants[i];
    forall id | id in s'.receipts && s'.receipts[id].kind == ExtendDays ensures GrantedTo(s'.grants, id) {
      if id != g.command {
        var i :| 0 <= i < |s.grants| && s.grants[i].command == id;
        assert s'.grants[i].command == id;
      }
    }
  }

  lemma ExtendSteps(s: State, c: Command, now: int)
    requires Inv(s)
    ensures Steps(s, Extend(s, c, now).1)
  {
    hide Extended, Latest, GrantsMatch, Ordered, Expiry, GraceLength, Enqueue;
    var s' := Extend(s, c, now).1;
    if s' != s {
      ExtensionAdds(s.tables, c, now);
      var (t, g) := Extended(s.tables, c, now).value;
      var s1 := s.(tables := t);
      OrderStays(s, s1);
      AnnouncementKeeps(s1, c.workspace, now);
      EnqueueLeaves(s1, c.workspace, now);
      GrantMatches(s, s', g, s'.receipts[c.id]);
      OrderIgnores(Enqueue(s1, c.workspace, now), s');
      AddsThen(s.tables, t, s'.tables, g);
    }
  }

  lemma EnqueueLeaves(s: State, w: WorkspaceId, now: int)
    ensures Enqueue(s, w, now).grants == s.grants && Enqueue(s, w, now).receipts == s.receipts
  {
  }

  lemma GrantsIgnore(s: State, s': State)
    requires GrantsMatch(s) && s'.grants == s.grants && s'.receipts == s.receipts
    ensures GrantsMatch(s')
  {
  }

  lemma OrderIgnores(s: State, s': State)
    requires Ordered(s) && s'.outbox == s.outbox && s'.nextSequence == s.nextSequence && s'.tables == s.tables
    ensures Ordered(s')
  {
  }

  lemma AddsThen(t: Tables, t': Tables, t'': Tables, g: Grant)
    requires Adds(t, t', g) && SameTerms(t', t'')
    ensures Adds(t, t'', g)
  {
  }

  /** A receipt of another kind, or a changed account, is no business of the grants. */
  lemma QuietReceipt(s: State, s': State, id: CommandId)
    requires Inv(s) && s'.grants == s.grants && s'.outbox == s.outbox && s'.nextSequence == s.nextSequence
    requires s'.tables.entitlements == s.tables.entitlements && s'.tables.periods == s.tables.periods
    requires s'.receipts == s.receipts
             || (id !in s.receipts && id in s'.receipts && s'.receipts == s.receipts[id := s'.receipts[id]] && s'.receipts[id].kind != ExtendDays)
    ensures Steps(s, s')
  {
    hide Latest, Expiry, GraceLength, DistinctPeriods;
    SameRowsSameTerms(s.tables, s'.tables);
  }

  lemma StepKeeps(s: State, e: Event)
    requires Inv(s)
    ensures Steps(s, Apply(s, e))
  {
    hide Extended, Latest, Expiry, GraceLength, Enqueue, GrantsMatch, Ordered, DistinctPeriods, GraceMatches;
    match e
    case ExtendRequested(c, now) => ExtendSteps(s, c, now);
    case CancelRequested(c) => QuietReceipt(s, Apply(s, e), c.id);
    case OtherRequested(id, _, _, _) => QuietReceipt(s, Apply(s, e), id);
    case AccountChanged(w) => QuietReceipt(s, Apply(s, e), 0);
    case EntitlementAnnounced(w, now) =>
      AnnouncementKeeps(s, w, now);
      EnqueueLeaves(s, w, now);
      GrantsIgnore(s, Enqueue(s, w, now));
  }

  function DaysFor(grants: seq<Grant>, w: WorkspaceId): nat {
    if grants == [] then 0
    else DaysFor(grants[..|grants| - 1], w) + (if grants[|grants| - 1].workspace == w then grants[|grants| - 1].days else 0)
  }

  /** What any run of commands and announcements keeps, whatever is retried, raced or refused. */
  lemma {:induction false} RunKeeps(s: State, es: seq<Event>, w: WorkspaceId)
    requires Inv(s)
    ensures var s' := Run(s, es);
            && Inv(s') && ReceiptsGrow(s, s') && s.grants <= s'.grants
            && GraceLength(s'.tables, w) == GraceLength(s.tables, w) && Expiry(s'.tables, w).Some? == Expiry(s.tables, w).Some?
            && (Expiry(s.tables, w).Some? ==>
                  Expiry(s'.tables, w).value >= Expiry(s.tables, w).value + DAY * DaysFor(s'.grants[|s.grants|..], w))
  {
    hide Inv, Apply, Expiry, GraceLength;
    if es != [] {
      var middle := Run(s, es[..|es| - 1]);
      RunKeeps(s, es[..|es| - 1], w);
      StepKeeps(middle, es[|es| - 1]);
      var s' := Run(s, es);
      var added := s'.grants[|s.grants|..];
      if s'.grants != middle.grants {
        assert added[..|added| - 1] == middle.grants[|s.grants|..];
      }
    }
  }

  /**
   * Every command has one outcome for ever: once its receipt is written it never changes, a cancelled
   * command has added no days and never will, and a committed one has added them exactly once.
   */
  lemma CommandsHaveOneOutcome(s: State, es: seq<Event>, id: CommandId)
    requires Inv(s) && id in s.receipts
    ensures var s' := Run(s, es);
            && id in s'.receipts && s'.receipts[id] == s.receipts[id]
            && (GrantedTo(s'.grants, id) <==> s.receipts[id].kind == ExtendDays)
            && (forall i, j | 0 <= i < |s'.grants| && 0 <= j < |s'.grants| && s'.grants[i].command == id && s'.grants[j].command == id :: i == j)
  {
    RunKeeps(s, es, 0);
  }

  /** The announced versions of a workspace strictly increase, in the order of the sequence numbers. */
  lemma VersionsIncrease(s: State, es: seq<Event>, i: nat, j: nat)
    requires Inv(s) && i < j < |Run(s, es).outbox|
    ensures var o := Run(s, es).outbox;
            o[i].sequence < o[j].sequence && (o[i].workspace == o[j].workspace ==> o[i].version < o[j].version)
  {
    RunKeeps(s, es, 0);
  }

  /** The answer to a repeated command is the outcome of the first, for the same actor, workspace and request. */
  lemma RetriesAnswerTheSame(s: State, c: Command, now: int, later: int)
    requires Extend(s, c, now).0 == Committed
    ensures Extend(Extend(s, c, now).1, c, later) == (Committed, Extend(s, c, now).1)
    ensures Cancel(Extend(s, c, now).1, c).1 == Extend(s, c, now).1
  {
    hide Extended, Latest;
    EnqueueLeaves(s, c.workspace, now);
  }

  /** A cancellation that comes first closes the command for good. */
  lemma CancelledStaysCancelled(s: State, c: Command, d: Command, now: int)
    requires Cancel(s, c).0 == Cancelled && d.id == c.id
    ensures Extend(Cancel(s, c).1, d, now).0.Refused? && Extend(Cancel(s, c).1, d, now).1 == Cancel(s, c).1
  {
    hide Extended, Latest;
  }

  // ---------------------------------------------------------------- when a command takes effect, and what it writes

  /** The subscription as the administrator has seen it. */
  predicate AsSeen(t: Tables, c: Command)
    requires c.workspace in t.entitlements
  {
    var (w, p) := (c.workspace, Latest(t.periods, c.workspace, None));
    && c.entitlementVersion == t.entitlements[w].version
    && c.billingVersion == (if w in t.accounts then t.accounts[w].version else 0)
    && c.periodId == (if p.Some? then Some(p.value.id) else None) && c.periodVersion == (if p.Some? then Some(p.value.version) else None)
  }

  /** Nothing withholds, occupies or fills up the subscription. */
  predicate Extensible(t: Tables, w: WorkspaceId)
    requires w in t.entitlements
  {
    && t.entitlements[w].status != Suspended && t.entitlements[w].status != Withdrawn && w !in t.orders && w !in t.commands
    && (w in t.renewals ==> !t.renewals[w].dispatchPending && t.renewals[w].version < 2147483646)
    && (w in t.accounts ==> !t.accounts[w].capacityPending && t.accounts[w].version < 9223372036854775806)
    && t.entitlements[w].version < 9223372036854775806
    && (Latest(t.periods, w, None).Some? ==> Latest(t.periods, w, None).value.version < 2147483646)
  }

  /** The new end and the end of its grace are dates, and the grace is none or positive. */
  predicate DatesFit(t: Tables, w: WorkspaceId, days: nat, now: int)
    requires w in t.entitlements
  {
    var (e, p) := (t.entitlements[w], Latest(t.periods, w, None));
    var end := Max(now, if p.Some? then p.value.expiresAt else e.until) + days * DAY;
    && InRange(end)
    && (p.Some? ==> InRange(end + p.value.graceDays * DAY))
    && (p.None? && e.graceUntil.Some? ==> e.graceUntil.value > e.until && InRange(end + e.graceUntil.value - e.until))
  }

  /** A command extends exactly the subscription that it has seen, if it can be extended and the dates fit. */
  lemma CommandsExtendExactly(t: Tables, c: Command, now: int)
    ensures Extended(t, c, now).Ok? <==>
            c.workspace in t.entitlements && AsSeen(t, c) && Extensible(t, c.workspace) && DatesFit(t, c.workspace, c.days, now)
    ensures Extended(t, c, now) == Err(NotProvisioned) <==> c.workspace !in t.entitlements
    ensures c.workspace in t.entitlements ==> (Extended(t, c, now) == Err(VersionConflict) <==> !AsSeen(t, c))
  {
    hide Latest, Moved, Followed, Count, Project;
    if c.workspace in t.entitlements {
      DetailsAreShown(t, c.workspace, now);
      ExtensionsAreBlockedExactly(t, c.workspace, now);
      if Latest(t.periods, c.workspace, None).None? {
        AccessEnds(t, c.workspace, now);
      }
    }
  }

  lemma AccessEnds(t: Tables, w: WorkspaceId, now: int)
    requires w in t.entitlements && Latest(t.periods, w, None).None?
    ensures Read(t, w, now).value.access.until == t.entitlements[w].until
  {
    NoCurrentWithoutLatest(t.periods, w, now);
  }

  /** What else an extension writes: access runs, the period and the account are one version on, the renewal charges at the new end. */
  lemma ExtensionsWrite(t: Tables, c: Command, now: int)
    requires Extended(t, c, now).Ok?
    ensures var (t', g) := Extended(t, c, now).value;
            var w := c.workspace;
            && w in t.entitlements && w in t'.entitlements && t'.entitlements[w].status == Running
            && t'.entitlements == t.entitlements[w := t'.entitlements[w]] && t'.entitlements[w].version == t.entitlements[w].version
            && t'.accounts == (if w in t.accounts && t.accounts[w].version != 0
                               then t.accounts[w := t.accounts[w].(version := t.accounts[w].version + 1)] else t.accounts)
            && t'.orders == t.orders && t'.commands == t.commands
            && t'.renewals.Keys == t.renewals.Keys && (forall v | v in t.renewals && v != w :: t'.renewals[v] == t.renewals[v])
            && (w in t.renewals ==>
                  && t'.renewals[w].nextChargeAt == g.newExpiresAt && t'.renewals[w].nextRetryAt.None? && t'.renewals[w].retryAttempt == 0
                  && t'.renewals[w].version == t.renewals[w].version + 1 && t'.renewals[w].dispatchPending == t.renewals[w].dispatchPending)
            && g.command == c.id && g.workspace == w && g.days == c.days
  {
    hide Latest, Project, Count, ReplacePeriod, Objection;
  }

  /** The announced version is the account's if that is ahead, else the next. */
  lemma VersionCatchesUp(base: nat, account: Option<Account>)
    ensures NextVersion(base, account) == Max(base + 1, if account.Some? then account.value.version else 0)
  {
  }

  /** A new command of the right actor is carried out exactly if it extends; a new cancellation exactly if the workspace is provisioned. */
  lemma NewCommandsAreCarriedOut(s: State, c: Command, now: int)
    requires c.id !in s.receipts && c.expectedActor == c.actor
    ensures Extend(s, c, now).0 == Committed <==> (c.periodId.Some? <==> c.periodVersion.Some?) && Extended(s.tables, c, now).Ok?
    ensures Cancel(s, c).0 == Cancelled <==> c.workspace in s.tables.entitlements
    ensures Cancel(s, c).0 == Cancelled ==>
              Cancel(s, c).1 == s.(receipts := s.receipts[c.id := Receipt(CancelExtend, c.hash, 1, c.workspace, c.id, c.actor)])
    ensures Extend(s, c, now).0 == Committed ==>
              Extend(s, c, now).1.receipts == s.receipts[c.id := Receipt(ExtendDays, c.hash, 1, c.workspace, c.id, c.actor)]
  {
    hide Extended, Latest, Enqueue;
    if Extended(s.tables, c, now).Ok? {
      EnqueueLeaves(s.(tables := Extended(s.tables, c, now).value.0), c.workspace, now);
    }
  }

  /** A command with a receipt is answered from it alone, whatever has happened since: with its outcome, or with a refusal. */
  lemma KnownCommandsAreAnswered(s: State, c: Command, now: int)
    requires c.id in s.receipts && c.expectedActor == c.actor && (c.periodId.Some? <==> c.periodVersion.Some?)
    ensures var (r, outcome) := (s.receipts[c.id], Extend(s, c, now).0);
            && Extend(s, c, now).1 == s && Cancel(s, c).1 == s && outcome != Cancelled
            && (outcome == Committed <==> r.kind == ExtendDays && r.hashVersion == 1 && r.hash == c.hash)
            && (outcome == Refused(AlreadyCancelled) <==> r.kind == CancelExtend && r.workspace == c.workspace && r.actor == c.actor)
    ensures var (r, outcome) := (s.receipts[c.id], Cancel(s, c).0);
            var own := r.workspace == c.workspace && r.command == c.id && r.actor == c.actor;
            && (outcome == Committed <==> own && r.kind == ExtendDays)
            && (outcome == Cancelled <==> own && r.kind == CancelExtend && r.hashVersion == 1 && r.hash == c.hash)
            && (outcome.Refused? <==> !own || r.kind == OtherCommand || (r.kind == CancelExtend && !(r.hashVersion == 1 && r.hash == c.hash)))
  {
    hide Extended, Enqueue;
  }

  /** A changed actor or half a period stops a command before anything is read. */
  lemma BrokenCommandsAreRefused(s: State, c: Command, now: int)
    ensures Extend(s, c, now).0 == Refused(ActorChanged) <==> c.expectedActor != c.actor
    ensures Extend(s, c, now).0 == Refused(Malformed) <==> c.expectedActor == c.actor && (c.periodId.Some? <==> c.periodVersion.None?)
    ensures Cancel(s, c).0 == Refused(ActorChanged) <==> c.expectedActor != c.actor
  {
    hide Latest, Project, Moved, Followed, Enqueue, Count;
  }

  /** The period that is running is marked as announced, and every announcement tells the version it wrote. */
  lemma AnnouncementsWrite(s: State, w: WorkspaceId, now: int)
    requires w in s.tables.entitlements && DistinctPeriods(s.tables.periods)
    ensures var (t, s') := (s.tables, Enqueue(s, w, now));
            && w in s'.tables.entitlements && s'.nextSequence == s.nextSequence + 1
            && s'.outbox == s.outbox + [EntitlementEvent(w, s'.tables.entitlements[w].version, s.nextSequence)]
            && s'.tables.entitlements[w].sequence == s.nextSequence
            && s'.tables.entitlements == t.entitlements[w := s'.tables.entitlements[w]]
            && (Latest(t.periods, w, Some(now)).Some? ==>
                  && Latest(s'.tables.periods, w, Some(now)).Some? && Latest(s'.tables.periods, w, Some(now)).value.notified)
  {
    hide Latest;
    var (s', current) := (Enqueue(s, w, now), Latest(s.tables.periods, w, Some(now)));
    if current.Some? && !current.value.notified {
      PeriodChange(s.tables, s'.tables, current.value, current.value.(notified := true));
    }
  }
}
