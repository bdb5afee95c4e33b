/** What every run of the ledger keeps: sound cells, unique bindings, one grant per success, a replayable outbox. */
module LedgerSafety {
  import opened Common
  import opened Dispatch
  import opened Renewal
  import opened PaidTime
  import opened Ledger

  // ---------------------------------------------------------------- the outbox

  datatype Snapshot = Snapshot(version: nat, status: Status, amount: nat)

  /** What a consumer that applies the payment events in order ends up with. */
  function Replay(es: seq<PaymentEvent>): map<PaymentId, Snapshot> {
    if es == [] then map[]
    else
      var e := es[|es| - 1];
      Replay(es[..|es| - 1])[e.id := Snapshot(e.version, e.status, e.amount)]
  }

  /** Every event carries the version after the last one the consumer has seen for its payment. */
  predicate Gapless(es: seq<PaymentEvent>) {
    es == [] ||
    var (before, e) := (es[..|es| - 1], es[|es| - 1]);
    Gapless(before) && e.version == (if e.id in Replay(before) then Replay(before)[e.id].version else 0) + 1
  }

  predicate Ascending(es: seq<PaymentEvent>, bound: nat) {
    && (forall i | 0 <= i < |es| :: es[i].sequence < bound)
    && (forall i, j | 0 <= i < j < |es| :: es[i].sequence < es[j].sequence)
  }

  function Projection(cells: map<PaymentId, Cell>): map<PaymentId, Snapshot> {
    map id | id in cells :: Snapshot(cells[id].payment.version, cells[id].payment.status, cells[id].payment.amount)
  }

  // ---------------------------------------------------------------- the invariant

  predicate CellsSound(cells: map<PaymentId, Cell>) {
    forall id | id in cells :: Sound(cells[id])
  }

  /** No two payments share a provider identifier or a charge cycle, and a cycle has three charges. */
  predicate Unique(cells: map<PaymentId, Cell>) {
    && (forall i, j | i in cells && j in cells && i != j && cells[i].payment.providerId.Some? ::
          cells[i].payment.providerId != cells[j].payment.providerId)
    && (forall i, j | i in cells && j in cells && i != j && cells[i].payment.cycle.Some? ::
          cells[i].payment.cycle != cells[j].payment.cycle)
    && (forall i | i in cells && cells[i].payment.cycle.Some? ::
          cells[i].payment.cycle.value.attempt <= 2 && cells[i].payment.cycle.value.renewal == cells[i].payment.user)
  }

  predicate OutboxAgrees(s: State) {
    Replay(s.outbox) == Projection(s.cells) && Gapless(s.outbox) && Ascending(s.outbox, s.nextSequence)
  }

  /** Each success has extended its subscription once, and nothing else has. */
  predicate GrantsAgree(s: State) {
    && Distinct(s.grants)
    && (forall i | 0 <= i < |s.grants| :: s.grants[i] in s.cells && s.cells[s.grants[i]].payment.status == Succeeded)
    && (forall id | id in s.cells && s.cells[id].payment.status == Succeeded :: id in s.grants)
  }

  /** A pending reward is the programme's share of a success of the referred user. */
  predicate RewardsAgree(s: State) {
    forall user | user in s.referrals && s.referrals[user].status == RewardPending :: RewardAgrees(s, user, s.referrals[user])
  }

  predicate RewardAgrees(s: State, user: UserId, r: Referral) {
    && r.firstPayment.Some? && SuccessOf(s, r.firstPayment.value, user)
    && r.paymentAmount == s.cells[r.firstPayment.value].payment.amount
    && r.cashback == r.paymentAmount * r.percent / 100
  }

  /** Payments and grants are only added, a given reward is never touched, and only an `awards` step changes referrals. */
  predicate Remembers(s: State, s': State, awards: bool := false) {
    && s.created <= s'.created && s.grants <= s'.grants && (!awards ==> s'.referrals == s.referrals)
    && (forall user | user in s.referrals && Rewarding(s, user) :: user in s'.referrals && s'.referrals[user] == s.referrals[user])
  }

  /** The user's referral has been rewarded and waits for its payout. */
  predicate Rewarding(s: State, user: UserId) {
    user in s.referrals && s.referrals[user].status == RewardPending
  }

  predicate CreatedAgrees(s: State) {
    && Distinct(s.created)
    && (forall id | id in s.created :: id in s.cells)
    && (forall id | id in s.cells :: id in s.created)
  }

  predicate Inv(s: State) {
    && CellsSound(s.cells) && Unique(s.cells) && CreatedAgrees(s) && OutboxAgrees(s)
    && GrantsAgree(s) && RewardsAgree(s)
  }

  predicate CellsSafe(cells: map<PaymentId, Cell>) {
    forall id | id in cells :: Safe(cells[id])
  }

  predicate CellsContinue(cells: map<PaymentId, Cell>, cells': map<PaymentId, Cell>, reopens: bool := false, sends: bool := false,
                          refuses: bool := false) {
    forall id | id in cells :: id in cells' && Continues(cells[id], cells'[id], reopens, sends, refuses)
  }

  /** A step that keeps the invariant, continues every payment and, if done `safely`, keeps them all safe. */
  predicate Advances(s: State, s': State, safely: bool := true, reopens: bool := false, sends: bool := false, awards: bool := false,
                     refuses: bool := false) {
    && Inv(s') && CellsContinue(s.cells, s'.cells, reopens, sends, refuses) && (safely && CellsSafe(s.cells) ==> CellsSafe(s'.cells))
    && Remembers(s, s', awards)
  }

  // ---------------------------------------------------------------- changing one cell

  /** What a changed cell must satisfy for the ledger around it to stay consistent. */
  predicate Fits(s: State, id: PaymentId, c: Cell, reopens: bool := false, sends: bool := false, refuses: bool := false) {
    && id in s.cells && Sound(c) && Continues(s.cells[id], c, reopens, sends, refuses)
    && (c.payment.providerId != s.cells[id].payment.providerId ==> c.payment.providerId.Some? && Free(s, id, c.payment.providerId.value))
  }

  lemma UniqueAfter(s: State, id: PaymentId, c: Cell)
    requires Unique(s.cells) && Fits(s, id, c, true, true, true)
    ensures Unique(s.cells[id := c])
  {
    hide Sound;
  }

  lemma WriteKeepsOutbox(s: State, id: PaymentId, c: Cell)
    requires OutboxAgrees(s)
    ensures OutboxAgrees(Write(s, id, c))
  {
    var s' := Write(s, id, c);
    assert s'.outbox[..|s.outbox|] == s.outbox;
    hide Ascending;
    EventIsProjected(s, id, c);
    LaterEventAscends(s.outbox, s'.outbox[|s.outbox|], s.nextSequence);
  }

  lemma EventIsProjected(s: State, id: PaymentId, c: Cell)
    requires Replay(s.outbox) == Projection(s.cells)
    ensures Replay(Write(s, id, c).outbox) == Projection(Write(s, id, c).cells)
    ensures id in Replay(s.outbox) <==> id in s.cells
  {
    var s' := Write(s, id, c);
    assert s'.outbox[..|s.outbox|] == s.outbox;
    assert Projection(s'.cells) == Projection(s.cells)[id := Projection(s'.cells)[id]];
  }

  lemma LaterEventAscends(es: seq<PaymentEvent>, e: PaymentEvent, bound: nat)
    requires Ascending(es, bound) && e.sequence == bound
    ensures Ascending(es + [e], bound + 1)
  {
  }

  lemma TouchKeepsOutbox(s: State, id: PaymentId, c: Cell)
    requires OutboxAgrees(s) && id in s.cells && SameRow(s.cells[id].payment, c.payment)
    ensures OutboxAgrees(s.(cells := s.cells[id := c]))
  {
    assert Projection(s.cells[id := c]) == Projection(s.cells);
  }

  /** Rewards survive as long as successes keep their payment. */
  lemma RewardsStay(s: State, s': State)
    requires RewardsAgree(s) && CellsContinue(s.cells, s'.cells, true, true, true) && CellsSound(s.cells)
    requires s'.referrals == s.referrals
    ensures RewardsAgree(s')
  {
    hide Sound;
  }

  lemma SoundIgnoresVersions(c: Cell, version: nat, sequence: nat)
    ensures Sound(c.(payment := c.payment.(version := version, sequence := sequence))) == Sound(c)
    ensures Safe(c.(payment := c.payment.(version := version, sequence := sequence))) == Safe(c)
  {
  }

  /** Without a new success the grants still agree. */
  lemma GrantsStay(s: State, s': State)
    requires GrantsAgree(s) && CellsContinue(s.cells, s'.cells, true, true, true) && s'.grants == s.grants
    requires forall id | id in s'.cells && s'.cells[id].payment.status == Succeeded :: id in s.cells && s.cells[id].payment.status == Succeeded
    ensures GrantsAgree(s')
  {
  }

  /** One changed cell among the others. */
  lemma CellsAfter(s: State, id: PaymentId, c: Cell, safely: bool, reopens: bool, sends: bool, refuses: bool)
    requires CellsSound(s.cells) && Fits(s, id, c, reopens, sends, refuses) && (safely && CellsSafe(s.cells) ==> Safe(c))
    ensures CellsSound(s.cells[id := c]) && CellsContinue(s.cells, s.cells[id := c], reopens, sends, refuses)
    ensures safely && CellsSafe(s.cells) ==> CellsSafe(s.cells[id := c])
  {
    hide Sound, Safe;
  }

  lemma FitsIgnoresVersions(s: State, id: PaymentId, c: Cell, version: nat, sequence: nat, reopens: bool, refuses: bool)
    requires Fits(s, id, c, reopens, false, refuses)
    ensures Fits(s, id, c.(payment := c.payment.(version := version, sequence := sequence)), reopens, false, refuses)
  {
    hide Sound;
    SoundIgnoresVersions(c, version, sequence);
  }

  /** Rewriting a cell without a success keeps the invariant. */
  lemma WriteAdvances(s: State, id: PaymentId, c: Cell, safely: bool, reopens: bool := false, refuses: bool := false)
    requires Inv(s) && Fits(s, id, c, reopens, false, refuses) && (c.payment.status == Succeeded ==> s.cells[id].payment.status == Succeeded)
    requires safely && CellsSafe(s.cells) ==> Safe(c)
    ensures Advances(s, Write(s, id, c), safely, reopens, false, false, refuses)
  {
    hide Sound, Safe, RewardsAgree, OutboxAgrees, Unique, GrantsAgree, CellsContinue, CellsSafe, CellsSound, Continues;
    var s' := Write(s, id, c);
    var c' := s'.cells[id];
    SoundIgnoresVersions(c, c'.payment.version, c'.payment.sequence);
    FitsIgnoresVersions(s, id, c, c'.payment.version, c'.payment.sequence, reopens, refuses);
    CellsAfter(s, id, c', safely, reopens, false, refuses);
    FitsAnyway(s, id, c', reopens, refuses);
    UniqueAfter(s, id, c');
    WriteKeepsOutbox(s, id, c);
    ContinueAnyway(s.cells, s'.cells, reopens, false, refuses);
    RewardsStay(s, s');
    GrantsStay(s, s');
  }

  lemma FitsAnyway(s: State, id: PaymentId, c: Cell, reopens: bool, refuses: bool)
    requires Fits(s, id, c, reopens, false, refuses)
    ensures Fits(s, id, c, true, true, true)
  {
    hide Sound;
  }

  lemma ContinueAnyway(cells: map<PaymentId, Cell>, cells': map<PaymentId, Cell>, reopens: bool, sends: bool, refuses: bool)
    requires CellsContinue(cells, cells', reopens, sends, refuses)
    ensures CellsContinue(cells, cells', true, true, true)
  {
  }

  lemma TouchAdvances(s: State, id: PaymentId, c: Cell, safely: bool, sends: bool := false, refuses: bool := false)
    requires Inv(s) && Fits(s, id, c, false, sends, refuses) && SameRow(s.cells[id].payment, c.payment)
    requires safely && CellsSafe(s.cells) ==> Safe(c)
    ensures Advances(s, s.(cells := s.cells[id := c]), safely, false, sends, false, refuses)
  {
    hide Sound, Safe, RewardsAgree, OutboxAgrees, Unique, GrantsAgree;
    var s' := s.(cells := s.cells[id := c]);
    UniqueAfter(s, id, c);
    TouchKeepsOutbox(s, id, c);
    RewardsStay(s, s');
    GrantsStay(s, s');
  }

  lemma UniqueWith(cells: map<PaymentId, Cell>, id: PaymentId, c: Cell)
    requires Unique(cells) && id !in cells && c.payment.providerId.None?
    requires c.payment.cycle.Some? ==> NewCycle(cells, c.payment)
    ensures Unique(cells[id := c])
  {
  }

  predicate NewCycle(cells: map<PaymentId, Cell>, p: Payment)
    requires p.cycle.Some?
  {
    && p.cycle.value.attempt <= 2 && p.cycle.value.renewal == p.user
    && forall other | other in cells :: cells[other].payment.cycle != p.cycle
  }

  /** A new payment: unsent, unbound, and of a charge cycle that has none yet. */
  lemma InsertAdvances(s: State, id: PaymentId, c: Cell)
    requires Inv(s) && id !in s.cells && Safe(c) && c.payment.providerId.None? && c.payment.status == Pending
    requires c.payment.cycle.Some? ==> NewCycle(s.cells, c.payment)
    ensures Advances(s, Insert(s, id, c))
  {
    hide Sound, Traced, LocallyClosed, RewardsAgree, OutboxAgrees, Unique, GrantsAgree;
    var s' := Insert(s, id, c);
    UniqueWith(s.cells, id, s'.cells[id]);
    GrantsStay(s, s');
    SoundIgnoresVersions(c, s'.cells[id].payment.version, s'.cells[id].payment.sequence);
    WriteKeepsOutbox(s, id, c);
    assert OutboxAgrees(s') by { SameOutbox(Write(s, id, c), s'); }
    RewardsStay(s, s');
  }

  lemma SameOutbox(s: State, s': State)
    requires OutboxAgrees(s) && s'.cells == s.cells && s'.outbox == s.outbox && s'.nextSequence >= s.nextSequence
    ensures OutboxAgrees(s')
  {
  }

  /** Renewal and subscription rows and skipped sequence numbers do not concern the invariant. */
  lemma BystandersAdvance(s: State, s': State)
    requires Inv(s) && s'.cells == s.cells && s'.created == s.created && s'.outbox == s.outbox && s'.grants == s.grants
    requires s'.referrals == s.referrals && s'.nextSequence >= s.nextSequence
    ensures Advances(s, s')
  {
    hide Sound, Safe, RewardsAgree, OutboxAgrees;
    SameOutbox(s, s');
    RewardsStay(s, s');
  }

  lemma AdvancesTwice(s: State, s': State, s'': State, safely: bool, reopens: bool := false, sends: bool := false, awards: bool := false,
                      refuses: bool := false)
    requires Advances(s, s', safely, reopens, sends, awards, refuses) && Advances(s', s'', safely, reopens, sends, awards, refuses)
    ensures Advances(s, s'', safely, reopens, sends, awards, refuses)
  {
    hide Inv, Safe, Sound;
  }

  /** A step keeps what it keeps under weaker claims. */
  lemma AdvancesLess(s: State, s': State, safely: bool, safely': bool, reopens: bool, reopens': bool, sends: bool := false, sends': bool := false,
                     awards: bool := false, awards': bool := false, refuses: bool := false, refuses': bool := false)
    requires Advances(s, s', safely, reopens, sends, awards, refuses)
    requires (safely' ==> safely) && (reopens ==> reopens') && (sends ==> sends') && (awards ==> awards') && (refuses ==> refuses')
    ensures Advances(s, s', safely', reopens', sends', awards', refuses')
  {
    hide Inv, Safe, Sound;
  }

  /** A change that keeps its cell keeps the ledger. */
  lemma CommitAdvances(s: State, id: PaymentId, change: Change, safely: bool, reopens: bool := false, refuses: bool := false)
    requires Inv(s) && id in s.cells && Keeps(s.cells[id], change, safely, reopens, refuses) && Quiet(s.cells[id], change)
    requires reopens ==> change.Written?
    requires var p, p' := s.cells[id].payment, After(s.cells[id], change).payment;
             p'.providerId != p.providerId ==> change.Written? && p'.providerId.Some? && Free(s, id, p'.providerId.value)
    ensures Advances(s, Commit(s, id, change), safely, reopens, false, false, refuses)
  {
    hide Sound, Safe, RewardsAgree, OutboxAgrees, Unique, GrantsAgree, CreatedAgrees;
    match change
    case Touched(c) => TouchAdvances(s, id, c, safely, false, refuses);
    case Written(c) => WriteAdvances(s, id, c, safely, reopens, refuses);
    case Refused => BystandersAdvance(s, s);
    case Unchanged => BystandersAdvance(s, s);
  }
}
