/**
 * One payment and its provider operations: what each transaction of the billing service, the
 * provider worker and the scheduler does to them.
 *
 * A cell holds the rows that belong to one payment. Identifiers are numbers, of which only the
 * equality is used. `issued` and `refused` are history variables: they record that a request
 * creating this payment has been sent to the provider, and that the provider has definitely refused
 * one, which no transaction can see.
 */
module Dispatch {
  import opened Common
  import Calendar

  type UserId = nat
  type ProviderId = nat
  type Token = nat

  const RETRY_WINDOW: int := 23 * 60 * 60 * 1000
  const LEASE: int := 45000

  datatype Kind = OneTime | Recurring

  datatype Plan = Trial | Easy | Hard

  datatype Status = Pending | Succeeded | Cancelled | Expired

  /** The provider status texts the service writes itself, and those the provider reports. */
  datatype ProviderStatus =
    | Creating | Queued | Uncertain | NotSent | NotFound | Rejected | Reported(text: string)

  /** Which charge of which renewal a recurring payment is for. */
  datatype CycleKey = CycleKey(renewal: UserId, chargeAt: int, attempt: nat)

  datatype Payment = Payment(
    user: UserId,
    kind: Kind,
    status: Status,
    providerId: Option<ProviderId>,
    providerStatus: ProviderStatus,
    cycle: Option<CycleKey>,
    amount: nat,
    currency: string,
    plan: Option<Plan>,
    period: Option<Calendar.Period>,
    autoRenew: bool,
    consentedAt: Option<int>,
    consentComplete: bool,
    saved: Option<string>,
    checkoutExpiresAt: int,
    paidAt: Option<int>,
    reason: string,
    version: nat,
    sequence: nat)

  datatype OpStatus = Waiting | Processing | Done | Failed | Unknown

  /** A worker's claim: the row's lease token, the identifier it read with it, and what that worker remembers. */
  datatype Lease = Lease(
    token: Token, reclaimed: bool, called: bool, answered: bool, knownId: Option<ProviderId>, claimedId: Option<ProviderId>)

  datatype Operation = Operation(
    status: OpStatus,
    attempt: nat,
    lease: Option<Lease>,
    leaseUntil: int,
    providerId: Option<ProviderId>,
    createdAt: int)

  /** `creation` is the operation that creates the payment, `lookup` the newest later one. */
  datatype Cell = Cell(payment: Payment, creation: Option<Operation>, lookup: Option<Operation>, issued: bool, refused: bool)

  /**
   * What a transaction does to a cell: refuse with an error, leave the rows as they are, change
   * operation rows only, or rewrite the payment row (which takes a version, a sequence number and
   * an outbox event).
   */
  datatype Change = Refused | Unchanged | Touched(cell: Cell) | Written(cell: Cell)

  function NewOperation(now: int): Operation {
    Operation(Waiting, 0, None, 0, None, now)
  }

  predicate MayHaveReachedProvider(op: Operation) {
    op.status == Processing || op.status == Unknown || (op.status == Waiting && op.attempt > 0)
  }

  predicate Ambiguous(op: Option<Operation>) {
    op.Some? && MayHaveReachedProvider(op.value)
  }

  /** The request may have reached the provider. */
  predicate MayBeKnown(c: Cell) {
    c.payment.providerId.Some? || Ambiguous(c.creation)
  }

  // ---------------------------------------------------------------- closing a payment locally

  function CancelPending(c: Cell, user: UserId): Change {
    var p := c.payment;
    if p.user != user || p.kind != OneTime || p.status == Succeeded then Refused
    else if p.status != Pending then Unchanged
    else if p.providerId.Some? || c.creation.None? || c.creation.value.status != Waiting || c.creation.value.attempt != 0
    then Refused
    else Written(c.(payment := p.(status := Cancelled, providerStatus := NotSent, reason := "user_cancelled"),
                    creation := Some(c.creation.value.(status := Failed))))
  }

  function SettleExpiredCheckout(c: Cell, now: int): Change {
    var p := c.payment;
    if p.kind != OneTime || p.status != Pending || p.checkoutExpiresAt > now || p.providerId.Some? then Unchanged
    else match c.creation {
      case None => Written(c.(payment := Expire(p)))
      case Some(op) =>
        if op.status in {Processing, Unknown, Done} then Unchanged
        else if op.status == Waiting && op.attempt > 0 then
          if now - op.createdAt < RETRY_WINDOW then Unchanged
          else Written(c.(payment := p.(providerStatus := Uncertain),
                          creation := Some(op.(status := Unknown, lease := None))))
        else
          Written(c.(payment := Expire(p), creation := Some(op.(status := Failed))))
    }
  }

  function Expire(p: Payment): Payment {
    p.(status := Expired, reason := "checkout_expired")
  }

  /** The rows after a local stop: closed if the provider cannot know the payment, uncertain if it may. */
  function Stopped(p: Payment, mayHaveReceived: bool, reason: string): Payment {
    if p.status != Pending then p.(saved := None)
    else if mayHaveReceived then p.(providerStatus := Uncertain, saved := None)
    else p.(status := Cancelled, providerStatus := NotSent, reason := reason, saved := None)
  }

  function StoppedOperation(op: Option<Operation>, mayHaveReceived: bool): Option<Operation> {
    if op.Some? && op.value.status == Waiting
    then Some(op.value.(status := if mayHaveReceived then Unknown else Failed))
    else op
  }

  predicate Stoppable(p: Payment, user: UserId) {
    p.user == user && p.kind == Recurring && (p.status == Pending || p.saved.Some?)
  }

  /** One round of the loop that a disabled or revoked renewal runs over its future payments. */
  function ClearFuture(c: Cell, user: UserId, reason: string): Change {
    var p := c.payment;
    if !Stoppable(p, user) then Unchanged
    else
      var op := if c.creation.Some? && c.creation.value.status in {Waiting, Processing, Unknown} then c.creation else None;
      var may := p.status == Pending && (p.providerId.Some? || Ambiguous(op));
      Written(c.(payment := Stopped(p, may, reason), creation := StoppedOperation(c.creation, may)))
  }

  /** One round of the loop of an administrative subscription cancellation. */
  function ClearForAdmin(c: Cell, user: UserId, reason: string): Change {
    var p := c.payment;
    if !Stoppable(p, user) then Unchanged
    else
      var may := p.providerId.Some? || Ambiguous(c.creation);
      Written(c.(payment := Stopped(p, may, reason), creation := StoppedOperation(c.creation, may)))
  }

  /** The newest operation of any kind, which the deactivation command looks at. */
  function NewestOperation(c: Cell): Option<Operation> {
    if c.lookup.Some? then c.lookup else c.creation
  }

  /** One round of the loop of the identity deactivation command, over every pending payment. */
  function Deactivate(c: Cell, user: UserId): Change {
    var p := c.payment;
    if p.user != user || p.status != Pending then Unchanged
    else
      var may := p.providerId.Some? || Ambiguous(NewestOperation(c));
      var p' := Stopped(p, may, "IDENTITY_DEACTIVATION");
      if c.lookup.Some?
      then Written(c.(payment := p', lookup := StoppedOperation(c.lookup, may)))
      else Written(c.(payment := p', creation := StoppedOperation(c.creation, may)))
  }

  /** Whether an expired recurring dispatch can be closed: unclaimed, or by the very first claim. */
  predicate SafeToClose(c: Cell, claim: Option<Token>) {
    match claim
    case None =>
      c.creation.None? || (c.creation.value.providerId.None? && c.creation.value.status == Waiting && c.creation.value.attempt == 0)
    case Some(token) =>
      c.creation.Some? && c.creation.value.providerId.None? && HeldBy(c.creation.value, token) && c.creation.value.attempt == 1
  }

  function CloseWindow(c: Cell): Cell {
    c.(payment := c.payment.(status := Cancelled, providerStatus := NotSent,
                             reason := "CHARGE_WINDOW_EXPIRED", saved := None),
       creation := if c.creation.None? then None else Some(c.creation.value.(status := Failed, lease := None)))
  }

  // ---------------------------------------------------------------- the provider worker

  predicate HeldBy(op: Operation, token: Token) {
    op.status == Processing && op.lease.Some? && op.lease.value.token == token
  }

  predicate Holds(c: Cell, token: Token) {
    c.creation.Some? && HeldBy(c.creation.value, token)
  }

  function Claim(c: Cell, token: Token, now: int): Change {
    if c.creation.None? then Unchanged
    else
      var op := c.creation.value;
      if op.status == Waiting || (op.status == Processing && op.leaseUntil < now)
      then Touched(c.(creation := Some(op.(status := Processing, attempt := op.attempt + 1, leaseUntil := now + LEASE,
                                           lease := Some(Lease(token, op.status == Processing, false, false, c.payment.providerId, c.payment.providerId))))))
      else Unchanged
  }

  /** What the worker finds under its locks, and how its call to the provider ends. */
  datatype Surroundings = Surroundings(
    now: int,
    laterNow: int,
    identityActive: bool,
    renewalReady: bool,
    prepared: bool,
    answered: bool,
    answer: Option<ProviderId>,
    committed: bool)

  /** The verdict of one fenced dispatch. */
  datatype Verdict =
    | LeaseLost
    | Fenced(cell: Cell)
    | Uncertainty(cell: Cell)
    | CloseExpired
    | NotPrepared
    | AskedAgain(cell: Cell)
    | Sent(cell: Cell)

  /** The worker's one dispatch under its claim: lease, identity, window and renewal, then the call. */
  function DispatchCreation(c: Cell, token: Token, env: Surroundings): Verdict {
    if !Holds(c, token) || c.creation.value.lease.value.called then LeaseLost
    else
      var p, op := c.payment, c.creation.value;
      var lease := op.lease.value;
      var mayHaveReceived := op.attempt > 1 || lease.reclaimed || (p.kind == Recurring && p.providerStatus == Creating);
      if p.status != Pending || p.plan.None? || p.period.None? || !env.identityActive then Fenced(Fence(c))
      else if p.providerId.None? && op.attempt > 1 && env.now - op.createdAt >= RETRY_WINDOW then Uncertainty(MarkUnknown(c, None))
      else if p.providerId.None? && lease.reclaimed && p.checkoutExpiresAt <= env.now then Uncertainty(MarkUnknown(c, None))
      else if p.providerId.Some? then
        AskedAgain(c.(creation := Some(op.(lease := Some(lease.(
          called := true, answered := env.answered,
          knownId := if env.answered then (if lease.knownId.Some? then lease.knownId else env.answer) else p.providerId))))))
      else if p.kind == Recurring && !(env.renewalReady && p.providerStatus in {Queued, Creating}) then
        (if p.providerStatus in {Creating, Uncertain} then Uncertainty(MarkUnknown(c, None)) else Fenced(Fence(c)))
      else if p.checkoutExpiresAt <= env.now && op.attempt <= 1 then
        (if p.kind == OneTime then Fenced(Fence(c))
         else if mayHaveReceived then Uncertainty(MarkUnknown(c, None))
         else CloseExpired)
      else if !env.prepared then NotPrepared
      else if ((p.kind == Recurring && op.attempt <= 1) || lease.reclaimed) && p.checkoutExpiresAt <= env.laterNow then
        (if mayHaveReceived then Uncertainty(MarkUnknown(c, None)) else CloseExpired)
      else
        Sent(c.(payment := if p.kind == Recurring && p.providerStatus == Queued && env.committed
                           then p.(providerStatus := Creating) else p,
                creation := Some(op.(lease := Some(lease.(called := true, answered := env.answered,
                                                          knownId := if env.answered then env.answer else None)))),
                issued := true))
  }

  function Fence(c: Cell): Cell
    requires c.creation.Some?
  {
    c.(creation := Some(c.creation.value.(status := Failed, lease := None)))
  }

  /** A worker's UNKNOWN settlement of the operation it holds. */
  function MarkUnknown(c: Cell, known: Option<ProviderId>): Cell
    requires c.creation.Some?
  {
    c.(payment := c.payment.(providerStatus := Uncertain),
       creation := Some(c.creation.value.(status := Unknown, lease := None,
                                          providerId := if known.Some? then known else c.creation.value.providerId)))
  }

  /** A worker's FAILED settlement: the provider refused the request. */
  function MarkRejected(c: Cell, code: string): Cell
    requires c.creation.Some?
  {
    c.(payment := c.payment.(status := Cancelled, providerStatus := Rejected, reason := code, saved := None),
       creation := Some(c.creation.value.(status := Failed, lease := None)))
  }

  /** `fromDispatch` tells an error of the dispatch or of applying its answer from one of recording the completion. */
  datatype Failure = Failure(fromDispatch: bool, fromProvider: bool, retryable: bool, ambiguous: bool, code: string, now: int)

  /** The provider's word that it did not and will not create the payment, in answer to a request under this claim. */
  predicate DefiniteRefusal(lease: Lease, f: Failure) {
    f.fromDispatch && f.fromProvider && !f.retryable && !f.ambiguous && lease.called && !lease.answered && lease.knownId.None? && lease.claimedId.None?
  }

  /** The failure tells that the provider has refused the request of this claim. */
  predicate RefusedUnder(c: Cell, token: Token, f: Failure) {
    Holds(c, token) && DefiniteRefusal(c.creation.value.lease.value, f)
  }

  /** The worker's failure handler: put back, settle as unknown, or settle as rejected. */
  function WorkerFailed(cell: Cell, token: Token, f: Failure): Change {
    if !Holds(cell, token) then Refused
    else
      var op := cell.creation.value;
      var lease := op.lease.value;
      var c := cell.(refused := cell.refused || DefiniteRefusal(lease, f));
      var answered := f.fromDispatch && lease.answered;
      var beforeCall := f.fromDispatch && !lease.called && !lease.reclaimed;
      var reclaimedBeforeCall := f.fromDispatch && !lease.called && lease.reclaimed;
      var known := if f.fromDispatch then lease.knownId else None;
      var fromProvider := f.fromDispatch && f.fromProvider;
      var retryable := f.retryable || !fromProvider;
      if !answered && !reclaimedBeforeCall &&
         (beforeCall || (retryable && (lease.claimedId.Some? || known.Some? || f.now - op.createdAt < RETRY_WINDOW)))
      then
        (if beforeCall && op.attempt < 1 then Refused
         else Touched(c.(creation := Some(op.(status := Waiting, lease := None,
                                              attempt := if beforeCall then op.attempt - 1 else op.attempt)))))
      else if c.payment.status != Pending then Refused
      else if answered || reclaimedBeforeCall || lease.claimedId.Some? || known.Some? || retryable || f.ambiguous then
        (if c.payment.providerId.Some? && known != c.payment.providerId then Refused
         else Written(MarkUnknown(c, known)))
      else Written(MarkRejected(c, f.code))
  }

  /** The worker's completion, after its own copy of the provider's answer has been applied. */
  function WorkerCompleted(c: Cell, token: Token): Change {
    if Holds(c, token) && c.creation.value.lease.value.answered && c.payment.providerId.Some?
    then Touched(c.(creation := Some(c.creation.value.(status := Done, lease := None))))
    else Unchanged
  }

  // ---------------------------------------------------------------- applying the provider's answer

  /** `free` says that no other payment holds the provider identifier. */
  function Bind(c: Cell, id: ProviderId, text: string, expiresAt: Option<int>, now: int, free: bool): Change {
    var p := c.payment;
    if (p.providerId.Some? && p.providerId.value != id) || !free then Refused
    else Written(c.(payment := p.(providerId := Some(id), providerStatus := Reported(text),
                                  checkoutExpiresAt := if expiresAt.Some? && now < expiresAt.value < p.checkoutExpiresAt
                                                       then expiresAt.value else p.checkoutExpiresAt)))
  }

  function MarkCancelled(c: Cell, id: ProviderId, reason: string, free: bool): Change {
    var p := c.payment;
    if p.status == Succeeded then Unchanged
    else if p.status == Cancelled && p.providerStatus == Reported("canceled") && p.reason == reason then Unchanged
    else if !free then Refused
    else Written(c.(payment := p.(providerId := Some(id), status := Cancelled, providerStatus := Reported("canceled"),
                                  reason := reason, saved := None)))
  }

  function Succeed(c: Cell, id: ProviderId, amount: nat, currency: string, paidAt: int, free: bool): Change {
    var p := c.payment;
    if (p.providerId.Some? && p.providerId.value != id) || !free || p.amount != amount || p.currency != currency then Refused
    else if p.status == Succeeded then Unchanged
    else if p.plan.None? || p.period.None? then Refused
    else Written(c.(payment := p.(providerId := Some(id), status := Succeeded, providerStatus := Reported("succeeded"),
                                  paidAt := Some(paidAt), reason := "", saved := None)))
  }

  /** A developer's confirmation that the provider never created the payment. */
  function ResolveUnknown(c: Cell, now: int): Change {
    var p := c.payment;
    if p.status != Pending || p.checkoutExpiresAt > now || p.providerId.Some? || p.providerStatus !in {Creating, Uncertain}
       || c.creation.None? || c.creation.value.status != Unknown || c.creation.value.providerId.Some?
    then Refused
    else Written(c.(payment := p.(status := Cancelled, providerStatus := NotFound, reason := "manual_unknown_provider", saved := None),
                    creation := Some(c.creation.value.(status := Failed, lease := None))))
  }

  // ---------------------------------------------------------------- scheduling

  /** The scheduler takes up a recurring payment that was closed before it was ever sent. */
  function Resume(c: Cell, amount: nat, currency: string, plan: Plan, period: Calendar.Period, consentedAt: int, saved: Option<string>, until: int): Change {
    var p := c.payment;
    if p.status == Cancelled && p.providerStatus == NotSent && p.providerId.None?
    then Written(c.(payment := p.(status := Pending, providerStatus := Queued, amount := amount, currency := currency, plan := Some(plan), period := Some(period),
                                  consentedAt := Some(consentedAt), saved := saved, checkoutExpiresAt := until, reason := "")))
    else Refused
  }

  /** The charge event makes sure that an operation exists and re-arms a failed one. */
  function ArmCapture(c: Cell, now: int): Change {
    match c.creation
    case None => Touched(c.(creation := Some(NewOperation(now))))
    case Some(op) => if op.status == Failed then Touched(c.(creation := Some(op.(status := Waiting, lease := None)))) else Unchanged
  }

  /** A manual check queues a lookup under the identifier that the payment or its operation knows. */
  function QueueLookup(c: Cell, now: int): Change {
    if c.payment.providerId.Some? ||
       (c.creation.Some? && c.creation.value.status == Unknown && c.creation.value.providerId.Some?)
    then Touched(c.(lookup := Some(NewOperation(now))))
    else Unchanged
  }

  // ---------------------------------------------------------------- what every step keeps

  /** Closed by this service on its own account, without an answer from the provider. */
  predicate LocallyClosed(p: Payment) {
    p.status == Expired || (p.status == Cancelled && p.providerStatus == NotSent)
  }

  /** The bookkeeping of leases, attempts and saved methods. */
  predicate Sound(c: Cell) {
    && (c.payment.saved.Some? ==> c.payment.kind == Recurring && c.payment.status == Pending)
    && (c.payment.status == Succeeded ==> c.payment.providerId.Some? && c.payment.paidAt.Some?)
    && (c.payment.status == Expired ==> c.payment.kind == OneTime)
    && (c.payment.kind == OneTime ==> c.creation.Some?)
    && (c.payment.kind == Recurring <==> c.payment.cycle.Some?)
    && (c.issued ==> c.creation.Some?)
    && (c.payment.providerStatus == Rejected ==> c.refused && c.payment.status == Cancelled)
    && (c.lookup.Some? && c.payment.providerId.None? ==> c.creation.Some? && LookedUp(c.creation.value, c.payment))
    && (c.creation.Some? ==> SoundOperation(c.creation.value, c.payment, c.issued))
  }

  /** A lookup without a bound identifier follows an operation that ended unknown. */
  predicate LookedUp(op: Operation, p: Payment) {
    op.status == Unknown || (op.status == Failed && p.status == Cancelled && p.providerStatus == NotFound)
  }

  predicate SoundOperation(op: Operation, p: Payment, issued: bool) {
    && (op.status == Processing <==> op.lease.Some?)
    && (issued ==> op.attempt >= 1)
    && (op.status == Done ==> p.providerId.Some?)
    && (op.providerId.Some? ==> op.status == Unknown)
    && (op.lease.Some? ==>
          && op.attempt >= (if op.lease.value.reclaimed then 2 else 1)
          && (issued && !op.lease.value.called ==> op.attempt >= 2))
  }

  /** A sent request leaves a trace that no local close overlooks. */
  predicate Traced(c: Cell) {
    c.issued ==>
      || c.payment.providerId.Some?
      || Ambiguous(c.creation)
      || (c.payment.status == Cancelled && c.payment.providerStatus in {Rejected, NotFound})
  }

  predicate Safe(c: Cell) {
    Sound(c) && Traced(c) && (LocallyClosed(c.payment) ==> !c.issued)
  }

  function After(c: Cell, change: Change): Cell {
    if change.Touched? || change.Written? then change.cell else c
  }

  /** What no change may do to a payment; only the scheduler `reopens` one, and only a dispatch `sends` one, only its failure `refuses` one. */
  predicate Continues(c: Cell, c': Cell, reopens: bool := false, sends: bool := false, refuses: bool := false) {
    && c'.payment.user == c.payment.user && c'.payment.kind == c.payment.kind && c'.payment.cycle == c.payment.cycle
    && (c.payment.status == Succeeded ==>
          && c'.payment.status == Succeeded && c'.payment.providerId == c.payment.providerId
          && c'.payment.amount == c.payment.amount && c'.payment.paidAt == c.payment.paidAt)
    && (c.payment.providerId.Some? ==> c'.payment.providerId.Some?)
    && (c.issued ==> c'.issued) && (!sends ==> c'.issued == c.issued)
    && (c.refused ==> c'.refused) && (!refuses ==> c'.refused == c.refused)
    && (c.payment.status != Pending && (c.payment.kind == OneTime || !reopens) ==>
          c'.payment.status != Pending && c'.issued == c.issued)
  }

  /** Equal but for the provider status, which the outbox does not tell. */
  predicate SameRow(p: Payment, p': Payment) {
    p'.(providerStatus := p.providerStatus) == p
  }

  /** Only a success makes a payment succeed, and only a written row changes what the outbox tells. */
  predicate Quiet(c: Cell, change: Change) {
    && (After(c, change).payment.status == Succeeded ==> c.payment.status == Succeeded)
    && (change.Touched? ==> SameRow(c.payment, change.cell.payment))
  }

  /** A change that keeps every cell sound and continuing, and safe cells safe if it acts `safely`. */
  predicate Keeps(c: Cell, change: Change, safely: bool := true, reopens: bool := false, refuses: bool := false) {
    && (Sound(c) ==> Sound(After(c, change)))
    && (safely && Safe(c) ==> Safe(After(c, change)))
    && (Sound(c) ==> Continues(c, After(c, change), reopens, false, refuses))
    && (Quiet(c, change) || (change.Written? && c.payment.status != Succeeded && change.cell.payment.status == Succeeded))
  }

  // Each change on its own keeps a cell sound, safe and continuing; only a dispatch and a
  // deactivation need a condition, and they get it below.

  lemma CancelPendingKeeps(c: Cell, user: UserId)
    ensures Keeps(c, CancelPending(c, user))
  {
  }

  lemma SettleExpiredCheckoutKeeps(c: Cell, now: int)
    ensures Keeps(c, SettleExpiredCheckout(c, now))
  {
  }

  lemma ClearFutureKeeps(c: Cell, user: UserId, reason: string)
    ensures Keeps(c, ClearFuture(c, user, reason))
  {
  }

  lemma ClearForAdminKeeps(c: Cell, user: UserId, reason: string)
    ensures Keeps(c, ClearForAdmin(c, user, reason))
  {
  }

  lemma BindKeeps(c: Cell, id: ProviderId, text: string, expiresAt: Option<int>, now: int, free: bool)
    ensures Keeps(c, Bind(c, id, text, expiresAt, now, free))
  {
  }

  lemma MarkCancelledKeeps(c: Cell, id: ProviderId, reason: string, free: bool)
    ensures Keeps(c, MarkCancelled(c, id, reason, free))
  {
  }

  lemma SucceedKeeps(c: Cell, id: ProviderId, amount: nat, currency: string, paidAt: int, free: bool)
    ensures Keeps(c, Succeed(c, id, amount, currency, paidAt, free))
  {
  }

  lemma ResolveUnknownKeeps(c: Cell, now: int)
    ensures Keeps(c, ResolveUnknown(c, now))
  {
  }

  lemma QueueLookupKeeps(c: Cell, now: int)
    ensures Keeps(c, QueueLookup(c, now))
  {
  }

  lemma ClaimKeeps(c: Cell, token: Token, now: int)
    ensures Keeps(c, Claim(c, token, now))
  {
  }

  lemma WorkerFailedKeeps(c: Cell, token: Token, f: Failure)
    ensures Keeps(c, WorkerFailed(c, token, f), true, false, RefusedUnder(c, token, f))
  {
    hide Sound, Traced, LocallyClosed, Continues, Quiet, WorkerFailed;
    if Sound(c) {
      FailureKeepsSound(c, token, f);
      FailureLeavesTraces(c, token, f);
    }
    FailureContinues(c, token, f);
  }

  lemma FailureKeepsSound(c: Cell, token: Token, f: Failure)
    requires Sound(c)
    ensures Sound(After(c, WorkerFailed(c, token, f)))
  {
  }

  lemma FailureLeavesTraces(c: Cell, token: Token, f: Failure)
    requires Sound(c)
    ensures var c' := After(c, WorkerFailed(c, token, f));
            (Traced(c) ==> Traced(c')) && ((LocallyClosed(c.payment) ==> !c.issued) ==> (LocallyClosed(c'.payment) ==> !c'.issued))
  {
    hide LookedUp;
  }

  lemma FailureContinues(c: Cell, token: Token, f: Failure)
    ensures Continues(c, After(c, WorkerFailed(c, token, f)), false, false, RefusedUnder(c, token, f)) && Quiet(c, WorkerFailed(c, token, f))
  {
  }

  lemma WorkerCompletedKeeps(c: Cell, token: Token)
    ensures Keeps(c, WorkerCompleted(c, token))
  {
  }

  lemma LookupMovedKeeps(c: Cell, status: OpStatus, attempt: nat)
    requires c.lookup.Some?
    ensures Keeps(c, Touched(c.(lookup := Some(c.lookup.value.(status := status, attempt := attempt)))))
  {
  }

  lemma ResumeKeeps(c: Cell, amount: nat, currency: string, plan: Plan, period: Calendar.Period, consentedAt: int, saved: Option<string>, until: int)
    requires c.payment.kind == Recurring
    ensures Keeps(c, Resume(c, amount, currency, plan, period, consentedAt, saved, until), true, true)
  {
  }

  lemma ArmCaptureKeeps(c: Cell, now: int)
    requires c.payment.status == Pending
    ensures Keeps(c, ArmCapture(c, now))
  {
  }

  /** An expired recurring dispatch is closed only while no request has been sent. */
  lemma ClosingTheWindowIsSafe(c: Cell, claim: Option<Token>)
    requires Sound(c) && c.payment.kind == Recurring && c.payment.status == Pending && c.payment.providerId.None?
    requires SafeToClose(c, claim)
    requires claim.Some? ==> !c.creation.value.lease.value.called
    ensures !c.issued
    ensures Sound(CloseWindow(c)) && Safe(CloseWindow(c)) && Continues(c, CloseWindow(c))
  {
  }

  /** A verdict's effect on the cell; closing an expired dispatch also needs the renewal row. */
  function Judged(c: Cell, verdict: Verdict): Cell {
    match verdict
    case Fenced(c') => c'
    case Uncertainty(c') => c'
    case AskedAgain(c') => c'
    case Sent(c') => c'
    case CloseExpired => CloseWindow(c)
    case LeaseLost => c
    case NotPrepared => c
  }

  /** A fence is blind when the operation has been attempted before: it may drop a sent request. */
  predicate BlindFence(c: Cell, token: Token, env: Surroundings) {
    DispatchCreation(c, token, env).Fenced? && c.creation.value.attempt >= 2
  }

  /** A dispatch keeps its cell sound and continuing. */
  lemma DispatchIsSound(c: Cell, token: Token, env: Surroundings)
    requires Sound(c)
    ensures var c' := Judged(c, DispatchCreation(c, token, env));
            Sound(c') && Continues(c, c', false, DispatchCreation(c, token, env).Sent?)
  {
    hide CloseWindow, Sound, Continues, DispatchCreation;
    if DispatchCreation(c, token, env).CloseExpired? {
      CloseRequestsAreFirstClaims(c, token, env);
      ClosingTheWindowIsSafe(c, Some(token));
    } else {
      DispatchKeepsSound(c, token, env);
      DispatchContinues(c, token, env);
    }
  }

  lemma DispatchKeepsSound(c: Cell, token: Token, env: Surroundings)
    requires Sound(c) && !DispatchCreation(c, token, env).CloseExpired?
    ensures Sound(Judged(c, DispatchCreation(c, token, env)))
  {
    hide Sound, Fence, MarkUnknown;
    if Holds(c, token) && !c.creation.value.lease.value.called {
      FenceIsSound(c, token);
      var lease := c.creation.value.lease.value;
      match DispatchCreation(c, token, env)
      case Uncertainty(_) => MarkUnknownKeeps(c);
      case AskedAgain(c') => CallIsSound(c, token, c'.creation.value.lease.value, false, c.payment.providerStatus);
      case Sent(c') => CallIsSound(c, token, c'.creation.value.lease.value, true, c'.payment.providerStatus);
      case _ =>
    }
  }

  lemma FenceIsSound(c: Cell, token: Token)
    requires Sound(c) && Holds(c, token)
    ensures Sound(Fence(c))
  {
  }

  /** A call under a claim leaves the claim in place. */
  lemma CallIsSound(c: Cell, token: Token, lease: Lease, sends: bool, status: ProviderStatus)
    requires Sound(c) && Holds(c, token) && lease.called && lease.reclaimed == c.creation.value.lease.value.reclaimed
    requires status == c.payment.providerStatus || status == Creating
    ensures Sound(c.(payment := c.payment.(providerStatus := status), creation := Some(c.creation.value.(lease := Some(lease))), issued := c.issued || sends))
  {
  }

  lemma DispatchContinues(c: Cell, token: Token, env: Surroundings)
    requires !DispatchCreation(c, token, env).CloseExpired?
    ensures Continues(c, Judged(c, DispatchCreation(c, token, env)), false, DispatchCreation(c, token, env).Sent?)
  {
  }

  /** A dispatch keeps its cell safe unless its fence is blind. */
  lemma DispatchIsSafe(c: Cell, token: Token, env: Surroundings)
    requires Safe(c) && !BlindFence(c, token, env)
    ensures Safe(Judged(c, DispatchCreation(c, token, env)))
  {
    hide Sound, CloseWindow;
    DispatchIsSound(c, token, env);
    if DispatchCreation(c, token, env).CloseExpired? {
      CloseRequestsAreFirstClaims(c, token, env);
      ClosingTheWindowIsSafe(c, Some(token));
    } else if DispatchCreation(c, token, env).Fenced? {
      FirstClaimsAreUnsent(c, token);
    }
  }

  lemma FirstClaimsAreUnsent(c: Cell, token: Token)
    requires Sound(c) && Holds(c, token) && !c.creation.value.lease.value.called && c.creation.value.attempt <= 1
    ensures !c.issued
  {
  }

  /**
   * A request is sent only under an uncalled lease for an open, unbound payment of an active identity,
   * within the retry window, before the checkout or charge window ends, and for a charge only while
   * the renewal waits for it.
   */
  lemma RequestsAreSentInTime(c: Cell, token: Token, env: Surroundings)
    requires DispatchCreation(c, token, env).Sent?
    ensures Holds(c, token) && !c.creation.value.lease.value.called
    ensures c.payment.status == Pending && c.payment.providerId.None? && env.identityActive && env.prepared
    ensures c.payment.kind == Recurring ==> env.renewalReady && c.payment.providerStatus in {Queued, Creating}
    ensures c.creation.value.attempt <= 1 ==> c.payment.checkoutExpiresAt > env.now
    ensures c.payment.kind == Recurring && c.creation.value.attempt <= 1 ==> c.payment.checkoutExpiresAt > env.laterNow
    ensures c.creation.value.attempt > 1 ==> env.now < c.creation.value.createdAt + RETRY_WINDOW
    ensures c.creation.value.lease.value.reclaimed ==> c.payment.checkoutExpiresAt > env.laterNow && c.payment.checkoutExpiresAt > env.now
  {
  }

  lemma DispatchKeepsRow(c: Cell, token: Token, env: Surroundings)
    ensures var verdict := DispatchCreation(c, token, env);
            var c' := Judged(c, verdict);
            && c'.payment.providerId == c.payment.providerId
            && (c'.payment.status == Succeeded ==> c.payment.status == Succeeded)
            && (!verdict.CloseExpired? && !verdict.Uncertainty? ==> SameRow(c.payment, c'.payment))
  {
  }

  lemma MarkUnknownKeeps(c: Cell)
    requires Sound(c) && c.creation.Some? && c.payment.status == Pending
    ensures var c' := MarkUnknown(c, None);
            && Sound(c') && (Safe(c) ==> Safe(c')) && Continues(c, c')
            && c'.payment == c.payment.(providerStatus := Uncertain)
  {
  }

  /** The worker asks to close an expired dispatch only under a first claim that has sent nothing. */
  lemma CloseRequestsAreFirstClaims(c: Cell, token: Token, env: Surroundings)
    requires Sound(c) && DispatchCreation(c, token, env).CloseExpired?
    ensures c.payment.kind == Recurring && c.payment.status == Pending && c.payment.providerId.None?
    ensures SafeToClose(c, Some(token)) && !c.issued && !c.creation.value.lease.value.called
  {
  }

  /** A deactivation is blind when a newer, harmless looking lookup hides an ambiguous creation. */
  predicate BlindDeactivation(c: Cell) {
    && c.payment.status == Pending && c.payment.providerId.None?
    && Ambiguous(c.creation) && c.lookup.Some? && !Ambiguous(c.lookup)
  }

  lemma DeactivationKeeps(c: Cell, user: UserId)
    ensures Keeps(c, Deactivate(c, user), !(c.payment.user == user && BlindDeactivation(c)))
  {
    hide Sound, Safe, Continues, Deactivate;
    DeactivationIsSound(c, user);
    DeactivationIsSafe(c, user);
  }

  lemma DeactivationIsSound(c: Cell, user: UserId)
    ensures Keeps(c, Deactivate(c, user), false)
  {
    hide Sound, Safe, Deactivate, Continues, Quiet;
    if Sound(c) { DeactivationKeepsSound(c, user); }
    DeactivationContinues(c, user);
  }

  lemma DeactivationKeepsSound(c: Cell, user: UserId)
    requires Sound(c)
    ensures Sound(After(c, Deactivate(c, user)))
  {
    hide SoundOperation, LookedUp;
    if c.payment.user == user && c.payment.status == Pending {
      var may := c.payment.providerId.Some? || Ambiguous(NewestOperation(c));
      var p' := Stopped(c.payment, may, "IDENTITY_DEACTIVATION");
      if c.creation.Some? {
        StoppedOperationsAreSound(c.creation.value, c.payment, p', c.issued, may);
      }
      if c.lookup.Some? && c.payment.providerId.None? {
        LookedUpStays(c.creation.value, c.payment, p');
      }
    }
  }

  lemma StoppedOperationsAreSound(op: Operation, p: Payment, p': Payment, issued: bool, may: bool)
    requires SoundOperation(op, p, issued) && p'.providerId == p.providerId
    ensures SoundOperation(op, p', issued) && SoundOperation(StoppedOperation(Some(op), may).value, p', issued)
  {
  }

  lemma LookedUpStays(op: Operation, p: Payment, p': Payment)
    requires LookedUp(op, p) && p.status == Pending
    ensures LookedUp(op, p')
  {
  }

  lemma DeactivationContinues(c: Cell, user: UserId)
    ensures Continues(c, After(c, Deactivate(c, user))) && Quiet(c, Deactivate(c, user))
  {
  }

  lemma DeactivationIsSafe(c: Cell, user: UserId)
    ensures Safe(c) && !(c.payment.user == user && BlindDeactivation(c)) ==> Safe(After(c, Deactivate(c, user)))
  {
    hide Sound, Traced, LocallyClosed, Deactivate, BlindDeactivation;
    if Safe(c) && !(c.payment.user == user && BlindDeactivation(c)) {
      DeactivationKeepsSound(c, user);
      DeactivationLeavesTraces(c, user);
    }
  }

  lemma DeactivationLeavesTraces(c: Cell, user: UserId)
    requires Safe(c) && !(c.payment.user == user && BlindDeactivation(c))
    ensures var c' := After(c, Deactivate(c, user)); Traced(c') && (LocallyClosed(c'.payment) ==> !c'.issued)
  {
    hide SoundOperation, LookedUp;
  }

  lemma DeactivationHidesNothing(c: Cell, user: UserId)
    ensures BlindDeactivation(After(c, Deactivate(c, user))) ==> BlindDeactivation(c)
  {
  }

  /**
   * The deactivation command closes a payment with an ambiguous creation exactly when it is blind;
   * its two siblings never do.
   */
  lemma OnlyBlindDeactivationsCloseAmbiguousPayments(c: Cell, user: UserId, reason: string)
    requires Sound(c) && c.payment.user == user && Ambiguous(c.creation)
    ensures LocallyClosed(After(c, Deactivate(c, user)).payment) && !LocallyClosed(c.payment) <==> BlindDeactivation(c)
    ensures LocallyClosed(After(c, ClearFuture(c, user, reason)).payment) ==> LocallyClosed(c.payment)
    ensures LocallyClosed(After(c, ClearForAdmin(c, user, reason)).payment) ==> LocallyClosed(c.payment)
  {
  }

  /** The three loops do the same to a recurring payment that has no later lookup. */
  lemma SiblingsAgree(c: Cell, user: UserId)
    requires Sound(c) && c.lookup.None? && c.payment.kind == Recurring
    ensures ClearFuture(c, user, "IDENTITY_DEACTIVATION") == ClearForAdmin(c, user, "IDENTITY_DEACTIVATION")
    ensures ClearFuture(c, user, "IDENTITY_DEACTIVATION") == Deactivate(c, user)
  {
  }
}
