/**
 * services/payment-executor/src/index.ts: any number of concurrent
 * `/v1/payments/sign` requests, mandate administration, the control plane's own
 * transitions, a clock and crashes. Every await is a place where anything else
 * may happen: each repository, store or authority call is one atomic step.
 */
module Executor {
  import opened Prelude
  import opened Ledger
  import opened Policy
  import L = MemoryLedger
  import Decimal

  datatype Activation = Activation(
    mandateId: string, mandateHash: string, active: bool, version: nat, updatedAt: int, activationHash: string)

  datatype MandateSnapshot = MandateSnapshot(mandate: Mandate, activation: Activation)

  type Snapshot = Option<MandateSnapshot>

  /**
   * The digest of a decision envelope, which the handler recomputes before
   * anything else: it stands for the proposal and for all else it is taken of.
   */
  datatype EnvelopeHash = EnvelopeHash(proposal: Proposal, rest: string)

  /** CachedPaymentAuthorization: the one header of a reservation with everything it is bound to. */
  datatype Authorization = Authorization(
    reservationId: string, reservationVersion: int, requestFingerprint: string, paymentId: string,
    mandateId: string, mandateHash: string, executionPolicyHash: string,
    activationVersion: nat, activationHash: string, contextHash: EnvelopeHash,
    expiresAt: int, publishedAt: int, header: string)

  /** The four times before which a header must be made. */
  datatype Expiries = Expiries(mandate: int, offer: int, challenge: int, proposal: int) {
    function First(): int { Earliest([mandate, offer, challenge, proposal]) }
  }

  /** A header that was stored, by which request, with the expiries it was made under. */
  datatype Publication = Publication(requestId: nat, authorization: Authorization, expiries: Expiries)

  /** What the request has loaded about its mandate, its offer and its challenge. */
  datatype Authority = Authority(snapshot: Snapshot, offerExpiresAt: int, challengeExpiresAt: int)

  /** The four ledger reads that are awaited together and complete in any order. */
  datatype Seen = Seen(
    budget: Option<Usage>, paymentIdBound: Option<bool>, nonceBound: Option<bool>, idempotencyKeyBound: Option<bool>)

  /** Where a request is, with the local values it still needs. `readAt` is the time of its last mandate read. */
  datatype Pc =
    | LookingUp
    | LookingInCache(existing: Reservation)
    | LoadingForReplay(cached: Authorization)
    | CheckingReplay(cached: Authorization, snapshot: Snapshot, readAt: nat)
    | LoadingAuthority
    | ReadingLedger(authority: Authority, seen: Seen)
    | Reserving(authority: Authority)
    | Signing(authority: Authority, record: Reservation)
    | AwaitingSigner(authority: Authority, record: Reservation)
    | Rereading(authority: Authority, record: Reservation, header: string, publishedAt: int)
    | Publishing(record: Reservation, authorization: Authorization, readAt: nat, expiries: Expiries)
    | Releasing(record: Reservation)
    | Responding(record: Reservation, authorization: Authorization, readAt: nat)
    | EvidenceError
    | Done

  datatype SignRequest = SignRequest(
    proposal: Proposal, envelopeHash: EnvelopeHash, occurredAt: int, startedAt: nat, pc: Pc)

  /** A response that carries a header, and when its request started, last read the mandate and answered. */
  datatype Returned = Returned(requestId: nat, authorization: Authorization, startedAt: nat, readAt: nat,
    checkedAt: int)

  datatype SignerCall = SignerCall(requestId: nat, reservationId: string, paymentId: string, nonce: string)

  datatype State = State(
    clock: int,
    ledger: L.State,
    authorizations: map<string, Authorization>,
    mandates: map<string, Mandate>,
    activations: map<string, Activation>,
    requests: map<nat, SignRequest>,
    signed: seq<SignerCall>,
    returned: seq<Returned>,
    published: seq<Publication>,
    /** The activations before each step taken so far; its length is the time. */
    past: seq<map<string, Activation>>)

  const INIT := State(0, L.EMPTY, map[], map[], map[], map[], [], [], [], [])

  /** How the outside world answers the call a request is waiting for. */
  datatype Answer =
    | Resumes
    | CacheAnswers(granted: bool)
    | AuthorityAnswers(complete: bool, offerExpiresAt: int, challengeExpiresAt: int)
    | LedgerAnswers(read: Read)
    | PolicyContext(ctx: Context)
    | SignerAnswers(succeeded: bool, header: string)
    | StoreAnswers(verdict: Verdict)

  datatype Read = BudgetRead | PaymentIdRead | NonceRead | IdempotencyKeyRead

  /** Whether the authorization store's own guard lets the write through, refuses it or fails before it. */
  datatype Verdict = Admits | Refuses | Throws

  datatype Action =
    | Tick(to: int)
    | PutMandate(mandate: Mandate)
    | Arm(mandateId: string, at: int, activationHash: string)
    | Revoke(mandateId: string, at: int, activationHash: string)
    | ControlPlane(id: string, expected: seq<ReservationState>, next: ReservationState, at: int, patch: Patch)
    | Start(requestId: nat, envelope: EnvelopeHash)
    | Crash(requestId: nat)
    | Advance(requestId: nat, answer: Answer)

  // The pure parts of the handler.

  function LoadSnapshot(s: State, mandateId: string): Snapshot {
    if mandateId in s.mandates && mandateId in s.activations then
      var activation := s.activations[mandateId];
      var mandate := s.mandates[mandateId];
      Some(MandateSnapshot(if activation.active then mandate else mandate.(revokedAt := Some(activation.updatedAt)),
        activation))
    else None
  }

  predicate IsActiveAt(snapshot: Snapshot, at: int) {
    && snapshot.Some?
    && snapshot.value.activation.active
    && snapshot.value.activation.mandateId == snapshot.value.mandate.id
    && snapshot.value.activation.mandateHash == snapshot.value.mandate.mandateHash
    && at < snapshot.value.mandate.expiresAt
  }

  /** cachedAuthorizationStillActive */
  predicate StillActive(cached: Authorization, snapshot: Snapshot, at: int) {
    && IsActiveAt(snapshot, at)
    && snapshot.value.mandate.id == cached.mandateId
    && snapshot.value.mandate.mandateHash == cached.mandateHash
    && snapshot.value.mandate.executionPolicyHash == cached.executionPolicyHash
    && snapshot.value.activation.version == cached.activationVersion
    && snapshot.value.activation.activationHash == cached.activationHash
  }

  predicate ActivationUnchanged(before: Snapshot, now: Snapshot, at: int) {
    && IsActiveAt(now, at)
    && before.Some?
    && now.value.mandate.mandateHash == before.value.mandate.mandateHash
    && now.value.mandate.executionPolicyHash == before.value.mandate.executionPolicyHash
    && now.value.activation.version == before.value.activation.version
    && now.value.activation.activationHash == before.value.activation.activationHash
  }

  /** earliestTimestamp */
  function Earliest(values: seq<int>): (least: int)
    requires values != []
    ensures least in values && forall v :: v in values ==> least <= v
  {
    if |values| == 1 then values[0]
    else
      var rest := Earliest(values[1..]);
      assert forall v :: v in values ==> v == values[0] || v in values[1..];
      if values[0] <= rest then values[0] else rest
  }

  /** incidentBudgetEvidence; Rejected when it throws. */
  function IncidentBudgetEvidence(limit: int, usedBefore: int, amount: int): Result<(int, int)> {
    var before := limit - usedBefore;
    if limit <= 0 || usedBefore < 0 || amount <= 0 || before - amount < 0 then Rejected
      else Ok((before, before - amount))
  }

  function Amount(text: string): int {
    Decimal.ParseBaseUnits(text).GetOr(0)
  }

  function ReserveRequestOf(p: Proposal, m: Mandate, occurredAt: int): ReserveRequest {
    ReserveRequest(p.idempotencyKey, p.incidentId, p.mandateId, p.paymentId, p.nonce, p.idempotencyKey,
                   p.requestFingerprint, Amount(p.amount), Amount(m.incidentLimit), Amount(m.dailyLimit), occurredAt)
  }

  function Authorize(
      r: SignRequest, record: Reservation, now: MandateSnapshot, header: string, at: int,
        expiries: Expiries): Authorization
  {
    Authorization(record.reservationId, record.version, r.proposal.requestFingerprint, r.proposal.paymentId,
                  now.mandate.id, now.mandate.mandateHash, now.mandate.executionPolicyHash,
                  now.activation.version, now.activation.activationHash, r.envelopeHash,
                  expiries.First(), at, header)
  }

  /** The context that the policy is evaluated in: what the request has read, the rest as the world answers. */
  predicate ContextOf(ctx: Context, r: SignRequest, a: Authority, seen: Seen) {
    && ctx.now == r.occurredAt
    && ctx.proposal == r.proposal
    && ctx.mandate == (if a.snapshot.Some? then Some(a.snapshot.value.mandate) else None)
    && ctx.offer.expiresAt == a.offerExpiresAt
    && ctx.challenge.expiresAt == a.challengeExpiresAt
    && seen.budget.Some? && seen.budget.value.incident >= 0 && seen.budget.value.daily >= 0
    && ctx.incidentUsed == Decimal.Print(seen.budget.value.incident)
    && ctx.dailyUsed == Decimal.Print(seen.budget.value.daily)
    && seen.paymentIdBound == Some(ctx.paymentIdBound)
    && seen.nonceBound == Some(ctx.nonceBound)
    && seen.idempotencyKeyBound == Some(ctx.idempotencyKeyBound)
  }

  // The authorization store.

  /** What getReleasable demands of the stored authorization before it hands it out. */
  predicate Releasable(values: map<string, Authorization>, id: string, contextHash: EnvelopeHash, fingerprint: string,
      at: int) {
    && id in values
    && values[id].contextHash == contextHash
    && values[id].requestFingerprint == fingerprint
    && at < values[id].expiresAt
  }

  /** InMemoryPaymentAuthorizationStore */
  class AuthorizationStore {
    var values: map<string, Authorization>

    constructor ()
      ensures values == map[]
    {
      values := map[];
    }

    method GetReleasable(id: string, contextHash: EnvelopeHash, fingerprint: string, at: int)
        returns (found: Option<Authorization>)
      ensures found == if Releasable(values, id, contextHash, fingerprint, at) then Some(values[id]) else None
    {
      if id !in values {
        return None;
      }
      var value := values[id];
      if value.contextHash != contextHash || value.requestFingerprint != fingerprint || at >= value.expiresAt {
        return None;
      }
      found := Some(value);
    }

    /** Stores at most one authorization per reservation, and never an expired one. */
    method PublishIfActive(value: Authorization) returns (stored: bool)
      modifies this
      ensures stored <==> value.publishedAt < value.expiresAt && value.reservationId !in old(values)
      ensures values == if stored then old(values)[value.reservationId := value] else old(values)
    {
      if value.publishedAt >= value.expiresAt || value.reservationId in values {
        return false;
      }
      values := values[value.reservationId := value];
      stored := true;
    }
  }

  // Steps.

  function Goto(s: State, requestId: nat, pc: Pc): State
    requires requestId in s.requests
  {
    s.(requests := s.requests[requestId := s.requests[requestId].(pc := pc)])
  }

  function RecordRead(s: State, r: SignRequest, seen: Seen, read: Read, used: Usage): Seen {
    match read
    case BudgetRead => seen.(budget := Some(used))
    case PaymentIdRead => seen.(paymentIdBound := Some(L.LookupBy(s.ledger, ByPaymentId, r.proposal.paymentId).Some?))
    case NonceRead => seen.(nonceBound := Some(L.LookupBy(s.ledger, ByNonce, r.proposal.nonce).Some?))
    case IdempotencyKeyRead =>
      seen.(idempotencyKeyBound := Some(L.LookupBy(s.ledger, ByIdempotencyKey, r.proposal.idempotencyKey).Some?))
  }

  function AfterLookUp(r: SignRequest, found: Option<Reservation>): Pc {
    if found.None? then LoadingAuthority
    else if found.value.requestFingerprint != r.proposal.requestFingerprint || found.value.state != Reserved then Done
    else LookingInCache(found.value)
  }

  ghost function ReserveStep(s: State, id: nat, a: Authority): State
    requires id in s.requests && a.snapshot.Some?
  {
    var r := s.requests[id];
    var q := ReserveRequestOf(r.proposal, a.snapshot.value.mandate, r.occurredAt);
    var (outcome, ledger) := L.ReserveEffect(s.ledger, q);
    var s' := s.(ledger := ledger);
    if outcome.Ok? && outcome.value.NewlyReserved? then
      if IncidentBudgetEvidence(q.incidentLimit, outcome.value.before.incident, q.amount).Ok?
      then Goto(s', id, Signing(a, outcome.value.record))
      else Goto(s', id, EvidenceError)
    else Goto(s', id, Done)
  }

  function RereadStep(s: State, id: nat, a: Authority, record: Reservation, header: string, at: int): State
    requires id in s.requests
  {
    var r := s.requests[id];
    var now := LoadSnapshot(s, r.proposal.mandateId);
    if ActivationUnchanged(a.snapshot, now, at)
    then
      var expiries := Expiries(now.value.mandate.expiresAt, a.offerExpiresAt, a.challengeExpiresAt,
        r.proposal.expiresAt);
      Goto(s, id, Publishing(record, Authorize(r, record, now.value, header, at, expiries), |s.past|, expiries))
    else Goto(s, id, Releasing(record))
  }

  function Publish(s: State, id: nat, auth: Authorization, expiries: Expiries): State {
    s.(authorizations := s.authorizations[auth.reservationId := auth],
      published := s.published + [Publication(id, auth, expiries)])
  }

  function PublishStep(
      s: State, id: nat, record: Reservation, auth: Authorization, readAt: nat, expiries: Expiries,
        verdict: Verdict): State
    requires id in s.requests
  {
    if verdict != Admits || auth.publishedAt >= auth.expiresAt then Goto(s, id, Releasing(record))
    else if auth.reservationId in s.authorizations then Goto(s, id, Done)
    else
      Goto(Publish(s, id, auth, expiries), id, Responding(record, auth, readAt))
  }

  function ReplayStep(s: State, id: nat, cached: Authorization, snapshot: Snapshot, readAt: nat): State
    requires id in s.requests
  {
    var s' := Goto(s, id, Done);
    if StillActive(cached, snapshot, s.clock)
    then s'.(returned := s.returned + [Returned(id, cached, s.requests[id].startedAt, readAt, s.clock)])
    else s'
  }

  const RELEASE := Patch(None, None, Some("no payment payload was returned"), None)

  /** A request that found an existing reservation, up to a replayed response. */
  ghost function ReplayPhase(s: State, id: nat, answer: Answer): State
    requires id in s.requests
  {
    var r := s.requests[id];
    match (r.pc, answer)
    case (LookingUp, Resumes) =>
      Goto(s, id, AfterLookUp(r, Find(s.ledger.reservations, r.proposal.idempotencyKey)))
    case (LookingInCache(existing), CacheAnswers(granted)) =>
      if granted && Releasable(s.authorizations, existing.reservationId, r.envelopeHash,
        r.proposal.requestFingerprint, r.occurredAt)
      then Goto(s, id, LoadingForReplay(s.authorizations[existing.reservationId]))
      else Goto(s, id, Done)
    case (LoadingForReplay(cached), Resumes) =>
      Goto(s, id, CheckingReplay(cached, LoadSnapshot(s, r.proposal.mandateId), |s.past|))
    case (CheckingReplay(cached, snapshot, readAt), Resumes) =>
      ReplayStep(s, id, cached, snapshot, readAt)
    case _ => s
  }

  /** From loading the authority to the atomic reserve. */
  ghost function DecisionPhase(s: State, id: nat, answer: Answer): State
    requires id in s.requests
  {
    var r := s.requests[id];
    match (r.pc, answer)
    case (LoadingAuthority, AuthorityAnswers(complete, offerExpiresAt, challengeExpiresAt)) =>
      if complete then
        var authority := Authority(LoadSnapshot(s, r.proposal.mandateId), offerExpiresAt, challengeExpiresAt);
        Goto(s, id, ReadingLedger(authority, Seen(None, None, None, None)))
      else Goto(s, id, Done)
    case (ReadingLedger(a, seen), LedgerAnswers(read)) =>
      var used := L.Used(s.ledger.reservations, r.proposal.mandateId, r.proposal.incidentId, BudgetDay(r.occurredAt));
      Goto(s, id, ReadingLedger(a, RecordRead(s, r, seen, read, used)))
    case (ReadingLedger(a, seen), PolicyContext(ctx)) =>
      if !ContextOf(ctx, r, a, seen) then s
      else if Evaluate(ctx).Allow? then Goto(s, id, Reserving(a))
      else Goto(s, id, Done)
    case (Reserving(a), Resumes) =>
      if a.snapshot.Some? then ReserveStep(s, id, a) else Goto(s, id, Done)
    case _ => s
  }

  /** What the owner of a fresh reservation does with it. */
  ghost function OwnerPhase(s: State, id: nat, answer: Answer): State
    requires id in s.requests
  {
    var r := s.requests[id];
    match (r.pc, answer)
    case (Signing(a, record), Resumes) =>
      Goto(s, id, AwaitingSigner(a, record)).(
        signed := s.signed + [SignerCall(id, record.reservationId, record.paymentId, record.nonce)])
    case (AwaitingSigner(a, record), SignerAnswers(succeeded, header)) =>
      if succeeded then Goto(s, id, Rereading(a, record, header, s.clock)) else Goto(s, id, Releasing(record))
    case (Rereading(a, record, header, at), Resumes) =>
      RereadStep(s, id, a, record, header, at)
    case (Publishing(record, auth, readAt, expiries), StoreAnswers(verdict)) =>
      PublishStep(s, id, record, auth, readAt, expiries, verdict)
    case (Releasing(record), Resumes) =>
      Goto(s.(ledger := L.TransitionEffect(s.ledger, record.reservationId, [Reserved], Released, s.clock, RELEASE).1),
        id, Done)
    case (Responding(_, auth, readAt), Resumes) =>
      Goto(s, id, Done).(returned := s.returned + [Returned(id, auth, r.startedAt, readAt, auth.publishedAt)])
    case _ => s
  }

  /** One await of a request returns, with this answer. */
  ghost function AdvanceStep(s: State, id: nat, answer: Answer): State
    requires id in s.requests
  {
    match s.requests[id].pc
    case LookingUp | LookingInCache(_) | LoadingForReplay(_) | CheckingReplay(_, _, _) => ReplayPhase(s, id, answer)
    case LoadingAuthority | ReadingLedger(_, _) | Reserving(_) => DecisionPhase(s, id, answer)
    case EvidenceError | Done => s
    case _ => OwnerPhase(s, id, answer)
  }

  /** A stored mandate has passed MandateSchema: canonical, positive limits. */
  predicate MandateParses(m: Mandate) {
    Amount(m.incidentLimit) > 0 && Amount(m.dailyLimit) > 0
  }

  function Activated(s: State, mandateId: string, active: bool, at: int, hash: string): map<string, Activation>
    requires mandateId in s.mandates
  {
    var version := if mandateId in s.activations then s.activations[mandateId].version else 0;
    s.activations[mandateId := Activation(mandateId, s.mandates[mandateId].mandateHash, active, version + 1, at, hash)]
  }

  ghost function Effect(s: State, action: Action): State {
    match action
    case Tick(to) => s.(clock := to)
    case PutMandate(m) =>
      // A stored mandate is immutable: another record under the same id is refused.
      if MandateParses(m) && m.id !in s.mandates then s.(mandates := s.mandates[m.id := m]) else s
    case Arm(mandateId, at, hash) =>
      if mandateId in s.mandates then s.(activations := Activated(s, mandateId, true, at, hash)) else s
    case Revoke(mandateId, at, hash) =>
      if mandateId in s.mandates && mandateId in s.activations
      then s.(activations := Activated(s, mandateId, false, at, hash)) else s
    case ControlPlane(id, expected, next, at, patch) =>
      // It moves reservations on towards committed, and never out of the budget.
      if Holding(next) then s.(ledger := L.TransitionEffect(s.ledger, id, expected, next, at, patch).1) else s
    case Start(id, envelope) =>
      if id in s.requests then s
      else s.(requests := s.requests[id := SignRequest(envelope.proposal, envelope, s.clock, |s.past|, LookingUp)])
    case Crash(id) => if id in s.requests then Goto(s, id, Done) else s
    case Advance(id, answer) => if id in s.requests then AdvanceStep(s, id, answer) else s
  }

  ghost function Step(s: State, action: Action): State {
    Effect(s, action).(past := s.past + [s.activations])
  }

  ghost function After(s: State, actions: seq<Action>): State
    decreases |actions|
  {
    if actions == [] then s else After(Step(s, actions[0]), actions[1..])
  }
}
