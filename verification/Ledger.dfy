/**
 * The entities of the reservation ledger and everything that the in-memory and
 * the Firestore repository share: the transition table, the request comparison
 * and the effect of an accepted transition.
 */
module Ledger {
  import opened Prelude
  import opened Schemas

  datatype ReservationState =
    | Proposed | Reserved | Submitted | Confirmed | Fulfilled
    | Committed | Denied | Released | Unknown | Refunded

  datatype StateEvent = StateEvent(state: ReservationState, at: int, note: Option<string>)

  /** Amounts are base units; a timestamp is its instant in milliseconds. */
  datatype Reservation = Reservation(
    reservationId: string, incidentId: string, mandateId: string,
    paymentId: string, nonce: string, idempotencyKey: string,
    requestFingerprint: string, amount: int, budgetDay: int,
    state: ReservationState, version: int, createdAt: int, updatedAt: int,
    stateHistory: seq<StateEvent>,
    txSignature: Option<string>, receiptHash: Option<string>, failureReason: Option<string>)

  datatype ReserveRequest = ReserveRequest(
    reservationId: string, incidentId: string, mandateId: string,
    paymentId: string, nonce: string, idempotencyKey: string,
    requestFingerprint: string, amount: int,
    incidentLimit: int, dailyLimit: int, occurredAt: int)

  /** An absent field of a patch keeps what the record has. */
  datatype Patch = Patch(
    txSignature: Option<string>, receiptHash: Option<string>,
    failureReason: Option<string>, note: Option<string>)

  datatype Usage = Usage(incident: int, daily: int)

  datatype ConflictReason = ReservationId | PaymentId | Nonce | IdempotencyKey | MixedIdentifierBinding

  datatype Scope = IncidentScope | DailyScope

  datatype ReserveOutcome =
    | NewlyReserved(record: Reservation, before: Usage, after: Usage)
    | Existing(record: Reservation)
    | Conflict(reason: ConflictReason, existingReservationId: string)
    | BudgetExceeded(scope: Scope, used: int, attempted: int, limit: int)

  function AllowedNext(s: ReservationState): set<ReservationState> {
    match s
    case Proposed => {Reserved, Denied}
    case Reserved => {Submitted, Released}
    case Submitted => {Confirmed, Unknown}
    case Confirmed => {Fulfilled, Refunded}
    case Fulfilled => {Committed, Refunded}
    case Committed => {Refunded}
    case Unknown => {Confirmed, Released}
    case Denied | Released | Refunded => {}
  }

  /** BUDGET_HOLDING_STATES */
  predicate Holding(s: ReservationState) {
    s in {Reserved, Submitted, Confirmed, Fulfilled, Committed, Unknown}
  }

  const MILLISECONDS_IN_A_DAY := 86_400_000

  /** The UTC day of an instant; `/` rounds down, also before 1970. */
  function BudgetDay(at: int): int {
    at / MILLISECONDS_IN_A_DAY
  }

  predicate ValidRequest(q: ReserveRequest) {
    && IsIdentifier(q.reservationId) && IsIdentifier(q.incidentId) && IsIdentifier(q.mandateId)
    && IsIdentifier(q.paymentId) && IsIdentifier(q.nonce) && IsIdentifier(q.idempotencyKey)
    && IsSha256(q.requestFingerprint)
    && q.amount > 0 && q.incidentLimit > 0 && q.dailyLimit > 0
  }

  predicate SameRequest(r: Reservation, q: ReserveRequest) {
    && r.reservationId == q.reservationId && r.incidentId == q.incidentId && r.mandateId == q.mandateId
    && r.paymentId == q.paymentId && r.nonce == q.nonce && r.idempotencyKey == q.idempotencyKey
    && r.requestFingerprint == q.requestFingerprint && r.amount == q.amount
  }

  function Opened(q: ReserveRequest): Reservation {
    Reservation(q.reservationId, q.incidentId, q.mandateId, q.paymentId, q.nonce, q.idempotencyKey,
                q.requestFingerprint, q.amount, BudgetDay(q.occurredAt), Reserved, 1, q.occurredAt, q.occurredAt,
                [StateEvent(Proposed, q.occurredAt, None), StateEvent(Reserved, q.occurredAt, None)],
                None, None, None)
  }

  /** Both stores test these four conditions, in this order, before they write. */
  predicate MayTransition(r: Reservation, expected: seq<ReservationState>, next: ReservationState, patch: Patch) {
    && r.state in expected
    && next in AllowedNext(r.state)
    && (next in {Confirmed, Fulfilled, Committed} ==> Truthy(Coalesce(patch.txSignature, r.txSignature)))
    && (next in {Fulfilled, Committed} ==> Truthy(Coalesce(patch.receiptHash, r.receiptHash)))
  }

  function Transitioned(r: Reservation, next: ReservationState, at: int, patch: Patch): Reservation {
    r.(txSignature := if Truthy(patch.txSignature) then patch.txSignature else r.txSignature,
       receiptHash := if Truthy(patch.receiptHash) then patch.receiptHash else r.receiptHash,
       failureReason := if Truthy(patch.failureReason) then patch.failureReason else r.failureReason,
       state := next,
       version := r.version + 1,
       updatedAt := at,
       stateHistory := r.stateHistory + [StateEvent(next, at, if Truthy(patch.note) then patch.note else None)])
  }

  /**
   * The distinct reservation ids that a request's three identifiers are bound
   * to, in the order in which the source adds them to its Set.
   */
  function BoundIds(payment: Option<string>, nonce: Option<string>, key: Option<string>): seq<string> {
    AddBound(AddBound(AddBound([], payment), nonce), key)
  }

  function AddBound(ids: seq<string>, bound: Option<string>): seq<string> {
    if bound.Some? && bound.value !in ids then ids + [bound.value] else ids
  }

  /** One call on a repository, with its arguments. */
  datatype Call =
    | Reserve(request: ReserveRequest)
    | Transition(id: string, expected: seq<ReservationState>, next: ReservationState, at: int, patch: Patch)
    | GetUsage(mandateId: string, incidentId: string, at: int)
    | Get(id: string)
    | GetBy(kind: IdentifierKind, value: string)

  datatype IdentifierKind = ByPaymentId | ByNonce | ByIdempotencyKey

  datatype Response =
    | ReserveResponse(outcome: ReserveOutcome)
    | RecordResponse(record: Reservation)
    | UsageResponse(usage: Usage)
    | LookupResponse(found: Option<Reservation>)

  function IdentifierOf(r: Reservation, kind: IdentifierKind): string {
    match kind
    case ByPaymentId => r.paymentId
    case ByNonce => r.nonce
    case ByIdempotencyKey => r.idempotencyKey
  }
}

/** Sums of amounts over the reservations of one mandate's incident or day. */
module LedgerSum {
  import opened Ledger

  /** Which reservations to add up: those of an incident or a day, all of them or only the holding ones. */
  datatype Filter =
    | OfIncident(mandateId: string, incidentId: string, onlyHolding: bool)
    | OfDay(mandateId: string, day: int, onlyHolding: bool)

  function Weight(r: Reservation, f: Filter): int {
    if && r.mandateId == f.mandateId
       && (f.onlyHolding ==> Holding(r.state))
       && (f.OfIncident? ==> r.incidentId == f.incidentId)
       && (f.OfDay? ==> r.budgetDay == f.day)
    then r.amount else 0
  }

  ghost function Sum(m: map<string, Reservation>, f: Filter): int
    decreases m.Keys
  {
    if m == map[] then 0
    else
      var id :| id in m;
      Weight(m[id], f) + Sum(m - {id}, f)
  }

  /** The sum does not depend on which reservation is added first. */
  lemma {:induction false} SumWithout(m: map<string, Reservation>, id: string, f: Filter)
    requires id in m
    ensures Sum(m, f) == Weight(m[id], f) + Sum(m - {id}, f)
    decreases m.Keys
  {
    var first :| first in m && Sum(m, f) == Weight(m[first], f) + Sum(m - {first}, f);
    if first == id {
    } else {
      SumWithout(m - {first}, id, f);
      SumWithout(m - {id}, first, f);
      assert m - {first} - {id} == m - {id} - {first};
    }
  }

  lemma SumUpdated(m: map<string, Reservation>, id: string, r: Reservation, f: Filter)
    ensures Sum(m[id := r], f) == Sum(m, f) + Weight(r, f) - (if id in m then Weight(m[id], f) else 0)
  {
    SumWithout(m[id := r], id, f);
    if id in m {
      SumWithout(m, id, f);
      assert m[id := r] - {id} == m - {id};
    } else {
      assert m[id := r] - {id} == m;
    }
  }

  /** With positive amounts, fewer reservations never add up to more. */
  lemma {:induction false} SumMonotone(small: map<string, Reservation>, big: map<string, Reservation>, f: Filter)
    requires forall id :: id in big ==> big[id].amount > 0
    requires forall id :: id in small ==> id in big && small[id] == big[id]
    ensures 0 <= Sum(small, f) <= Sum(big, f)
    decreases big.Keys
  {
    if big == map[] {
    } else {
      var id :| id in big;
      SumWithout(big, id, f);
      if id in small {
        SumWithout(small, id, f);
      } else {
        assert small - {id} == small;
      }
      SumMonotone(small - {id}, big - {id}, f);
    }
  }

  /** A sum over reservations that all hold is the same sum over the holding ones. */
  lemma {:induction false} SumOfHolding(m: map<string, Reservation>, f: Filter, g: Filter)
    requires forall id :: id in m ==> Weight(m[id], f) == Weight(m[id], g)
    ensures Sum(m, f) == Sum(m, g)
    decreases m.Keys
  {
    if m == map[] {
    } else {
      var id :| id in m;
      SumWithout(m, id, f);
      SumWithout(m, id, g);
      SumOfHolding(m - {id}, f, g);
    }
  }
}
