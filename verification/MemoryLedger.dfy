/** packages/persistence/src/index.ts: the ledger that recomputes used budget on every call. */
module MemoryLedger {
  import opened Prelude
  import opened Ledger
  import opened LedgerSum
  import CodeUnitOrder

  /** The four Maps of the backend that reservations use. */
  datatype State = State(
    reservations: map<string, Reservation>,
    byPaymentId: map<string, string>,
    byNonce: map<string, string>,
    byIdempotencyKey: map<string, string>)
  {
    function Index(kind: IdentifierKind): map<string, string> {
      match kind
      case ByPaymentId => byPaymentId
      case ByNonce => byNonce
      case ByIdempotencyKey => byIdempotencyKey
    }
  }

  const EMPTY := State(map[], map[], map[], map[])

  function Bound(s: State, q: ReserveRequest): seq<string> {
    BoundIds(Find(s.byPaymentId, q.paymentId), Find(s.byNonce, q.nonce), Find(s.byIdempotencyKey, q.idempotencyKey))
  }

  /** What the store knows about a request before any budget is looked at; None when the request is new. */
  function Known(s: State, q: ReserveRequest): Option<Result<ReserveOutcome>> {
    var bound := Bound(s, q);
    if q.reservationId in s.reservations then
      var direct := s.reservations[q.reservationId];
      Some(Ok(
        if SameRequest(direct, q) && (bound == [] || direct.reservationId in bound) then Existing(direct)
        else Conflict(ReservationId, direct.reservationId)))
    else if |bound| > 1 then
      Some(Ok(Conflict(MixedIdentifierBinding, CodeUnitOrder.Least(bound))))
    else if |bound| == 1 then
      if bound[0] !in s.reservations then Some(Rejected)
      else if SameRequest(s.reservations[bound[0]], q) then Some(Ok(Existing(s.reservations[bound[0]])))
      else
        Some(Ok(Conflict(
          if Truthy(Find(s.byPaymentId, q.paymentId)) then PaymentId
          else if Truthy(Find(s.byNonce, q.nonce)) then Nonce
          else IdempotencyKey,
          bound[0])))
    else None
  }

  ghost function Used(m: map<string, Reservation>, mandateId: string, incidentId: string, day: int): Usage {
    Usage(Sum(m, OfIncident(mandateId, incidentId, true)), Sum(m, OfDay(mandateId, day, true)))
  }

  function Decide(q: ReserveRequest, used: Usage): ReserveOutcome {
    if used.incident + q.amount > q.incidentLimit then
      BudgetExceeded(IncidentScope, used.incident, q.amount, q.incidentLimit)
    else if used.daily + q.amount > q.dailyLimit then
      BudgetExceeded(DailyScope, used.daily, q.amount, q.dailyLimit)
    else
      NewlyReserved(Opened(q), used, Usage(used.incident + q.amount, used.daily + q.amount))
  }

  function Inserted(s: State, r: Reservation): State {
    State(s.reservations[r.reservationId := r],
          s.byPaymentId[r.paymentId := r.reservationId],
          s.byNonce[r.nonce := r.reservationId],
          s.byIdempotencyKey[r.idempotencyKey := r.reservationId])
  }

  ghost function ReserveEffect(s: State, q: ReserveRequest): (Result<ReserveOutcome>, State) {
    if !ValidRequest(q) then (Rejected, s)
    else
      var known := Known(s, q);
      if known.Some? then (known.value, s)
      else
        var outcome := Decide(q, Used(s.reservations, q.mandateId, q.incidentId, BudgetDay(q.occurredAt)));
        (Ok(outcome), if outcome.NewlyReserved? then Inserted(s, outcome.record) else s)
  }

  function TransitionEffect(
      s: State, id: string, expected: seq<ReservationState>, next: ReservationState, at: int, patch: Patch)
    : (Result<Reservation>, State)
  {
    if id in s.reservations && MayTransition(s.reservations[id], expected, next, patch) then
      var updated := Transitioned(s.reservations[id], next, at, patch);
      (Ok(updated), s.(reservations := s.reservations[id := updated]))
    else (Rejected, s)
  }

  function LookupBy(s: State, kind: IdentifierKind, value: string): Option<Reservation> {
    var id := Find(s.Index(kind), value);
    if Truthy(id) then Find(s.reservations, id.value) else None
  }

  /** One call of any kind: its response and the state it leaves. */
  ghost function Step(s: State, call: Call): (Result<Response>, State) {
    match call
    case Reserve(q) =>
      var (r, s') := ReserveEffect(s, q);
      (if r.Ok? then Ok(ReserveResponse(r.value)) else Rejected, s')
    case Transition(id, expected, next, at, patch) =>
      var (r, s') := TransitionEffect(s, id, expected, next, at, patch);
      (if r.Ok? then Ok(RecordResponse(r.value)) else Rejected, s')
    case GetUsage(mandateId, incidentId, at) =>
      (Ok(UsageResponse(Used(s.reservations, mandateId, incidentId, BudgetDay(at)))), s)
    case Get(id) =>
      (Ok(LookupResponse(Find(s.reservations, id))), s)
    case GetBy(kind, value) =>
      (Ok(LookupResponse(LookupBy(s, kind, value))), s)
  }

  class Repository {
    var reservations: map<string, Reservation>
    var byPaymentId: map<string, string>
    var byNonce: map<string, string>
    var byIdempotencyKey: map<string, string>

    ghost function Contents(): State
      reads this
    {
      State(reservations, byPaymentId, byNonce, byIdempotencyKey)
    }

    constructor ()
      ensures Contents() == EMPTY
    {
      reservations, byPaymentId, byNonce, byIdempotencyKey := map[], map[], map[], map[];
    }

    /** The loop over every stored reservation that both budget reads perform. */
    method AddUp(mandateId: string, incidentId: string, day: int) returns (used: Usage)
      ensures used == Used(reservations, mandateId, incidentId, day)
    {
      ghost var ofIncident := OfIncident(mandateId, incidentId, true);
      ghost var ofDay := OfDay(mandateId, day, true);
      var incident, daily := 0, 0;
      var rest := reservations;
      while rest != map[]
        invariant incident + Sum(rest, ofIncident) == Sum(reservations, ofIncident)
        invariant daily + Sum(rest, ofDay) == Sum(reservations, ofDay)
        decreases rest.Keys
      {
        var id :| id in rest;
        var record := rest[id];
        SumWithout(rest, id, ofIncident);
        SumWithout(rest, id, ofDay);
        if record.mandateId == mandateId && Holding(record.state) {
          if record.incidentId == incidentId {
            incident := incident + record.amount;
          }
          if record.budgetDay == day {
            daily := daily + record.amount;
          }
        }
        rest := rest - {id};
      }
      used := Usage(incident, daily);
    }

    method ReserveBudget(q: ReserveRequest) returns (r: Result<ReserveOutcome>)
      modifies this
      ensures (r, Contents()) == ReserveEffect(old(Contents()), q)
    {
      if !ValidRequest(q) {
        return Rejected;
      }
      var bound := BoundIds(Find(byPaymentId, q.paymentId), Find(byNonce, q.nonce),
        Find(byIdempotencyKey, q.idempotencyKey));
      if q.reservationId in reservations {
        var direct := reservations[q.reservationId];
        if SameRequest(direct, q) && (bound == [] || direct.reservationId in bound) {
          return Ok(Existing(direct));
        }
        return Ok(Conflict(ReservationId, direct.reservationId));
      }
      if |bound| > 1 {
        return Ok(Conflict(MixedIdentifierBinding, CodeUnitOrder.Least(bound)));
      }
      if |bound| == 1 {
        if bound[0] !in reservations {
          return Rejected;
        }
        var existing := reservations[bound[0]];
        if SameRequest(existing, q) {
          return Ok(Existing(existing));
        }
        var reason := if Truthy(Find(byPaymentId, q.paymentId)) then PaymentId
                      else if Truthy(Find(byNonce, q.nonce)) then Nonce
                      else IdempotencyKey;
        return Ok(Conflict(reason, bound[0]));
      }

      var used := AddUp(q.mandateId, q.incidentId, BudgetDay(q.occurredAt));
      if used.incident + q.amount > q.incidentLimit {
        return Ok(BudgetExceeded(IncidentScope, used.incident, q.amount, q.incidentLimit));
      }
      if used.daily + q.amount > q.dailyLimit {
        return Ok(BudgetExceeded(DailyScope, used.daily, q.amount, q.dailyLimit));
      }
      var record := Opened(q);
      reservations := reservations[record.reservationId := record];
      byPaymentId := byPaymentId[record.paymentId := record.reservationId];
      byNonce := byNonce[record.nonce := record.reservationId];
      byIdempotencyKey := byIdempotencyKey[record.idempotencyKey := record.reservationId];
      r := Ok(NewlyReserved(record, used, Usage(used.incident + q.amount, used.daily + q.amount)));
    }

    method TransitionReservation(
        id: string, expected: seq<ReservationState>, next: ReservationState, at: int, patch: Patch)
      returns (r: Result<Reservation>)
      modifies this
      ensures (r, Contents()) == TransitionEffect(old(Contents()), id, expected, next, at, patch)
    {
      if id !in reservations {
        return Rejected;
      }
      var record := reservations[id];
      if record.state !in expected {
        return Rejected;
      }
      if next !in AllowedNext(record.state) {
        return Rejected;
      }
      if next in {Confirmed, Fulfilled, Committed} && !Truthy(Coalesce(patch.txSignature, record.txSignature)) {
        return Rejected;
      }
      if next in {Fulfilled, Committed} && !Truthy(Coalesce(patch.receiptHash, record.receiptHash)) {
        return Rejected;
      }
      var updated := Transitioned(record, next, at, patch);
      reservations := reservations[id := updated];
      r := Ok(updated);
    }

    method GetBudgetUsage(mandateId: string, incidentId: string, at: int) returns (usage: Usage)
      ensures usage == Used(reservations, mandateId, incidentId, BudgetDay(at))
    {
      usage := AddUp(mandateId, incidentId, BudgetDay(at));
    }

    method GetReservationBy(kind: IdentifierKind, value: string) returns (found: Option<Reservation>)
      ensures found == LookupBy(Contents(), kind, value)
    {
      var index := match kind
        case ByPaymentId => byPaymentId
        case ByNonce => byNonce
        case ByIdempotencyKey => byIdempotencyKey;
      var id := Find(index, value);
      found := if Truthy(id) then Find(reservations, id.value) else None;
    }
  }
}
