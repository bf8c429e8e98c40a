/**
 * packages/persistence/src/firestore.ts: the ledger that keeps one counter
 * document per mandate and incident, one per mandate and day, and one binding
 * document per identifier. A transaction is one atomic step. Document ids are
 * hashes of a namespace and its parts, so the model keys documents by those.
 */
module CounterLedger {
  import opened Prelude
  import opened Schemas
  import opened Ledger
  import CodeUnitOrder

  datatype Binding = Binding(
    kind: IdentifierKind, value: string, reservationId: string, requestFingerprint: string, createdAt: int)

  datatype BindingKey = BindingKey(kind: IdentifierKind, value: string)

  datatype Counter = Counter(
    scope: Scope, mandateId: string, incidentId: Option<string>, budgetDay: Option<int>,
    held: int, version: int, updatedAt: int)

  datatype CounterKey =
    | IncidentCounter(mandateId: string, incidentId: string)
    | DailyCounter(mandateId: string, day: int)

  datatype State = State(
    reservations: map<string, Reservation>,
    bindings: map<BindingKey, Binding>,
    counters: map<CounterKey, Counter>)

  const EMPTY := State(map[], map[], map[])

  // A document is validated whenever it is read; a bad one raises an integrity error.

  predicate ReservationParses(r: Reservation) {
    && IsIdentifier(r.reservationId) && IsIdentifier(r.incidentId) && IsIdentifier(r.mandateId)
    && IsIdentifier(r.paymentId) && IsIdentifier(r.nonce) && IsIdentifier(r.idempotencyKey)
    && IsSha256(r.requestFingerprint)
    && r.amount > 0 && r.version >= 1 && |r.stateHistory| >= 2
    && ReceiptParses(r)
  }

  predicate ReceiptParses(r: Reservation) {
    Truthy(r.receiptHash) ==> IsSha256(r.receiptHash.value)
  }

  predicate BindingParses(b: Binding) {
    IsIdentifier(b.value) && IsIdentifier(b.reservationId) && IsSha256(b.requestFingerprint)
  }

  predicate CounterParses(c: Counter) {
    && IsIdentifier(c.mandateId) && c.held >= 0 && c.version >= 1
    && (c.scope.IncidentScope? <==> c.incidentId.Some?)
    && (c.scope.DailyScope? <==> c.budgetDay.Some?)
  }

  /** assertCounterIdentity */
  predicate Identifies(c: Counter, key: CounterKey) {
    && c.mandateId == key.mandateId
    && match key
       case IncidentCounter(_, incidentId) => c.scope == IncidentScope && c.incidentId == Some(incidentId)
       case DailyCounter(_, day) => c.scope == DailyScope && c.budgetDay == Some(day)
  }

  function MakeCounter(key: CounterKey, held: int, version: int, at: int): Counter {
    match key
    case IncidentCounter(mandateId, incidentId) => Counter(IncidentScope, mandateId, Some(incidentId), None, held,
      version, at)
    case DailyCounter(mandateId, day) => Counter(DailyScope, mandateId, None, Some(day), held, version, at)
  }

  predicate CounterReadable(c: State, key: CounterKey) {
    key in c.counters ==> CounterParses(c.counters[key]) && Identifies(c.counters[key], key)
  }

  function Held(c: State, key: CounterKey): int {
    if key in c.counters then c.counters[key].held else 0
  }

  /** The counter documents after `key` has been set to hold `held`. */
  function Set(counters: map<CounterKey, Counter>, key: CounterKey, held: int, at: int): map<CounterKey, Counter> {
    counters[key := MakeCounter(key, held, if key in counters then counters[key].version + 1 else 1, at)]
  }

  function BindingOf(c: State, kind: IdentifierKind, value: string): Option<Binding> {
    Find(c.bindings, BindingKey(kind, value))
  }

  predicate BindingReadable(c: State, kind: IdentifierKind, value: string) {
    BindingKey(kind, value) in c.bindings ==> BindingParses(c.bindings[BindingKey(kind, value)])
  }

  function TargetOf(b: Option<Binding>): Option<string> {
    if b.Some? then Some(b.value.reservationId) else None
  }

  function NewBinding(q: ReserveRequest, kind: IdentifierKind, value: string): Binding {
    Binding(kind, value, q.reservationId, q.requestFingerprint, q.occurredAt)
  }

  function WithBindings(bindings: map<BindingKey, Binding>, q: ReserveRequest): map<BindingKey, Binding> {
    bindings[BindingKey(ByPaymentId, q.paymentId) := NewBinding(q, ByPaymentId, q.paymentId)]
            [BindingKey(ByNonce, q.nonce) := NewBinding(q, ByNonce, q.nonce)]
            [BindingKey(ByIdempotencyKey, q.idempotencyKey) := NewBinding(q, ByIdempotencyKey, q.idempotencyKey)]
  }

  function ReserveEffect(c: State, q: ReserveRequest): (Result<ReserveOutcome>, State) {
    var payment := BindingOf(c, ByPaymentId, q.paymentId);
    var nonce := BindingOf(c, ByNonce, q.nonce);
    var key := BindingOf(c, ByIdempotencyKey, q.idempotencyKey);
    var bound := BoundIds(TargetOf(payment), TargetOf(nonce), TargetOf(key));
    if !ValidRequest(q) || !FirstReadsParse(c, q) then (Rejected, c)
    else if q.reservationId in c.reservations then
      var direct := c.reservations[q.reservationId];
      var mine := Some(direct.reservationId);
      (Ok(if SameRequest(direct, q) && TargetOf(payment) == mine && TargetOf(nonce) == mine && TargetOf(key) == mine
          then Existing(direct) else Conflict(ReservationId, direct.reservationId)), c)
    else if |bound| > 1 then (Ok(Conflict(MixedIdentifierBinding, CodeUnitOrder.Least(bound))), c)
    else if |bound| == 1 then
      (Ok(Conflict(if payment.Some? then PaymentId else if nonce.Some? then Nonce else IdempotencyKey, bound[0])), c)
    else ReserveNew(c, q)
  }

  predicate FirstReadsParse(c: State, q: ReserveRequest) {
    && (q.reservationId in c.reservations ==> ReservationParses(c.reservations[q.reservationId]))
    && BindingReadable(c, ByPaymentId, q.paymentId)
    && BindingReadable(c, ByNonce, q.nonce)
    && BindingReadable(c, ByIdempotencyKey, q.idempotencyKey)
  }

  function ReserveNew(c: State, q: ReserveRequest): (Result<ReserveOutcome>, State) {
    var incidentKey := IncidentCounter(q.mandateId, q.incidentId);
    var dailyKey := DailyCounter(q.mandateId, BudgetDay(q.occurredAt));
    var incident, daily := Held(c, incidentKey), Held(c, dailyKey);
    if !CounterReadable(c, incidentKey) || !CounterReadable(c, dailyKey) then (Rejected, c)
    else if incident + q.amount > q.incidentLimit then
      (Ok(BudgetExceeded(IncidentScope, incident, q.amount, q.incidentLimit)), c)
    else if daily + q.amount > q.dailyLimit then
      (Ok(BudgetExceeded(DailyScope, daily, q.amount, q.dailyLimit)), c)
    else
      (Ok(NewlyReserved(Opened(q), Usage(incident, daily), Usage(incident + q.amount, daily + q.amount))),
       State(c.reservations[q.reservationId := Opened(q)],
             WithBindings(c.bindings, q),
             Set(Set(c.counters, incidentKey, incident + q.amount, q.occurredAt),
                 dailyKey, daily + q.amount, q.occurredAt)))
  }

  function TransitionEffect(
      c: State, id: string, expected: seq<ReservationState>, next: ReservationState, at: int, patch: Patch)
    : (Result<Reservation>, State)
  {
    if !IsIdentifier(id) || expected == [] || id !in c.reservations || !ReservationParses(c.reservations[id])
       || !MayTransition(c.reservations[id], expected, next, patch)
    then (Rejected, c)
    else
      var record := c.reservations[id];
      var updated := Transitioned(record, next, at, patch);
      var c' := c.(reservations := c.reservations[id := updated]);
      if Holding(record.state) && !Holding(next) then
        var incidentKey := IncidentCounter(record.mandateId, record.incidentId);
        var dailyKey := DailyCounter(record.mandateId, record.budgetDay);
        if || incidentKey !in c.counters || dailyKey !in c.counters
           || !CounterReadable(c, incidentKey) || !CounterReadable(c, dailyKey)
           || Held(c, incidentKey) < record.amount || Held(c, dailyKey) < record.amount
        then (Rejected, c)
        else
          (Ok(updated),
           c'.(counters := Set(Set(c.counters, incidentKey, Held(c, incidentKey) - record.amount, at),
                               dailyKey, Held(c, dailyKey) - record.amount, at)))
      else (Ok(updated), c')
  }

  function UsageRead(c: State, mandateId: string, incidentId: string, at: int): Result<Usage> {
    var incidentKey := IncidentCounter(mandateId, incidentId);
    var dailyKey := DailyCounter(mandateId, BudgetDay(at));
    if !IsIdentifier(mandateId) || !IsIdentifier(incidentId) || !CounterReadable(c, incidentKey)
      || !CounterReadable(c, dailyKey)
    then Rejected
    else Ok(Usage(Held(c, incidentKey), Held(c, dailyKey)))
  }

  function Lookup(c: State, id: string): Result<Option<Reservation>> {
    if !IsIdentifier(id) then Rejected
    else if id !in c.reservations then Ok(None)
    else if ReservationParses(c.reservations[id]) then Ok(Some(c.reservations[id]))
    else Rejected
  }

  function LookupBy(c: State, kind: IdentifierKind, value: string): Result<Option<Reservation>> {
    var binding := BindingOf(c, kind, value);
    if !IsIdentifier(value) then Rejected
    else if binding.None? then Ok(None)
    else if !BindingParses(binding.value) || binding.value.kind != kind || binding.value.value != value then Rejected
    else if binding.value.reservationId !in c.reservations then Rejected
    else
      var record := c.reservations[binding.value.reservationId];
      if ReservationParses(record) && IdentifierOf(record, kind) == value
         && record.requestFingerprint == binding.value.requestFingerprint
      then Ok(Some(record)) else Rejected
  }

  function Step(c: State, call: Call): (Result<Response>, State) {
    match call
    case Reserve(q) =>
      var (r, c') := ReserveEffect(c, q);
      (if r.Ok? then Ok(ReserveResponse(r.value)) else Rejected, c')
    case Transition(id, expected, next, at, patch) =>
      var (r, c') := TransitionEffect(c, id, expected, next, at, patch);
      (if r.Ok? then Ok(RecordResponse(r.value)) else Rejected, c')
    case GetUsage(mandateId, incidentId, at) =>
      var r := UsageRead(c, mandateId, incidentId, at);
      (if r.Ok? then Ok(UsageResponse(r.value)) else Rejected, c)
    case Get(id) =>
      var r := Lookup(c, id);
      (if r.Ok? then Ok(LookupResponse(r.value)) else Rejected, c)
    case GetBy(kind, value) =>
      var r := LookupBy(c, kind, value);
      (if r.Ok? then Ok(LookupResponse(r.value)) else Rejected, c)
  }

  class Repository {
    var reservations: map<string, Reservation>
    var bindings: map<BindingKey, Binding>
    var counters: map<CounterKey, Counter>

    function Contents(): State
      reads this
    {
      State(reservations, bindings, counters)
    }

    constructor ()
      ensures Contents() == EMPTY
    {
      reservations, bindings, counters := map[], map[], map[];
    }

    /** Reads, validates and identifies one counter document; an absent one counts as zero. */
    method ReadCounter(key: CounterKey) returns (held: Result<int>)
      ensures held == if CounterReadable(Contents(), key) then Ok(Held(Contents(), key)) else Rejected
    {
      if key !in counters {
        return Ok(0);
      }
      var counter := counters[key];
      if !CounterParses(counter) || !Identifies(counter, key) {
        return Rejected;
      }
      held := Ok(counter.held);
    }

    method SetCounter(key: CounterKey, held: int, at: int)
      modifies this`counters
      ensures counters == Set(old(counters), key, held, at)
    {
      var version := if key in counters then counters[key].version else 0;
      counters := counters[key := MakeCounter(key, held, version + 1, at)];
    }

    method ReserveBudget(q: ReserveRequest) returns (r: Result<ReserveOutcome>)
      modifies this
      ensures (r, Contents()) == ReserveEffect(old(Contents()), q)
    {
      if !ValidRequest(q) {
        return Rejected;
      }
      var payment := Find(bindings, BindingKey(ByPaymentId, q.paymentId));
      var nonce := Find(bindings, BindingKey(ByNonce, q.nonce));
      var key := Find(bindings, BindingKey(ByIdempotencyKey, q.idempotencyKey));
      if !FirstReadsParse(Contents(), q) {
        return Rejected;
      }
      var bound := BoundIds(TargetOf(payment), TargetOf(nonce), TargetOf(key));
      if q.reservationId in reservations {
        var direct := reservations[q.reservationId];
        var mine := Some(direct.reservationId);
        if SameRequest(direct, q) && TargetOf(payment) == mine && TargetOf(nonce) == mine && TargetOf(key) == mine {
          return Ok(Existing(direct));
        }
        return Ok(Conflict(ReservationId, direct.reservationId));
      }
      if |bound| > 1 {
        return Ok(Conflict(MixedIdentifierBinding, CodeUnitOrder.Least(bound)));
      }
      if |bound| == 1 {
        var reason := if payment.Some? then PaymentId else if nonce.Some? then Nonce else IdempotencyKey;
        return Ok(Conflict(reason, bound[0]));
      }
      r := CreateReservation(q);
    }

    /** The rest of reserveBudget once no identifier of the request is known. */
    method CreateReservation(q: ReserveRequest) returns (r: Result<ReserveOutcome>)
      modifies this
      ensures (r, Contents()) == ReserveNew(old(Contents()), q)
    {
      var incidentKey := IncidentCounter(q.mandateId, q.incidentId);
      var dailyKey := DailyCounter(q.mandateId, BudgetDay(q.occurredAt));
      var incident := ReadCounter(incidentKey);
      var daily := ReadCounter(dailyKey);
      if incident.Rejected? || daily.Rejected? {
        return Rejected;
      }
      if incident.value + q.amount > q.incidentLimit {
        return Ok(BudgetExceeded(IncidentScope, incident.value, q.amount, q.incidentLimit));
      }
      if daily.value + q.amount > q.dailyLimit {
        return Ok(BudgetExceeded(DailyScope, daily.value, q.amount, q.dailyLimit));
      }
      var record := Opened(q);
      reservations := reservations[q.reservationId := record];
      bindings := WithBindings(bindings, q);
      SetCounter(incidentKey, incident.value + q.amount, q.occurredAt);
      SetCounter(dailyKey, daily.value + q.amount, q.occurredAt);
      r := Ok(NewlyReserved(record, Usage(incident.value, daily.value),
                            Usage(incident.value + q.amount, daily.value + q.amount)));
    }

    method TransitionReservation(
        id: string, expected: seq<ReservationState>, next: ReservationState, at: int, patch: Patch)
      returns (r: Result<Reservation>)
      modifies this
      ensures (r, Contents()) == TransitionEffect(old(Contents()), id, expected, next, at, patch)
    {
      if !IsIdentifier(id) || expected == [] || id !in reservations || !ReservationParses(reservations[id]) {
        return Rejected;
      }
      var record := reservations[id];
      if !MayTransition(record, expected, next, patch) {
        return Rejected;
      }
      var updated := Transitioned(record, next, at, patch);
      if Holding(record.state) && !Holding(next) {
        var incidentKey := IncidentCounter(record.mandateId, record.incidentId);
        var dailyKey := DailyCounter(record.mandateId, record.budgetDay);
        if incidentKey !in counters || dailyKey !in counters {
          return Rejected;
        }
        var incident := ReadCounter(incidentKey);
        var daily := ReadCounter(dailyKey);
        if incident.Rejected? || daily.Rejected? {
          return Rejected;
        }
        if incident.value < record.amount || daily.value < record.amount {
          return Rejected;
        }
        SetCounter(incidentKey, incident.value - record.amount, at);
        SetCounter(dailyKey, daily.value - record.amount, at);
      }
      reservations := reservations[id := updated];
      r := Ok(updated);
    }

    method GetBudgetUsage(mandateId: string, incidentId: string, at: int) returns (usage: Result<Usage>)
      ensures usage == UsageRead(Contents(), mandateId, incidentId, at)
    {
      if !IsIdentifier(mandateId) || !IsIdentifier(incidentId) {
        return Rejected;
      }
      var incident := ReadCounter(IncidentCounter(mandateId, incidentId));
      var daily := ReadCounter(DailyCounter(mandateId, BudgetDay(at)));
      if incident.Rejected? || daily.Rejected? {
        return Rejected;
      }
      usage := Ok(Usage(incident.value, daily.value));
    }

    method GetReservationBy(kind: IdentifierKind, value: string) returns (found: Result<Option<Reservation>>)
      ensures found == LookupBy(Contents(), kind, value)
    {
      if !IsIdentifier(value) {
        return Rejected;
      }
      if BindingKey(kind, value) !in bindings {
        return Ok(None);
      }
      var binding := bindings[BindingKey(kind, value)];
      if !BindingParses(binding) || binding.kind != kind || binding.value != value {
        return Rejected;
      }
      if binding.reservationId !in reservations || !ReservationParses(reservations[binding.reservationId]) {
        return Rejected;
      }
      var record := reservations[binding.reservationId];
      if IdentifierOf(record, kind) != value || record.requestFingerprint != binding.requestFingerprint {
        return Rejected;
      }
      found := Ok(Some(record));
    }
  }
}
