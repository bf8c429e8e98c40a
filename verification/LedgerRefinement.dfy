/**
 * The counter-and-binding ledger refines the recompute-by-loop ledger: coupled
 * states answer every well-formed call alike and stay coupled.
 */
module LedgerRefinement {
  import opened Prelude
  import opened Schemas
  import opened Ledger
  import opened LedgerSum
  import opened LedgerHistory
  import opened LedgerBudget
  import M = MemoryLedger
  import C = CounterLedger

  function FilterOf(key: C.CounterKey): Filter {
    match key
    case IncidentCounter(mandateId, incidentId) => OfIncident(mandateId, incidentId, true)
    case DailyCounter(mandateId, day) => OfDay(mandateId, day, true)
  }

  /** Every counter document is readable and holds exactly the sum of its budget-holding reservations. */
  ghost predicate CountersExact(c: C.State) {
    && (forall key :: C.CounterReadable(c, key) && C.Held(c, key) == Sum(c.reservations, FilterOf(key)))
    && (forall id :: id in c.reservations ==> CountersOf(c.reservations[id]) <= c.counters.Keys)
  }

  function CountersOf(r: Reservation): set<C.CounterKey> {
    {C.IncidentCounter(r.mandateId, r.incidentId), C.DailyCounter(r.mandateId, r.budgetDay)}
  }

  /** The binding documents of one kind say what the memory index of that kind says. */
  ghost predicate BindingsMatch(s: M.State, c: C.State, kind: IdentifierKind) {
    && (forall value :: C.BindingKey(kind, value) in c.bindings <==> value in s.Index(kind))
    && (forall value :: value in s.Index(kind) && s.Index(kind)[value] in s.reservations ==>
          BindingExact(c, kind, value, s.reservations[s.Index(kind)[value]]))
  }

  ghost predicate BindingExact(c: C.State, kind: IdentifierKind, value: string, r: Reservation) {
    var binding := C.BindingOf(c, kind, value);
    && binding.Some? && binding.value.kind == kind && binding.value.value == value
    && binding.value.reservationId == r.reservationId
    && binding.value.requestFingerprint == r.requestFingerprint
  }

  ghost predicate Coupled(s: M.State, c: C.State) {
    && Inv(s)
    && s.reservations == c.reservations
    && (forall kind :: BindingsMatch(s, c, kind))
    && CountersExact(c)
  }

  ghost predicate ReceiptsParse(m: map<string, Reservation>) {
    forall id :: id in m ==> C.ReceiptParses(m[id])
  }

  /** What Firestore demands of a read's arguments and the in-memory store does not. */
  predicate ArgumentsValid(call: Call) {
    match call
    case GetUsage(mandateId, incidentId, _) => IsIdentifier(mandateId) && IsIdentifier(incidentId)
    case Get(id) => IsIdentifier(id)
    case GetBy(_, value) => IsIdentifier(value)
    case _ => true
  }

  predicate PatchWellFormed(call: Call) {
    call.Transition? && Truthy(call.patch.receiptHash) ==> IsSha256(call.patch.receiptHash.value)
  }

  lemma EmptyCoupled()
    ensures Coupled(M.EMPTY, C.EMPTY) && ReceiptsParse(M.EMPTY.reservations)
  {
  }

  // Reads.

  lemma BoundAlike(s: M.State, c: C.State, kind: IdentifierKind, value: string)
    requires Inv(s) && BindingsMatch(s, c, kind)
    ensures C.TargetOf(C.BindingOf(c, kind, value)) == Find(s.Index(kind), value)
    ensures C.BindingReadable(c, kind, value)
    ensures value in s.Index(kind) ==>
      && s.Index(kind)[value] in s.reservations
      && IdentifierOf(s.reservations[s.Index(kind)[value]], kind) == value
      && BindingExact(c, kind, value, s.reservations[s.Index(kind)[value]])
      && IsIdentifier(value) && IsIdentifier(s.Index(kind)[value])
  {
    assert IndexInverse(s.reservations, s.Index(kind), kind);
    if value in s.Index(kind) {
      var r := s.reservations[s.Index(kind)[value]];
      assert Lawful(r);
      assert BindingExact(c, kind, value, r);
    }
  }

  lemma RecordParses(s: M.State, id: string)
    requires Inv(s) && id in s.reservations
    ensures C.ReservationParses(s.reservations[id]) <==> C.ReceiptParses(s.reservations[id])
    ensures s.reservations[id].reservationId == id && IsIdentifier(id)
  {
    assert Lawful(s.reservations[id]);
  }

  lemma LookupsAgree(s: M.State, c: C.State, call: Call)
    requires Coupled(s, c) && ReceiptsParse(s.reservations) && (call.Get? || call.GetBy?)
    ensures M.Step(s, call).0 == C.Step(c, call).0 <==> ArgumentsValid(call)
  {
    hide IsSha256, CountersExact, AllLawful, IndexesInverse;
    match call
    case Get(id) =>
      if id in s.reservations { RecordParses(s, id); }
    case GetBy(kind, value) =>
      BoundAlike(s, c, kind, value);
      if value in s.Index(kind) { RecordParses(s, s.Index(kind)[value]); }
  }

  // Counters.

  lemma CountersAfterReserve(c: C.State, q: ReserveRequest)
    requires CountersExact(c) && ValidRequest(q) && q.reservationId !in c.reservations
    requires C.ReserveNew(c, q).0 != Rejected && C.ReserveNew(c, q).0.value.NewlyReserved?
    ensures CountersExact(C.ReserveNew(c, q).1)
  {
    hide C.ReservationParses, IsIdentifier, IsSha256;
    var c' := C.ReserveNew(c, q).1;
    forall key ensures C.CounterReadable(c', key) && C.Held(c', key) == Sum(c'.reservations, FilterOf(key)) {
      SumUpdated(c.reservations, q.reservationId, Opened(q), FilterOf(key));
      assert C.CounterReadable(c, key) && C.Held(c, key) == Sum(c.reservations, FilterOf(key));
    }
  }

  lemma CountersUnmoved(c: C.State, id: string, r: Reservation)
    requires CountersExact(c) && id in c.reservations
    requires CountersOf(r) == CountersOf(c.reservations[id])
    requires forall f :: Weight(r, f) == Weight(c.reservations[id], f) || !f.onlyHolding
    ensures CountersExact(c.(reservations := c.reservations[id := r]))
  {
    var c' := c.(reservations := c.reservations[id := r]);
    forall key ensures C.CounterReadable(c', key) && C.Held(c', key) == Sum(c'.reservations, FilterOf(key)) {
      SumUpdated(c.reservations, id, r, FilterOf(key));
      assert C.CounterReadable(c, key) && C.Held(c, key) == Sum(c.reservations, FilterOf(key));
    }
  }

  /** A holding reservation's counters exist and hold at least its amount: neither integrity error can fire. */
  lemma CountersCover(c: C.State, id: string)
    requires CountersExact(c) && id in c.reservations && Holding(c.reservations[id].state)
    requires forall x :: x in c.reservations ==> c.reservations[x].amount > 0
    ensures forall key :: key in CountersOf(c.reservations[id]) ==>
      key in c.counters && C.CounterReadable(c, key) && C.Held(c, key) >= c.reservations[id].amount
  {
    forall key | key in CountersOf(c.reservations[id])
      ensures key in c.counters && C.CounterReadable(c, key) && C.Held(c, key) >= c.reservations[id].amount
    {
      assert C.CounterReadable(c, key) && C.Held(c, key) == Sum(c.reservations, FilterOf(key));
      SumWithout(c.reservations, id, FilterOf(key));
      SumMonotone(c.reservations - {id}, c.reservations, FilterOf(key));
    }
  }

  lemma CountersAfterRelease(c: C.State, id: string, r: Reservation, at: int)
    requires CountersExact(c) && id in c.reservations && Holding(c.reservations[id].state) && !Holding(r.state)
    requires forall x :: x in c.reservations ==> c.reservations[x].amount > 0
    requires CountersOf(r) == CountersOf(c.reservations[id])
    requires IsIdentifier(c.reservations[id].mandateId)
    ensures
      var held := c.reservations[id];
      var i, d := C.IncidentCounter(held.mandateId, held.incidentId), C.DailyCounter(held.mandateId, held.budgetDay);
      CountersExact(C.State(c.reservations[id := r], c.bindings,
        C.Set(C.Set(c.counters, i, C.Held(c, i) - held.amount, at), d, C.Held(c, d) - held.amount, at)))
  {
    var held := c.reservations[id];
    var i, d := C.IncidentCounter(held.mandateId, held.incidentId), C.DailyCounter(held.mandateId, held.budgetDay);
    var c' := C.State(c.reservations[id := r], c.bindings,
        C.Set(C.Set(c.counters, i, C.Held(c, i) - held.amount, at), d, C.Held(c, d) - held.amount, at));
    CountersCover(c, id);
    assert {i, d} == CountersOf(held);
    forall key ensures C.CounterReadable(c', key) && C.Held(c', key) == Sum(c'.reservations, FilterOf(key)) {
      SumUpdated(c.reservations, id, r, FilterOf(key));
      assert C.CounterReadable(c, key) && C.Held(c, key) == Sum(c.reservations, FilterOf(key));
    }
  }

  // Writes.

  lemma WithBindingsAt(bindings: map<C.BindingKey, C.Binding>, q: ReserveRequest, kind: IdentifierKind, value: string)
    ensures Find(C.WithBindings(bindings, q), C.BindingKey(kind, value)) ==
      if value == IdentifierOf(Opened(q), kind) then Some(C.NewBinding(q, kind, value))
      else Find(bindings, C.BindingKey(kind, value))
  {
  }

  lemma BindingsAfterReserve(s: M.State, c: C.State, q: ReserveRequest, kind: IdentifierKind, c': C.State)
    requires c'.bindings == C.WithBindings(c.bindings, q)
    requires Inv(s) && BindingsMatch(s, c, kind)
    requires q.reservationId !in s.reservations && M.Bound(s, q) == []
    ensures BindingsMatch(M.Inserted(s, Opened(q)), c', kind)
  {
    hide Lawful, AllLawful, IndexesInverse, IndexInverse, C.WithBindings, M.Bound;
    UnboundIdentifiers(s, q, kind);
    InsertedIndex(s, Opened(q), kind);
    var s' := M.Inserted(s, Opened(q));
    forall value
      ensures C.BindingKey(kind, value) in c'.bindings <==> value in s'.Index(kind)
      ensures value in s'.Index(kind) && s'.Index(kind)[value] in s'.reservations ==>
        BindingExact(c', kind, value, s'.reservations[s'.Index(kind)[value]])
    {
      WithBindingsAt(c.bindings, q, kind, value);
      BoundAlike(s, c, kind, value);
    }
  }

  lemma BindingsAfterTransition(s: M.State, c: C.State, id: string, r: Reservation, kind: IdentifierKind, c': C.State)
    requires c'.bindings == c.bindings
    requires Inv(s) && BindingsMatch(s, c, kind) && id in s.reservations
    requires r.reservationId == s.reservations[id].reservationId
    requires r.requestFingerprint == s.reservations[id].requestFingerprint
    ensures BindingsMatch(s.(reservations := s.reservations[id := r]), c', kind)
  {
    hide Lawful, AllLawful, IndexesInverse, IndexInverse;
    var s' := s.(reservations := s.reservations[id := r]);
    assert s'.Index(kind) == s.Index(kind);
    forall value | value in s'.Index(kind) && s'.Index(kind)[value] in s'.reservations
      ensures BindingExact(c', kind, value, s'.reservations[s'.Index(kind)[value]])
    {
      BoundAlike(s, c, kind, value);
    }
  }

  lemma OwnBindings(s: M.State, q: ReserveRequest, kind: IdentifierKind)
    requires Inv(s) && q.reservationId in s.reservations && SameRequest(s.reservations[q.reservationId], q)
    ensures Find(s.Index(kind), IdentifierOf(Opened(q), kind)) == Some(q.reservationId)
  {
    assert IndexInverse(s.reservations, s.Index(kind), kind);
  }

  /** Both stores give one answer about a request one of whose identifiers they know. */
  lemma KnownAlike(s: M.State, c: C.State, q: ReserveRequest)
    requires Coupled(s, c) && ReceiptsParse(s.reservations) && ValidRequest(q)
    ensures C.FirstReadsParse(c, q)
    ensures M.Known(s, q).Some? ==> C.ReserveEffect(c, q) == (M.Known(s, q).value, c)
    ensures M.Known(s, q).None? ==>
      q.reservationId !in s.reservations && M.Bound(s, q) == [] && C.ReserveEffect(c, q) == C.ReserveNew(c, q)
  {
    hide Lawful, AllLawful, IndexesInverse, IndexInverse, BindingsMatch, CountersExact, BindingExact;
    BoundAlike(s, c, ByPaymentId, q.paymentId);
    BoundAlike(s, c, ByNonce, q.nonce);
    BoundAlike(s, c, ByIdempotencyKey, q.idempotencyKey);
    if q.reservationId in s.reservations {
      RecordParses(s, q.reservationId);
      if SameRequest(s.reservations[q.reservationId], q) {
        OwnBindings(s, q, ByPaymentId);
        OwnBindings(s, q, ByNonce);
        OwnBindings(s, q, ByIdempotencyKey);
      }
    } else if |M.Bound(s, q)| == 1 {
      RecordParses(s, M.Bound(s, q)[0]);
    }
  }

  lemma NewReserveAgrees(s: M.State, c: C.State, q: ReserveRequest)
    requires CountersExact(c) && s.reservations == c.reservations && ValidRequest(q)
    requires M.Known(s, q).None?
    ensures M.ReserveEffect(s, q).0 == C.ReserveNew(c, q).0
    ensures M.ReserveEffect(s, q).1 == if C.ReserveNew(c, q).0.value.NewlyReserved? then M.Inserted(s, Opened(q)) else s
    ensures !C.ReserveNew(c, q).0.value.NewlyReserved? ==> C.ReserveNew(c, q).1 == c
    ensures C.ReserveNew(c, q).0.value.NewlyReserved? ==>
      && C.ReserveNew(c, q).1.reservations == c.reservations[q.reservationId := Opened(q)]
      && C.ReserveNew(c, q).1.bindings == C.WithBindings(c.bindings, q)
  {
    hide IsIdentifier, IsSha256, M.Known, C.WithBindings, M.Inserted;
    var i, d := C.IncidentCounter(q.mandateId, q.incidentId), C.DailyCounter(q.mandateId, BudgetDay(q.occurredAt));
    assert C.CounterReadable(c, i) && C.Held(c, i) == Sum(c.reservations, FilterOf(i));
    assert C.CounterReadable(c, d) && C.Held(c, d) == Sum(c.reservations, FilterOf(d));
    hide CountersExact, C.CounterReadable, C.Held;
  }

  lemma CoupledAfterReserve(s: M.State, c: C.State, q: ReserveRequest)
    requires Coupled(s, c) && ReceiptsParse(s.reservations) && ValidRequest(q)
    requires q.reservationId !in s.reservations && M.Bound(s, q) == []
    requires C.ReserveNew(c, q).0.Ok? && C.ReserveNew(c, q).0.value.NewlyReserved?
    requires C.ReserveNew(c, q).1.reservations == c.reservations[q.reservationId := Opened(q)]
    requires C.ReserveNew(c, q).1.bindings == C.WithBindings(c.bindings, q)
    ensures Coupled(M.Inserted(s, Opened(q)), C.ReserveNew(c, q).1)
    ensures ReceiptsParse(M.Inserted(s, Opened(q)).reservations)
  {
    hide Inv, ValidRequest, BindingsMatch, CountersExact, IsSha256, C.ReserveNew, C.WithBindings, M.Bound;
    InsertedKeepsInv(s, q);
    CountersAfterReserve(c, q);
    forall kind ensures BindingsMatch(M.Inserted(s, Opened(q)), C.ReserveNew(c, q).1, kind) {
      BindingsAfterReserve(s, c, q, kind, C.ReserveNew(c, q).1);
    }
  }

  lemma ReserveAgrees(s: M.State, c: C.State, q: ReserveRequest)
    requires Coupled(s, c) && ReceiptsParse(s.reservations)
    ensures M.ReserveEffect(s, q).0 == C.ReserveEffect(c, q).0
    ensures Coupled(M.ReserveEffect(s, q).1, C.ReserveEffect(c, q).1)
    ensures ReceiptsParse(M.ReserveEffect(s, q).1.reservations)
  {
    hide Coupled, ReceiptsParse, C.FirstReadsParse, M.Known, C.ReserveNew, M.Inserted, M.Used, SameRequest;
    if ValidRequest(q) {
      hide ValidRequest;
      CoupledParts(s, c);
      KnownAlike(s, c, q);
      if M.Known(s, q).None? {
        NewReserveAgrees(s, c, q);
        if C.ReserveNew(c, q).0.value.NewlyReserved? {
          CoupledAfterReserve(s, c, q);
        }
      }
    }
  }

  /** The counters after a transition, whether or not it gives budget back; no integrity error can stop it. */
  lemma CountersAfterTransition(
      c: C.State, id: string, expected: seq<ReservationState>, next: ReservationState, at: int, patch: Patch)
    requires CountersExact(c) && AllLawful(c.reservations) && id in c.reservations
    requires C.ReservationParses(c.reservations[id]) && IsIdentifier(id)
      && MayTransition(c.reservations[id], expected, next, patch)
    ensures
      var r := Transitioned(c.reservations[id], next, at, patch);
      var (response, c') := C.TransitionEffect(c, id, expected, next, at, patch);
      response == Ok(r) && c'.reservations == c.reservations[id := r] && c'.bindings == c.bindings && CountersExact(c')
  {
    hide AllLawful, CountersExact, C.ReservationParses, IsIdentifier, MayTransition;
    var record := c.reservations[id];
    var updated := Transitioned(record, next, at, patch);
    assert Lawful(record) by { LawfulRecord(c.reservations, id); }
    IdentifierOfMandate(record);
    LawfulAmounts(c.reservations);
    HoldingBefore(record, expected, next, patch);
    hide Lawful, C.CounterReadable;
    if Holding(record.state) && !Holding(next) {
      CountersCover(c, id);
      assert C.IncidentCounter(record.mandateId, record.incidentId) in CountersOf(record);
      assert C.DailyCounter(record.mandateId, record.budgetDay) in CountersOf(record);
      CountersAfterRelease(c, id, updated, at);
    } else {
      CountersUnmoved(c, id, updated);
    }
  }

  lemma LawfulRecord(m: map<string, Reservation>, id: string)
    requires AllLawful(m) && id in m
    ensures Lawful(m[id])
  {
    hide Lawful;
  }

  lemma IdentifierOfMandate(r: Reservation)
    requires Lawful(r)
    ensures IsIdentifier(r.mandateId)
  {
    hide IsIdentifier;
  }

  lemma LawfulAmounts(m: map<string, Reservation>)
    requires AllLawful(m)
    ensures forall id :: id in m ==> m[id].amount > 0
  {
    forall id | id in m ensures m[id].amount > 0 {
      assert Lawful(m[id]);
    }
  }

  /** A stored record that may become budget-holding is so already. */
  lemma HoldingBefore(r: Reservation, expected: seq<ReservationState>, next: ReservationState, patch: Patch)
    requires Lawful(r) && MayTransition(r, expected, next, patch)
    ensures expected != [] && (Holding(next) ==> Holding(r.state))
  {
    StoredStates(r);
  }

  lemma TransitionAgrees(
      s: M.State, c: C.State, id: string, expected: seq<ReservationState>, next: ReservationState, at: int,
        patch: Patch)
    requires Coupled(s, c)
    requires id in s.reservations ==> C.ReceiptParses(s.reservations[id])
    ensures M.TransitionEffect(s, id, expected, next, at, patch).0 == C.TransitionEffect(c, id, expected, next, at,
      patch).0
    ensures Coupled(M.TransitionEffect(s, id, expected, next, at, patch).1,
      C.TransitionEffect(c, id, expected, next, at, patch).1)
  {
    hide Lawful, AllLawful, IndexesInverse, IndexInverse, BindingsMatch, CountersExact, IsIdentifier,
      C.ReservationParses;
    if id in s.reservations && MayTransition(s.reservations[id], expected, next, patch) {
      RecordParses(s, id);
      TransitionKeepsInv(s, id, expected, next, at, patch);
      CountersAfterTransition(c, id, expected, next, at, patch);
      var r := Transitioned(s.reservations[id], next, at, patch);
      var s' := M.TransitionEffect(s, id, expected, next, at, patch).1;
      var c' := C.TransitionEffect(c, id, expected, next, at, patch).1;
      forall kind ensures BindingsMatch(s', c', kind) {
        BindingsAfterTransition(s, c, id, r, kind, c');
      }
    }
  }

  lemma UsagesAgree(s: M.State, c: C.State, mandateId: string, incidentId: string, at: int)
    requires CountersExact(c) && s.reservations == c.reservations
    ensures M.Step(s, GetUsage(mandateId, incidentId, at)).0 == C.Step(c, GetUsage(mandateId, incidentId, at)).0
      <==> IsIdentifier(mandateId) && IsIdentifier(incidentId)
  {
    hide IsIdentifier;
    var i, d := C.IncidentCounter(mandateId, incidentId), C.DailyCounter(mandateId, BudgetDay(at));
    assert C.CounterReadable(c, i) && C.Held(c, i) == Sum(c.reservations, FilterOf(i));
    assert C.CounterReadable(c, d) && C.Held(c, d) == Sum(c.reservations, FilterOf(d));
    hide C.CounterReadable, C.Held, CountersExact;
  }

  lemma CoupledParts(s: M.State, c: C.State)
    requires Coupled(s, c)
    ensures CountersExact(c) && s.reservations == c.reservations
  {
    hide CountersExact, Inv, BindingsMatch;
  }

  lemma ReceiptsAfterTransition(
      s: M.State, id: string, expected: seq<ReservationState>, next: ReservationState, at: int, patch: Patch)
    requires ReceiptsParse(s.reservations) && PatchWellFormed(Transition(id, expected, next, at, patch))
    ensures ReceiptsParse(M.TransitionEffect(s, id, expected, next, at, patch).1.reservations)
  {
    hide IsSha256, MayTransition;
  }

  /** One call: the two stores answer alike exactly when the arguments are valid, and stay coupled either way. */
  lemma StepAgrees(s: M.State, c: C.State, call: Call)
    requires Coupled(s, c) && ReceiptsParse(s.reservations)
    ensures M.Step(s, call).0 == C.Step(c, call).0 <==> ArgumentsValid(call)
    ensures Coupled(M.Step(s, call).1, C.Step(c, call).1)
    ensures PatchWellFormed(call) ==> ReceiptsParse(M.Step(s, call).1.reservations)
  {
    hide Coupled, M.ReserveEffect, C.ReserveEffect, M.TransitionEffect, C.TransitionEffect, PatchWellFormed;
    match call
    case Reserve(q) => ReserveAgrees(s, c, q);
    case Transition(id, expected, next, at, patch) =>
      CoupledParts(s, c);
      TransitionAgrees(s, c, id, expected, next, at, patch);
      if PatchWellFormed(call) {
        ReceiptsAfterTransition(s, id, expected, next, at, patch);
      }
    case GetUsage(mandateId, incidentId, at) =>
      CoupledParts(s, c);
      UsagesAgree(s, c, mandateId, incidentId, at);
    case Get(_) => LookupsAgree(s, c, call);
    case GetBy(_, _) => LookupsAgree(s, c, call);
  }

  // Whole runs.

  function CounterRun(c: C.State, calls: seq<Call>): (seq<Result<Response>>, C.State)
    decreases |calls|
  {
    if calls == [] then ([], c)
    else
      var (response, c') := C.Step(c, calls[0]);
      var (responses, c'') := CounterRun(c', calls[1..]);
      ([response] + responses, c'')
  }

  /**
   * For every sequence of calls with well-formed patches, the two ledgers give
   * the same responses exactly when every read has valid identifiers.
   */
  lemma {:induction false} RunsAgree(s: M.State, c: C.State, calls: seq<Call>)
    requires Coupled(s, c) && ReceiptsParse(s.reservations)
    requires forall call :: call in calls ==> PatchWellFormed(call)
    ensures Run(s, calls).0 == CounterRun(c, calls).0 <==> forall call :: call in calls ==> ArgumentsValid(call)
    ensures Coupled(Run(s, calls).1, CounterRun(c, calls).1) && ReceiptsParse(Run(s, calls).1.reservations)
    decreases |calls|
  {
    if calls == [] {
    } else {
      StepAgrees(s, c, calls[0]);
      var s', c' := M.Step(s, calls[0]).1, C.Step(c, calls[0]).1;
      RunsAgree(s', c', calls[1..]);
      var xs, ys := Run(s, calls).0, CounterRun(c, calls).0;
      assert xs[0] == M.Step(s, calls[0]).0 && xs[1..] == Run(s', calls[1..]).0;
      assert ys[0] == C.Step(c, calls[0]).0 && ys[1..] == CounterRun(c', calls[1..]).0;
      assert xs == [xs[0]] + xs[1..] && ys == [ys[0]] + ys[1..];
      assert calls == [calls[0]] + calls[1..];
    }
  }

  /** From empty stores: the fast ledger is the simple one. */
  lemma StoresAgree(calls: seq<Call>)
    requires forall call :: call in calls ==> PatchWellFormed(call)
    ensures Run(M.EMPTY, calls).0 == CounterRun(C.EMPTY, calls).0
      <==> forall call :: call in calls ==> ArgumentsValid(call)
  {
    EmptyCoupled();
    RunsAgree(M.EMPTY, C.EMPTY, calls);
  }

  lemma GetSeparates(s: M.State, c: C.State, id: string)
    requires Coupled(s, c) && id in s.reservations && !C.ReceiptParses(s.reservations[id])
    ensures IsIdentifier(id) && Run(s, [Get(id)]).0 != CounterRun(c, [Get(id)]).0
  {
    RecordParses(s, id);
    hide Coupled, Inv;
    var later := [Get(id)];
    assert later[1..] == [];
    assert Run(s, later).0 == [M.Step(s, Get(id)).0];
    assert CounterRun(c, later).0 == [C.Step(c, Get(id)).0];
    assert Run(s, later).0[0] != CounterRun(c, later).0[0];
  }

  /** No sequence of well-formed calls tells the two stores apart. */
  ghost predicate Indistinguishable(s: M.State, c: C.State) {
    forall later :: (forall x :: x in later ==> ArgumentsValid(x) && PatchWellFormed(x))
      ==> Run(s, later).0 == CounterRun(c, later).0
  }

  /**
   * A malformed receipt hash: both stores accept the transition with the same
   * answer, but from then on some well-formed calls tell them apart exactly
   * when the hash that was stored is malformed.
   */
  lemma MalformedReceiptSeparates(s: M.State, c: C.State, call: Call)
    requires Coupled(s, c) && ReceiptsParse(s.reservations)
    requires call.Transition? && M.Step(s, call).0.Ok?
    ensures M.Step(s, call).0 == C.Step(c, call).0
    ensures Indistinguishable(M.Step(s, call).1, C.Step(c, call).1) <==> PatchWellFormed(call)
  {
    hide Coupled, IsSha256;
    var s', c' := M.Step(s, call).1, C.Step(c, call).1;
    StepAgrees(s, c, call);
    if PatchWellFormed(call) {
      forall later | forall x :: x in later ==> ArgumentsValid(x) && PatchWellFormed(x)
        ensures Run(s', later).0 == CounterRun(c', later).0
      {
        RunsAgree(s', c', later);
      }
    } else {
      assert !C.ReceiptParses(s'.reservations[call.id]);
      GetSeparates(s', c', call.id);
    }
  }

  // Such a run.

  lemma EmptyReserves(q: ReserveRequest)
    requires ValidRequest(q) && q.amount <= q.incidentLimit && q.amount <= q.dailyLimit
    ensures M.Step(M.EMPTY, Reserve(q)).0.Ok?
    ensures M.Step(M.EMPTY, Reserve(q)).1.reservations == map[q.reservationId := Opened(q)]
  {
    hide ValidRequest;
    assert M.Known(M.EMPTY, q).None?;
    assert M.Used(map[], q.mandateId, q.incidentId, BudgetDay(q.occurredAt)) == Usage(0, 0);
  }

  /** The steps from the fresh reservation to fulfilled, with a given receipt hash. */
  function ToFulfilled(id: string, receiptHash: string): seq<Call> {
    var none := Patch(None, None, None, None);
    [Transition(id, [Reserved], Submitted, 0, none),
     Transition(id, [Submitted], Confirmed, 0, none.(txSignature := Some("signature"))),
     Transition(id, [Confirmed], Fulfilled, 0, none.(receiptHash := Some(receiptHash)))]
  }

  lemma OneTransition(s: M.State, call: Call, r: Reservation)
    requires call.Transition? && call.id in s.reservations && s.reservations[call.id] == r
    requires MayTransition(r, call.expected, call.next, call.patch)
    ensures M.Step(s, call).0 == Ok(RecordResponse(Transitioned(r, call.next, call.at, call.patch)))
    ensures call.id in M.Step(s, call).1.reservations
    ensures M.Step(s, call).1.reservations[call.id] == Transitioned(r, call.next, call.at, call.patch)
  {
    hide MayTransition, Transitioned;
  }

  lemma RunsCons(s: M.State, c: C.State, call: Call, rest: seq<Call>)
    ensures Run(s, [call] + rest).1 == Run(M.Step(s, call).1, rest).1
    ensures CounterRun(c, [call] + rest).1 == CounterRun(C.Step(c, call).1, rest).1
  {
    hide M.Step, C.Step;
    assert ([call] + rest)[1..] == rest;
  }

  lemma RunsNothing(s: M.State, c: C.State)
    ensures Run(s, []).1 == s && CounterRun(c, []).1 == c
  {
  }

  /** From empty stores, both accept a receipt hash that is none, and then answer a plain lookup differently. */
  lemma MalformedReceiptIsReachable(q: ReserveRequest, receiptHash: string) returns (calls: seq<Call>)
    requires ValidRequest(q) && q.amount <= q.incidentLimit && q.amount <= q.dailyLimit
    requires receiptHash != "" && !IsSha256(receiptHash)
    ensures
      var s, c := Run(M.EMPTY, calls).1, CounterRun(C.EMPTY, calls).1;
      && s.reservations == c.reservations && q.reservationId in s.reservations
      && s.reservations[q.reservationId].receiptHash == Some(receiptHash)
      && Run(s, [Get(q.reservationId)]).0 != CounterRun(c, [Get(q.reservationId)]).0
  {
    hide ValidRequest, IsSha256, IsIdentifier, Coupled, ReceiptsParse, M.Step, C.Step, Run, CounterRun;
    var id := q.reservationId;
    var t := ToFulfilled(id, receiptHash);
    EmptyCoupled();
    StepAgrees(M.EMPTY, C.EMPTY, Reserve(q));
    EmptyReserves(q);
    var s1, c1 := M.Step(M.EMPTY, Reserve(q)).1, C.Step(C.EMPTY, Reserve(q)).1;
    var r1 := Opened(q);
    OneTransition(s1, t[0], r1);
    StepAgrees(s1, c1, t[0]);
    var s2, c2, r2 := M.Step(s1, t[0]).1, C.Step(c1, t[0]).1, Transitioned(r1, Submitted, 0, t[0].patch);
    OneTransition(s2, t[1], r2);
    StepAgrees(s2, c2, t[1]);
    var s3, c3, r3 := M.Step(s2, t[1]).1, C.Step(c2, t[1]).1, Transitioned(r2, Confirmed, 0, t[1].patch);
    OneTransition(s3, t[2], r3);
    StepAgrees(s3, c3, t[2]);
    var s4, c4 := M.Step(s3, t[2]).1, C.Step(c3, t[2]).1;
    calls := [Reserve(q)] + ([t[0]] + ([t[1]] + ([t[2]] + [])));
    RunsCons(M.EMPTY, C.EMPTY, Reserve(q), [t[0]] + ([t[1]] + ([t[2]] + [])));
    RunsCons(s1, c1, t[0], [t[1]] + ([t[2]] + []));
    RunsCons(s2, c2, t[1], [t[2]] + []);
    RunsCons(s3, c3, t[2], []);
    RunsNothing(s4, c4);
    CoupledParts(s4, c4);
    assert !C.ReceiptParses(s4.reservations[id]);
    GetSeparates(s4, c4, id);
  }
}

/**
 * The counters of the Firestore ledger by themselves, over every run: any calls
 * at all, also with receipt hashes that no later read will accept.
 */
module CounterLimits {
  import opened Prelude
  import opened Schemas
  import opened Ledger
  import opened LedgerSum
  import opened LedgerHistory
  import opened LedgerBudget
  import opened LedgerRefinement
  import C = CounterLedger

  ghost predicate CountersSound(c: C.State) {
    CountersExact(c) && AllLawful(c.reservations)
  }

  lemma AcceptedReserve(c: C.State, q: ReserveRequest)
    requires C.ReserveEffect(c, q).1 != c
    ensures ValidRequest(q) && q.reservationId !in c.reservations && C.ReserveEffect(c, q) == C.ReserveNew(c, q)
    ensures C.ReserveNew(c, q).0.Ok? && C.ReserveNew(c, q).0.value.NewlyReserved?
    ensures C.ReserveNew(c, q).1.reservations == c.reservations[q.reservationId := Opened(q)]
    ensures C.Held(c, C.IncidentCounter(q.mandateId, q.incidentId)) + q.amount <= q.incidentLimit
    ensures C.Held(c, C.DailyCounter(q.mandateId, BudgetDay(q.occurredAt))) + q.amount <= q.dailyLimit
  {
    hide ValidRequest, C.FirstReadsParse, C.CounterReadable, SameRequest, C.WithBindings;
  }

  lemma AcceptedTransition(
      c: C.State, id: string, expected: seq<ReservationState>, next: ReservationState, at: int, patch: Patch)
    requires C.TransitionEffect(c, id, expected, next, at, patch).1 != c
    ensures id in c.reservations && MayTransition(c.reservations[id], expected, next, patch)
    ensures IsIdentifier(id) && C.ReservationParses(c.reservations[id])
  {
    hide IsIdentifier, C.ReservationParses, MayTransition, C.CounterReadable;
  }

  /** No call makes a counter inexact. */
  lemma StepKeepsCountersSound(c: C.State, call: Call)
    requires CountersSound(c)
    ensures CountersSound(C.Step(c, call).1)
  {
    hide CountersExact, AllLawful, C.ReserveEffect, C.ReserveNew, C.TransitionEffect, MayTransition, ValidRequest;
    match call
    case Reserve(q) =>
      if C.ReserveEffect(c, q).1 != c {
        AcceptedReserve(c, q);
        CountersAfterReserve(c, q);
        OpenedIsLawful(q);
        UpdatedKeepsLawful(c.reservations, q.reservationId, Opened(q));
      }
    case Transition(id, expected, next, at, patch) =>
      if C.TransitionEffect(c, id, expected, next, at, patch).1 != c {
        AcceptedTransition(c, id, expected, next, at, patch);
        LawfulAt(c.reservations, id);
        CountersAfterTransition(c, id, expected, next, at, patch);
        TransitionedIsLawful(c.reservations[id], expected, next, at, patch);
        UpdatedKeepsLawful(c.reservations, id, Transitioned(c.reservations[id], next, at, patch));
      }
    case _ =>
  }

  lemma LawfulAt(m: map<string, Reservation>, id: string)
    requires AllLawful(m) && id in m
    ensures m[id].reservationId == id && Lawful(m[id])
  {
    hide Lawful;
  }

  lemma OpenedWithinLimits(c: C.State, q: ReserveRequest, limits: string -> Limits)
    requires CountersExact(c) && NeverExceeded(c.reservations, limits) && WithinLimits(Reserve(q), limits)
    requires q.reservationId !in c.reservations
    requires C.Held(c, C.IncidentCounter(q.mandateId, q.incidentId)) + q.amount <= q.incidentLimit
    requires C.Held(c, C.DailyCounter(q.mandateId, BudgetDay(q.occurredAt))) + q.amount <= q.dailyLimit
    ensures NeverExceeded(c.reservations[q.reservationId := Opened(q)], limits)
  {
    var i, d := C.IncidentCounter(q.mandateId, q.incidentId), C.DailyCounter(q.mandateId, BudgetDay(q.occurredAt));
    assert C.CounterReadable(c, i) && C.Held(c, i) == Sum(c.reservations, FilterOf(i));
    assert C.CounterReadable(c, d) && C.Held(c, d) == Sum(c.reservations, FilterOf(d));
    hide CountersExact, C.CounterReadable, C.Held;
    forall f: Filter | f.onlyHolding
      ensures Sum(c.reservations[q.reservationId := Opened(q)], f) == Sum(c.reservations, f) + Weight(Opened(q), f)
    {
      SumUpdated(c.reservations, q.reservationId, Opened(q), f);
    }
  }

  lemma StepKeepsCountersWithin(c: C.State, call: Call, limits: string -> Limits)
    requires CountersSound(c) && NeverExceeded(c.reservations, limits) && WithinLimits(call, limits)
    ensures NeverExceeded(C.Step(c, call).1.reservations, limits)
  {
    hide CountersExact, AllLawful, C.ReserveEffect, C.ReserveNew, C.TransitionEffect, MayTransition, ValidRequest,
      NeverExceeded, WithinLimits, C.Held;
    match call
    case Reserve(q) =>
      if C.ReserveEffect(c, q).1 != c {
        AcceptedReserve(c, q);
        OpenedWithinLimits(c, q, limits);
      }
    case Transition(id, expected, next, at, patch) =>
      if C.TransitionEffect(c, id, expected, next, at, patch).1 != c {
        AcceptedTransition(c, id, expected, next, at, patch);
        LawfulAt(c.reservations, id);
        CountersAfterTransition(c, id, expected, next, at, patch);
        TransitionedWithinLimits(c.reservations, id, expected, next, at, patch, limits);
      }
    case _ =>
  }

  lemma {:induction false} RunKeepsCountersSound(c: C.State, calls: seq<Call>)
    requires CountersSound(c)
    ensures CountersSound(CounterRun(c, calls).1)
    decreases |calls|
  {
    hide CountersSound, C.Step;
    if calls == [] {
    } else {
      StepKeepsCountersSound(c, calls[0]);
      RunKeepsCountersSound(C.Step(c, calls[0]).1, calls[1..]);
    }
  }

  lemma {:induction false} RunKeepsCountersWithin(c: C.State, calls: seq<Call>, limits: string -> Limits)
    requires CountersSound(c) && NeverExceeded(c.reservations, limits)
    requires forall call :: call in calls ==> WithinLimits(call, limits)
    ensures NeverExceeded(CounterRun(c, calls).1.reservations, limits)
    decreases |calls|
  {
    hide CountersSound, NeverExceeded, C.Step, WithinLimits;
    if calls == [] {
    } else {
      assert calls[0] in calls && forall call :: call in calls[1..] ==> call in calls;
      StepKeepsCountersSound(c, calls[0]);
      StepKeepsCountersWithin(c, calls[0], limits);
      RunKeepsCountersWithin(C.Step(c, calls[0]).1, calls[1..], limits);
    }
  }

  lemma EmptySound()
    ensures CountersSound(C.EMPTY)
  {
  }

  /**
   * In every reachable state every counter, present or absent, is exactly the sum of its budget-holding
   * reservations.
   */
  lemma CountersAreExact(calls: seq<Call>, key: C.CounterKey)
    ensures
      var c := CounterRun(C.EMPTY, calls).1;
      C.CounterReadable(c, key) && C.Held(c, key) == Sum(c.reservations, FilterOf(key)) >= 0
  {
    EmptySound();
    RunKeepsCountersSound(C.EMPTY, calls);
    hide CounterRun, Lawful;
    var c := CounterRun(C.EMPTY, calls).1;
    assert C.CounterReadable(c, key) && C.Held(c, key) == Sum(c.reservations, FilterOf(key));
    forall id | id in c.reservations ensures c.reservations[id].amount > 0 {
      AmountOf(c.reservations[id]);
    }
    SumMonotone(map[], c.reservations, FilterOf(key));
  }

  lemma AmountOf(r: Reservation)
    requires Lawful(r)
    ensures r.amount > 0
  {
  }

  /** With the limits of each mandate fixed, no counter ever exceeds its limit. */
  lemma CountersNeverExceed(calls: seq<Call>, limits: string -> Limits, key: C.CounterKey)
    requires forall call :: call in calls ==> WithinLimits(call, limits)
    ensures
      var held := C.Held(CounterRun(C.EMPTY, calls).1, key);
      0 <= held <= if key.IncidentCounter? then limits(key.mandateId).incident else limits(key.mandateId).daily
  {
    CountersAreExact(calls, key);
    EmptySound();
    RunKeepsCountersWithin(C.EMPTY, calls, limits);
    hide CounterRun, C.Held;
  }

  /** The missing-counter and underflow errors never decide: a transition succeeds exactly when the record admits it. */
  lemma CounterErrorsUnreachable(
      calls: seq<Call>, id: string, expected: seq<ReservationState>, next: ReservationState, at: int, patch: Patch)
    ensures
      var c := CounterRun(C.EMPTY, calls).1;
      C.TransitionEffect(c, id, expected, next, at, patch).0.Ok? <==>
        && IsIdentifier(id) && id in c.reservations && C.ReservationParses(c.reservations[id])
        && MayTransition(c.reservations[id], expected, next, patch)
  {
    EmptySound();
    RunKeepsCountersSound(C.EMPTY, calls);
    hide CounterRun, CountersExact, AllLawful, IsIdentifier, C.ReservationParses, MayTransition;
    var c := CounterRun(C.EMPTY, calls).1;
    if IsIdentifier(id) && id in c.reservations && C.ReservationParses(c.reservations[id])
       && MayTransition(c.reservations[id], expected, next, patch) {
      CountersAfterTransition(c, id, expected, next, at, patch);
    }
  }
}
