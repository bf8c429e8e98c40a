/** The same for the Firestore ledger, and what its calls write. */
module FirestoreLaws {
  import opened Prelude
  import opened Schemas
  import opened Ledger
  import opened LedgerHistory
  import opened LedgerRefinement
  import opened CounterLimits
  import opened LedgerLaws
  import C = CounterLedger
  import M = MemoryLedger

  /** In every state that well-formed patches lead to, a call with valid arguments is answered as the laws say. */
  lemma AnswersAsTheSimpleStore(calls: seq<Call>, call: Call)
    requires forall x :: x in calls ==> PatchWellFormed(x)
    ensures Inv(Run(M.EMPTY, calls).1)
    ensures ArgumentsValid(call) ==>
      C.Step(CounterRun(C.EMPTY, calls).1, call).0 == M.Step(Run(M.EMPTY, calls).1, call).0
    ensures CounterRun(C.EMPTY, calls).1.reservations == Run(M.EMPTY, calls).1.reservations
  {
    hide Inv, CountersExact, BindingsMatch, M.Step, C.Step, Run, CounterRun, ReceiptsParse;
    EmptyCoupled();
    RunsAgree(M.EMPTY, C.EMPTY, calls);
    StepAgrees(Run(M.EMPTY, calls).1, CounterRun(C.EMPTY, calls).1, call);
  }

  /**
   * After any calls at all a transition succeeds exactly when the stored state is
   * expected, the move is in the table, the new state's bindings are given and the
   * stored receipt hash, if there is one, is well-formed.
   */
  lemma CounterTransitionIsExact(calls: seq<Call>, call: Call)
    requires call.Transition?
    ensures
      var c := CounterRun(C.EMPTY, calls).1;
      var (answer, c') := C.Step(c, call);
      && (answer.Ok? <==>
        && call.id in c.reservations
        && var r := c.reservations[call.id];
           && r.state in call.expected && Move(r.state, call.next)
           && (r.receiptHash.Some? && r.receiptHash.value != "" ==> IsSha256(r.receiptHash.value))
           && (call.next in {Confirmed, Fulfilled, Committed} ==> Given(call.patch.txSignature, r.txSignature))
           && (call.next in {Fulfilled, Committed} ==> Given(call.patch.receiptHash, r.receiptHash)))
      && (answer.Rejected? ==> c' == c)
  {
    EmptySound();
    RunKeepsCountersSound(C.EMPTY, calls);
    CounterErrorsUnreachable(calls, call.id, call.expected, call.next, call.at, call.patch);
    hide CounterRun, CountersExact, C.CounterReadable, C.Set;
    var c := CounterRun(C.EMPTY, calls).1;
    if call.id in c.reservations {
      LawfulAt(c.reservations, call.id);
      hide AllLawful;
      var r := c.reservations[call.id];
      StoredStates(r);
      LawfulParses(r);
      AdmitsExactly(r, call);
    }
  }

  lemma LawfulParses(r: Reservation)
    requires Lawful(r)
    ensures IsIdentifier(r.reservationId)
    ensures C.ReservationParses(r) <==>
      (r.receiptHash.Some? && r.receiptHash.value != "" ==> IsSha256(r.receiptHash.value))
  {
    hide IsIdentifier, IsSha256;
  }

  lemma AdmitsExactly(r: Reservation, call: Call)
    requires call.Transition? && r.state !in {Proposed, Denied}
    ensures MayTransition(r, call.expected, call.next, call.patch) <==>
      && r.state in call.expected && Move(r.state, call.next)
      && (call.next in {Confirmed, Fulfilled, Committed} ==> Given(call.patch.txSignature, r.txSignature))
      && (call.next in {Fulfilled, Committed} ==> Given(call.patch.receiptHash, r.receiptHash))
  {
  }

  /** A new reservation is written with its three binding documents, and nothing is written otherwise. */
  lemma ReserveWrites(c: C.State, q: ReserveRequest)
    ensures
      var (answer, c') := C.Step(c, Reserve(q));
      if answer.Ok? && answer.value.outcome.NewlyReserved? then
        && c'.reservations == c.reservations[q.reservationId := answer.value.outcome.record]
        && c'.bindings == c.bindings
          [C.BindingKey(ByPaymentId, q.paymentId) :=
            C.Binding(ByPaymentId, q.paymentId, q.reservationId, q.requestFingerprint, q.occurredAt)]
          [C.BindingKey(ByNonce, q.nonce) :=
            C.Binding(ByNonce, q.nonce, q.reservationId, q.requestFingerprint, q.occurredAt)]
          [C.BindingKey(ByIdempotencyKey, q.idempotencyKey) :=
            C.Binding(ByIdempotencyKey, q.idempotencyKey, q.reservationId, q.requestFingerprint, q.occurredAt)]
      else c' == c
  {
    hide ValidRequest, C.FirstReadsParse, C.CounterReadable, SameRequest, C.Set, BoundIds;
  }

  /** The counter is one of those that a reservation with these fields counts in. */
  predicate CountsIn(key: C.CounterKey, mandateId: string, incidentId: string, day: int) {
    key == C.IncidentCounter(mandateId, incidentId) || key == C.DailyCounter(mandateId, day)
  }

  /** A new reservation gives its two counters the next version, and no other reserve touches any counter. */
  lemma ReserveCounts(c: C.State, q: ReserveRequest, key: C.CounterKey)
    ensures
      var (answer, c') := C.Step(c, Reserve(q));
      if answer.Ok? && answer.value.outcome.NewlyReserved?
         && CountsIn(key, q.mandateId, q.incidentId, q.occurredAt / 86_400_000)
      then Find(c'.counters, key) == Some(NextCounter(c, key, C.Held(c, key) + q.amount, q.occurredAt))
      else Find(c'.counters, key) == Find(c.counters, key)
  {
    hide ValidRequest, C.FirstReadsParse, C.CounterReadable, SameRequest, C.WithBindings, BoundIds;
  }

  /** A release or refund takes the amount out of the two counters, and no other transition touches any counter. */
  lemma TransitionCounts(calls: seq<Call>, call: Call, key: C.CounterKey)
    requires call.Transition?
    ensures
      var c := CounterRun(C.EMPTY, calls).1;
      var (answer, c') := C.Step(c, call);
      if answer.Ok? && call.next in {Released, Refunded}
         && var r := answer.value.record; CountsIn(key, r.mandateId, r.incidentId, r.budgetDay)
      then Find(c'.counters, key) == Some(NextCounter(c, key, C.Held(c, key) - answer.value.record.amount, call.at))
      else Find(c'.counters, key) == Find(c.counters, key)
  {
    CounterTransitionIsExact(calls, call);
    hide CounterRun, C.TransitionEffect, C.Set, C.Held, NextCounter, Given, IsSha256, Move, Holding, Transitioned,
      CountsIn;
    var c := CounterRun(C.EMPTY, calls).1;
    CountersWritten(c, call.id, call.expected, call.next, call.at, call.patch);
    if call.id in c.reservations && C.Step(c, call).0.Ok? {
      var r := c.reservations[call.id];
      TwoCounters(c, r.mandateId, r.incidentId, r.budgetDay, r.amount, call.at, key);
      MoveHolds(r.state, call.next);
      SameBudget(r, call.next, call.at, call.patch);
    }
  }

  lemma MoveHolds(from: ReservationState, to: ReservationState)
    requires Move(from, to)
    ensures Holding(from) && !Holding(to) <==> to in {Released, Refunded}
  {
  }

  lemma SameBudget(r: Reservation, next: ReservationState, at: int, patch: Patch)
    ensures
      var r' := Transitioned(r, next, at, patch);
      r'.mandateId == r.mandateId && r'.incidentId == r.incidentId && r'.budgetDay == r.budgetDay
        && r'.amount == r.amount
  {
  }

  lemma TwoCounters(c: C.State, mandateId: string, incidentId: string, day: int, amount: int, at: int,
      key: C.CounterKey)
    ensures
      var i, d := C.IncidentCounter(mandateId, incidentId), C.DailyCounter(mandateId, day);
      Find(C.Set(C.Set(c.counters, i, C.Held(c, i) - amount, at), d, C.Held(c, d) - amount, at), key) ==
        if CountsIn(key, mandateId, incidentId, day) then Some(NextCounter(c, key, C.Held(c, key) - amount, at))
        else Find(c.counters, key)
  {
    hide C.Held;
  }

  lemma CountersWritten(
      c: C.State, id: string, expected: seq<ReservationState>, next: ReservationState, at: int, patch: Patch)
    ensures
      var (answer, c') := C.TransitionEffect(c, id, expected, next, at, patch);
      if answer.Ok? then
        && id in c.reservations
        && answer.value == Transitioned(c.reservations[id], next, at, patch)
        && var r := c.reservations[id];
           var i, d := C.IncidentCounter(r.mandateId, r.incidentId), C.DailyCounter(r.mandateId, r.budgetDay);
           c'.counters ==
             if Holding(r.state) && !Holding(next)
             then C.Set(C.Set(c.counters, i, C.Held(c, i) - r.amount, at), d, C.Held(c, d) - r.amount, at)
             else c.counters
      else c' == c
  {
    hide C.ReservationParses, IsIdentifier, MayTransition, C.CounterReadable, C.Set, C.Held;
  }

  /** The counter document with one more version. */
  function NextCounter(c: C.State, key: C.CounterKey, held: int, at: int): C.Counter {
    var version := if key in c.counters then c.counters[key].version + 1 else 1;
    match key
    case IncidentCounter(m, i) => C.Counter(IncidentScope, m, Some(i), None, held, version, at)
    case DailyCounter(m, day) => C.Counter(DailyScope, m, None, Some(day), held, version, at)
  }
}
