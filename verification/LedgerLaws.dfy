/**
 * What a ledger answers, call by call and in the terms of its caller: requests,
 * stored records and earlier answers. No statement here uses the functions that
 * the stores are built from, so each of them is held to an account of its own.
 * The Firestore store answers the same (LedgerRefinement).
 */
module LedgerLaws {
  import opened Prelude
  import opened CodeUnitOrder
  import opened Schemas
  import opened Ledger
  import opened LedgerSum
  import opened LedgerHistory
  import M = MemoryLedger

  // Reserving.

  /** A reserve throws exactly when a field of the request is malformed. */
  lemma ReserveRefusesTheMalformed(s: M.State, q: ReserveRequest)
    requires Inv(s)
    ensures M.Step(s, Reserve(q)).0.Ok? <==>
      && IsIdentifier(q.reservationId) && IsIdentifier(q.incidentId) && IsIdentifier(q.mandateId)
      && IsIdentifier(q.paymentId) && IsIdentifier(q.nonce) && IsIdentifier(q.idempotencyKey)
      && IsSha256(q.requestFingerprint) && q.amount > 0 && q.incidentLimit > 0 && q.dailyLimit > 0
    ensures M.Step(s, Reserve(q)).0.Rejected? ==> M.Step(s, Reserve(q)).1 == s
  {
    hide IsIdentifier, IsSha256, SameRequest, Inv, M.Bound, M.Used, M.Inserted;
    BoundIsBearers(s, q);
  }

  /** The record bears one of the request's three identifiers. */
  predicate Shares(r: Reservation, q: ReserveRequest) {
    r.paymentId == q.paymentId || r.nonce == q.nonce || r.idempotencyKey == q.idempotencyKey
  }

  lemma BoundMeans(a: Option<string>, b: Option<string>, c: Option<string>)
    ensures
      var ids := BoundIds(a, b, c);
      && (forall x :: x in ids <==> a == Some(x) || b == Some(x) || c == Some(x))
      && (forall i, j :: 0 <= i < j < |ids| ==> ids[i] != ids[j])
  {
  }

  /** The ids that a request's identifiers are bound to are those of the records that bear one of them. */
  lemma BoundIsBearers(s: M.State, q: ReserveRequest)
    requires Inv(s)
    ensures forall x :: x in M.Bound(s, q) <==> x in s.reservations && Shares(s.reservations[x], q)
    ensures forall i, j :: 0 <= i < j < |M.Bound(s, q)| ==> M.Bound(s, q)[i] != M.Bound(s, q)[j]
  {
    hide Inv, BoundIds;
    IndexAt(s, ByPaymentId, q.paymentId);
    IndexAt(s, ByNonce, q.nonce);
    IndexAt(s, ByIdempotencyKey, q.idempotencyKey);
    BoundMeans(Find(s.byPaymentId, q.paymentId), Find(s.byNonce, q.nonce), Find(s.byIdempotencyKey, q.idempotencyKey));
  }

  lemma IndexAt(s: M.State, kind: IdentifierKind, value: string)
    requires Inv(s)
    ensures value in s.Index(kind) ==>
      s.Index(kind)[value] in s.reservations && IdentifierOf(s.reservations[s.Index(kind)[value]], kind) == value
    ensures forall id :: id in s.reservations && IdentifierOf(s.reservations[id], kind) == value ==>
      value in s.Index(kind) && s.Index(kind)[value] == id
  {
    assert IndexInverse(s.reservations, s.Index(kind), kind);
    forall id | id in s.reservations && IdentifierOf(s.reservations[id], kind) == value
      ensures value in s.Index(kind) && s.Index(kind)[value] == id
    {
      assert Find(s.Index(kind), IdentifierOf(s.reservations[id], kind)) == Some(id);
    }
  }

  /**
   * A stored id is answered with its record when all eight fields of the request
   * are those of the record, and with a conflict when any one of them is not.
   */
  lemma StoredIdAnswers(s: M.State, q: ReserveRequest)
    requires Inv(s) && M.Step(s, Reserve(q)).0.Ok? && q.reservationId in s.reservations
    ensures
      var r := s.reservations[q.reservationId];
      M.Step(s, Reserve(q)) == (Ok(ReserveResponse(
        if r.reservationId == q.reservationId && r.incidentId == q.incidentId && r.mandateId == q.mandateId
           && r.paymentId == q.paymentId && r.nonce == q.nonce && r.idempotencyKey == q.idempotencyKey
           && r.requestFingerprint == q.requestFingerprint && r.amount == q.amount
        then Existing(r) else Conflict(ReservationId, q.reservationId))), s)
  {
    IndexAt(s, ByPaymentId, q.paymentId);
    hide ValidRequest, IndexesInverse, Lawful;
  }

  /** A new id that shares identifiers with one record: a conflict that names the first of them in this order. */
  lemma OneBearerConflicts(s: M.State, q: ReserveRequest, id: string)
    requires Inv(s) && M.Step(s, Reserve(q)).0.Ok? && q.reservationId !in s.reservations
    requires id in s.reservations && Shares(s.reservations[id], q)
    requires forall x :: x in s.reservations && Shares(s.reservations[x], q) ==> x == id
    ensures
      var r := s.reservations[id];
      var reason := if r.paymentId == q.paymentId then PaymentId else if r.nonce == q.nonce then Nonce
        else IdempotencyKey;
      M.Step(s, Reserve(q)) == (Ok(ReserveResponse(Conflict(reason, id))), s)
  {
    hide ValidRequest, Inv, BoundIds, SameRequest, M.Used;
    BoundIsBearers(s, q);
    var bound := M.Bound(s, q);
    assert id in bound;
    OnlyOne(bound, id);
    IndexAt(s, ByPaymentId, q.paymentId);
    IndexAt(s, ByNonce, q.nonce);
    IdsAreNotEmpty(s, id);
    assert bound == [id];
    assert Truthy(Find(s.Index(ByPaymentId), q.paymentId)) <==> s.reservations[id].paymentId == q.paymentId;
    assert Truthy(Find(s.Index(ByNonce), q.nonce)) <==> s.reservations[id].nonce == q.nonce;
    OtherId(s.reservations[id], q);
  }

  lemma OnlyOne(ids: seq<string>, id: string)
    requires id in ids && (forall x :: x in ids ==> x == id)
    requires forall i, j :: 0 <= i < j < |ids| ==> ids[i] != ids[j]
    ensures ids == [id]
  {
    var last := |ids| - 1;
    assert ids[0] in ids && ids[last] in ids;
  }

  lemma OtherId(r: Reservation, q: ReserveRequest)
    requires r.reservationId != q.reservationId
    ensures !SameRequest(r, q)
  {
  }

  lemma IdsAreNotEmpty(s: M.State, id: string)
    requires Inv(s) && id in s.reservations
    ensures id != "" && s.reservations[id].reservationId == id
  {
    assert Lawful(s.reservations[id]);
  }

  /** A new id that shares identifiers with several records: a conflict with the least of their ids. */
  lemma SeveralBearersConflict(s: M.State, q: ReserveRequest, x: string, y: string) returns (least: string)
    requires Inv(s) && M.Step(s, Reserve(q)).0.Ok? && q.reservationId !in s.reservations
    requires x != y && x in s.reservations && Shares(s.reservations[x], q)
    requires y in s.reservations && Shares(s.reservations[y], q)
    ensures M.Step(s, Reserve(q)) == (Ok(ReserveResponse(Conflict(MixedIdentifierBinding, least))), s)
    ensures least in s.reservations && Shares(s.reservations[least], q)
    ensures forall z :: z in s.reservations && Shares(s.reservations[z], q) ==>
      z == least || Before(Units(least), Units(z))
  {
    hide ValidRequest, Before, Units, M.Used, Inv, M.Bound;
    BoundIsBearers(s, q);
    var bound := M.Bound(s, q);
    assert x in bound && y in bound;
    assert |bound| > 1;
    least := Least(bound);
  }

  /**
   * A request that is new in every respect is measured against the usage that a
   * read would have answered, and the record it opens is written out here.
   */
  lemma NewRequestAnswers(s: M.State, q: ReserveRequest)
    requires Inv(s) && M.Step(s, Reserve(q)).0.Ok? && q.reservationId !in s.reservations
    requires forall x :: x in s.reservations ==> !Shares(s.reservations[x], q)
    ensures
      var usage := M.Step(s, GetUsage(q.mandateId, q.incidentId, q.occurredAt)).0;
      var (answer, s') := M.Step(s, Reserve(q));
      && usage.Ok? && usage.value.UsageResponse?
      && var used := usage.value.usage;
         if used.incident + q.amount > q.incidentLimit then
           answer == Ok(ReserveResponse(BudgetExceeded(IncidentScope, used.incident, q.amount, q.incidentLimit)))
             && s' == s
         else if used.daily + q.amount > q.dailyLimit then
           answer == Ok(ReserveResponse(BudgetExceeded(DailyScope, used.daily, q.amount, q.dailyLimit))) && s' == s
         else
           var r := Reservation(
             q.reservationId, q.incidentId, q.mandateId, q.paymentId, q.nonce, q.idempotencyKey, q.requestFingerprint,
             q.amount, q.occurredAt / 86_400_000, Reserved, 1, q.occurredAt, q.occurredAt,
             [StateEvent(Proposed, q.occurredAt, None), StateEvent(Reserved, q.occurredAt, None)], None, None, None);
           && answer == Ok(ReserveResponse(NewlyReserved(r, used,
             Usage(used.incident + q.amount, used.daily + q.amount))))
           && s'.reservations == s.reservations[q.reservationId := r]
  {
    hide ValidRequest, M.Used, Inv;
    BoundIsBearers(s, q);
    hide M.Bound;
    assert forall x :: x !in M.Bound(s, q);
    assert M.Bound(s, q) == [];
  }

  // Lookups.

  /** A lookup answers the one record that bears the identifier, or none when no record bears it. */
  lemma LookupsAreExact(s: M.State, kind: IdentifierKind, value: string)
    requires Inv(s)
    ensures M.Step(s, Get(value)) ==
      (Ok(LookupResponse(if value in s.reservations then Some(s.reservations[value]) else None)), s)
    ensures
      var (answer, s') := M.Step(s, GetBy(kind, value));
      && s' == s && answer.Ok? && answer.value.LookupResponse?
      && forall id :: id in s.reservations ==>
        var r := s.reservations[id];
        (answer.value.found == Some(r) <==>
          value == match kind
            case ByPaymentId => r.paymentId
            case ByNonce => r.nonce
            case ByIdempotencyKey => r.idempotencyKey)
    ensures
      var found := M.Step(s, GetBy(kind, value)).0.value.found;
      found.Some? ==>
        found.value.reservationId in s.reservations && s.reservations[found.value.reservationId] == found.value
  {
    hide Inv, M.LookupBy;
    LookupMeans(s, kind, value);
    forall id | id in s.reservations ensures s.reservations[id].reservationId == id {
      IdsAreNotEmpty(s, id);
    }
  }

  lemma LookupMeans(s: M.State, kind: IdentifierKind, value: string)
    requires Inv(s)
    ensures
      var found := M.LookupBy(s, kind, value);
      && (forall id :: id in s.reservations && IdentifierOf(s.reservations[id], kind) == value ==>
            found == Some(s.reservations[id]))
      && (found.Some? ==>
            && found.value.reservationId in s.reservations && s.reservations[found.value.reservationId] == found.value
            && IdentifierOf(found.value, kind) == value)
  {
    hide Inv;
    IndexAt(s, kind, value);
    if value in s.Index(kind) {
      IdsAreNotEmpty(s, s.Index(kind)[value]);
    }
  }

  // Transitions.

  /** The moves that a stored reservation can make, one by one. */
  predicate Move(from: ReservationState, to: ReservationState) {
    || (from == Reserved && to == Submitted) || (from == Reserved && to == Released)
    || (from == Submitted && to == Confirmed) || (from == Submitted && to == Unknown)
    || (from == Unknown && to == Confirmed) || (from == Unknown && to == Released)
    || (from == Confirmed && to == Fulfilled) || (from == Confirmed && to == Refunded)
    || (from == Fulfilled && to == Committed) || (from == Fulfilled && to == Refunded)
    || (from == Committed && to == Refunded)
  }

  /** What the patch says, or else what the record has, and not the empty text. */
  predicate Given(patched: Option<string>, stored: Option<string>) {
    if patched.Some? then patched.value != "" else stored.Some? && stored.value != ""
  }

  /** A text of the patch replaces the stored one unless it is absent or empty. */
  function Replaced(patched: Option<string>, stored: Option<string>): Option<string> {
    if patched.None? || patched.value == "" then stored else patched
  }

  /**
   * A transition succeeds exactly when the stored state is one of the expected
   * ones, the move is in the table and the bindings of the new state are given;
   * then the record changes as written here, and otherwise nothing changes.
   */
  lemma TransitionIsExact(s: M.State, call: Call)
    requires Inv(s) && call.Transition?
    ensures
      var (answer, s') := M.Step(s, call);
      && (answer.Ok? <==>
        && call.id in s.reservations
        && var r := s.reservations[call.id];
           && r.state in call.expected && Move(r.state, call.next)
           && (call.next in {Confirmed, Fulfilled, Committed} ==> Given(call.patch.txSignature, r.txSignature))
           && (call.next in {Fulfilled, Committed} ==> Given(call.patch.receiptHash, r.receiptHash)))
      && (answer.Rejected? ==> s' == s)
      && (answer.Ok? ==>
        var r, p := s.reservations[call.id], call.patch;
        var r' := r.(
          state := call.next, version := r.version + 1, updatedAt := call.at,
          txSignature := Replaced(p.txSignature, r.txSignature),
          receiptHash := Replaced(p.receiptHash, r.receiptHash),
          failureReason := Replaced(p.failureReason, r.failureReason),
          stateHistory := r.stateHistory + [StateEvent(call.next, call.at, Replaced(p.note, None))]);
        answer == Ok(RecordResponse(r')) && s' == s.(reservations := s.reservations[call.id := r']))
  {
    if call.id in s.reservations {
      assert Lawful(s.reservations[call.id]);
      StoredStates(s.reservations[call.id]);
    }
    hide Inv, IsIdentifier, IsSha256, Lawful;
  }

  // Usage.

  lemma UsageAtStart(mandateId: string, incidentId: string, at: int)
    ensures M.Step(M.EMPTY, GetUsage(mandateId, incidentId, at)).0 == Ok(UsageResponse(Usage(0, 0)))
  {
  }

  /** What a usage read answers. */
  ghost function UsageOf(s: M.State, mandateId: string, incidentId: string, at: int): (u: Usage)
    ensures M.Step(s, GetUsage(mandateId, incidentId, at)) == (Ok(UsageResponse(u)), s)
  {
    M.Step(s, GetUsage(mandateId, incidentId, at)).0.value.usage
  }

  /** A reservation counts from then on, towards its own mandate's incident and its own day only. */
  lemma UsageAfterReserve(s: M.State, q: ReserveRequest, mandateId: string, incidentId: string, at: int)
    requires Inv(s)
    ensures
      var (answer, s') := M.Step(s, Reserve(q));
      var u, u' := UsageOf(s, mandateId, incidentId, at), UsageOf(s', mandateId, incidentId, at);
      if answer.Ok? && answer.value.outcome.NewlyReserved? then
        && u'.incident == u.incident + (if mandateId == q.mandateId && incidentId == q.incidentId then q.amount else 0)
        && u'.daily == u.daily +
             (if mandateId == q.mandateId && at / 86_400_000 == q.occurredAt / 86_400_000 then q.amount else 0)
      else s' == s
  {
    hide M.Step, Inv, Weight, Opened;
    var ofIncident, ofDay := OfIncident(mandateId, incidentId, true), OfDay(mandateId, BudgetDay(at), true);
    var (answer, s') := M.Step(s, Reserve(q));
    ReservationsAfter(s, q);
    UsageIs(s, mandateId, incidentId, at);
    UsageIs(s', mandateId, incidentId, at);
    OpenedWeight(q, ofIncident);
    OpenedWeight(q, ofDay);
    SumUpdated(s.reservations, q.reservationId, Opened(q), ofIncident);
    SumUpdated(s.reservations, q.reservationId, Opened(q), ofDay);
  }

  lemma ReservationsAfter(s: M.State, q: ReserveRequest)
    requires Inv(s)
    ensures
      var (answer, s') := M.Step(s, Reserve(q));
      if answer.Ok? && answer.value.outcome.NewlyReserved? then
        q.reservationId !in s.reservations && s'.reservations == s.reservations[q.reservationId := Opened(q)]
      else s' == s
  {
    hide ValidRequest, M.Bound, M.Used, Inv;
    if ValidRequest(q) && M.Known(s, q).None? {
      NewIsUnknown(s, q);
    }
  }

  lemma OpenedWeight(q: ReserveRequest, f: Filter)
    requires f.onlyHolding
    ensures Weight(Opened(q), f) ==
      if && q.mandateId == f.mandateId && (f.OfIncident? ==> q.incidentId == f.incidentId)
         && (f.OfDay? ==> q.occurredAt / 86_400_000 == f.day)
      then q.amount else 0
  {
  }

  /** A reservation counts until it is released or refunded, and no other transition changes any usage. */
  lemma UsageAfterTransition(s: M.State, call: Call, mandateId: string, incidentId: string, at: int)
    requires Inv(s) && call.Transition?
    ensures
      var (answer, s') := M.Step(s, call);
      var u, u' := UsageOf(s, mandateId, incidentId, at), UsageOf(s', mandateId, incidentId, at);
      if answer.Ok? && call.next in {Released, Refunded} then
        var r := answer.value.record;
        && u'.incident == u.incident - (if mandateId == r.mandateId && incidentId == r.incidentId then r.amount else 0)
        && u'.daily == u.daily - (if mandateId == r.mandateId && at / 86_400_000 == r.budgetDay then r.amount else 0)
      else u' == u
  {
    var (answer, s') := M.Step(s, call);
    TransitionIsExact(s, call);
    if answer.Ok? {
      var r, r' := s.reservations[call.id], answer.value.record;
      WeightAfterMove(r, r', OfIncident(mandateId, incidentId, true));
      WeightAfterMove(r, r', OfDay(mandateId, BudgetDay(at), true));
      hide Inv, M.Step, Weight;
      SumUpdated(s.reservations, call.id, r', OfIncident(mandateId, incidentId, true));
      SumUpdated(s.reservations, call.id, r', OfDay(mandateId, BudgetDay(at), true));
      UsageIs(s, mandateId, incidentId, at);
      UsageIs(s', mandateId, incidentId, at);
    }
  }

  lemma UsageIs(s: M.State, mandateId: string, incidentId: string, at: int)
    ensures UsageOf(s, mandateId, incidentId, at) == Usage(
      Sum(s.reservations, OfIncident(mandateId, incidentId, true)),
      Sum(s.reservations, OfDay(mandateId, BudgetDay(at), true)))
  {
  }

  lemma WeightAfterMove(r: Reservation, r': Reservation, f: Filter)
    requires Move(r.state, r'.state) && f.onlyHolding
    requires r'.mandateId == r.mandateId && r'.incidentId == r.incidentId && r'.budgetDay == r.budgetDay
    requires r'.amount == r.amount
    ensures Weight(r', f) == if r'.state in {Released, Refunded} then 0 else Weight(r, f)
    ensures Weight(r, f) ==
      if r.mandateId == f.mandateId && (f.OfIncident? ==> r.incidentId == f.incidentId)
         && (f.OfDay? ==> r.budgetDay == f.day)
      then r.amount else 0
  {
  }

  // Compare-and-set over runs.

  lemma {:induction false} RankNeverFalls(s: M.State, calls: seq<Call>, id: string)
    requires Inv(s) && id in s.reservations
    ensures
      var later := Run(s, calls).1.reservations;
      id in later && Rank(s.reservations[id].state) <= Rank(later[id].state)
    decreases |calls|
  {
    hide Inv;
    if calls == [] {
    } else {
      var s' := M.Step(s, calls[0]).1;
      StepKeepsInv(s, calls[0]);
      RankAfterStep(s, calls[0], id);
      RankNeverFalls(s', calls[1..], id);
    }
  }

  lemma RankAfterStep(s: M.State, call: Call, id: string)
    requires Inv(s) && id in s.reservations
    ensures
      var later := M.Step(s, call).1.reservations;
      id in later && Rank(s.reservations[id].state) <= Rank(later[id].state)
    ensures call.Transition? && call.id == id && M.Step(s, call).0.Ok? ==>
      s.reservations[id].state in call.expected
      && Rank(s.reservations[id].state) < Rank(M.Step(s, call).1.reservations[id].state)
  {
    hide Lawful, Inv;
    if call.Transition? {
      TransitionIsExact(s, call);
      hide M.Step;
    } else if call.Reserve? {
      StepExtends(s, call);
      if ValidRequest(call.request) && M.Known(s, call.request).None? {
        NewIsUnknown(s, call.request);
      }
    }
  }

  /**
   * Compare-and-set: whatever else is called in between, of all the calls of a
   * run that expect one and the same state of a reservation at most one succeeds.
   */
  lemma EachStateIsLeftOnce(s: M.State, first: Call, between: seq<Call>, second: Call, state: ReservationState)
    requires Inv(s) && first.Transition? && second.Transition? && first.id == second.id
    requires (forall x :: x in first.expected ==> x == state) && (forall x :: x in second.expected ==> x == state)
    ensures
      var s' := M.Step(s, first).1;
      var s'' := Run(s', between).1;
      !(M.Step(s, first).0.Ok? && M.Step(s'', second).0.Ok?)
  {
    hide Inv, Run, M.Step;
    var s' := M.Step(s, first).1;
    var s'' := Run(s', between).1;
    StepKeepsInv(s, first);
    RunKeepsInv(s', between);
    TransitionIsExact(s, first);
    TransitionIsExact(s'', second);
    if M.Step(s, first).0.Ok? && M.Step(s'', second).0.Ok? {
      RankAfterStep(s, first, first.id);
      RankNeverFalls(s', between, first.id);
      assert false;
    }
  }

  // Retries.

  /**
   * A request that was accepted is answered with its record for ever, whatever
   * limits and time the retry carries and whatever was called in between; the same
   * id with any other content is a conflict for ever.
   */
  lemma RetriesAreAnsweredForEver(s: M.State, q: ReserveRequest, between: seq<Call>, retry: ReserveRequest)
    requires Inv(s) && M.Step(s, Reserve(q)).0.Ok? && M.Step(s, Reserve(q)).0.value.outcome.NewlyReserved?
    requires retry.reservationId == q.reservationId
    ensures
      var s' := Run(M.Step(s, Reserve(q)).1, between).1;
      var answer := M.Step(s', Reserve(retry)).0;
      q.reservationId in s'.reservations
      && (answer.Ok? ==> answer.value == ReserveResponse(
        if retry == q.(incidentLimit := retry.incidentLimit, dailyLimit := retry.dailyLimit,
          occurredAt := retry.occurredAt)
        then Existing(s'.reservations[q.reservationId]) else Conflict(ReservationId, q.reservationId)))
  {
    var s1 := M.Step(s, Reserve(q)).1;
    var s' := Run(s1, between).1;
    AcceptedIsStored(s, q);
    hide M.Step, Run, Lawful;
    StepKeepsInv(s, Reserve(q));
    RunKeepsInv(s1, between);
    BindingsAreForEver(s1, between);
    assert Continues(s1.reservations[q.reservationId], s'.reservations[q.reservationId]);
    hide Inv;
    if M.Step(s', Reserve(retry)).0.Ok? {
      StoredIdAnswers(s', retry);
    }
  }

  lemma AcceptedIsStored(s: M.State, q: ReserveRequest)
    requires Inv(s) && M.Step(s, Reserve(q)).0.Ok? && M.Step(s, Reserve(q)).0.value.outcome.NewlyReserved?
    ensures
      var s' := M.Step(s, Reserve(q)).1;
      && q.reservationId in s'.reservations
      && var r := s'.reservations[q.reservationId];
         && r.reservationId == q.reservationId && r.incidentId == q.incidentId && r.mandateId == q.mandateId
         && r.paymentId == q.paymentId && r.nonce == q.nonce && r.idempotencyKey == q.idempotencyKey
         && r.requestFingerprint == q.requestFingerprint && r.amount == q.amount
  {
    hide ValidRequest, M.Bound, M.Used, Inv;
  }
}
