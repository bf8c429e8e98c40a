/** What every stored reservation and its three identifier indexes satisfy, whatever calls came before. */
module LedgerHistory {
  import opened Prelude
  import opened Schemas
  import opened Ledger
  import MemoryLedger

  /** A history is a path of the transition graph that starts proposed, reserved. */
  ghost predicate IsPath(h: seq<StateEvent>) {
    && |h| >= 2
    && h[0].state == Proposed && h[1].state == Reserved
    && forall i :: 0 <= i < |h| - 1 ==> h[i + 1].state in AllowedNext(h[i].state)
  }

  ghost predicate Lawful(r: Reservation) {
    && IsIdentifier(r.reservationId) && IsIdentifier(r.incidentId) && IsIdentifier(r.mandateId)
    && IsIdentifier(r.paymentId) && IsIdentifier(r.nonce) && IsIdentifier(r.idempotencyKey)
    && IsSha256(r.requestFingerprint)
    && r.amount > 0 && r.budgetDay == BudgetDay(r.createdAt)
    && IsPath(r.stateHistory)
    && |r.stateHistory| == r.version + 1
    && r.stateHistory[0].at == r.stateHistory[1].at == r.createdAt
    && r.stateHistory[r.version].state == r.state
    && r.stateHistory[r.version].at == r.updatedAt
    && (r.state in {Confirmed, Fulfilled, Committed, Refunded} ==> Truthy(r.txSignature))
    && (r.state in {Fulfilled, Committed} ==> Truthy(r.receiptHash))
  }

  ghost predicate AllLawful(m: map<string, Reservation>) {
    forall id :: id in m ==> m[id].reservationId == id && Lawful(m[id])
  }

  /** An index is exactly the inverse of the reservation map. */
  ghost predicate IndexInverse(m: map<string, Reservation>, index: map<string, string>, kind: IdentifierKind) {
    && (forall id :: id in m ==> Find(index, IdentifierOf(m[id], kind)) == Some(id))
    && (forall value :: value in index ==> index[value] in m && IdentifierOf(m[index[value]], kind) == value)
  }

  ghost predicate IndexesInverse(s: MemoryLedger.State) {
    forall kind :: IndexInverse(s.reservations, s.Index(kind), kind)
  }

  ghost predicate Inv(s: MemoryLedger.State) {
    AllLawful(s.reservations) && IndexesInverse(s)
  }

  lemma OpenedIsLawful(q: ReserveRequest)
    requires ValidRequest(q)
    ensures Lawful(Opened(q))
  {
  }

  lemma TransitionedIsLawful(
      r: Reservation, expected: seq<ReservationState>, next: ReservationState, at: int, patch: Patch)
    requires Lawful(r) && MayTransition(r, expected, next, patch)
    ensures Lawful(Transitioned(r, next, at, patch))
  {
    var h, h' := r.stateHistory, Transitioned(r, next, at, patch).stateHistory;
    forall i | 0 <= i < |h'| - 1 ensures h'[i + 1].state in AllowedNext(h'[i].state) {
      assert h'[i] == h[i];
    }
  }

  lemma InsertedKeepsIndex(m: map<string, Reservation>, index: map<string, string>, kind: IdentifierKind,
      r: Reservation)
    requires IndexInverse(m, index, kind) && r.reservationId !in m && IdentifierOf(r, kind) !in index
    ensures IndexInverse(m[r.reservationId := r], index[IdentifierOf(r, kind) := r.reservationId], kind)
  {
  }

  lemma UpdatedKeepsIndex(m: map<string, Reservation>, index: map<string, string>, kind: IdentifierKind, id: string,
      r: Reservation)
    requires IndexInverse(m, index, kind) && id in m && IdentifierOf(r, kind) == IdentifierOf(m[id], kind)
    ensures IndexInverse(m[id := r], index, kind)
  {
  }

  lemma UnboundIdentifiers(s: MemoryLedger.State, q: ReserveRequest, kind: IdentifierKind)
    requires MemoryLedger.Bound(s, q) == []
    ensures IdentifierOf(Opened(q), kind) !in s.Index(kind)
  {
  }

  lemma InsertedIndex(s: MemoryLedger.State, r: Reservation, kind: IdentifierKind)
    ensures MemoryLedger.Inserted(s, r).Index(kind) == s.Index(kind)[IdentifierOf(r, kind) := r.reservationId]
  {
  }

  lemma InsertedKeepsInv(s: MemoryLedger.State, q: ReserveRequest)
    requires Inv(s) && ValidRequest(q)
    requires q.reservationId !in s.reservations && MemoryLedger.Bound(s, q) == []
    ensures Inv(MemoryLedger.Inserted(s, Opened(q)))
  {
    OpenedIsLawful(q);
    var s' := MemoryLedger.Inserted(s, Opened(q));
    assert AllLawful(s'.reservations);
    forall kind ensures IndexInverse(s'.reservations, s'.Index(kind), kind) {
      UnboundIdentifiers(s, q, kind);
      InsertedIndex(s, Opened(q), kind);
      InsertedKeepsIndex(s.reservations, s.Index(kind), kind, Opened(q));
    }
  }

  lemma UpdatedKeepsLawful(m: map<string, Reservation>, id: string, r: Reservation)
    requires AllLawful(m) && r.reservationId == id && Lawful(r)
    ensures AllLawful(m[id := r])
  {
  }

  lemma UpdatedKeepsIndexes(s: MemoryLedger.State, id: string, r: Reservation)
    requires IndexesInverse(s) && id in s.reservations
    requires forall kind :: IdentifierOf(r, kind) == IdentifierOf(s.reservations[id], kind)
    ensures IndexesInverse(s.(reservations := s.reservations[id := r]))
  {
    var s' := s.(reservations := s.reservations[id := r]);
    forall kind ensures IndexInverse(s'.reservations, s'.Index(kind), kind) {
      assert s'.Index(kind) == s.Index(kind);
      UpdatedKeepsIndex(s.reservations, s.Index(kind), kind, id, r);
    }
  }

  lemma TransitionKeepsInv(
      s: MemoryLedger.State, id: string, expected: seq<ReservationState>, next: ReservationState, at: int, patch: Patch)
    requires Inv(s)
    ensures Inv(MemoryLedger.TransitionEffect(s, id, expected, next, at, patch).1)
  {
    hide Lawful, MayTransition;
    if id in s.reservations && MayTransition(s.reservations[id], expected, next, patch) {
      var r := Transitioned(s.reservations[id], next, at, patch);
      TransitionedIsLawful(s.reservations[id], expected, next, at, patch);
      UpdatedKeepsLawful(s.reservations, id, r);
      UpdatedKeepsIndexes(s, id, r);
    }
  }

  lemma NewIsUnknown(s: MemoryLedger.State, q: ReserveRequest)
    requires MemoryLedger.Known(s, q).None?
    ensures q.reservationId !in s.reservations && MemoryLedger.Bound(s, q) == []
  {
    hide MemoryLedger.Bound;
  }

  /** No call, accepted or not, breaks the invariant. */
  lemma StepKeepsInv(s: MemoryLedger.State, call: Call)
    requires Inv(s)
    ensures Inv(MemoryLedger.Step(s, call).1)
  {
    hide Inv, ValidRequest, MemoryLedger.Known, MemoryLedger.Inserted, MemoryLedger.TransitionEffect;
    match call
    case Reserve(q) =>
      if ValidRequest(q) && MemoryLedger.Known(s, q).None? {
        NewIsUnknown(s, q);
        InsertedKeepsInv(s, q);
      }
    case Transition(id, expected, next, at, patch) =>
      TransitionKeepsInv(s, id, expected, next, at, patch);
    case _ =>
  }

  /** The longest way out of `reserved`: along any transition the rank grows. */
  function Rank(s: ReservationState): nat {
    match s
    case Proposed => 0
    case Denied => 1
    case Reserved => 1
    case Submitted => 2
    case Unknown => 3
    case Confirmed => 4
    case Fulfilled => 5
    case Committed => 6
    case Released | Refunded => 7
  }

  lemma {:induction false} RankBoundsPath(h: seq<StateEvent>, i: nat)
    requires IsPath(h) && i < |h|
    ensures i <= Rank(h[i].state)
  {
    if i == 0 {
    } else {
      RankBoundsPath(h, i - 1);
      assert h[i - 1 + 1].state in AllowedNext(h[i - 1].state);
    }
  }

  /** At most six transitions ever succeed on one reservation. */
  lemma AtMostSixTransitions(r: Reservation)
    requires Lawful(r)
    ensures 1 <= r.version <= 7 && |r.stateHistory| <= 8
    ensures r.version == 7 ==> r.state in {Released, Refunded}
  {
    RankBoundsPath(r.stateHistory, r.version);
  }

  /** A reservation that has stopped holding budget never holds it again. */
  lemma HoldingIsNotReentered(r: Reservation, i: nat, j: nat)
    requires Lawful(r) && 1 <= i <= j < |r.stateHistory| && Holding(r.stateHistory[j].state)
    ensures Holding(r.stateHistory[i].state)
    decreases j - i
  {
    if i < j {
      HoldingIsNotReentered(r, i + 1, j);
      assert r.stateHistory[i + 1].state in AllowedNext(r.stateHistory[i].state);
      if i == 1 {
      } else {
        RankBoundsPath(r.stateHistory, i);
      }
    }
  }

  /** A stored reservation is past `proposed` and was never denied. */
  lemma StoredStates(r: Reservation)
    requires Lawful(r)
    ensures r.state !in {Proposed, Denied}
  {
    var i := r.version - 1;
    assert r.stateHistory[i + 1].state in AllowedNext(r.stateHistory[i].state);
    if i > 0 {
      assert r.stateHistory[i - 1 + 1].state in AllowedNext(r.stateHistory[i - 1].state);
    }
  }

  lemma PositiveAmounts(s: MemoryLedger.State)
    requires Inv(s)
    ensures forall id :: id in s.reservations ==> s.reservations[id].amount > 0
  {
    forall id | id in s.reservations ensures s.reservations[id].amount > 0 {
      assert Lawful(s.reservations[id]);
    }
  }

  // Whole runs.

  ghost function Run(s: MemoryLedger.State, calls: seq<Call>): (seq<Result<Response>>, MemoryLedger.State)
    decreases |calls|
  {
    if calls == [] then ([], s)
    else
      var (response, s') := MemoryLedger.Step(s, calls[0]);
      var (responses, s'') := Run(s', calls[1..]);
      ([response] + responses, s'')
  }

  lemma {:induction false} RunKeepsInv(s: MemoryLedger.State, calls: seq<Call>)
    requires Inv(s)
    ensures Inv(Run(s, calls).1)
    decreases |calls|
  {
    if calls == [] {
    } else {
      StepKeepsInv(s, calls[0]);
      RunKeepsInv(MemoryLedger.Step(s, calls[0]).1, calls[1..]);
    }
  }

  /** `later` is what a reservation may have become: same identity and money, a longer history. */
  ghost predicate Continues(r: Reservation, later: Reservation) {
    && later == r.(state := later.state, version := later.version, updatedAt := later.updatedAt,
                   stateHistory := later.stateHistory, txSignature := later.txSignature,
                   receiptHash := later.receiptHash, failureReason := later.failureReason)
    && r.stateHistory <= later.stateHistory
    && (Truthy(r.txSignature) ==> Truthy(later.txSignature))
    && (Truthy(r.receiptHash) ==> Truthy(later.receiptHash))
  }

  ghost predicate Extends(s: MemoryLedger.State, s': MemoryLedger.State) {
    && (forall id :: id in s.reservations ==>
          id in s'.reservations && Continues(s.reservations[id], s'.reservations[id]))
    && (forall kind, value :: value in s.Index(kind) ==> Find(s'.Index(kind), value) == Some(s.Index(kind)[value]))
  }

  lemma StepExtends(s: MemoryLedger.State, call: Call)
    ensures Extends(s, MemoryLedger.Step(s, call).1)
  {
    hide Extends, MemoryLedger.ReserveEffect, MemoryLedger.TransitionEffect;
    match call
    case Reserve(q) => ReserveExtends(s, q);
    case Transition(id, expected, next, at, patch) => TransitionExtends(s, id, expected, next, at, patch);
    case _ => SameExtends(s);
  }

  lemma SameExtends(s: MemoryLedger.State)
    ensures Extends(s, s)
  {
  }

  lemma ReserveExtends(s: MemoryLedger.State, q: ReserveRequest)
    ensures Extends(s, MemoryLedger.ReserveEffect(s, q).1)
  {
    hide ValidRequest, MemoryLedger.Known, MemoryLedger.Bound, MemoryLedger.Used;
    if ValidRequest(q) && MemoryLedger.Known(s, q).None? {
      NewIsUnknown(s, q);
      var s' := MemoryLedger.ReserveEffect(s, q).1;
      forall kind, value | value in s.Index(kind) ensures Find(s'.Index(kind), value) == Some(s.Index(kind)[value]) {
        UnboundIdentifiers(s, q, kind);
        InsertedIndex(s, Opened(q), kind);
      }
    }
  }

  lemma TransitionExtends(
      s: MemoryLedger.State, id: string, expected: seq<ReservationState>, next: ReservationState, at: int, patch: Patch)
    ensures Extends(s, MemoryLedger.TransitionEffect(s, id, expected, next, at, patch).1)
  {
    hide MayTransition;
    var s' := MemoryLedger.TransitionEffect(s, id, expected, next, at, patch).1;
    forall kind ensures s'.Index(kind) == s.Index(kind) {
    }
  }

  /**
   * Reservations and identifier bindings are for ever: whatever calls follow,
   * also after a release, no id disappears, no identity or amount changes, no
   * history is rewritten and no identifier is bound anew.
   */
  lemma {:induction false} BindingsAreForEver(s: MemoryLedger.State, calls: seq<Call>)
    ensures Extends(s, Run(s, calls).1)
    decreases |calls|
  {
    if calls == [] {
    } else {
      var s' := MemoryLedger.Step(s, calls[0]).1;
      StepExtends(s, calls[0]);
      BindingsAreForEver(s', calls[1..]);
      ExtendsTransitive(s, s', Run(s, calls).1);
    }
  }

  lemma ExtendsTransitive(s: MemoryLedger.State, s': MemoryLedger.State, s'': MemoryLedger.State)
    requires Extends(s, s') && Extends(s', s'')
    ensures Extends(s, s'')
  {
    forall id | id in s.reservations ensures Continues(s.reservations[id], s''.reservations[id]) {
      assert Continues(s'.reservations[id], s''.reservations[id]);
    }
    forall kind, value | value in s.Index(kind) ensures Find(s''.Index(kind), value) == Some(s.Index(kind)[value]) {
      assert value in s'.Index(kind);
    }
  }
}

/** With limits that stay fixed per mandate, no budget is ever exceeded. */
module LedgerBudget {
  import opened Ledger
  import opened LedgerSum
  import opened LedgerHistory
  import M = MemoryLedger

  /** The limits a mandate carries; a mandate record is immutable, so they never change. */
  datatype Limits = Limits(incident: nat, daily: nat)

  predicate WithinLimits(call: Call, limits: string -> Limits) {
    call.Reserve? ==>
      && call.request.incidentLimit == limits(call.request.mandateId).incident
      && call.request.dailyLimit == limits(call.request.mandateId).daily
  }

  ghost predicate NeverExceeded(m: map<string, Reservation>, limits: string -> Limits) {
    && (forall mandateId, incidentId ::
          Sum(m, OfIncident(mandateId, incidentId, true)) <= limits(mandateId).incident)
    && (forall mandateId, day ::
          Sum(m, OfDay(mandateId, day, true)) <= limits(mandateId).daily)
  }

  lemma StepWithinLimits(s: M.State, call: Call, limits: string -> Limits)
    requires Inv(s) && NeverExceeded(s.reservations, limits) && WithinLimits(call, limits)
    ensures NeverExceeded(M.Step(s, call).1.reservations, limits)
  {
    hide Inv, NeverExceeded;
    match call
    case Reserve(q) =>
      if M.ReserveEffect(s, q).1 != s {
        ReservedWithinLimits(s, q, limits);
      }
    case Transition(id, expected, next, at, patch) =>
      if id in s.reservations && MayTransition(s.reservations[id], expected, next, patch) {
        LawfulReservations(s);
        TransitionedWithinLimits(s.reservations, id, expected, next, at, patch, limits);
      }
    case _ =>
  }

  lemma LawfulReservations(s: M.State)
    requires Inv(s)
    ensures AllLawful(s.reservations)
  {
    hide AllLawful;
  }

  lemma ReservedWithinLimits(s: M.State, q: ReserveRequest, limits: string -> Limits)
    requires NeverExceeded(s.reservations, limits) && WithinLimits(Reserve(q), limits)
    requires M.ReserveEffect(s, q).1 != s
    ensures NeverExceeded(M.ReserveEffect(s, q).1.reservations, limits)
  {
    hide M.Known, ValidRequest;
    forall f: Filter | f.onlyHolding
      ensures Sum(s.reservations[q.reservationId := Opened(q)], f) == Sum(s.reservations, f) + Weight(Opened(q), f)
    {
      NewIsUnknown(s, q);
      SumUpdated(s.reservations, q.reservationId, Opened(q), f);
    }
  }

  lemma TransitionedWithinLimits(
      m: map<string, Reservation>, id: string, expected: seq<ReservationState>, next: ReservationState, at: int,
        patch: Patch,
      limits: string -> Limits)
    requires AllLawful(m) && NeverExceeded(m, limits) && id in m && MayTransition(m[id], expected, next, patch)
    ensures NeverExceeded(m[id := Transitioned(m[id], next, at, patch)], limits)
  {
    var r := Transitioned(m[id], next, at, patch);
    LighterAfter(m[id], expected, next, at, patch);
    hide AllLawful, Lawful, MayTransition, Transitioned, Weight;
    forall f: Filter | f.onlyHolding
      ensures Sum(m[id := r], f) <= Sum(m, f)
    {
      SumUpdated(m, id, r, f);
    }
  }

  /** A transition never makes a reservation count where it did not count before. */
  lemma LighterAfter(r: Reservation, expected: seq<ReservationState>, next: ReservationState, at: int, patch: Patch)
    requires Lawful(r) && MayTransition(r, expected, next, patch)
    ensures forall f: Filter :: f.onlyHolding ==> Weight(Transitioned(r, next, at, patch), f) <= Weight(r, f)
  {
    StoredStates(r);
  }
}
