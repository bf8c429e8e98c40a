/** The executor's promises, over every interleaving from the empty state. */
module ExecutorTheorems {
  import opened Prelude
  import opened Schemas
  import opened Ledger
  import opened LedgerSum
  import opened LedgerHistory
  import opened LedgerBudget
  import opened Policy
  import opened Executor
  import opened ExecutorSafety
  import L = MemoryLedger
  import Decimal

  lemma ReachableSafe(actions: seq<Action>)
    ensures Safe(After(INIT, actions))
  {
    InitSafe();
    RunSafe(INIT, actions);
  }

  /** The signer is asked at most once per reservation, per payment id and per nonce. */
  lemma SignerRunsAtMostOnce(actions: seq<Action>, i: nat, j: nat)
    requires i < j < |After(INIT, actions).signed|
    ensures
      var signed := After(INIT, actions).signed;
      && signed[i].reservationId != signed[j].reservationId
      && signed[i].paymentId != signed[j].paymentId
      && signed[i].nonce != signed[j].nonce
  {
    ReachableSafe(actions);
    var s := After(INIT, actions);
    hide After, NeverExceeded, PcOk, OneOwner, ReturnedOk, AuthorizationsOk, MandatesOk, AllLawful;
    assert IndexInverse(s.ledger.reservations, s.ledger.Index(ByPaymentId), ByPaymentId);
    assert IndexInverse(s.ledger.reservations, s.ledger.Index(ByNonce), ByNonce);
  }

  /** Every response for a reservation carries the same header: the one that was published for it. */
  lemma OneHeaderPerReservation(actions: seq<Action>, i: nat, j: nat)
    requires i < |After(INIT, actions).returned| && j < |After(INIT, actions).returned|
    ensures
      var s := After(INIT, actions);
      var x, y := s.returned[i].authorization, s.returned[j].authorization;
      && (x.reservationId == y.reservationId ==> x == y)
      && Find(s.authorizations, x.reservationId) == Some(x)
  {
    ReachableSafe(actions);
    var s := After(INIT, actions);
    hide After, Inv, NeverExceeded, PcOk, OneOwner, AuthorizationsOk, MandatesOk, SignedOk;
    assert ResponseOk(s, s.returned[i]) && ResponseOk(s, s.returned[j]);
  }

  /** The reservations for which a header has ever left the executor. */
  function ReturnedReservations(s: State): map<string, Reservation> {
    map id | id in s.ledger.reservations && Charged(s, id) :: s.ledger.reservations[id]
  }

  predicate Charged(s: State, id: string) {
    exists i :: 0 <= i < |s.returned| && s.returned[i].authorization.reservationId == id
  }

  /**
   * Although the policy may have read a stale budget: the amounts of all
   * reservations whose header was ever returned stay within the mandate's
   * limit, per incident and per day.
   */
  lemma HeadersWithinBudget(actions: seq<Action>, mandateId: string, incidentId: string, day: int)
    requires mandateId in After(INIT, actions).mandates
    ensures
      var s := After(INIT, actions);
      && Sum(ReturnedReservations(s), OfIncident(mandateId, incidentId,
        false)) <= Amount(s.mandates[mandateId].incidentLimit)
      && Sum(ReturnedReservations(s), OfDay(mandateId, day, false)) <= Amount(s.mandates[mandateId].dailyLimit)
  {
    ReachableSafe(actions);
    var s := After(INIT, actions);
    hide After, Inv, PcOk, OneOwner, AuthorizationsOk, SignedOk, ReturnedOk, ReturnedReservations;
    ReturnedAtMostHeld(s, OfIncident(mandateId, incidentId, false));
    ReturnedAtMostHeld(s, OfDay(mandateId, day, false));
    assert LimitsOf(s.mandates)(mandateId) ==
      Limits(Amount(s.mandates[mandateId].incidentLimit), Amount(s.mandates[mandateId].dailyLimit));
  }

  lemma ReturnedAtMostHeld(s: State, f: Filter)
    requires Safe(s)
    ensures Sum(ReturnedReservations(s), f) <= Sum(s.ledger.reservations, f.(onlyHolding := true))
  {
    hide Safe, ReturnedReservations;
    LedgerIsLawful(s);
    PositiveAmounts(s.ledger);
    ReturnedHold(s);
    SumOfHolding(ReturnedReservations(s), f, f.(onlyHolding := true));
    SumMonotone(ReturnedReservations(s), s.ledger.reservations, f.(onlyHolding := true));
  }

  lemma LedgerIsLawful(s: State)
    requires Safe(s)
    ensures Inv(s.ledger)
  {
    hide Inv, NeverExceeded, PcOk, OneOwner, MandatesOk, SignedOk, ReturnedOk, AuthorizationsOk;
  }

  lemma ReturnedHold(s: State)
    requires Safe(s)
    ensures forall id :: id in ReturnedReservations(s) ==>
      && id in s.ledger.reservations && ReturnedReservations(s)[id] == s.ledger.reservations[id]
      && Holding(s.ledger.reservations[id].state)
  {
    hide Inv, NeverExceeded, PcOk, OneOwner, MandatesOk, SignedOk;
    forall id | id in ReturnedReservations(s) ensures Holding(s.ledger.reservations[id].state) {
      var i :| 0 <= i < |s.returned| && s.returned[i].authorization.reservationId == id;
      assert ResponseOk(s, s.returned[i]);
    }
  }

  // Time.

  lemma {:induction false} AfterPrefix(s: State, first: seq<Action>, rest: seq<Action>)
    ensures After(s, first + rest) == After(After(s, first), rest)
    decreases |first|
  {
    if first == [] {
      assert first + rest == rest;
    } else {
      assert (first + rest)[1..] == first[1..] + rest;
      AfterPrefix(Step(s, first[0]), first[1..], rest);
    }
  }

  lemma {:induction false} OneEntryPerStep(s: State, actions: seq<Action>)
    ensures |After(s, actions).past| == |s.past| + |actions|
    ensures s.past <= After(s, actions).past
    decreases |actions|
  {
    if actions == [] {
    } else {
      hide Effect;
      OneEntryPerStep(Step(s, actions[0]), actions[1..]);
    }
  }

  /** The recorded past is what the activations were: entry `t` is their value before action `t`. */
  lemma PastIsHistory(actions: seq<Action>, t: nat)
    requires t < |actions|
    ensures |After(INIT, actions).past| == |actions|
    ensures After(INIT, actions).past[t] == After(INIT, actions[..t]).activations
  {
    hide Effect;
    var s := After(INIT, actions[..t]);
    OneEntryPerStep(INIT, actions);
    OneEntryPerStep(INIT, actions[..t]);
    AfterPrefix(INIT, actions[..t], actions[t..]);
    assert actions[..t] + actions[t..] == actions;
    OneEntryPerStep(Step(s, actions[t]), actions[t..][1..]);
    assert After(s, actions[t..]) == After(Step(s, actions[t]), actions[t..][1..]);
    assert Step(s, actions[t]).past[t] == s.activations;
  }

  /** `b` is `a` some administration later: whatever changed has a higher version. */
  ghost predicate Later(a: map<string, Activation>, b: map<string, Activation>) {
    forall id :: id in a ==> id in b && (b[id] == a[id] || b[id].version > a[id].version)
  }

  lemma {:induction false} VersionsGrow(s: State, actions: seq<Action>)
    ensures Later(s.activations, After(s, actions).activations)
    decreases |actions|
  {
    if actions == [] {
    } else {
      StepActivations(s, actions[0]);
      VersionsGrow(Step(s, actions[0]), actions[1..]);
    }
  }

  lemma StepActivations(s: State, action: Action)
    ensures Later(s.activations, Step(s, action).activations)
  {
    match action
    case Advance(id, answer) =>
      if id in s.requests { AdvanceActivations(s, id, answer); }
    case _ =>
  }

  lemma AdvanceActivations(s: State, id: nat, answer: Answer)
    requires id in s.requests
    ensures AdvanceStep(s, id, answer).activations == s.activations
  {
    hide L.ReserveEffect, L.TransitionEffect, L.Used, L.LookupBy, Evaluate, ContextOf, LoadSnapshot, Releasable,
      AfterLookUp, RecordRead, StillActive, ActivationUnchanged, Authorize, IncidentBudgetEvidence, ReserveRequestOf;
  }

  /**
   * Every returned header was returned by a request that, while it ran, read
   * its mandate as active at exactly the version and hash bound into the
   * header, before the mandate's expiry; and it was published unexpired.
   */
  lemma HeaderReadItsMandateActive(actions: seq<Action>, i: nat)
    requires i < |After(INIT, actions).returned|
    ensures
      var s := After(INIT, actions);
      var e := s.returned[i];
      && e.startedAt <= e.readAt < |actions|
      && (var readAs := After(INIT, actions[..e.readAt]).activations;
          && e.authorization.mandateId in readAs
          && readAs[e.authorization.mandateId].active
          && readAs[e.authorization.mandateId].version == e.authorization.activationVersion
          && readAs[e.authorization.mandateId].activationHash == e.authorization.activationHash)
      && e.authorization.mandateId in s.mandates
      && e.checkedAt < s.mandates[e.authorization.mandateId].expiresAt
      && e.authorization.publishedAt < e.authorization.expiresAt <= s.mandates[e.authorization.mandateId].expiresAt
  {
    ReachableSafe(actions);
    OneEntryPerStep(INIT, actions);
    var s := After(INIT, actions);
    hide Inv, NeverExceeded, PcOk, OneOwner, MandatesOk, SignedOk, Effect;
    assert ResponseOk(s, s.returned[i]);
    PastIsHistory(actions, s.returned[i].readAt);
  }

  /**
   * A request that starts when its mandate is revoked at some version returns
   * no header bound to that version or an earlier one: only a later re-arm,
   * read by the request itself, can give it one.
   */
  lemma NoHeaderAfterRevocation(actions: seq<Action>, i: nat, revokedAt: nat)
    requires i < |After(INIT, actions).returned|
    requires revokedAt <= After(INIT, actions).returned[i].startedAt
    requires revokedAt < |actions|
    requires
      var mandateId := After(INIT, actions).returned[i].authorization.mandateId;
      var revoked := After(INIT, actions[..revokedAt]).activations;
      mandateId in revoked && !revoked[mandateId].active
    ensures
      var e := After(INIT, actions).returned[i];
      var mandateId := e.authorization.mandateId;
      && e.authorization.activationVersion > After(INIT, actions[..revokedAt]).activations[mandateId].version
      && revokedAt < e.readAt < |actions|
      && mandateId in After(INIT, actions[..e.readAt]).activations
      && After(INIT, actions[..e.readAt]).activations[mandateId].active
  {
    HeaderReadItsMandateActive(actions, i);
    var e := After(INIT, actions).returned[i];
    hide After;
    var before, between := actions[..revokedAt], actions[revokedAt..e.readAt];
    assert actions[..e.readAt] == before + between;
    AfterPrefix(INIT, before, between);
    VersionsGrow(After(INIT, before), between);
  }

  /** A released reservation stays released, and no header for it was or will ever be returned. */
  lemma ReleasedHasNoHeader(actions: seq<Action>, more: seq<Action>, id: string)
    requires id in After(INIT, actions).ledger.reservations
    requires After(INIT, actions).ledger.reservations[id].state == Released
    ensures !Charged(After(INIT, actions + more), id)
  {
    hide After, Safe, Charged;
    var s := After(INIT, actions);
    AfterPrefix(INIT, actions, more);
    ReachableSafe(actions + more);
    ReleasedForEver(s, more, id);
    ReleasedIsNotCharged(After(s, more), id);
  }

  lemma ReleasedIsNotCharged(s: State, id: string)
    requires Safe(s) && id in s.ledger.reservations && s.ledger.reservations[id].state == Released
    ensures !Charged(s, id)
  {
    hide Safe;
    ReturnedHold(s);
  }

  lemma {:induction false} ReleasedForEver(s: State, actions: seq<Action>, id: string)
    requires id in s.ledger.reservations && s.ledger.reservations[id].state == Released
    ensures
      var s' := After(s, actions);
      id in s'.ledger.reservations && s'.ledger.reservations[id].state == Released
    decreases |actions|
  {
    if actions == [] {
    } else {
      ReleasedAfterStep(s, actions[0], id);
      ReleasedForEver(Step(s, actions[0]), actions[1..], id);
    }
  }

  lemma ReleasedAfterStep(s: State, action: Action, id: string)
    requires id in s.ledger.reservations && s.ledger.reservations[id].state == Released
    ensures
      var s' := Step(s, action);
      id in s'.ledger.reservations && s'.ledger.reservations[id].state == Released
  {
    hide AdvanceStep, L.TransitionEffect;
    ReleasedStays(s.ledger, id);
    match action
    case Advance(request, answer) =>
      if request in s.requests { LedgerOnlyReserves(s, request, answer, id); }
    case _ =>
  }

  lemma LedgerOnlyReserves(s: State, request: nat, answer: Answer, id: string)
    requires request in s.requests && id in s.ledger.reservations && s.ledger.reservations[id].state == Released
    ensures
      var s' := AdvanceStep(s, request, answer);
      id in s'.ledger.reservations && s'.ledger.reservations[id].state == Released
  {
    hide AdvanceStep, L.ReserveEffect, L.TransitionEffect;
    var pc := s.requests[request].pc;
    if pc.Reserving? && pc.authority.snapshot.Some? && answer.Resumes? {
      ReserveLeavesOthers(s.ledger, RequestOf(s.requests[request]), id);
      ReserveStepLedger(s, request);
    } else if pc.Releasing? && answer.Resumes? {
      ReleasedStays(s.ledger, id);
      ReleasedPc(s, request, Transition(pc.record.reservationId, [Reserved], Released, s.clock, RELEASE));
    } else {
      LedgerUnmoved(s, request, answer);
    }
  }

  lemma ReleasedStays(ledger: L.State, id: string)
    requires id in ledger.reservations && ledger.reservations[id].state == Released
    ensures forall target, expected, next, at, patch ::
      var after := L.TransitionEffect(ledger, target, expected, next, at, patch).1.reservations;
      id in after && after[id].state == Released
  {
  }

  // Policy and ledger.

  /** What PaymentProposalSchema has checked before the handler sees a proposal. */
  predicate ProposalParses(p: Proposal) {
    && IsIdentifier(p.idempotencyKey) && IsIdentifier(p.incidentId) && IsIdentifier(p.mandateId)
    && IsIdentifier(p.paymentId) && IsIdentifier(p.nonce) && IsSha256(p.requestFingerprint)
  }

  /** The four reads as they would be answered now. */
  ghost predicate ReadNow(s: State, r: SignRequest, seen: Seen) {
    && seen.budget == Some(L.Used(s.ledger.reservations, r.proposal.mandateId, r.proposal.incidentId,
      BudgetDay(r.occurredAt)))
    && seen.paymentIdBound == Some(L.LookupBy(s.ledger, ByPaymentId, r.proposal.paymentId).Some?)
    && seen.nonceBound == Some(L.LookupBy(s.ledger, ByNonce, r.proposal.nonce).Some?)
    && seen.idempotencyKeyBound == Some(L.LookupBy(s.ledger, ByIdempotencyKey, r.proposal.idempotencyKey).Some?)
  }

  /** With nothing in between, a policy that allows is a ledger that reserves, with the budget that was read. */
  lemma AllowGuaranteesReserve(s: State, r: SignRequest, a: Authority, seen: Seen, ctx: Context)
    requires Safe(s) && SnapshotOf(s, a.snapshot, r.proposal.mandateId) && ProposalParses(r.proposal)
    requires r.proposal.idempotencyKey !in s.ledger.reservations
    requires ReadNow(s, r, seen) && ContextOf(ctx, r, a, seen)
    requires Evaluate(ctx).Allow?
    ensures a.snapshot.Some?
    ensures
      var q := ReserveRequestOf(r.proposal, a.snapshot.value.mandate, r.occurredAt);
      var outcome := L.ReserveEffect(s.ledger, q).0;
      outcome == Ok(NewlyReserved(Opened(q), seen.budget.value,
                                  Usage(seen.budget.value.incident + q.amount, seen.budget.value.daily + q.amount)))
  {
    hide Evaluate, IsPositive, AtMost, AmountSchemasValid, Inv, PcOk, OneOwner, AuthorizationsOk, ReturnedOk,
      SignedOk, MandatesOk, NeverExceeded, L.Used, L.ReserveEffect, L.LookupBy, Decimal.ParseBaseUnits, Decimal.Print,
      SnapshotOf, Amount, Within, ValidRequest, ProposalParses;
    AllowMeansWithinLimits(ctx);
    PositiveAmount(ctx.proposal.amount);
    FreshMeansUnbound(s.ledger, r.proposal);
    WithinIs(seen.budget.value.incident, r.proposal.amount, a.snapshot.value.mandate.incidentLimit);
    WithinIs(seen.budget.value.daily, r.proposal.amount, a.snapshot.value.mandate.dailyLimit);
    SnapshotParses(s, a.snapshot, r.proposal.mandateId);
    var q := ReserveRequestOf(r.proposal, a.snapshot.value.mandate, r.occurredAt);
    ParsedRequestIsValid(r.proposal, a.snapshot.value.mandate, r.occurredAt);
    LedgerAdmits(s.ledger, q, seen.budget.value);
  }

  lemma ParsedRequestIsValid(p: Proposal, m: Mandate, at: int)
    requires ProposalParses(p) && MandateParses(m) && Amount(p.amount) > 0
    ensures ValidRequest(ReserveRequestOf(p, m, at))
  {
  }

  lemma SnapshotParses(s: State, snapshot: Snapshot, mandateId: string)
    requires Safe(s) && SnapshotOf(s, snapshot, mandateId) && snapshot.Some?
    ensures MandateParses(snapshot.value.mandate)
  {
  }

  lemma PositiveAmount(amount: string)
    requires IsPositive(amount)
    ensures Amount(amount) > 0
  {
  }

  lemma WithinIs(used: nat, amount: string, limit: string)
    requires Within(Decimal.Print(used), amount, limit)
    ensures used + Amount(amount) <= Amount(limit)
  {
    Decimal.ParsePrinted(used);
  }

  lemma LedgerAdmits(s: L.State, q: ReserveRequest, used: Usage)
    requires ValidRequest(q) && q.reservationId !in s.reservations
    requires q.paymentId !in s.byPaymentId && q.nonce !in s.byNonce && q.idempotencyKey !in s.byIdempotencyKey
    requires used == L.Used(s.reservations, q.mandateId, q.incidentId, BudgetDay(q.occurredAt))
    requires used.incident + q.amount <= q.incidentLimit && used.daily + q.amount <= q.dailyLimit
    ensures L.ReserveEffect(s, q).0 ==
      Ok(NewlyReserved(Opened(q), used, Usage(used.incident + q.amount, used.daily + q.amount)))
  {
  }

  lemma FreshMeansUnbound(s: L.State, p: Proposal)
    requires Inv(s)
    requires L.LookupBy(s, ByPaymentId, p.paymentId).None?
    requires L.LookupBy(s, ByNonce, p.nonce).None?
    requires L.LookupBy(s, ByIdempotencyKey, p.idempotencyKey).None?
    ensures p.paymentId !in s.byPaymentId && p.nonce !in s.byNonce && p.idempotencyKey !in s.byIdempotencyKey
  {
    Unbound(s, ByPaymentId, p.paymentId);
    Unbound(s, ByNonce, p.nonce);
    Unbound(s, ByIdempotencyKey, p.idempotencyKey);
  }

  lemma Unbound(s: L.State, kind: IdentifierKind, value: string)
    requires Inv(s)
    ensures value in s.Index(kind) ==> L.LookupBy(s, kind, value).Some?
  {
    assert IndexInverse(s.reservations, s.Index(kind), kind);
    assert value in s.Index(kind) ==> Lawful(s.reservations[s.Index(kind)[value]]);
  }
}
