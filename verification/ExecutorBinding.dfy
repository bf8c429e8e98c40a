/** What every header is bound to: its reservation, and the request that it is returned to. */
module ExecutorBinding {
  import opened Prelude
  import opened Ledger
  import opened LedgerHistory
  import opened Policy
  import opened LedgerBudget
  import opened Executor
  import opened ExecutorSafety
  import opened ExecutorTheorems
  import L = MemoryLedger

  /** The reservation was opened for this proposal. */
  predicate MadeFor(record: Reservation, p: Proposal) {
    && record.reservationId == p.idempotencyKey == record.idempotencyKey
    && record.paymentId == p.paymentId && record.nonce == p.nonce
    && record.mandateId == p.mandateId && record.incidentId == p.incidentId
    && record.requestFingerprint == p.requestFingerprint && record.amount == Amount(p.amount)
  }

  /** The authorization is for this very request: same fingerprint, same decision envelope. */
  predicate Fits(auth: Authorization, proposal: Proposal, envelopeHash: EnvelopeHash) {
    auth.requestFingerprint == proposal.requestFingerprint && auth.contextHash == envelopeHash
  }

  predicate Covers(auth: Authorization, record: Reservation) {
    && auth.reservationId == record.reservationId && auth.paymentId == record.paymentId
    && auth.mandateId == record.mandateId && auth.requestFingerprint == record.requestFingerprint
    && MadeFor(record, auth.contextHash.proposal)
  }

  predicate RequestBinds(r: SignRequest) {
    && r.envelopeHash.proposal == r.proposal
    && (Owned(r.pc).Some? ==> MadeFor(Owned(r.pc).value, r.proposal))
    && match r.pc
       case LoadingForReplay(cached) => Fits(cached, r.proposal, r.envelopeHash)
       case CheckingReplay(cached, _, _) => Fits(cached, r.proposal, r.envelopeHash)
       case Publishing(record, auth, _, _) => Fits(auth, r.proposal, r.envelopeHash) && Covers(auth, record)
       case Responding(record, auth, _) => Fits(auth, r.proposal, r.envelopeHash) && Covers(auth, record)
       case _ => true
  }

  ghost predicate AuthorizationsBind(s: State) {
    forall id :: id in s.authorizations ==>
      id in s.ledger.reservations && Covers(s.authorizations[id], s.ledger.reservations[id])
  }

  predicate ResponseBinds(requests: map<nat, SignRequest>, e: Returned) {
    e.requestId in requests && Fits(e.authorization, requests[e.requestId].proposal, requests[e.requestId].envelopeHash)
  }

  ghost predicate Binds(s: State) {
    && (forall id :: id in s.requests ==> RequestBinds(s.requests[id]))
    && AuthorizationsBind(s)
    && (forall i :: 0 <= i < |s.returned| ==> ResponseBinds(s.requests, s.returned[i]))
  }

  /** Requests stay, and what they ask for never changes. */
  ghost predicate SameAsks(requests: map<nat, SignRequest>, later: map<nat, SignRequest>) {
    forall id :: id in requests ==>
      id in later && later[id].proposal == requests[id].proposal && later[id].envelopeHash == requests[id].envelopeHash
  }

  ghost predicate LedgerContinues(s: State, s': State) {
    forall id :: id in s.ledger.reservations ==>
      id in s'.ledger.reservations && Continues(s.ledger.reservations[id], s'.ledger.reservations[id])
  }

  /** A step that adds at most one bound authorization and at most one bound response keeps every binding. */
  lemma BindingsKept(s: State, s': State)
    requires Binds(s) && SameAsks(s.requests, s'.requests) && LedgerContinues(s, s')
    requires forall id :: id in s'.requests ==> RequestBinds(s'.requests[id])
    requires forall id :: id in s'.authorizations ==>
      || Find(s.authorizations, id) == Some(s'.authorizations[id])
      || (id in s'.ledger.reservations && Covers(s'.authorizations[id], s'.ledger.reservations[id]))
    requires s.returned <= s'.returned
    requires forall i :: |s.returned| <= i < |s'.returned| ==> ResponseBinds(s'.requests, s'.returned[i])
    ensures Binds(s')
  {
    forall id | id in s'.authorizations
      ensures id in s'.ledger.reservations && Covers(s'.authorizations[id], s'.ledger.reservations[id])
    {
      if Find(s.authorizations, id) == Some(s'.authorizations[id]) {
        assert Covers(s.authorizations[id], s.ledger.reservations[id]);
        assert Continues(s.ledger.reservations[id], s'.ledger.reservations[id]);
      }
    }
    forall i | 0 <= i < |s'.returned| ensures ResponseBinds(s'.requests, s'.returned[i]) {
      assert i < |s.returned| ==> s'.returned[i] == s.returned[i] && ResponseBinds(s.requests, s.returned[i]);
    }
  }

  // One step of one request.

  lemma LookUpBinds(s: State, id: nat, answer: Answer)
    requires id in s.requests && RequestBinds(s.requests[id]) && s.requests[id].pc.LookingUp?
    ensures var s' := AdvanceStep(s, id, answer); id in s'.requests && RequestBinds(s'.requests[id])
  {
    hide DecisionPhase, OwnerPhase, LoadSnapshot, StillActive, Covers, MadeFor, Fits, Releasable;
  }

  lemma CacheBinds(s: State, id: nat, answer: Answer)
    requires id in s.requests && RequestBinds(s.requests[id]) && s.requests[id].pc.LookingInCache?
    ensures var s' := AdvanceStep(s, id, answer); id in s'.requests && RequestBinds(s'.requests[id])
  {
    hide DecisionPhase, OwnerPhase, LoadSnapshot, StillActive, AfterLookUp, ReplayStep, Releasable, Fits;
    var r := s.requests[id];
    ReleasableFits(s.authorizations, r.pc.existing.reservationId, r);
  }

  lemma ReleasableFits(values: map<string, Authorization>, id: string, r: SignRequest)
    ensures Releasable(values, id, r.envelopeHash, r.proposal.requestFingerprint, r.occurredAt) ==>
      id in values && Fits(values[id], r.proposal, r.envelopeHash)
  {
  }

  lemma ReplayBinds(s: State, id: nat, answer: Answer)
    requires id in s.requests && RequestBinds(s.requests[id])
      && (s.requests[id].pc.LoadingForReplay? || s.requests[id].pc.CheckingReplay?)
    ensures var s' := AdvanceStep(s, id, answer); id in s'.requests && RequestBinds(s'.requests[id])
  {
    hide DecisionPhase, OwnerPhase, LoadSnapshot, StillActive, AfterLookUp, Releasable, Fits, MadeFor, Covers;
  }

  lemma DecisionBinds(s: State, id: nat, answer: Answer)
    requires id in s.requests && RequestBinds(s.requests[id])
    requires var pc := s.requests[id].pc; pc.LoadingAuthority? || pc.ReadingLedger? || pc.Reserving?
    ensures var s' := AdvanceStep(s, id, answer); id in s'.requests && RequestBinds(s'.requests[id])
  {
    hide ReplayPhase, OwnerPhase, L.Used, Evaluate, ContextOf, LoadSnapshot, ReserveStep, Covers, Fits, MadeFor,
      RecordRead;
    if s.requests[id].pc.Reserving? && s.requests[id].pc.authority.snapshot.Some? {
      ReserveBinds(s, id, s.requests[id].pc.authority);
    }
  }

  lemma EarlyPcBinds(s: State, id: nat, answer: Answer)
    requires id in s.requests && RequestBinds(s.requests[id]) && Owned(s.requests[id].pc).None?
    ensures var s' := AdvanceStep(s, id, answer); id in s'.requests && RequestBinds(s'.requests[id])
  {
    hide ReplayPhase, DecisionPhase, OwnerPhase, RequestBinds;
    var pc := s.requests[id].pc;
    if pc.LookingUp? {
      LookUpBinds(s, id, answer);
    } else if pc.LookingInCache? {
      CacheBinds(s, id, answer);
    } else if pc.LoadingForReplay? || pc.CheckingReplay? {
      ReplayBinds(s, id, answer);
    } else if pc.LoadingAuthority? || pc.ReadingLedger? || pc.Reserving? {
      DecisionBinds(s, id, answer);
    }
  }

  lemma ReserveBinds(s: State, id: nat, a: Authority)
    requires id in s.requests && a.snapshot.Some? && s.requests[id].envelopeHash.proposal == s.requests[id].proposal
    ensures var s' := ReserveStep(s, id, a); id in s'.requests && RequestBinds(s'.requests[id])
  {
    hide L.ReserveEffect, IncidentBudgetEvidence, Amount;
    var q := ReserveRequestOf(s.requests[id].proposal, a.snapshot.value.mandate, s.requests[id].occurredAt);
    if L.ReserveEffect(s.ledger, q).0.Ok? && L.ReserveEffect(s.ledger, q).0.value.NewlyReserved? {
      NewReservation(s.ledger, q);
    }
  }

  lemma SignerBinds(s: State, id: nat, answer: Answer)
    requires id in s.requests && RequestBinds(s.requests[id])
      && (s.requests[id].pc.Signing? || s.requests[id].pc.AwaitingSigner?)
    ensures var s' := AdvanceStep(s, id, answer); id in s'.requests && RequestBinds(s'.requests[id])
  {
    hide ReplayPhase, DecisionPhase, L.TransitionEffect, LoadSnapshot, Amount, MadeFor, Earliest, RereadStep,
      PublishStep, Fits, Covers;
  }

  lemma RereadBinds(s: State, id: nat, answer: Answer)
    requires id in s.requests && RequestBinds(s.requests[id]) && s.requests[id].pc.Rereading? && MandatesOk(s)
    ensures var s' := AdvanceStep(s, id, answer); id in s'.requests && RequestBinds(s'.requests[id])
  {
    hide ReplayPhase, DecisionPhase, L.TransitionEffect, LoadSnapshot, Amount, MadeFor, Earliest, PublishStep,
      MandatesOk;
    SnapshotLoaded(s, s.requests[id].proposal.mandateId);
    MadeForMeans(s.requests[id].pc.record, s.requests[id].proposal);
  }

  lemma PublishBinds(s: State, id: nat, answer: Answer)
    requires id in s.requests && RequestBinds(s.requests[id]) && s.requests[id].pc.Publishing?
    ensures var s' := AdvanceStep(s, id, answer); id in s'.requests && RequestBinds(s'.requests[id])
  {
    hide ReplayPhase, DecisionPhase, L.TransitionEffect, LoadSnapshot, Amount, MadeFor, Earliest, RereadStep, Fits,
      Covers;
  }

  lemma EndBinds(s: State, id: nat, answer: Answer)
    requires id in s.requests && RequestBinds(s.requests[id])
      && (s.requests[id].pc.Releasing? || s.requests[id].pc.Responding?)
    ensures var s' := AdvanceStep(s, id, answer); id in s'.requests && RequestBinds(s'.requests[id])
  {
    hide ReplayPhase, DecisionPhase, L.TransitionEffect, LoadSnapshot, Amount, MadeFor, Earliest, RereadStep,
      PublishStep, Fits, Covers;
  }

  lemma MadeForMeans(record: Reservation, p: Proposal)
    requires MadeFor(record, p)
    ensures record.paymentId == p.paymentId && record.mandateId == p.mandateId
      && record.requestFingerprint == p.requestFingerprint
  {
  }

  lemma LatePcBinds(s: State, id: nat, answer: Answer)
    requires id in s.requests && RequestBinds(s.requests[id]) && Owned(s.requests[id].pc).Some? && MandatesOk(s)
    ensures var s' := AdvanceStep(s, id, answer); id in s'.requests && RequestBinds(s'.requests[id])
  {
    hide AdvanceStep, RequestBinds, MandatesOk;
    match s.requests[id].pc
    case Rereading(_, _, _, _) => RereadBinds(s, id, answer);
    case Publishing(_, _, _, _) => PublishBinds(s, id, answer);
    case Releasing(_) => EndBinds(s, id, answer);
    case Responding(_, _, _) => EndBinds(s, id, answer);
    case _ => SignerBinds(s, id, answer);
  }

  function HeldAuthorization(pc: Pc): Option<Authorization> {
    match pc
    case CheckingReplay(cached, _, _) => Some(cached)
    case Responding(_, auth, _) => Some(auth)
    case _ => None
  }

  /** A step of a request changes no request but its own program counter. */
  ghost predicate OwnPcOnly(s: State, s': State, id: nat)
    requires id in s.requests
  {
    id in s'.requests && s'.requests == s.requests[id := s.requests[id].(pc := s'.requests[id].pc)]
  }

  /** Only publication stores an authorization: the one the request holds. */
  ghost predicate StoresOwn(s: State, s': State, id: nat, pc: Pc) {
    || (s'.authorizations == s.authorizations && s'.published == s.published)
    || (pc.Publishing? && s'.ledger == s.ledger && pc.authorization.publishedAt < pc.authorization.expiresAt
        && s'.authorizations == s.authorizations[pc.authorization.reservationId := pc.authorization]
        && s'.published == s.published + [Publication(id, pc.authorization, pc.expiries)])
  }

  /** Only a replay and the final response return a header: the one the request holds. */
  ghost predicate ReturnsOwn(s: State, s': State, id: nat, pc: Pc) {
    || s'.returned == s.returned
    || exists e ::
      s'.returned == s.returned + [e] && e.requestId == id && HeldAuthorization(pc) == Some(e.authorization)
  }

  ghost predicate Framed(s: State, s': State, id: nat)
    requires id in s.requests
  {
    OwnPcOnly(s, s', id) && StoresOwn(s, s', id, s.requests[id].pc) && ReturnsOwn(s, s', id, s.requests[id].pc)
  }

  lemma GotoFramed(s: State, id: nat, pc: Pc)
    requires id in s.requests
    ensures Framed(s, Goto(s, id, pc), id)
  {
  }

  lemma StayFramed(s: State, id: nat)
    requires id in s.requests
    ensures Framed(s, s, id)
  {
    assert s.requests == s.requests[id := s.requests[id].(pc := s.requests[id].pc)];
  }

  lemma ReserveFramed(s: State, id: nat, a: Authority)
    requires id in s.requests && a.snapshot.Some?
    ensures Framed(s, ReserveStep(s, id, a), id)
  {
    hide L.ReserveEffect, IncidentBudgetEvidence, ReserveRequestOf;
  }

  lemma RereadFramed(s: State, id: nat, a: Authority, record: Reservation, header: string, at: int)
    requires id in s.requests
    ensures Framed(s, RereadStep(s, id, a, record, header, at), id)
  {
    hide ActivationUnchanged, Authorize, LoadSnapshot;
  }

  lemma PublishFramed(s: State, id: nat, verdict: Verdict)
    requires id in s.requests && s.requests[id].pc.Publishing?
    ensures var pc := s.requests[id].pc; Framed(s, PublishStep(s, id, pc.record, pc.authorization, pc.readAt,
      pc.expiries, verdict), id)
  {
  }

  lemma ReplayFramed(s: State, id: nat)
    requires id in s.requests && s.requests[id].pc.CheckingReplay?
    ensures var pc := s.requests[id].pc; Framed(s, ReplayStep(s, id, pc.cached, pc.snapshot, pc.readAt), id)
  {
    hide StillActive;
  }

  lemma SignFramed(s: State, id: nat)
    requires id in s.requests && s.requests[id].pc.Signing?
    ensures Framed(s, AdvanceStep(s, id, Resumes), id)
  {
    hide ReplayPhase, DecisionPhase, L.ReserveEffect, L.TransitionEffect, L.Used, L.LookupBy, Evaluate, ContextOf,
      LoadSnapshot, Releasable, AfterLookUp, RecordRead, StillActive, ActivationUnchanged, Authorize,
      IncidentBudgetEvidence, ReserveRequestOf, ReserveStep, RereadStep, PublishStep, ReplayStep;
  }

  lemma ReleaseFramed(s: State, id: nat)
    requires id in s.requests && s.requests[id].pc.Releasing?
    ensures Framed(s, AdvanceStep(s, id, Resumes), id)
  {
    hide ReplayPhase, DecisionPhase, L.ReserveEffect, L.TransitionEffect, L.Used, L.LookupBy, Evaluate, ContextOf,
      LoadSnapshot, Releasable, AfterLookUp, RecordRead, StillActive, ActivationUnchanged, Authorize,
      IncidentBudgetEvidence, ReserveRequestOf, ReserveStep, RereadStep, PublishStep, ReplayStep;
  }

  lemma RespondFramed(s: State, id: nat)
    requires id in s.requests && s.requests[id].pc.Responding?
    ensures Framed(s, AdvanceStep(s, id, Resumes), id)
  {
    hide ReplayPhase, DecisionPhase, L.ReserveEffect, L.TransitionEffect, L.Used, L.LookupBy, Evaluate, ContextOf,
      LoadSnapshot, Releasable, AfterLookUp, RecordRead, StillActive, ActivationUnchanged, Authorize,
      IncidentBudgetEvidence, ReserveRequestOf, ReserveStep, RereadStep, PublishStep, ReplayStep;
    var s' := AdvanceStep(s, id, Resumes);
    assert s'.returned == s.returned + [s'.returned[|s.returned|]];
  }

  lemma AdvanceFramed(s: State, id: nat, answer: Answer)
    requires id in s.requests
    ensures Framed(s, AdvanceStep(s, id, answer), id)
  {
    hide L.ReserveEffect, L.TransitionEffect, L.Used, L.LookupBy, Evaluate, ContextOf, LoadSnapshot, AfterLookUp,
      RecordRead, StillActive, ActivationUnchanged, Authorize, IncidentBudgetEvidence, ReserveRequestOf, ReserveStep,
      RereadStep, PublishStep, ReplayStep, Goto, Framed;
    StayFramed(s, id);
    forall pc ensures Framed(s, Goto(s, id, pc), id) {
      GotoFramed(s, id, pc);
    }
    match (s.requests[id].pc, answer)
    case (Reserving(a), Resumes) => if a.snapshot.Some? { ReserveFramed(s, id, a); }
    case (Rereading(a, record, header, at), Resumes) => RereadFramed(s, id, a, record, header, at);
    case (Publishing(_, _, _, _), StoreAnswers(verdict)) => PublishFramed(s, id, verdict);
    case (CheckingReplay(_, _, _), Resumes) => ReplayFramed(s, id);
    case (Signing(_, _), Resumes) => SignFramed(s, id);
    case (Releasing(_), Resumes) => ReleaseFramed(s, id);
    case (Responding(_, _, _), Resumes) => RespondFramed(s, id);
    case _ =>
  }

  lemma AdvanceContinues(s: State, id: nat, answer: Answer)
    requires id in s.requests
    ensures LedgerContinues(s, AdvanceStep(s, id, answer))
  {
    hide Continues, AdvanceStep, L.TransitionEffect, ReserveStep;
    AllContinue(s);
    var pc := s.requests[id].pc;
    if pc.Reserving? && pc.authority.snapshot.Some? && answer.Resumes? {
      ReserveContinues(s.ledger, RequestOf(s.requests[id]));
      ReserveStepLedger(s, id);
    } else if pc.Releasing? && answer.Resumes? {
      var call := Transition(pc.record.reservationId, [Reserved], Released, s.clock, RELEASE);
      TransitionContinues(s.ledger, pc.record.reservationId, [Reserved], Released, s.clock, RELEASE);
      ReleasedPc(s, id, call);
    } else {
      LedgerUnmoved(s, id, answer);
    }
  }

  lemma ReserveContinues(ledger: L.State, q: ReserveRequest)
    ensures forall id :: id in ledger.reservations ==>
      && id in L.ReserveEffect(ledger, q).1.reservations
      && Continues(ledger.reservations[id], L.ReserveEffect(ledger, q).1.reservations[id])
  {
    hide Continues, L.ReserveEffect;
    StepExtends(ledger, Reserve(q));
  }

  lemma TransitionContinues(ledger: L.State, target: string, expected: seq<ReservationState>, next: ReservationState,
      at: int, patch: Patch)
    ensures forall id :: id in ledger.reservations ==>
      && id in L.TransitionEffect(ledger, target, expected, next, at, patch).1.reservations
      && Continues(ledger.reservations[id], L.TransitionEffect(ledger, target, expected, next, at,
        patch).1.reservations[id])
  {
    hide Continues, L.TransitionEffect;
    StepExtends(ledger, Transition(target, expected, next, at, patch));
  }

  lemma AdvanceBinds(s: State, id: nat, answer: Answer)
    requires Safe(s) && Binds(s) && id in s.requests
    ensures Binds(Aged(s, AdvanceStep(s, id, answer)))
  {
    hide Safe, AdvanceStep, PcOk, MandatesOk, RequestBinds, Binds, AuthorizationsBind, ResponseBinds, Covers,
      LedgerContinues, HeldAuthorization;
    var s' := AdvanceStep(s, id, answer);
    SafeParts(s, id);
    RequestsBind(s);
    if Owned(s.requests[id].pc).Some? {
      LatePcBinds(s, id, answer);
    } else {
      EarlyPcBinds(s, id, answer);
    }
    AdvanceFramed(s, id, answer);
    AdvanceContinues(s, id, answer);
    NewEntriesBind(s, s', id);
    SameLedger(s, s');
    BindingsKept(s, Aged(s, s'));
  }

  lemma RequestsBind(s: State)
    requires Binds(s)
    ensures forall x :: x in s.requests ==> RequestBinds(s.requests[x])
  {
    hide RequestBinds;
  }

  lemma SameLedger(s: State, s': State)
    requires LedgerContinues(s, s')
    ensures LedgerContinues(s, Aged(s, s'))
  {
    hide Continues;
  }

  lemma SafeParts(s: State, id: nat)
    requires Safe(s) && id in s.requests
    ensures MandatesOk(s) && PcOk(s, s.requests[id])
  {
    hide Inv, NeverExceeded, OneOwner, PcOk, AuthorizationsOk, SignedOk, ReturnedOk, MandatesOk;
  }

  /** An authorization that is stored, or a response that is given, by this step is bound. */
  lemma NewEntriesBind(s: State, s': State, id: nat)
    requires id in s.requests && RequestBinds(s.requests[id]) && PcOk(s, s.requests[id])
    requires id in s'.requests && s'.requests[id].proposal == s.requests[id].proposal
    requires s'.requests[id].envelopeHash == s.requests[id].envelopeHash
    ensures
      var pc := s.requests[id].pc;
      && (pc.Publishing? ==>
            && pc.authorization.reservationId in s.ledger.reservations
            && Covers(pc.authorization, s.ledger.reservations[pc.authorization.reservationId]))
      && (forall e: Returned :: e.requestId == id && HeldAuthorization(pc) == Some(e.authorization) ==>
        ResponseBinds(s'.requests, e))
  {
  }

  // Every step.

  lemma StepBinds(s: State, action: Action)
    requires Safe(s) && Binds(s)
    ensures Binds(Step(s, action))
  {
    hide Safe, AdvanceStep, L.TransitionEffect, Binds, RequestBinds;
    assert Step(s, action) == Aged(s, Effect(s, action));
    match action
    case Advance(id, answer) =>
      if id in s.requests { AdvanceBinds(s, id, answer); } else { IdleBinds(s, s); }
    case ControlPlane(id, expected, next, at, patch) =>
      var s' := Effect(s, action);
      ControlPlaneBinds(s, s', id, expected, next, at, patch);
    case Start(id, envelope) =>
      if id in s.requests { IdleBinds(s, s); }
      else { RequestChangeBinds(s, id, SignRequest(envelope.proposal, envelope, s.clock, |s.past|, LookingUp)); }
    case Crash(id) =>
      if id in s.requests { CrashBinds(s, id); } else { IdleBinds(s, s); }
    case _ => IdleBinds(s, Effect(s, action));
  }

  lemma IdleBinds(s: State, s': State)
    requires Binds(s) && s'.requests == s.requests && s'.ledger == s.ledger
    requires s'.authorizations == s.authorizations && s'.returned == s.returned
    ensures Binds(Aged(s, s'))
  {
    hide RequestBinds, Covers, Fits;
  }

  lemma RequestChangeBinds(s: State, id: nat, r: SignRequest)
    requires Binds(s) && (r.pc.LookingUp? || r.pc.Done?)
    requires r.envelopeHash.proposal == r.proposal
    requires id in s.requests ==> s.requests[id].proposal == r.proposal && s.requests[id].envelopeHash == r.envelopeHash
    ensures Binds(Aged(s, s.(requests := s.requests[id := r])))
  {
    var s' := Aged(s, s.(requests := s.requests[id := r]));
    assert RequestBinds(r);
    hide RequestBinds, Covers, Fits, Continues;
    AllContinue(s);
    BindingsKept(s, s');
  }

  lemma CrashBinds(s: State, id: nat)
    requires Binds(s) && id in s.requests
    ensures Binds(Aged(s, Goto(s, id, Done)))
  {
    assert RequestBinds(s.requests[id]);
    hide Binds;
    RequestChangeBinds(s, id, s.requests[id].(pc := Done));
  }

  lemma ControlPlaneBinds(
      s: State, s': State, id: string, expected: seq<ReservationState>, next: ReservationState, at: int, patch: Patch)
    requires Binds(s)
    requires s' == if Holding(next) then s.(ledger := L.TransitionEffect(s.ledger, id, expected, next, at, patch).1)
      else s
    ensures Binds(Aged(s, s'))
  {
    hide ResponseBinds;
    hide RequestBinds, Covers, Fits, Continues, L.TransitionEffect, AdvanceStep, Goto, Holding;
    AllContinue(s);
    TransitionContinues(s.ledger, id, expected, next, at, patch);
    BindingsKept(s, Aged(s, s'));
  }

  lemma {:induction false} RunBinds(s: State, actions: seq<Action>)
    requires Safe(s) && Binds(s)
    ensures Binds(After(s, actions))
    decreases |actions|
  {
    hide Safe, Binds;
    if actions == [] {
    } else {
      StepSafe(s, actions[0]);
      StepBinds(s, actions[0]);
      RunBinds(Step(s, actions[0]), actions[1..]);
    }
  }

  /**
   * Over every interleaving: a header is returned only to a request with the
   * fingerprint and the decision envelope it was made for, also on a replay,
   * and its reservation is for that request's payment, mandate and amount.
   */
  lemma HeaderIsBound(actions: seq<Action>, i: nat)
    requires i < |After(INIT, actions).returned|
    ensures
      var s := After(INIT, actions);
      var e := s.returned[i];
      && e.requestId in s.requests
      && var p := s.requests[e.requestId].proposal;
         var id := e.authorization.reservationId;
         && e.authorization.requestFingerprint == p.requestFingerprint
         && e.authorization.contextHash == s.requests[e.requestId].envelopeHash
         && e.authorization.paymentId == p.paymentId && e.authorization.mandateId == p.mandateId
         && id == p.idempotencyKey && id in s.ledger.reservations
         && MadeFor(s.ledger.reservations[id], p)
  {
    InitSafe();
    RunBinds(INIT, actions);
    ReachableSafe(actions);
    hide After, Safe;
    OneHeaderPerReservation(actions, i, i);
    var s := After(INIT, actions);
    assert ResponseBinds(s.requests, s.returned[i]);
    assert RequestBinds(s.requests[s.returned[i].requestId]);
  }
}
