/** What no interleaving of the executor's steps can break. */
module ExecutorSafety {
  import opened Prelude
  import opened Ledger
  import opened LedgerSum
  import opened LedgerHistory
  import opened LedgerBudget
  import opened Policy
  import opened Executor
  import L = MemoryLedger

  // The invariant.

  function LimitsOf(mandates: map<string, Mandate>): string -> Limits {
    (id: string) =>
      if id in mandates && MandateParses(mandates[id])
      then Limits(Amount(mandates[id].incidentLimit), Amount(mandates[id].dailyLimit))
      else Limits(0, 0)
  }

  /** The reservation that a request has created and still decides about. */
  function Owned(pc: Pc): Option<Reservation> {
    match pc
    case Signing(_, record) => Some(record)
    case AwaitingSigner(_, record) => Some(record)
    case Rereading(_, record, _, _) => Some(record)
    case Publishing(record, _, _, _) => Some(record)
    case Releasing(record) => Some(record)
    case Responding(record, _, _) => Some(record)
    case _ => None
  }

  predicate Owns(r: SignRequest, id: string) {
    Owned(r.pc).Some? && Owned(r.pc).value.reservationId == id
  }

  ghost predicate SignedFor(s: State, id: string) {
    exists i :: 0 <= i < |s.signed| && s.signed[i].reservationId == id
  }

  /** At time `readAt` the mandate was active at exactly the version and hash bound into the authorization. */
  predicate BoundAt(s: State, auth: Authorization, readAt: nat) {
    && readAt < |s.past|
    && auth.mandateId in s.past[readAt]
    && s.past[readAt][auth.mandateId].active
    && s.past[readAt][auth.mandateId].version == auth.activationVersion
    && s.past[readAt][auth.mandateId].activationHash == auth.activationHash
  }

  predicate SnapshotOf(s: State, snapshot: Snapshot, mandateId: string) {
    snapshot.Some? ==>
      && mandateId in s.mandates
      && snapshot.value.mandate.(revokedAt := None) == s.mandates[mandateId].(revokedAt := None)
  }

  predicate ReadAt(s: State, snapshot: Snapshot, mandateId: string, readAt: nat) {
    && readAt < |s.past|
    && (snapshot.Some? ==> mandateId in s.past[readAt] && s.past[readAt][mandateId] == snapshot.value.activation)
  }

  /** The records that a request holds in its hands agree with the stores. */
  ghost predicate OwnedOk(s: State, pc: Pc) {
    Owned(pc).Some? ==>
      var id := Owned(pc).value.reservationId;
      && id in s.ledger.reservations
      && Continues(Owned(pc).value, s.ledger.reservations[id])
      && Holding(s.ledger.reservations[id].state)
      && (pc.Signing? ==> !SignedFor(s, id))
      && (!pc.Responding? ==> id !in s.authorizations)
  }

  predicate AuthorizationOk(s: State, auth: Authorization) {
    && auth.mandateId in s.mandates
    && auth.expiresAt <= s.mandates[auth.mandateId].expiresAt
    && auth.publishedAt < s.mandates[auth.mandateId].expiresAt
  }

  ghost predicate PcOk(s: State, r: SignRequest) {
    && r.startedAt <= |s.past|
    && OwnedOk(s, r.pc)
    && match r.pc
       case LoadingForReplay(cached) => Find(s.authorizations, cached.reservationId) == Some(cached)
       case CheckingReplay(cached, snapshot, readAt) =>
         && Find(s.authorizations, cached.reservationId) == Some(cached)
         && SnapshotOf(s, snapshot, r.proposal.mandateId)
         && r.startedAt <= readAt && ReadAt(s, snapshot, r.proposal.mandateId, readAt)
       case ReadingLedger(a, _) => SnapshotOf(s, a.snapshot, r.proposal.mandateId)
       case Reserving(a) => SnapshotOf(s, a.snapshot, r.proposal.mandateId)
       case Publishing(record, auth, readAt, expiries) =>
         && auth.reservationId == record.reservationId && AuthorizationOk(s, auth) && r.startedAt <= readAt
         && BoundAt(s, auth, readAt) && auth.expiresAt == expiries.First()
       case Responding(record, auth, readAt) =>
         && auth.reservationId == record.reservationId
         && Find(s.authorizations, auth.reservationId) == Some(auth)
         && AuthorizationOk(s, auth) && r.startedAt <= readAt && BoundAt(s, auth, readAt)
       case EvidenceError => false
       case _ => true
  }

  ghost predicate MandatesOk(s: State) {
    forall id :: id in s.mandates ==> s.mandates[id].id == id && MandateParses(s.mandates[id])
  }

  ghost predicate OneOwner(requests: map<nat, SignRequest>) {
    forall x, y, id :: x in requests && y in requests && Owns(requests[x], id) && Owns(requests[y], id) ==> x == y
  }

  /** A published authorization belongs to a reservation that holds its budget. */
  ghost predicate AuthorizationsOk(s: State) {
    forall id :: id in s.authorizations ==>
      && s.authorizations[id].reservationId == id
      && id in s.ledger.reservations
      && Holding(s.ledger.reservations[id].state)
      && s.authorizations[id].publishedAt < s.authorizations[id].expiresAt
      && AuthorizationOk(s, s.authorizations[id])
  }

  ghost predicate ReturnedOk(s: State) {
    forall i :: 0 <= i < |s.returned| ==> ResponseOk(s, s.returned[i])
  }

  ghost predicate ResponseOk(s: State, e: Returned) {
    && Find(s.authorizations, e.authorization.reservationId) == Some(e.authorization)
    && e.startedAt <= e.readAt && BoundAt(s, e.authorization, e.readAt)
    && e.authorization.mandateId in s.mandates
    && e.checkedAt < s.mandates[e.authorization.mandateId].expiresAt
  }

  ghost predicate SignedOk(s: State) {
    && (forall i :: 0 <= i < |s.signed| ==>
          && s.signed[i].reservationId in s.ledger.reservations
          && s.signed[i].paymentId == s.ledger.reservations[s.signed[i].reservationId].paymentId
          && s.signed[i].nonce == s.ledger.reservations[s.signed[i].reservationId].nonce)
    && (forall i, j :: 0 <= i < j < |s.signed| ==> s.signed[i].reservationId != s.signed[j].reservationId)
  }

  ghost predicate Safe(s: State) {
    && Inv(s.ledger)
    && MandatesOk(s)
    && NeverExceeded(s.ledger.reservations, LimitsOf(s.mandates))
    && (forall id :: id in s.requests ==> PcOk(s, s.requests[id]))
    && OneOwner(s.requests)
    && AuthorizationsOk(s)
    && ReturnedOk(s)
    && SignedOk(s)
  }

  lemma InitSafe()
    ensures Safe(INIT)
  {
  }

  // How one step may change what the other requests rely on.

  /** `s'` is `s` some steps later, and only reservation `own` has been signed, published or released in between. */
  ghost predicate Grows(s: State, s': State, own: Option<string>) {
    && (forall id :: id in s.mandates ==> id in s'.mandates && s'.mandates[id] == s.mandates[id])
    && s.past <= s'.past
    && (forall id :: id in s.ledger.reservations ==>
          id in s'.ledger.reservations && Continues(s.ledger.reservations[id], s'.ledger.reservations[id]))
    && (forall id :: id in s.authorizations ==> Find(s'.authorizations, id) == Some(s.authorizations[id]))
    && (forall id :: id in s'.authorizations && Some(id) != own ==> id in s.authorizations)
    && (forall id :: SignedFor(s', id) && Some(id) != own ==> SignedFor(s, id))
    && (forall id :: id in s.ledger.reservations && Some(id) != own && Holding(s.ledger.reservations[id].state) ==>
          Holding(s'.ledger.reservations[id].state))
  }

  lemma BoundLater(s: State, s': State, auth: Authorization, readAt: nat)
    requires BoundAt(s, auth, readAt) && s.past <= s'.past
    ensures BoundAt(s', auth, readAt)
  {
    assert s'.past[readAt] == s.past[readAt];
  }

  lemma OthersUnaffected(s: State, s': State, r: SignRequest, own: Option<string>)
    requires PcOk(s, r) && Grows(s, s', own)
    requires Owned(r.pc).Some? ==> Some(Owned(r.pc).value.reservationId) != own
    ensures PcOk(s', r)
  {
    match r.pc
    case CheckingReplay(cached, snapshot, readAt) =>
      assert s'.past[readAt] == s.past[readAt];
    case Publishing(_, auth, readAt, _) =>
      BoundLater(s, s', auth, readAt);
    case Responding(_, auth, readAt) =>
      BoundLater(s, s', auth, readAt);
    case _ =>
  }

  /**
   * `s'` is `s` after one step of request `id`, which may have signed, published or released its own
   * reservation only.
   */
  ghost predicate StepOf(s: State, s': State, id: nat, own: Option<string>) {
    && id in s.requests
    && s'.requests.Keys == s.requests.Keys
    && (forall x :: x in s.requests && x != id ==> s'.requests[x] == s.requests[x])
    && Grows(s, s', own)
    && (own.Some? ==> Owns(s.requests[id], own.value))
    && PcOk(s', s'.requests[id])
  }

  lemma RequestsAfter(s: State, s': State, id: nat, own: Option<string>)
    requires Safe(s) && StepOf(s, s', id, own)
    ensures forall x :: x in s'.requests ==> PcOk(s', s'.requests[x])
  {
    forall x | x in s'.requests && x != id ensures PcOk(s', s'.requests[x]) {
      hide PcOk, Grows, Inv, NeverExceeded, AuthorizationsOk, ReturnedOk, SignedOk;
      if Owned(s.requests[x].pc).Some? && Some(Owned(s.requests[x].pc).value.reservationId) == own {
        assert false;
      }
      OthersUnaffected(s, s', s.requests[x], own);
    }
  }

  /** A request keeps the reservation that it owns, gives it up or takes one that nobody owns. */
  lemma OwnersAfter(requests: map<nat, SignRequest>, id: nat, r: SignRequest)
    requires OneOwner(requests) && id in requests
    requires Owned(r.pc).Some? ==>
      forall x :: x in requests && Owns(requests[x], Owned(r.pc).value.reservationId) ==> x == id
    ensures OneOwner(requests[id := r])
  {
  }

  lemma ReturnedLater(s: State, s': State)
    requires ReturnedOk(s) && s'.returned == s.returned && s.past <= s'.past
    requires forall id :: id in s.mandates ==> id in s'.mandates && s'.mandates[id] == s.mandates[id]
    requires forall id :: id in s.authorizations ==> Find(s'.authorizations, id) == Some(s.authorizations[id])
    ensures ReturnedOk(s')
  {
    forall i | 0 <= i < |s'.returned| ensures ResponseOk(s', s'.returned[i]) {
      assert ResponseOk(s, s.returned[i]);
      BoundLater(s, s', s.returned[i].authorization, s.returned[i].readAt);
    }
  }

  lemma SignedLater(s: State, s': State)
    requires SignedOk(s) && s'.signed == s.signed
    requires forall id :: id in s.ledger.reservations ==>
      id in s'.ledger.reservations && Continues(s.ledger.reservations[id], s'.ledger.reservations[id])
    ensures SignedOk(s')
  {
  }

  lemma AuthorizationsLater(s: State, s': State)
    requires AuthorizationsOk(s) && s'.authorizations == s.authorizations
    requires forall id :: id in s.mandates ==> id in s'.mandates && s'.mandates[id] == s.mandates[id]
    requires forall id :: id in s.authorizations ==>
      id in s'.ledger.reservations && Holding(s'.ledger.reservations[id].state)
    ensures AuthorizationsOk(s')
  {
  }

  /** A step of one request that touches nothing but its own program counter and time. */
  lemma PcStepSafe(s: State, id: nat, pc: Pc)
    requires Safe(s) && id in s.requests
    requires Owned(pc).Some? ==> Owned(pc) == Owned(s.requests[id].pc)
    requires PcOk(Goto(s, id, pc).(past := s.past + [s.activations]), s.requests[id].(pc := pc))
    ensures Safe(Goto(s, id, pc).(past := s.past + [s.activations]))
  {
    hide Inv, NeverExceeded, PcOk, MandatesOk, OneOwner, AuthorizationsOk, ReturnedOk, SignedOk, Grows, Owns;
    var s' := Goto(s, id, pc).(past := s.past + [s.activations]);
    SameStoresGrow(s, s');
    RequestsAfter(s, s', id, None);
    if Owned(pc).Some? {
      OwnerIsAlone(s, id);
    }
    OwnersAfter(s.requests, id, s.requests[id].(pc := pc));
    ReturnedLater(s, s');
    SignedLater(s, s') by { AllContinue(s); }
    AuthorizationsLater(s, s') by { HeldAuthorizations(s); }
    MandatesSame(s, s');
  }

  lemma SameStoresGrow(s: State, s': State)
    requires s'.mandates == s.mandates && s.past <= s'.past && s'.ledger == s.ledger
    requires s'.authorizations == s.authorizations && s'.signed == s.signed
    ensures Grows(s, s', None)
  {
  }

  // One request's steps.

  lemma SnapshotLoaded(s: State, mandateId: string)
    requires MandatesOk(s)
    ensures SnapshotOf(s, LoadSnapshot(s, mandateId), mandateId)
    ensures LoadSnapshot(s, mandateId).Some? ==>
      && LoadSnapshot(s, mandateId).value.mandate.id == mandateId
      && mandateId in s.activations
      && LoadSnapshot(s, mandateId).value.activation == s.activations[mandateId]
      && LoadSnapshot(s, mandateId).value.mandate.expiresAt == s.mandates[mandateId].expiresAt
  {
  }

  function Aged(s: State, s': State): State {
    s'.(past := s.past + [s.activations])
  }

  /** The steps that move nothing but the request itself. */
  predicate OnlyMoves(pc: Pc, answer: Answer) {
    || pc.LookingUp? || pc.LookingInCache? || pc.LoadingForReplay? || pc.LoadingAuthority?
    || pc.ReadingLedger? || pc.AwaitingSigner? || pc.Rereading?
    || (pc.Publishing? && !(answer.StoreAnswers? && answer.verdict == Admits))
  }

  /** Only the request's own program counter has moved, to a place that is in order. */
  ghost predicate Moved(s: State, id: nat, s': State)
    requires id in s.requests
  {
    && id in s'.requests
    && s' == Goto(s, id, s'.requests[id].pc)
    && (Owned(s'.requests[id].pc).Some? ==> Owned(s'.requests[id].pc) == Owned(s.requests[id].pc))
    && PcOk(Aged(s, s'), s'.requests[id])
  }

  lemma StayedMoved(s: State, id: nat)
    requires id in s.requests && PcOk(s, s.requests[id])
    ensures Moved(s, id, s)
  {
    var s' := Aged(s, s);
    SameStoresGrow(s, s');
    hide PcOk;
    OthersUnaffected(s, s', s.requests[id], None);
    assert s.requests == s.requests[id := s.requests[id].(pc := s.requests[id].pc)];
  }

  lemma LookUpMoves(s: State, id: nat, answer: Answer)
    requires id in s.requests && PcOk(s, s.requests[id]) && AuthorizationsOk(s) && MandatesOk(s)
    requires s.requests[id].pc.LookingUp? || s.requests[id].pc.LookingInCache?
    ensures Moved(s, id, AdvanceStep(s, id, answer))
  {
    hide DecisionPhase, OwnerPhase, Continues, SignedFor, AuthorizationOk, MandatesOk, BoundAt, LoadSnapshot, L.Used,
      Evaluate, ContextOf;
    StayedMoved(s, id);
  }

  lemma ReplayLoadMoves(s: State, id: nat, answer: Answer)
    requires id in s.requests && PcOk(s, s.requests[id]) && MandatesOk(s)
    requires s.requests[id].pc.LoadingForReplay?
    ensures Moved(s, id, AdvanceStep(s, id, answer))
  {
    hide DecisionPhase, OwnerPhase, Continues, SignedFor, AuthorizationOk, MandatesOk, BoundAt, LoadSnapshot, L.Used,
      Evaluate, ContextOf, SnapshotOf;
    SnapshotLoaded(s, s.requests[id].proposal.mandateId);
    StayedMoved(s, id);
    if answer.Resumes? {
      SnapshotKept(s, Aged(s, AdvanceStep(s, id, answer)), LoadSnapshot(s, s.requests[id].proposal.mandateId),
        s.requests[id].proposal.mandateId);
      assert Aged(s, s).past[|s.past|] == s.activations;
    }
  }

  lemma SnapshotKept(s: State, s': State, snapshot: Snapshot, mandateId: string)
    requires SnapshotOf(s, snapshot, mandateId) && s'.mandates == s.mandates
    ensures SnapshotOf(s', snapshot, mandateId)
  {
  }

  lemma ReadMoves(s: State, id: nat, answer: Answer)
    requires id in s.requests && PcOk(s, s.requests[id]) && AuthorizationsOk(s) && MandatesOk(s)
    requires s.requests[id].pc.LoadingAuthority? || s.requests[id].pc.ReadingLedger?
    ensures Moved(s, id, AdvanceStep(s, id, answer))
  {
    hide ReplayPhase, OwnerPhase, L.Used, Evaluate, ContextOf, AuthorizationsOk, Continues, SignedFor,
      AuthorizationOk, MandatesOk, BoundAt, LoadSnapshot, RecordRead;
    SnapshotLoaded(s, s.requests[id].proposal.mandateId);
    StayedMoved(s, id);
  }

  lemma SignerMoves(s: State, id: nat, answer: Answer)
    requires id in s.requests && PcOk(s, s.requests[id]) && AuthorizationsOk(s) && MandatesOk(s)
    requires s.requests[id].pc.AwaitingSigner?
             || (s.requests[id].pc.Publishing? && !(answer.StoreAnswers? && answer.verdict == Admits))
    ensures Moved(s, id, AdvanceStep(s, id, answer))
  {
    hide ReplayPhase, DecisionPhase, AuthorizationsOk, MandatesOk, Continues, SignedFor, AuthorizationOk, BoundAt,
      LoadSnapshot;
    StayedMoved(s, id);
  }

  lemma RereadMoves(s: State, id: nat, answer: Answer)
    requires id in s.requests && PcOk(s, s.requests[id]) && MandatesOk(s)
    requires s.requests[id].pc.Rereading?
    ensures Moved(s, id, AdvanceStep(s, id, answer))
  {
    hide ReplayPhase, DecisionPhase, Continues, SignedFor, MandatesOk, LoadSnapshot;
    StayedMoved(s, id);
    if answer.Resumes? {
      var r := s.requests[id];
      var now := LoadSnapshot(s, r.proposal.mandateId);
      SnapshotLoaded(s, r.proposal.mandateId);
      var s' := RereadStep(s, id, r.pc.authority, r.pc.record, r.pc.header, r.pc.publishedAt);
      assert AdvanceStep(s, id, answer) == s';
      if ActivationUnchanged(r.pc.authority.snapshot, now, r.pc.publishedAt) {
        var auth := Authorize(r, r.pc.record, now.value, r.pc.header, r.pc.publishedAt, s'.requests[id].pc.expiries);
        assert Aged(s, s').past[|s.past|] == s.activations;
        assert BoundAt(Aged(s, s'), auth, |s.past|);
        assert AuthorizationOk(s, auth);
      }
    }
  }

  lemma MovedPc(s: State, id: nat, answer: Answer)
    requires id in s.requests && OnlyMoves(s.requests[id].pc, answer)
    requires PcOk(s, s.requests[id]) && AuthorizationsOk(s) && MandatesOk(s)
    ensures Moved(s, id, AdvanceStep(s, id, answer))
  {
    hide PcOk, AuthorizationsOk, MandatesOk, Moved, AdvanceStep;
    var pc := s.requests[id].pc;
    if pc.LookingUp? || pc.LookingInCache? {
      LookUpMoves(s, id, answer);
    } else if pc.LoadingForReplay? {
      ReplayLoadMoves(s, id, answer);
    } else if pc.LoadingAuthority? || pc.ReadingLedger? {
      ReadMoves(s, id, answer);
    } else if pc.Rereading? {
      RereadMoves(s, id, answer);
    } else {
      SignerMoves(s, id, answer);
    }
  }

  lemma MoveSafe(s: State, id: nat, answer: Answer)
    requires Safe(s) && id in s.requests && OnlyMoves(s.requests[id].pc, answer)
    ensures Safe(Aged(s, AdvanceStep(s, id, answer)))
  {
    hide Inv, NeverExceeded, SignedOk, ReturnedOk, OneOwner, AuthorizationsOk, MandatesOk, PcOk, AdvanceStep, OnlyMoves;
    MovedPc(s, id, answer);
    PcStepSafe(s, id, AdvanceStep(s, id, answer).requests[id].pc);
  }

  lemma AppendedResponse(s: State, s': State, e: Returned)
    requires Safe(s) && ResponseOk(s, e) && s' == s.(returned := s.returned + [e])
    ensures Safe(s')
  {
    hide Inv, NeverExceeded, OneOwner, PcOk, Grows, AuthorizationsOk, SignedOk, ReturnedOk, MandatesOk, ResponseOk;
    SameStoresGrow(s, s');
    forall x | x in s'.requests ensures PcOk(s', s'.requests[x]) {
      OthersUnaffected(s, s', s.requests[x], None);
    }
    ResponsesAppended(s, s', e);
    SignedLater(s, s') by { AllContinue(s); }
    AuthorizationsLater(s, s') by { HeldAuthorizations(s); }
    MandatesSame(s, s');
  }

  lemma ResponsesAppended(s: State, s': State, e: Returned)
    requires ReturnedOk(s) && ResponseOk(s, e) && s' == s.(returned := s.returned + [e])
    ensures ReturnedOk(s')
  {
    forall i | 0 <= i < |s'.returned| ensures ResponseOk(s', s'.returned[i]) {
      assert i < |s.returned| ==> ResponseOk(s, s.returned[i]);
    }
  }

  function ResponseOf(s: State, id: nat, r: SignRequest): Option<Returned> {
    match r.pc
    case CheckingReplay(cached, snapshot, readAt) =>
      if StillActive(cached, snapshot, s.clock) then Some(Returned(id, cached, r.startedAt, readAt, s.clock)) else None
    case Responding(_, auth, readAt) => Some(Returned(id, auth, r.startedAt, readAt, auth.publishedAt))
    case _ => None
  }

  lemma ResponseIsOk(s: State, id: nat, r: SignRequest)
    requires id in s.requests && PcOk(s, r) && AuthorizationsOk(s) && MandatesOk(s) && ResponseOf(s, id, r).Some?
    ensures ResponseOk(Aged(s, Goto(s, id, Done)), ResponseOf(s, id, r).value)
  {
    hide OwnedOk, MandateParses, Holding;
    var e := ResponseOf(s, id, r).value;
    assert s.past[e.readAt] == (s.past + [s.activations])[e.readAt];
  }

  lemma DoneIsOk(s: State, r: SignRequest)
    requires r.startedAt <= |s.past|
    ensures PcOk(s, r.(pc := Done))
  {
  }

  lemma RespondEffect(s: State, id: nat)
    requires id in s.requests && (s.requests[id].pc.CheckingReplay? || s.requests[id].pc.Responding?)
    ensures
      var response := ResponseOf(s, id, s.requests[id]);
      AdvanceStep(s, id, Resumes) ==
        if response.Some? then Goto(s, id, Done).(returned := s.returned + [response.value]) else Goto(s, id, Done)
  {
    hide DecisionPhase;
  }

  lemma RespondSafe(s: State, id: nat)
    requires Safe(s) && id in s.requests && (s.requests[id].pc.CheckingReplay? || s.requests[id].pc.Responding?)
    ensures Safe(Aged(s, AdvanceStep(s, id, Resumes)))
  {
    hide Inv, NeverExceeded, SignedOk, ReturnedOk, OneOwner, AuthorizationsOk, MandatesOk, PcOk, ResponseOk,
      ResponseOf, AdvanceStep;
    var r := s.requests[id];
    var s0 := Aged(s, Goto(s, id, Done));
    StartedBefore(s, r);
    DoneIsOk(s0, r);
    RespondEffect(s, id);
    PcStepSafe(s, id, Done);
    if ResponseOf(s, id, r).Some? {
      ResponseIsOk(s, id, r);
      hide Safe;
      AppendedResponse(s0, Aged(s, AdvanceStep(s, id, Resumes)), ResponseOf(s, id, r).value);
    }
  }

  // Steps on the ledger.

  /** The reservation that a call takes out of the budget, if the call does that. */
  function ReleasedBy(call: Call): Option<string> {
    if call.Transition? && !Holding(call.next) then Some(call.id) else None
  }

  lemma HoldingKept(s: L.State, call: Call)
    ensures var s' := L.Step(s, call).1;
      forall id :: id in s.reservations && Holding(s.reservations[id].state) && Some(id) != ReleasedBy(call) ==>
        id in s'.reservations && Holding(s'.reservations[id].state)
  {
    hide L.Used, L.Known, L.Decide, ValidRequest;
    forall id | id in s.reservations && Holding(s.reservations[id].state) && Some(id) != ReleasedBy(call)
      ensures id in L.Step(s, call).1.reservations && Holding(L.Step(s, call).1.reservations[id].state)
    {
      match call
      case Reserve(q) => ReserveLeavesOthers(s, q, id);
      case _ =>
    }
  }

  lemma ReserveLeavesOthers(s: L.State, q: ReserveRequest, id: string)
    requires id in s.reservations
    ensures Find(L.ReserveEffect(s, q).1.reservations, id) == Some(s.reservations[id])
  {
    hide ValidRequest, L.Used, SameRequest;
  }

  lemma LedgerStepOk(s: State, s': State, call: Call)
    requires Safe(s) && s'.ledger == L.Step(s.ledger, call).1 && WithinLimits(call, LimitsOf(s.mandates))
    requires forall id :: ReleasedBy(call) == Some(id) ==> id !in s.authorizations
    requires s'.mandates == s.mandates && s.past <= s'.past
    requires s'.authorizations == s.authorizations && s'.signed == s.signed && s'.returned == s.returned
    ensures Inv(s'.ledger) && MandatesOk(s') && NeverExceeded(s'.ledger.reservations, LimitsOf(s'.mandates))
    ensures Grows(s, s', ReleasedBy(call)) && AuthorizationsOk(s') && ReturnedOk(s') && SignedOk(s')
  {
    hide Inv, NeverExceeded, OneOwner, PcOk, WithinLimits, LimitsOf, AuthorizationsOk, ReturnedOk, SignedOk,
      MandatesOk, Continues, L.Step, ReleasedBy, Grows, SignedFor;
    StepKeepsInv(s.ledger, call);
    StepWithinLimits(s.ledger, call, LimitsOf(s.mandates));
    StepExtends(s.ledger, call);
    HoldingKept(s.ledger, call);
    LedgerGrows(s, s', call);
    ReturnedLater(s, s');
    SignedLater(s, s');
    AuthorizationsLater(s, s') by { HeldAuthorizations(s); }
    MandatesSame(s, s');
  }

  lemma LedgerGrows(s: State, s': State, call: Call)
    requires Extends(s.ledger, s'.ledger)
    requires forall id ::
      id in s.ledger.reservations && Holding(s.ledger.reservations[id].state) && Some(id) != ReleasedBy(call) ==>
      id in s'.ledger.reservations && Holding(s'.ledger.reservations[id].state)
    requires s'.mandates == s.mandates && s.past <= s'.past
    requires s'.authorizations == s.authorizations && s'.signed == s.signed
    ensures Grows(s, s', ReleasedBy(call))
  {
    hide Continues, ReleasedBy;
  }

  lemma LedgerMoveSafe(s: State, id: nat, pc: Pc, call: Call, s': State)
    requires Safe(s) && id in s.requests
    requires s' == Aged(s, Goto(s.(ledger := L.Step(s.ledger, call).1), id, pc))
    requires WithinLimits(call, LimitsOf(s.mandates))
    requires forall own :: ReleasedBy(call) == Some(own) ==> own !in s.authorizations && Owns(s.requests[id], own)
    requires PcOk(s', s.requests[id].(pc := pc))
    requires Owned(pc).Some? ==>
      forall x :: x in s.requests && Owns(s.requests[x], Owned(pc).value.reservationId) ==> x == id
    ensures Safe(s')
  {
    hide L.Step, ReleasedBy, Inv, NeverExceeded, PcOk, WithinLimits, LimitsOf, Grows, AuthorizationsOk, ReturnedOk,
      SignedOk, MandatesOk, OneOwner, Owns;
    LedgerStepOk(s, s', call);
    RequestsAfter(s, s', id, ReleasedBy(call));
    OwnersAfter(s.requests, id, s.requests[id].(pc := pc));
  }

  lemma ReleaseSafe(s: State, id: nat)
    requires Safe(s) && id in s.requests && s.requests[id].pc.Releasing?
    ensures Safe(Aged(s, AdvanceStep(s, id, Resumes)))
  {
    hide Safe, AdvanceStep, L.Step, PcOk;
    var r := s.requests[id];
    var call := Transition(r.pc.record.reservationId, [Reserved], Released, s.clock, RELEASE);
    var s' := Aged(s, AdvanceStep(s, id, Resumes));
    ReleasedPc(s, id, call);
    RequestIsOk(s, id);
    ReleasingOwns(s, id);
    StartedBefore(s, r);
    DoneIsOk(s', r);
    LedgerMoveSafe(s, id, Done, call, s');
  }

  lemma ReleasedPc(s: State, id: nat, call: Call)
    requires id in s.requests && s.requests[id].pc.Releasing?
    requires call == Transition(s.requests[id].pc.record.reservationId, [Reserved], Released, s.clock, RELEASE)
    ensures AdvanceStep(s, id, Resumes) == Goto(s.(ledger := L.Step(s.ledger, call).1), id, Done)
  {
    hide ReplayPhase, DecisionPhase, L.TransitionEffect, L.ReserveEffect, L.Used, L.LookupBy, Evaluate;
  }

  lemma ReleasingOwns(s: State, id: nat)
    requires id in s.requests && s.requests[id].pc.Releasing? && PcOk(s, s.requests[id])
    ensures var own := s.requests[id].pc.record.reservationId; own !in s.authorizations && Owns(s.requests[id], own)
  {
  }

  lemma RequestIsOk(s: State, id: nat)
    requires Safe(s) && id in s.requests
    ensures PcOk(s, s.requests[id])
  {
    hide Inv, NeverExceeded, OneOwner, PcOk, AuthorizationsOk, SignedOk, ReturnedOk, MandatesOk;
  }

  /** The evidence of a fresh reservation never contradicts it, whatever the policy had read before. */
  lemma EvidenceNeverThrows(s: L.State, q: ReserveRequest)
    requires Inv(s) && L.ReserveEffect(s, q).0.Ok? && L.ReserveEffect(s, q).0.value.NewlyReserved?
    ensures
      var before := L.ReserveEffect(s, q).0.value.before.incident;
      && IncidentBudgetEvidence(q.incidentLimit, before, q.amount) ==
           Ok((q.incidentLimit - before, q.incidentLimit - before - q.amount))
      && before == Sum(s.reservations, OfIncident(q.mandateId, q.incidentId, true))
  {
    PositiveAmounts(s);
    hide Inv;
    SumMonotone(map[], s.reservations, OfIncident(q.mandateId, q.incidentId, true));
  }

  lemma NewReservation(s: L.State, q: ReserveRequest)
    requires L.ReserveEffect(s, q).0.Ok? && L.ReserveEffect(s, q).0.value.NewlyReserved?
    ensures q.reservationId !in s.reservations
    ensures L.ReserveEffect(s, q).0.value.record == Opened(q)
    ensures L.ReserveEffect(s, q).1 == L.Inserted(s, Opened(q))
  {
    hide ValidRequest, L.Used, SameRequest;
  }

  function RequestOf(r: SignRequest): ReserveRequest
    requires r.pc.Reserving? && r.pc.authority.snapshot.Some?
  {
    ReserveRequestOf(r.proposal, r.pc.authority.snapshot.value.mandate, r.occurredAt)
  }

  ghost function PcAfterReserve(s: State, r: SignRequest): Pc
    requires r.pc.Reserving?
  {
    if r.pc.authority.snapshot.None? then Done
    else
      var outcome := L.ReserveEffect(s.ledger, RequestOf(r)).0;
      if outcome.Ok? && outcome.value.NewlyReserved? then Signing(r.pc.authority, Opened(RequestOf(r))) else Done
  }

  lemma ReserveEffectOf(s: State, id: nat)
    requires Inv(s.ledger) && id in s.requests && s.requests[id].pc.Reserving?
    ensures
      var r := s.requests[id];
      var s' := AdvanceStep(s, id, Resumes);
      if r.pc.authority.snapshot.None? then s' == Goto(s, id, Done)
      else s' == Goto(s.(ledger := L.Step(s.ledger, Reserve(RequestOf(r))).1), id, PcAfterReserve(s, r))
  {
    hide ReplayPhase, OwnerPhase, L.ReserveEffect, Inv, IncidentBudgetEvidence, L.TransitionEffect, L.Used,
      L.LookupBy, Evaluate, ContextOf, LoadSnapshot;
    var r := s.requests[id];
    if r.pc.authority.snapshot.Some? {
      var q := RequestOf(r);
      var outcome := L.ReserveEffect(s.ledger, q).0;
      if outcome.Ok? && outcome.value.NewlyReserved? {
        EvidenceNeverThrows(s.ledger, q);
        NewReservation(s.ledger, q);
      }
    }
  }

  lemma ReserveStepLedger(s: State, id: nat)
    requires id in s.requests && s.requests[id].pc.Reserving? && s.requests[id].pc.authority.snapshot.Some?
    ensures AdvanceStep(s, id, Resumes).ledger == L.ReserveEffect(s.ledger, RequestOf(s.requests[id])).1
  {
    hide ReplayPhase, OwnerPhase, L.ReserveEffect, L.TransitionEffect, L.Used, L.LookupBy, Evaluate, ContextOf,
      LoadSnapshot, AfterLookUp, RecordRead, StillActive, ActivationUnchanged, Authorize, IncidentBudgetEvidence,
      RereadStep, PublishStep, ReplayStep;
  }

  lemma LedgerUnmoved(s: State, id: nat, answer: Answer)
    requires id in s.requests
    requires s.requests[id].pc.Reserving? ==> s.requests[id].pc.authority.snapshot.None? || !answer.Resumes?
    requires s.requests[id].pc.Releasing? ==> !answer.Resumes?
    ensures AdvanceStep(s, id, answer).ledger == s.ledger
  {
    hide ReplayPhase, DecisionPhase, OwnerPhase;
    ReplayMovesNoMoney(s, id, answer);
    DecisionMovesNoMoney(s, id, answer);
    OwnerMovesNoMoney(s, id, answer);
  }

  lemma ReplayMovesNoMoney(s: State, id: nat, answer: Answer)
    requires id in s.requests
    ensures ReplayPhase(s, id, answer).ledger == s.ledger
  {
    hide LoadSnapshot, AfterLookUp, StillActive, Releasable;
  }

  lemma DecisionMovesNoMoney(s: State, id: nat, answer: Answer)
    requires id in s.requests
    requires s.requests[id].pc.Reserving? ==> s.requests[id].pc.authority.snapshot.None? || !answer.Resumes?
    ensures DecisionPhase(s, id, answer).ledger == s.ledger
  {
    hide L.Used, L.LookupBy, Evaluate, ContextOf, LoadSnapshot, RecordRead, ReserveStep;
  }

  lemma OwnerMovesNoMoney(s: State, id: nat, answer: Answer)
    requires id in s.requests && (s.requests[id].pc.Releasing? ==> !answer.Resumes?)
    ensures OwnerPhase(s, id, answer).ledger == s.ledger
  {
    hide L.TransitionEffect, LoadSnapshot, ActivationUnchanged, Authorize, Earliest;
  }

  lemma RequestWithinLimits(s: State, r: SignRequest)
    requires MandatesOk(s) && PcOk(s, r) && r.pc.Reserving? && r.pc.authority.snapshot.Some?
    ensures WithinLimits(Reserve(RequestOf(r)), LimitsOf(s.mandates))
  {
  }

  lemma SigningIsOk(s: State, r: SignRequest, a: Authority, q: ReserveRequest)
    requires r.startedAt <= |s.past| && Find(s.ledger.reservations, q.reservationId) == Some(Opened(q))
    requires !SignedFor(s, q.reservationId) && q.reservationId !in s.authorizations
    ensures PcOk(s, r.(pc := Signing(a, Opened(q))))
  {
  }

  lemma ReservedSigning(s: State, r: SignRequest, s': State)
    requires Safe(s) && r.pc.Reserving? && PcAfterReserve(s, r).Signing? && r.startedAt <= |s'.past|
    requires s'.ledger == L.Step(s.ledger, Reserve(RequestOf(r))).1
    requires s'.authorizations == s.authorizations && s'.signed == s.signed
    ensures PcOk(s', r.(pc := PcAfterReserve(s, r)))
    ensures forall x :: x in s.requests ==> !Owns(s.requests[x], RequestOf(r).reservationId)
  {
    var q := RequestOf(r);
    NewReservation(s.ledger, q);
    NobodyOwns(s, q.reservationId);
    hide Safe, L.ReserveEffect, PcOk, Owns;
    SigningIsOk(s', r, r.pc.authority, q);
  }

  lemma ReserveSafe(s: State, id: nat)
    requires Safe(s) && id in s.requests && s.requests[id].pc.Reserving?
    ensures Safe(Aged(s, AdvanceStep(s, id, Resumes)))
  {
    hide AdvanceStep, PcOk, Inv, NeverExceeded, OneOwner, AuthorizationsOk, ReturnedOk, SignedOk, MandatesOk, L.Step,
      PcAfterReserve, RequestOf, WithinLimits, LimitsOf, Owns;
    var r := s.requests[id];
    var s' := Aged(s, AdvanceStep(s, id, Resumes));
    ReserveEffectOf(s, id);
    StartedBefore(s, r);
    DoneIsOk(s', r);
    if r.pc.authority.snapshot.None? {
      PcStepSafe(s, id, Done);
    } else {
      RequestWithinLimits(s, r);
      var pc := PcAfterReserve(s, r);
      PcAfterReserveIs(s, r);
      if pc.Signing? {
        ReservedSigning(s, r, s');
      }
      LedgerMoveSafe(s, id, pc, Reserve(RequestOf(r)), s');
    }
  }

  lemma StartedBefore(s: State, r: SignRequest)
    requires PcOk(s, r)
    ensures r.startedAt <= |s.past|
  {
  }

  lemma PcAfterReserveIs(s: State, r: SignRequest)
    requires r.pc.Reserving? && r.pc.authority.snapshot.Some?
    ensures var pc := PcAfterReserve(s, r);
      pc == Done || (pc.Signing? && pc.record.reservationId == RequestOf(r).reservationId)
  {
  }

  /** A reservation that does not exist yet has no owner, no signature and no authorization. */
  lemma NobodyOwns(s: State, id: string)
    requires Safe(s) && id !in s.ledger.reservations
    ensures !SignedFor(s, id) && id !in s.authorizations
    ensures forall x :: x in s.requests ==> !Owns(s.requests[x], id)
  {
    hide Inv, NeverExceeded, OneOwner, ReturnedOk, MandatesOk;
    forall x | x in s.requests ensures !Owns(s.requests[x], id) {
      assert PcOk(s, s.requests[x]);
    }
  }

  // Signing and publishing: the only steps that touch a reservation's signature and header.

  lemma OwnerIsAlone(s: State, id: nat)
    requires OneOwner(s.requests) && id in s.requests && Owned(s.requests[id].pc).Some?
    ensures var own := Owned(s.requests[id].pc).value.reservationId;
      forall x :: x in s.requests && Owns(s.requests[x], own) ==> x == id
  {
    assert Owns(s.requests[id], Owned(s.requests[id].pc).value.reservationId);
  }

  lemma SignedIsOk(s: State, record: Reservation, call: SignerCall, s': State)
    requires SignedOk(s) && !SignedFor(s, record.reservationId)
    requires record.reservationId in s.ledger.reservations
    requires Continues(record, s.ledger.reservations[record.reservationId])
    requires call.reservationId == record.reservationId && call.paymentId == record.paymentId
      && call.nonce == record.nonce
    requires s'.signed == s.signed + [call] && s'.ledger == s.ledger
    ensures SignedOk(s')
  {
    forall i | 0 <= i < |s.signed| ensures s'.signed[i].reservationId != call.reservationId {
      assert s'.signed[i] == s.signed[i];
    }
  }

  lemma SignedGrows(s: State, s': State, call: SignerCall)
    requires s'.signed == s.signed + [call] && s'.ledger == s.ledger && s'.mandates == s.mandates
    requires s'.authorizations == s.authorizations && s.past <= s'.past
    ensures Grows(s, s', Some(call.reservationId))
    ensures SignedFor(s', call.reservationId)
  {
    assert s'.signed[|s.signed|] == call;
    forall id | SignedFor(s', id) && id != call.reservationId ensures SignedFor(s, id) {
      var i :| 0 <= i < |s'.signed| && s'.signed[i].reservationId == id;
      assert s.signed[i].reservationId == id;
    }
  }

  function CallOf(id: nat, record: Reservation): SignerCall {
    SignerCall(id, record.reservationId, record.paymentId, record.nonce)
  }

  lemma SignedPc(s: State, id: nat, s': State)
    requires id in s.requests && PcOk(s, s.requests[id]) && s.requests[id].pc.Signing?
    requires s' == Aged(s, AdvanceStep(s, id, Resumes))
    ensures
      var pc := s.requests[id].pc;
      && s' == Aged(s, Goto(s, id, AwaitingSigner(pc.authority,
        pc.record)).(signed := s.signed + [CallOf(id, pc.record)]))
      && PcOk(s', s'.requests[id])
      && OwnedOk(s, pc)
  {
    hide ReplayPhase, DecisionPhase;
  }

  lemma SignSafe(s: State, id: nat)
    requires Safe(s) && id in s.requests && s.requests[id].pc.Signing?
    ensures Safe(Aged(s, AdvanceStep(s, id, Resumes)))
  {
    hide AdvanceStep, Inv, NeverExceeded, PcOk, MandatesOk, OneOwner, AuthorizationsOk, ReturnedOk, SignedOk, Grows;
    var record := s.requests[id].pc.record;
    var s' := Aged(s, AdvanceStep(s, id, Resumes));
    SignedPc(s, id, s');
    SignedIsOk(s, record, CallOf(id, record), s');
    hide OwnedOk, SignedFor;
    SignedGrows(s, s', CallOf(id, record));
    OwnerIsAlone(s, id);
    RequestsAfter(s, s', id, Some(record.reservationId));
    OwnersAfter(s.requests, id, s'.requests[id]);
    ReturnedLater(s, s');
    AuthorizationsLater(s, s') by { HeldAuthorizations(s); }
    MandatesSame(s, s');
  }

  lemma HeldAuthorizations(s: State)
    requires AuthorizationsOk(s)
    ensures forall id :: id in s.authorizations ==>
      id in s.ledger.reservations && Holding(s.ledger.reservations[id].state)
  {
  }

  lemma PublishedIsOk(s: State, record: Reservation, auth: Authorization, s': State)
    requires AuthorizationsOk(s) && AuthorizationOk(s, auth) && auth.publishedAt < auth.expiresAt
    requires auth.reservationId == record.reservationId && record.reservationId in s.ledger.reservations
    requires Holding(s.ledger.reservations[record.reservationId].state)
    requires s'.authorizations == s.authorizations[auth.reservationId := auth]
    requires s'.ledger == s.ledger && s'.mandates == s.mandates
    ensures AuthorizationsOk(s')
  {
  }

  lemma PublishGrows(s: State, s': State, auth: Authorization)
    requires s'.authorizations == s.authorizations[auth.reservationId := auth]
      && auth.reservationId !in s.authorizations
    requires s'.ledger == s.ledger && s'.mandates == s.mandates && s'.signed == s.signed && s.past <= s'.past
    ensures Grows(s, s', Some(auth.reservationId))
  {
  }

  /**
   * The store admits: the header becomes the reservation's one header. Nobody
   * can have stored one before, so the answer "existing" never occurs here.
   */
  lemma PublishSafe(s: State, id: nat)
    requires Safe(s) && id in s.requests && s.requests[id].pc.Publishing?
    ensures s.requests[id].pc.authorization.reservationId !in s.authorizations
    ensures Safe(Aged(s, AdvanceStep(s, id, StoreAnswers(Admits))))
  {
    hide AdvanceStep, Inv, NeverExceeded, PcOk, MandatesOk, OneOwner, AuthorizationsOk, ReturnedOk, SignedOk, Grows;
    var r := s.requests[id];
    var auth := r.pc.authorization;
    var s' := Aged(s, AdvanceStep(s, id, StoreAnswers(Admits)));
    PublishingPc(s, id);
    if auth.publishedAt >= auth.expiresAt {
      RefusedPc(s, id, s');
      PcStepSafe(s, id, Releasing(r.pc.record));
    } else {
      PublishedPc(s, id, s');
      PublishedIsOk(s, r.pc.record, auth, s');
      PublishGrows(s, s', auth);
      OwnerIsAlone(s, id);
      RequestsAfter(s, s', id, Some(auth.reservationId));
      OwnersAfter(s.requests, id, s'.requests[id]);
      ReturnedLater(s, s');
      SignedLater(s, s') by { AllContinue(s); }
      MandatesSame(s, s');
    }
  }

  lemma MandatesSame(s: State, s': State)
    requires MandatesOk(s) && s'.mandates == s.mandates
    ensures MandatesOk(s')
  {
  }

  lemma AllContinue(s: State)
    ensures forall id :: id in s.ledger.reservations ==> Continues(s.ledger.reservations[id], s.ledger.reservations[id])
  {
  }

  lemma PublishingPc(s: State, id: nat)
    requires id in s.requests && PcOk(s, s.requests[id]) && s.requests[id].pc.Publishing?
    ensures
      var pc := s.requests[id].pc;
      && pc.authorization.reservationId == pc.record.reservationId && AuthorizationOk(s, pc.authorization)
      && OwnedOk(s, pc)
  {
  }

  lemma RefusedPc(s: State, id: nat, s': State)
    requires id in s.requests && PcOk(s, s.requests[id]) && s.requests[id].pc.Publishing?
    requires s.requests[id].pc.authorization.publishedAt >= s.requests[id].pc.authorization.expiresAt
    requires s' == Aged(s, AdvanceStep(s, id, StoreAnswers(Admits)))
    ensures s' == Aged(s, Goto(s, id, Releasing(s.requests[id].pc.record))) && PcOk(s', s'.requests[id])
  {
    hide ReplayPhase, DecisionPhase;
  }

  lemma PublishedPc(s: State, id: nat, s': State)
    requires id in s.requests && PcOk(s, s.requests[id]) && s.requests[id].pc.Publishing?
    requires s.requests[id].pc.authorization.publishedAt < s.requests[id].pc.authorization.expiresAt
    requires s' == Aged(s, AdvanceStep(s, id, StoreAnswers(Admits)))
    ensures
      var auth := s.requests[id].pc.authorization;
      && s' == Aged(s, Goto(Publish(s, id, auth, s.requests[id].pc.expiries), id,
                            Responding(s.requests[id].pc.record, auth, s.requests[id].pc.readAt)))
      && PcOk(s', s'.requests[id])
  {
    hide ReplayPhase, DecisionPhase;
    var pc := s.requests[id].pc;
    assert (s.past + [s.activations])[pc.readAt] == s.past[pc.readAt];
  }

  // Everything else that can happen.

  lemma AdvanceSafe(s: State, id: nat, answer: Answer)
    requires Safe(s) && id in s.requests
    ensures Safe(Aged(s, AdvanceStep(s, id, answer)))
  {
    hide Safe, Aged;
    match s.requests[id].pc
    case CheckingReplay(_, _, _) => if answer.Resumes? { RespondSafe(s, id); } else { IdleSafe(s, id, answer); }
    case Responding(_, _, _) => if answer.Resumes? { RespondSafe(s, id); } else { IdleSafe(s, id, answer); }
    case Reserving(_) => if answer.Resumes? { ReserveSafe(s, id); } else { IdleSafe(s, id, answer); }
    case Signing(_, _) => if answer.Resumes? { SignSafe(s, id); } else { IdleSafe(s, id, answer); }
    case Releasing(_) => if answer.Resumes? { ReleaseSafe(s, id); } else { IdleSafe(s, id, answer); }
    case Publishing(_, _, _, _) =>
      if answer == StoreAnswers(Admits) { PublishSafe(s, id); } else { MoveSafe(s, id, answer); }
    case EvidenceError => IdleSafe(s, id, answer);
    case Done => IdleSafe(s, id, answer);
    case _ => MoveSafe(s, id, answer);
  }

  lemma IdleSafe(s: State, id: nat, answer: Answer)
    requires Safe(s) && id in s.requests && AdvanceStep(s, id, answer) == s
    ensures Safe(Aged(s, s))
  {
    hide Safe, AdvanceStep;
    SameSafe(s);
  }

  lemma SameSafe(s: State)
    requires Safe(s)
    ensures Safe(Aged(s, s))
  {
    OthersSafe(s, Aged(s, s));
  }

  /** A step outside the requests that leaves the ledger and the stores alone. */
  lemma OthersSafe(s: State, s': State)
    requires Safe(s) && s.past <= s'.past && s'.mandates == s.mandates && s'.ledger == s.ledger
    requires s'.authorizations == s.authorizations && s'.signed == s.signed && s'.returned == s.returned
    requires s'.requests == s.requests
    ensures Safe(s')
  {
    hide Inv, NeverExceeded, OneOwner, PcOk, ReturnedOk, SignedOk, AuthorizationsOk, MandatesOk, Grows;
    SameStoresGrow(s, s');
    forall x | x in s'.requests ensures PcOk(s', s'.requests[x]) {
      OthersUnaffected(s, s', s.requests[x], None);
    }
    ReturnedLater(s, s');
    SignedLater(s, s') by { AllContinue(s); }
    AuthorizationsLater(s, s') by { HeldAuthorizations(s); }
    MandatesSame(s, s');
  }

  lemma CrashSafe(s: State, id: nat)
    requires Safe(s) && id in s.requests
    ensures Safe(Aged(s, Goto(s, id, Done)))
  {
    StartedBefore(s, s.requests[id]);
    hide Inv, NeverExceeded, OneOwner, PcOk, ReturnedOk, SignedOk, AuthorizationsOk, MandatesOk;
    DoneIsOk(Aged(s, Goto(s, id, Done)), s.requests[id]);
    PcStepSafe(s, id, Done);
  }

  lemma StartSafe(s: State, id: nat, r: SignRequest)
    requires Safe(s) && id !in s.requests && r.pc.LookingUp? && r.startedAt <= |s.past|
    ensures Safe(Aged(s, s.(requests := s.requests[id := r])))
  {
    var s' := Aged(s, s.(requests := s.requests[id := r]));
    LookingUpIsOk(s', r);
    NewcomerOwnsNothing(s.requests, id, r);
    hide Inv, NeverExceeded, OneOwner, PcOk, ReturnedOk, SignedOk, AuthorizationsOk, MandatesOk, Grows;
    SameStoresGrow(s, s');
    forall x | x in s'.requests ensures PcOk(s', s'.requests[x]) {
      if x != id { OthersUnaffected(s, s', s.requests[x], None); }
    }
    ReturnedLater(s, s');
    SignedLater(s, s') by { AllContinue(s); }
    AuthorizationsLater(s, s') by { HeldAuthorizations(s); }
    MandatesSame(s, s');
  }

  lemma LookingUpIsOk(s: State, r: SignRequest)
    requires r.pc.LookingUp? && r.startedAt <= |s.past|
    ensures PcOk(s, r)
  {
  }

  lemma NewcomerOwnsNothing(requests: map<nat, SignRequest>, id: nat, r: SignRequest)
    requires OneOwner(requests) && r.pc.LookingUp?
    ensures OneOwner(requests[id := r])
  {
  }

  lemma ControlPlaneSafe(s: State, call: Call)
    requires Safe(s) && call.Transition? && Holding(call.next)
    ensures Safe(Aged(s, s.(ledger := L.Step(s.ledger, call).1)))
  {
    hide L.Step, Inv, NeverExceeded, PcOk, WithinLimits, LimitsOf, Grows, AuthorizationsOk, ReturnedOk, SignedOk,
      MandatesOk, OneOwner;
    var s' := Aged(s, s.(ledger := L.Step(s.ledger, call).1));
    assert WithinLimits(call, LimitsOf(s.mandates)) by { TransitionsNeedNoLimit(call, LimitsOf(s.mandates)); }
    LedgerStepOk(s, s', call);
    forall x | x in s'.requests ensures PcOk(s', s'.requests[x]) {
      OthersUnaffected(s, s', s.requests[x], None);
    }
  }

  lemma TransitionsNeedNoLimit(call: Call, limits: string -> Limits)
    requires call.Transition?
    ensures WithinLimits(call, limits)
  {
  }

  lemma LooserLimits(m: map<string, Reservation>, limits: string -> Limits, looser: string -> Limits)
    requires NeverExceeded(m, limits)
    requires forall id :: limits(id).incident <= looser(id).incident && limits(id).daily <= looser(id).daily
    ensures NeverExceeded(m, looser)
  {
    forall mandateId, incidentId
      ensures Sum(m, OfIncident(mandateId, incidentId, true)) <= looser(mandateId).incident
    {
      assert limits(mandateId).incident <= looser(mandateId).incident;
    }
    forall mandateId, day
      ensures Sum(m, OfDay(mandateId, day, true)) <= looser(mandateId).daily
    {
      assert limits(mandateId).daily <= looser(mandateId).daily;
    }
  }

  lemma PutMandateSafe(s: State, m: Mandate)
    requires Safe(s) && MandateParses(m) && m.id !in s.mandates
    ensures Safe(Aged(s, s.(mandates := s.mandates[m.id := m])))
  {
    var s' := Aged(s, s.(mandates := s.mandates[m.id := m]));
    NewMandate(s, m, s');
    hide Inv, NeverExceeded, OneOwner, PcOk, ReturnedOk, SignedOk, AuthorizationsOk, MandatesOk, Grows, LimitsOf,
      MandateParses;
    LooserLimits(s.ledger.reservations, LimitsOf(s.mandates), LimitsOf(s'.mandates));
    MandateGrows(s, s');
    forall x | x in s'.requests ensures PcOk(s', s'.requests[x]) {
      OthersUnaffected(s, s', s.requests[x], None);
    }
    ReturnedLater(s, s');
    SignedLater(s, s') by { AllContinue(s); }
    AuthorizationsLater(s, s') by { HeldAuthorizations(s); }
  }

  lemma NewMandate(s: State, m: Mandate, s': State)
    requires MandatesOk(s) && MandateParses(m) && m.id !in s.mandates && s'.mandates == s.mandates[m.id := m]
    ensures MandatesOk(s')
    ensures forall id ::
      && LimitsOf(s.mandates)(id).incident <= LimitsOf(s'.mandates)(id).incident
      && LimitsOf(s.mandates)(id).daily <= LimitsOf(s'.mandates)(id).daily
  {
    hide Amount;
    var before, after := LimitsOf(s.mandates), LimitsOf(s'.mandates);
    forall id ensures before(id).incident <= after(id).incident && before(id).daily <= after(id).daily {
      if id in s.mandates {
        assert s'.mandates[id] == s.mandates[id];
      }
    }
  }

  lemma MandateGrows(s: State, s': State)
    requires forall id :: id in s.mandates ==> id in s'.mandates && s'.mandates[id] == s.mandates[id]
    requires s.past <= s'.past && s'.ledger == s.ledger && s'.authorizations == s.authorizations
      && s'.signed == s.signed
    ensures Grows(s, s', None)
  {
  }

  /** No step of any request, of an operator, of the control plane or of the clock leaves the safe states. */
  lemma StepSafe(s: State, action: Action)
    requires Safe(s)
    ensures Safe(Step(s, action))
  {
    assert Step(s, action) == Aged(s, Effect(s, action));
    hide Safe, AdvanceStep, Aged;
    match action
    case PutMandate(m) =>
      if MandateParses(m) && m.id !in s.mandates { PutMandateSafe(s, m); } else { SameSafe(s); }
    case ControlPlane(id, expected, next, at, patch) =>
      if Holding(next) { ControlPlaneSafe(s, Transition(id, expected, next, at, patch)); } else { SameSafe(s); }
    case Start(id, envelope) =>
      if id in s.requests { SameSafe(s); }
      else { StartSafe(s, id, SignRequest(envelope.proposal, envelope, s.clock, |s.past|, LookingUp)); }
    case Crash(id) =>
      if id in s.requests { CrashSafe(s, id); } else { SameSafe(s); }
    case Advance(id, answer) =>
      if id in s.requests { AdvanceSafe(s, id, answer); } else { SameSafe(s); }
    case Tick(to) => AdministrationSafe(s, action);
    case Arm(_, _, _) => AdministrationSafe(s, action);
    case Revoke(_, _, _) => AdministrationSafe(s, action);
  }

  lemma AdministrationSafe(s: State, action: Action)
    requires Safe(s) && (action.Tick? || action.Arm? || action.Revoke?)
    ensures Safe(Aged(s, Effect(s, action)))
  {
    hide Safe;
    OthersSafe(s, Aged(s, Effect(s, action)));
  }

  lemma {:induction false} RunSafe(s: State, actions: seq<Action>)
    requires Safe(s)
    ensures Safe(After(s, actions))
    decreases |actions|
  {
    if actions == [] {
    } else {
      StepSafe(s, actions[0]);
      RunSafe(Step(s, actions[0]), actions[1..]);
    }
  }
}
