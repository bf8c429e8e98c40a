/**
 * The sign handler from its first await to its last, when nothing else happens
 * in between: what an allowed request gets, what a denied one leaves behind, what
 * a repeated one gets, and where a reservation goes that no header leaves for.
 */
module ExecutorScenarios {
  import opened Prelude
  import opened Schemas
  import opened Ledger
  import opened LedgerHistory
  import opened LedgerSum
  import opened LedgerBudget
  import opened LedgerLaws
  import opened Policy
  import opened PolicyLaws
  import opened Executor
  import opened ExecutorSafety
  import opened ExecutorTheorems
  import opened ExecutorExpiry
  import opened ExecutorDecision
  import L = MemoryLedger
  import Decimal

  // Steps of one request alone.

  function Copies(activations: map<string, Activation>, n: nat): seq<map<string, Activation>> {
    if n == 0 then [] else Copies(activations, n - 1) + [activations]
  }

  /** `s` with a request in it that has taken `n` steps and touched nothing else. */
  function Asking(s: State, id: nat, r: SignRequest, n: nat): State {
    s.(requests := s.requests[id := r], past := s.past + Copies(s.activations, n))
  }

  lemma AfterCons(s: State, action: Action, rest: seq<Action>)
    ensures After(s, [action] + rest) == After(Step(s, action), rest)
  {
    hide Step;
    assert ([action] + rest)[1..] == rest;
  }

  lemma AfterNothing(s: State)
    ensures After(s, []) == s
  {
  }

  lemma AskingStep(s: State, id: nat, r: SignRequest, n: nat, answer: Answer, pc: Pc)
    requires AdvanceStep(Asking(s, id, r, n), id, answer) == Goto(Asking(s, id, r, n), id, pc)
    ensures Step(Asking(s, id, r, n), Advance(id, answer)) == Asking(s, id, r.(pc := pc), n + 1)
  {
    hide AdvanceStep;
    var before := Asking(s, id, r, n);
    assert before.requests[id := r.(pc := pc)] == s.requests[id := r.(pc := pc)];
    assert before.past + [s.activations] == s.past + Copies(s.activations, n + 1);
  }

  // The questions and the decision.

  /** Some record of the ledger bears this identifier. */
  predicate Bears(s: L.State, kind: IdentifierKind, value: string) {
    exists id :: id in s.reservations && value == match kind
      case ByPaymentId => s.reservations[id].paymentId
      case ByNonce => s.reservations[id].nonce
      case ByIdempotencyKey => s.reservations[id].idempotencyKey
  }

  /** The context that the policy is given when everything is read in this state. */
  predicate CurrentContext(s: State, ctx: Context, p: Proposal, offer: int, challenge: int, used: Usage) {
    && ctx.proposal == p && ctx.now == s.clock
    && ctx.mandate == (
      if p.mandateId in s.mandates && p.mandateId in s.activations then
        var m, v := s.mandates[p.mandateId], s.activations[p.mandateId];
        Some(if v.active then m else m.(revokedAt := Some(v.updatedAt)))
      else None)
    && ctx.offer.expiresAt == offer && ctx.challenge.expiresAt == challenge
    && Decimal.ParseBaseUnits(ctx.incidentUsed) == Some(used.incident)
    && Decimal.ParseBaseUnits(ctx.dailyUsed) == Some(used.daily)
    && (ctx.paymentIdBound <==> Bears(s.ledger, ByPaymentId, p.paymentId))
    && (ctx.nonceBound <==> Bears(s.ledger, ByNonce, p.nonce))
    && (ctx.idempotencyKeyBound <==> Bears(s.ledger, ByIdempotencyKey, p.idempotencyKey))
  }

  /** The first eight steps of a request. */
  function Questions(id: nat, envelope: EnvelopeHash, offer: int, challenge: int, ctx: Context): seq<Action> {
    [Start(id, envelope)] + ([Advance(id, Resumes)] + ([Advance(id, AuthorityAnswers(true, offer, challenge))]
    + ([Advance(id, LedgerAnswers(BudgetRead))] + ([Advance(id, LedgerAnswers(PaymentIdRead))]
    + ([Advance(id, LedgerAnswers(NonceRead))] + ([Advance(id, LedgerAnswers(IdempotencyKeyRead))]
    + ([Advance(id, PolicyContext(ctx))] + [])))))))
  }

  lemma Starts(s: State, id: nat, envelope: EnvelopeHash)
    requires id !in s.requests
    ensures Step(s, Start(id, envelope)) ==
      Asking(s, id, SignRequest(envelope.proposal, envelope, s.clock, |s.past|, LookingUp), 1)
  {
    assert Copies(s.activations, 1) == Copies(s.activations, 0) + [s.activations] == [s.activations];
  }

  lemma FindsNothing(s: State, id: nat, r: SignRequest, n: nat)
    requires r.pc.LookingUp? && r.proposal.idempotencyKey !in s.ledger.reservations
    ensures Step(Asking(s, id, r, n), Advance(id, Resumes)) == Asking(s, id, r.(pc := LoadingAuthority), n + 1)
  {
    hide DecisionPhase, OwnerPhase, LoadSnapshot, Releasable, StillActive;
    AskingStep(s, id, r, n, Resumes, LoadingAuthority);
  }

  lemma LoadsAll(s: State, id: nat, r: SignRequest, n: nat, offer: int, challenge: int)
    requires r.pc.LoadingAuthority?
    ensures Step(Asking(s, id, r, n), Advance(id, AuthorityAnswers(true, offer, challenge))) ==
      Asking(s, id, r.(pc := ReadingLedger(
        Authority(LoadSnapshot(s, r.proposal.mandateId), offer, challenge), Seen(None, None, None, None))), n + 1)
  {
    hide AdvanceStep;
    var z, answer := Asking(s, id, r, n), AuthorityAnswers(true, offer, challenge);
    LoadsAuthority(z, id, answer);
    assert LoadSnapshot(z, r.proposal.mandateId) == LoadSnapshot(s, r.proposal.mandateId);
    AskingStep(s, id, r, n, answer, ReadingLedger(
      Authority(LoadSnapshot(s, r.proposal.mandateId), offer, challenge), Seen(None, None, None, None)));
  }

  lemma ReadsOne(s: State, id: nat, r: SignRequest, n: nat, read: Read)
    requires r.pc.ReadingLedger?
    ensures
      var p, seen := r.proposal, r.pc.seen;
      Step(Asking(s, id, r, n), Advance(id, LedgerAnswers(read))) ==
      Asking(s, id, r.(pc := ReadingLedger(r.pc.authority,
        match read
        case BudgetRead =>
          seen.(budget := Some(L.Used(s.ledger.reservations, p.mandateId, p.incidentId, BudgetDay(r.occurredAt))))
        case PaymentIdRead => seen.(paymentIdBound := Some(L.LookupBy(s.ledger, ByPaymentId, p.paymentId).Some?))
        case NonceRead => seen.(nonceBound := Some(L.LookupBy(s.ledger, ByNonce, p.nonce).Some?))
        case IdempotencyKeyRead =>
          seen.(idempotencyKeyBound := Some(L.LookupBy(s.ledger, ByIdempotencyKey, p.idempotencyKey).Some?)))), n + 1)
  {
    hide AdvanceStep, L.Used, L.LookupBy;
    var z := Asking(s, id, r, n);
    ReadsLedger(z, id, read);
    assert z.ledger == s.ledger;
    var z' := AdvanceStep(z, id, LedgerAnswers(read));
    AskingStep(s, id, r, n, LedgerAnswers(read), z'.requests[id].pc);
  }

  lemma DecidesNow(s: State, id: nat, r: SignRequest, n: nat, ctx: Context)
    requires r.pc.ReadingLedger? && ContextOf(ctx, r, r.pc.authority, r.pc.seen)
    ensures Step(Asking(s, id, r, n), Advance(id, PolicyContext(ctx))) ==
      Asking(s, id, r.(pc := if forall rule: Rule :: Holds(rule, ctx) then Reserving(r.pc.authority) else Done), n + 1)
  {
    hide AdvanceStep, Holds, ContextOf;
    var z := Asking(s, id, r, n);
    Decides(z, id, ctx);
    AskingStep(s, id, r, n, PolicyContext(ctx),
      if forall rule: Rule :: Holds(rule, ctx) then Reserving(r.pc.authority) else Done);
  }

  /** All four reads, as they are answered in this state. */
  ghost function AllSeen(s: State, p: Proposal): Seen {
    Seen(
      Some(L.Used(s.ledger.reservations, p.mandateId, p.incidentId, BudgetDay(s.clock))),
      Some(L.LookupBy(s.ledger, ByPaymentId, p.paymentId).Some?),
      Some(L.LookupBy(s.ledger, ByNonce, p.nonce).Some?),
      Some(L.LookupBy(s.ledger, ByIdempotencyKey, p.idempotencyKey).Some?))
  }

  lemma LookupFinds(s: L.State, kind: IdentifierKind, value: string)
    requires Inv(s)
    ensures L.LookupBy(s, kind, value).Some? <==> Bears(s, kind, value)
  {
    IndexAt(s, kind, value);
    if value in s.Index(kind) {
      IdsAreNotEmpty(s, s.Index(kind)[value]);
    }
    hide Inv;
  }

  lemma UsedIsNatural(s: L.State, mandateId: string, incidentId: string, day: int)
    requires Inv(s)
    ensures var u := L.Used(s.reservations, mandateId, incidentId, day); u.incident >= 0 && u.daily >= 0
  {
    PositiveAmounts(s);
    LedgerSums(s.reservations, mandateId, incidentId, day);
  }

  lemma LedgerSums(m: map<string, Reservation>, mandateId: string, incidentId: string, day: int)
    requires forall id :: id in m ==> m[id].amount > 0
    ensures var u := L.Used(m, mandateId, incidentId, day); u.incident >= 0 && u.daily >= 0
  {
    SumMonotone(map[], m, OfIncident(mandateId, incidentId, true));
    SumMonotone(map[], m, OfDay(mandateId, day, true));
  }

  lemma ContextIsCurrent(s: State, r: SignRequest, ctx: Context, offer: int, challenge: int)
    requires Inv(s.ledger) && r.occurredAt == s.clock
    requires CurrentContext(s, ctx, r.proposal, offer, challenge,
      UsageOf(s.ledger, r.proposal.mandateId, r.proposal.incidentId, s.clock))
    ensures ContextOf(ctx, r, Authority(LoadSnapshot(s, r.proposal.mandateId), offer, challenge),
      AllSeen(s, r.proposal))
  {
    hide Inv, L.LookupBy, L.Used, Decimal.Print, Decimal.Value;
    var p := r.proposal;
    Decimal.PrintParsed(ctx.incidentUsed);
    Decimal.PrintParsed(ctx.dailyUsed);
    LookupFinds(s.ledger, ByPaymentId, p.paymentId);
    LookupFinds(s.ledger, ByNonce, p.nonce);
    LookupFinds(s.ledger, ByIdempotencyKey, p.idempotencyKey);
    UsedIsNatural(s.ledger, p.mandateId, p.incidentId, BudgetDay(s.clock));
  }

  /**
   * A new request whose mandate, offer and challenge load and whose reads are all
   * answered in one state: with every rule holding it stands before the reserve, and
   * with one failing it is over. Either way it has touched nothing.
   */
  lemma QuestionsDecide(s: State, id: nat, envelope: EnvelopeHash, offer: int, challenge: int, ctx: Context)
    requires Safe(s) && id !in s.requests && envelope.proposal.idempotencyKey !in s.ledger.reservations
    requires CurrentContext(s, ctx, envelope.proposal, offer, challenge,
      UsageOf(s.ledger, envelope.proposal.mandateId, envelope.proposal.incidentId, s.clock))
    ensures
      var a := Authority(LoadSnapshot(s, envelope.proposal.mandateId), offer, challenge);
      After(s, Questions(id, envelope, offer, challenge, ctx)) ==
      Asking(s, id, SignRequest(envelope.proposal, envelope, s.clock, |s.past|,
        if forall rule: Rule :: Holds(rule, ctx) then Reserving(a) else Done), 8)
  {
    hide After, Step, Asking, Holds, ContextOf, L.Used, L.LookupBy, LoadSnapshot, Safe, CurrentContext;
    LedgerIsLawful(s);
    var p := envelope.proposal;
    var r := SignRequest(p, envelope, s.clock, |s.past|, LookingUp);
    var a := Authority(LoadSnapshot(s, p.mandateId), offer, challenge);
    var none := Seen(None, None, None, None);
    var all := AllSeen(s, p);
    var seen1 := none.(budget := all.budget);
    var seen2 := seen1.(paymentIdBound := all.paymentIdBound);
    var seen3 := seen2.(nonceBound := all.nonceBound);
    Starts(s, id, envelope);
    FindsNothing(s, id, r, 1);
    LoadsAll(s, id, r.(pc := LoadingAuthority), 2, offer, challenge);
    ReadsOne(s, id, r.(pc := ReadingLedger(a, none)), 3, BudgetRead);
    ReadsOne(s, id, r.(pc := ReadingLedger(a, seen1)), 4, PaymentIdRead);
    ReadsOne(s, id, r.(pc := ReadingLedger(a, seen2)), 5, NonceRead);
    ReadsOne(s, id, r.(pc := ReadingLedger(a, seen3)), 6, IdempotencyKeyRead);
    ContextIsCurrent(s, r, ctx, offer, challenge);
    var last := r.(pc := ReadingLedger(a, all));
    SameContext(ctx, r, last, a, all);
    DecidesNow(s, id, last, 7, ctx);
    EightSteps(s, Questions(id, envelope, offer, challenge, ctx), id, envelope, offer, challenge, ctx,
      Asking(s, id, r, 1), Asking(s, id, r.(pc := LoadingAuthority), 2),
        Asking(s, id, r.(pc := ReadingLedger(a, none)), 3),
      Asking(s, id, r.(pc := ReadingLedger(a, seen1)), 4), Asking(s, id, r.(pc := ReadingLedger(a, seen2)), 5),
      Asking(s, id, r.(pc := ReadingLedger(a, seen3)), 6), Asking(s, id, last, 7));
  }

  lemma SameContext(ctx: Context, r: SignRequest, later: SignRequest, a: Authority, seen: Seen)
    requires ContextOf(ctx, r, a, seen) && later == r.(pc := later.pc)
    ensures ContextOf(ctx, later, a, seen)
  {
  }

  lemma EightSteps(s: State, actions: seq<Action>, id: nat, envelope: EnvelopeHash, offer: int, challenge: int,
      ctx: Context, s1: State, s2: State, s3: State, s4: State, s5: State, s6: State, s7: State)
    requires actions == Questions(id, envelope, offer, challenge, ctx)
    requires s1 == Step(s, Start(id, envelope)) && s2 == Step(s1, Advance(id, Resumes))
    requires s3 == Step(s2, Advance(id, AuthorityAnswers(true, offer, challenge)))
    requires s4 == Step(s3, Advance(id, LedgerAnswers(BudgetRead)))
    requires s5 == Step(s4, Advance(id, LedgerAnswers(PaymentIdRead)))
    requires s6 == Step(s5, Advance(id, LedgerAnswers(NonceRead)))
    requires s7 == Step(s6, Advance(id, LedgerAnswers(IdempotencyKeyRead)))
    ensures After(s, actions) == Step(s7, Advance(id, PolicyContext(ctx)))
  {
    hide After, Step;
    var t8 := [Advance(id, PolicyContext(ctx))] + [];
    var t7 := [Advance(id, LedgerAnswers(IdempotencyKeyRead))] + t8;
    var t6 := [Advance(id, LedgerAnswers(NonceRead))] + t7;
    var t5 := [Advance(id, LedgerAnswers(PaymentIdRead))] + t6;
    var t4 := [Advance(id, LedgerAnswers(BudgetRead))] + t5;
    var t3 := [Advance(id, AuthorityAnswers(true, offer, challenge))] + t4;
    var t2 := [Advance(id, Resumes)] + t3;
    AfterCons(s, Start(id, envelope), t2);
    AfterCons(s1, Advance(id, Resumes), t3);
    AfterCons(s2, Advance(id, AuthorityAnswers(true, offer, challenge)), t4);
    AfterCons(s3, Advance(id, LedgerAnswers(BudgetRead)), t5);
    AfterCons(s4, Advance(id, LedgerAnswers(PaymentIdRead)), t6);
    AfterCons(s5, Advance(id, LedgerAnswers(NonceRead)), t7);
    AfterCons(s6, Advance(id, LedgerAnswers(IdempotencyKeyRead)), t8);
    AfterCons(s7, Advance(id, PolicyContext(ctx)), []);
    AfterNothing(Step(s7, Advance(id, PolicyContext(ctx))));
  }

  // From the reserve to the response.

  /** `s` after one step of one request. */
  function Stepped(s: State, id: nat, pc: Pc): State
    requires id in s.requests
  {
    s.(requests := s.requests[id := s.requests[id].(pc := pc)], past := s.past + [s.activations])
  }

  lemma Reserves(s: State, id: nat)
    requires Inv(s.ledger) && id in s.requests && s.requests[id].pc.Reserving?
    requires s.requests[id].pc.authority.snapshot.Some?
    requires L.ReserveEffect(s.ledger, RequestOf(s.requests[id])).0.Ok?
    requires L.ReserveEffect(s.ledger, RequestOf(s.requests[id])).0.value.NewlyReserved?
    ensures
      var r := s.requests[id];
      Step(s, Advance(id, Resumes)) == Stepped(
        s.(ledger := L.Step(s.ledger, Reserve(RequestOf(r))).1), id, Signing(r.pc.authority, Opened(RequestOf(r))))
  {
    hide AdvanceStep, L.ReserveEffect, Inv, Opened, RequestOf, L.Step;
    ReserveEffectOf(s, id);
    AdvanceIs(s, id, Resumes);
  }

  lemma AdvanceIs(s: State, id: nat, answer: Answer)
    requires id in s.requests
    ensures
      var s' := AdvanceStep(s, id, answer);
      Step(s, Advance(id, answer)) == s'.(past := s.past + [s.activations])
  {
    hide AdvanceStep;
  }

  lemma AsksSigner(s: State, id: nat)
    requires id in s.requests && s.requests[id].pc.Signing?
    ensures
      var pc := s.requests[id].pc;
      Step(s, Advance(id, Resumes)) == Stepped(
        s.(signed := s.signed + [SignerCall(id, pc.record.reservationId, pc.record.paymentId, pc.record.nonce)]),
        id, AwaitingSigner(pc.authority, pc.record))
  {
    hide ReplayPhase, DecisionPhase, RereadStep, PublishStep, L.TransitionEffect;
  }

  lemma SignerEnds(s: State, id: nat, succeeded: bool, header: string)
    requires id in s.requests && s.requests[id].pc.AwaitingSigner?
    ensures
      var pc := s.requests[id].pc;
      Step(s, Advance(id, SignerAnswers(succeeded, header))) == Stepped(s, id,
        if succeeded then Rereading(pc.authority, pc.record, header, s.clock) else Releasing(pc.record))
  {
    hide ReplayPhase, DecisionPhase, RereadStep, PublishStep, L.TransitionEffect;
  }

  lemma Rereads(s: State, id: nat)
    requires id in s.requests && s.requests[id].pc.Rereading?
    ensures
      var r := s.requests[id];
      var pc, p := r.pc, r.proposal;
      Step(s, Advance(id, Resumes)) == Stepped(s, id,
        if && p.mandateId in s.mandates && p.mandateId in s.activations && pc.authority.snapshot.Some?
           && var m, v, before := s.mandates[p.mandateId], s.activations[p.mandateId], pc.authority.snapshot.value;
              && v.active && v.mandateId == m.id && v.mandateHash == m.mandateHash && pc.publishedAt < m.expiresAt
              && m.mandateHash == before.mandate.mandateHash
              && m.executionPolicyHash == before.mandate.executionPolicyHash
              && v.version == before.activation.version && v.activationHash == before.activation.activationHash
        then
          var m, v := s.mandates[p.mandateId], s.activations[p.mandateId];
          var expiries := Expiries(m.expiresAt, pc.authority.offerExpiresAt, pc.authority.challengeExpiresAt,
            p.expiresAt);
          Publishing(pc.record,
            Authorization(pc.record.reservationId, pc.record.version, p.requestFingerprint, p.paymentId, m.id,
              m.mandateHash, m.executionPolicyHash, v.version, v.activationHash, r.envelopeHash,
              Earliest([m.expiresAt, pc.authority.offerExpiresAt, pc.authority.challengeExpiresAt, p.expiresAt]),
              pc.publishedAt, pc.header),
            |s.past|, expiries)
        else Releasing(pc.record))
  {
    hide ReplayPhase, DecisionPhase, PublishStep, L.TransitionEffect, Earliest;
  }

  lemma Publishes(s: State, id: nat, verdict: Verdict)
    requires id in s.requests && s.requests[id].pc.Publishing?
    requires
      var auth := s.requests[id].pc.authorization;
      auth.publishedAt < auth.expiresAt && auth.reservationId !in s.authorizations
    ensures
      var pc := s.requests[id].pc;
      Step(s, Advance(id, StoreAnswers(verdict))) ==
        if verdict.Admits? then
          Stepped(s.(authorizations := s.authorizations[pc.authorization.reservationId := pc.authorization],
              published := s.published + [Publication(id, pc.authorization, pc.expiries)]),
            id, Responding(pc.record, pc.authorization, pc.readAt))
        else Stepped(s, id, Releasing(pc.record))
  {
    hide ReplayPhase, DecisionPhase, RereadStep, L.TransitionEffect;
  }

  lemma Responds(s: State, id: nat)
    requires id in s.requests && s.requests[id].pc.Responding?
    ensures
      var r := s.requests[id];
      Step(s, Advance(id, Resumes)) == Stepped(
        s.(returned := s.returned + [
          Returned(id, r.pc.authorization, r.startedAt, r.pc.readAt, r.pc.authorization.publishedAt)]), id, Done)
  {
    hide ReplayPhase, DecisionPhase, RereadStep, PublishStep, L.TransitionEffect;
  }

  /** The call by which the executor gives a reservation up. */
  function GivingUp(key: string, at: int): Call {
    Transition(key, [Reserved], Released, at, Patch(None, None, Some("no payment payload was returned"), None))
  }

  lemma Releases(s: State, id: nat)
    requires id in s.requests && s.requests[id].pc.Releasing?
    ensures
      var key := s.requests[id].pc.record.reservationId;
      Step(s, Advance(id, Resumes)) == Stepped(s.(ledger := L.Step(s.ledger, GivingUp(key, s.clock)).1), id, Done)
  {
    hide ReplayPhase, DecisionPhase, RereadStep, PublishStep, L.TransitionEffect;
  }

  // An allowed request.

  /** Every activation is that of its stored mandate. */
  predicate Armed(s: State) {
    forall id :: id in s.activations ==>
      && id in s.mandates && s.mandates[id].id == id
      && s.activations[id].mandateId == id && s.activations[id].mandateHash == s.mandates[id].mandateHash
  }

  lemma StepArmed(s: State, action: Action)
    requires Armed(s) && MandatesOk(s)
    ensures Armed(Step(s, action))
  {
    hide AdvanceStep, Effect;
    if action.Advance? && action.requestId in s.requests {
      AdvanceEffect(s, action);
      MandatesUntouched(s, action.requestId, action.answer);
      AdvanceActivations(s, action.requestId, action.answer);
    } else {
      OtherArmed(s, action);
    }
  }

  lemma OtherArmed(s: State, action: Action)
    requires Armed(s) && MandatesOk(s) && !(action.Advance? && action.requestId in s.requests)
    ensures Armed(Effect(s, action))
  {
    hide AdvanceStep, L.TransitionEffect, MandateParses, Holding, Goto;
    match action
    case Crash(id) => if id in s.requests { GotoMandates(s, id, Done); }
    case _ =>
  }

  lemma GotoMandates(s: State, id: nat, pc: Pc)
    requires id in s.requests
    ensures Goto(s, id, pc).mandates == s.mandates && Goto(s, id, pc).activations == s.activations
  {
  }

  lemma {:induction false} RunArmed(actions: seq<Action>)
    ensures Armed(After(INIT, actions))
    decreases |actions|
  {
    hide Armed, Step;
    if actions == [] {
      NothingArmed();
    } else {
      var front, last := actions[..|actions| - 1], actions[|actions| - 1];
      RunArmed(front);
      ReachableSafe(front);
      StepArmed(After(INIT, front), last);
      assert actions == front + [last];
      AfterPrefix(INIT, front, [last]);
      OneStep(After(INIT, front), last);
    }
  }

  lemma NothingArmed()
    ensures Armed(After(INIT, []))
  {
  }

  lemma ThreeSteps(s: State, a: Action, b: Action, c: Action, rest: seq<Action>)
    ensures After(s, [a] + ([b] + ([c] + rest))) == After(Step(Step(Step(s, a), b), c), rest)
  {
    hide After, Step;
    AfterCons(s, a, [b] + ([c] + rest));
    AfterCons(Step(s, a), b, [c] + rest);
    AfterCons(Step(Step(s, a), b), c, rest);
  }

  lemma SteppedAsking(s: State, id: nat, r: SignRequest, n: nat, pc: Pc)
    ensures Stepped(Asking(s, id, r, n), id, pc) == Asking(s, id, r.(pc := pc), n + 1)
  {
    assert s.requests[id := r][id := r.(pc := pc)] == s.requests[id := r.(pc := pc)];
    assert (s.past + Copies(s.activations, n)) + [s.activations] == s.past + Copies(s.activations, n + 1);
  }

  /** The reservation that a proposal opens. */
  function Fresh(p: Proposal, amount: int, at: int): Reservation {
    Reservation(p.idempotencyKey, p.incidentId, p.mandateId, p.paymentId, p.nonce, p.idempotencyKey,
      p.requestFingerprint, amount, at / 86_400_000, Reserved, 1, at, at,
      [StateEvent(Proposed, at, None), StateEvent(Reserved, at, None)], None, None, None)
  }

  /** What a request needs to be authorized: it is new, its context is current, and every rule holds in it. */
  ghost predicate Authorizable(s: State, id: nat, envelope: EnvelopeHash, offer: int, challenge: int, ctx: Context) {
    && id !in s.requests
    && ProposalParses(envelope.proposal) && envelope.proposal.idempotencyKey !in s.ledger.reservations
    && CurrentContext(s, ctx, envelope.proposal, offer, challenge,
         UsageOf(s.ledger, envelope.proposal.mandateId, envelope.proposal.incidentId, s.clock))
    && forall rule: Rule :: Holds(rule, ctx)
  }

  function Begun(s: State, envelope: EnvelopeHash, pc: Pc): SignRequest {
    SignRequest(envelope.proposal, envelope, s.clock, |s.past|, pc)
  }

  lemma CurrentMandate(s: State, ctx: Context, p: Proposal, offer: int, challenge: int, used: Usage)
    requires CurrentContext(s, ctx, p, offer, challenge, used) && forall rule: Rule :: Holds(rule, ctx)
    ensures p.mandateId in s.mandates && p.mandateId in s.activations && s.activations[p.mandateId].active
    ensures ctx.mandate == Some(s.mandates[p.mandateId])
    ensures LoadSnapshot(s, p.mandateId) ==
      Some(MandateSnapshot(s.mandates[p.mandateId], s.activations[p.mandateId]))
  {
    hide Evaluate, NetworkRuleHolds, VendorRuleHolds, TermsRuleHolds, RequestRuleHolds, MoneyRuleHolds,
      TransactionRuleHolds, SignerRuleHolds, Decimal.ParseBaseUnits;
    assert Holds(OfMandate(MandateNotRevoked), ctx);
  }

  lemma CurrentReads(s: State, r: SignRequest)
    requires r.occurredAt == s.clock
    ensures ReadNow(s, r, AllSeen(s, r.proposal))
  {
  }

  lemma SafeSnapshot(s: State, mandateId: string)
    requires Safe(s)
    ensures SnapshotOf(s, LoadSnapshot(s, mandateId), mandateId)
  {
    hide Inv, NeverExceeded, OneOwner, PcOk, AuthorizationsOk, SignedOk, ReturnedOk, MandateParses;
  }

  lemma AllowedReserves(s: State, id: nat, envelope: EnvelopeHash, offer: int, challenge: int, ctx: Context)
      returns (amount: int)
    requires Safe(s) && Authorizable(s, id, envelope, offer, challenge, ctx)
    ensures Decimal.ParseBaseUnits(envelope.proposal.amount) == Some(amount)
    ensures
      var p := envelope.proposal;
      && p.mandateId in s.mandates
      && var q := ReserveRequestOf(p, s.mandates[p.mandateId], s.clock);
         && Opened(q) == Fresh(p, amount, s.clock) && q.amount == amount
         && L.ReserveEffect(s.ledger, q).0.Ok? && L.ReserveEffect(s.ledger, q).0.value.NewlyReserved?
         && L.ReserveEffect(s.ledger, q).1 == L.Inserted(s.ledger, Fresh(p, amount, s.clock))
  {
    hide Safe, Holds, CurrentContext, Evaluate, ContextOf, ReadNow, ProposalParses, LoadSnapshot, L.ReserveEffect,
      L.Used, L.LookupBy, AllSeen, SnapshotOf, Decimal.ParseBaseUnits, IsPositive, L.Inserted;
    var p := envelope.proposal;
    var used := UsageOf(s.ledger, p.mandateId, p.incidentId, s.clock);
    var a := Authority(LoadSnapshot(s, p.mandateId), offer, challenge);
    var r := Begun(s, envelope, LookingUp);
    LedgerIsLawful(s);
    ContextIsCurrent(s, r, ctx, offer, challenge);
    CurrentReads(s, r);
    SafeSnapshot(s, p.mandateId);
    DecisionIsExact(ctx);
    AllowGuaranteesReserve(s, r, a, AllSeen(s, p), ctx);
    CurrentMandate(s, ctx, p, offer, challenge, used);
    NewReservation(s.ledger, ReserveRequestOf(p, s.mandates[p.mandateId], s.clock));
    AllowMeansWithinLimits(ctx);
    OwnProposal(s, ctx, p, offer, challenge, used);
    amount := PositiveText(p.amount);
  }

  lemma OwnProposal(s: State, ctx: Context, p: Proposal, offer: int, challenge: int, used: Usage)
    requires CurrentContext(s, ctx, p, offer, challenge, used)
    ensures ctx.proposal == p && ctx.now == s.clock
    ensures ctx.offer.expiresAt == offer && ctx.challenge.expiresAt == challenge
  {
  }

  lemma PositiveText(text: string) returns (amount: int)
    requires IsPositive(text)
    ensures Decimal.ParseBaseUnits(text) == Some(amount) && Amount(text) == amount && amount > 0
  {
    amount := Decimal.ParseBaseUnits(text).value;
  }

  /** The eight questions, the reserve, and the call of the signer. */
  function UpToSigner(id: nat, envelope: EnvelopeHash, offer: int, challenge: int, ctx: Context): seq<Action> {
    Questions(id, envelope, offer, challenge, ctx) + ([Advance(id, Resumes)] + ([Advance(id, Resumes)] + []))
  }

  lemma AllowedAsksSigner(s: State, id: nat, envelope: EnvelopeHash, offer: int, challenge: int, ctx: Context)
      returns (amount: int)
    requires Safe(s) && Authorizable(s, id, envelope, offer, challenge, ctx)
    ensures Decimal.ParseBaseUnits(envelope.proposal.amount) == Some(amount)
    ensures
      var p := envelope.proposal;
      var record := Fresh(p, amount, s.clock);
      After(s, UpToSigner(id, envelope, offer, challenge, ctx)) == Asking(
        s.(ledger := L.Inserted(s.ledger, record),
          signed := s.signed + [SignerCall(id, p.idempotencyKey, p.paymentId, p.nonce)]), id,
        Begun(s, envelope, AwaitingSigner(Authority(LoadSnapshot(s, p.mandateId), offer, challenge), record)), 10)
  {
    hide After, Step, Safe, Holds, CurrentContext, LoadSnapshot, L.ReserveEffect, L.Inserted, Asking, Stepped,
      Questions,
      ReserveRequestOf;
    var p := envelope.proposal;
    var a := Authority(LoadSnapshot(s, p.mandateId), offer, challenge);
    amount := AllowedReserves(s, id, envelope, offer, challenge, ctx);
    var record := Fresh(p, amount, s.clock);
    QuestionsDecide(s, id, envelope, offer, challenge, ctx);
    var z := Asking(s, id, Begun(s, envelope, Reserving(a)), 8);
    LedgerIsLawful(s);
    CurrentMandate(s, ctx, p, offer, challenge, UsageOf(s.ledger, p.mandateId, p.incidentId, s.clock));
    ReservesAsking(s, id, Begun(s, envelope, Reserving(a)), 8, L.Inserted(s.ledger, record));
    var s1 := s.(ledger := L.Inserted(s.ledger, record));
    SignsAsking(s1, id, Begun(s, envelope, Signing(a, record)), 9);
    AfterPrefix(s, Questions(id, envelope, offer, challenge, ctx),
      [Advance(id, Resumes)] + ([Advance(id, Resumes)] + []));
    AfterCons(z, Advance(id, Resumes), [Advance(id, Resumes)] + []);
    AfterCons(Step(z, Advance(id, Resumes)), Advance(id, Resumes), []);
    AfterNothing(Step(Step(z, Advance(id, Resumes)), Advance(id, Resumes)));
  }

  lemma ReservesAsking(s: State, id: nat, r: SignRequest, n: nat, ledger: L.State)
    requires Inv(s.ledger) && r.pc.Reserving? && r.pc.authority.snapshot.Some?
    requires L.ReserveEffect(s.ledger, RequestOf(r)).0.Ok?
    requires L.ReserveEffect(s.ledger, RequestOf(r)).0.value.NewlyReserved?
    requires ledger == L.ReserveEffect(s.ledger, RequestOf(r)).1
    ensures Step(Asking(s, id, r, n), Advance(id, Resumes)) ==
      Asking(s.(ledger := ledger), id, r.(pc := Signing(r.pc.authority, Opened(RequestOf(r)))), n + 1)
  {
    hide Step, L.ReserveEffect, Inv, RequestOf, Opened;
    Reserves(Asking(s, id, r, n), id);
    SteppedAsking(s.(ledger := ledger), id, r, n, Signing(r.pc.authority, Opened(RequestOf(r))));
  }

  lemma SignsAsking(s: State, id: nat, r: SignRequest, n: nat)
    requires r.pc.Signing?
    ensures Step(Asking(s, id, r, n), Advance(id, Resumes)) ==
      Asking(
        s.(signed := s.signed + [SignerCall(id, r.pc.record.reservationId, r.pc.record.paymentId, r.pc.record.nonce)]),
        id, r.(pc := AwaitingSigner(r.pc.authority, r.pc.record)), n + 1)
  {
    hide Step;
    var s' :=
      s.(signed := s.signed + [SignerCall(id, r.pc.record.reservationId, r.pc.record.paymentId, r.pc.record.nonce)]);
    AsksSigner(Asking(s, id, r, n), id);
    SteppedAsking(s', id, r, n, AwaitingSigner(r.pc.authority, r.pc.record));
  }

  lemma FourSteps(s: State, a: Action, b: Action, c: Action, d: Action)
    ensures After(s, [a] + ([b] + ([c] + ([d] + [])))) == Step(Step(Step(Step(s, a), b), c), d)
  {
    hide After, Step;
    ThreeSteps(s, a, b, c, [d] + []);
    AfterCons(Step(Step(Step(s, a), b), c), d, []);
    AfterNothing(Step(Step(Step(Step(s, a), b), c), d));
  }

  /** The signer succeeds, the mandate is read again, the store takes the authorization, the handler answers. */
  function Success(id: nat, header: string): seq<Action> {
    [Advance(id, SignerAnswers(true, header))] + ([Advance(id, Resumes)] + ([Advance(id, StoreAnswers(Admits))]
    + ([Advance(id, Resumes)] + [])))
  }

  /** The authorization of a proposal, written out. */
  function AuthorizationOf(envelope: EnvelopeHash, m: Mandate, v: Activation, expiresAt: int, at: int, header: string)
    : Authorization
  {
    var p := envelope.proposal;
    Authorization(p.idempotencyKey, 1, p.requestFingerprint, p.paymentId, m.id, m.mandateHash, m.executionPolicyHash,
      v.version, v.activationHash, envelope, expiresAt, at, header)
  }

  lemma NotStoredYet(s: State, key: string)
    requires Safe(s) && key !in s.ledger.reservations
    ensures key !in s.authorizations
  {
    hide Inv, NeverExceeded, OneOwner, PcOk, SignedOk, ReturnedOk, MandatesOk;
  }

  lemma BeforeTheFirst(ctx: Context, m: int, o: int, c: int, p: int)
    requires forall rule: Rule :: Holds(rule, ctx)
    requires ctx.mandate.Some? ==> ctx.mandate.value.expiresAt == m
    requires ctx.offer.expiresAt == o && ctx.challenge.expiresAt == c && ctx.proposal.expiresAt == p
    ensures ctx.now < m && ctx.now < Earliest([m, o, c, p])
  {
    hide Holds, Evaluate, Earliest;
    DecisionIsExact(ctx);
    AllowMeansValidNow(ctx);
    assert m in [m, o, c, p] && o in [m, o, c, p] && c in [m, o, c, p] && p in [m, o, c, p];
    assert ctx.mandate.value.expiresAt == m;
    assert forall e :: e in [m, o, c, p] ==> e in [ctx.mandate.value.expiresAt, p, o, c];
    var _ := Earliest([m, o, c, p]);
  }

  /** From the signer's success to the response, with the mandate as it was when it was loaded. */
  lemma SuccessReturns(s: State, id: nat, r: SignRequest, n: nat, header: string, m: Mandate, v: Activation,
      expiresAt: int)
    requires r.pc.AwaitingSigner? && r.pc.authority.snapshot == Some(MandateSnapshot(m, v))
    requires r.proposal.mandateId in s.mandates && s.mandates[r.proposal.mandateId] == m
    requires r.proposal.mandateId in s.activations && s.activations[r.proposal.mandateId] == v
    requires v.active && v.mandateId == m.id && v.mandateHash == m.mandateHash
    requires s.clock < m.expiresAt && s.clock < expiresAt
    requires expiresAt ==
      Earliest([m.expiresAt, r.pc.authority.offerExpiresAt, r.pc.authority.challengeExpiresAt, r.proposal.expiresAt])
    requires r.proposal == r.envelopeHash.proposal
    requires r.pc.record.reservationId == r.proposal.idempotencyKey && r.pc.record.version == 1
    requires r.proposal.idempotencyKey !in s.authorizations
    ensures
      var auth := AuthorizationOf(r.envelopeHash, m, v, expiresAt, s.clock, header);
      var expiries := Expiries(m.expiresAt, r.pc.authority.offerExpiresAt, r.pc.authority.challengeExpiresAt,
        r.proposal.expiresAt);
      After(Asking(s, id, r, n), Success(id, header)) == Asking(
        s.(authorizations := s.authorizations[auth.reservationId := auth],
          published := s.published + [Publication(id, auth, expiries)],
          returned := s.returned + [Returned(id, auth, r.startedAt, |s.past| + n + 1, s.clock)]),
        id, r.(pc := Done), n + 4)
  {
    hide After, Step, Earliest;
    var auth := AuthorizationOf(r.envelopeHash, m, v, expiresAt, s.clock, header);
    var a, record := r.pc.authority, r.pc.record;
    var expiries := Expiries(m.expiresAt, a.offerExpiresAt, a.challengeExpiresAt, r.proposal.expiresAt);
    var z := Asking(s, id, r, n);
    SignerEnds(z, id, true, header);
    SteppedAsking(s, id, r, n, Rereading(a, record, header, s.clock));
    var r1 := r.(pc := Rereading(a, record, header, s.clock));
    var z1 := Asking(s, id, r1, n + 1);
    CopiesLength(s.activations, n + 1);
    Rereads(z1, id);
    var r2 := r.(pc := Publishing(record, auth, |s.past| + n + 1, expiries));
    SteppedAsking(s, id, r1, n + 1, r2.pc);
    var z2 := Asking(s, id, r2, n + 2);
    assert Step(z1, Advance(id, Resumes)) == z2;
    Publishes(z2, id, Admits);
    var s3 := s.(authorizations := s.authorizations[auth.reservationId := auth],
      published := s.published + [Publication(id, auth, expiries)]);
    var r3 := r.(pc := Responding(record, auth, |s.past| + n + 1));
    SteppedAsking(s3, id, r2, n + 2, r3.pc);
    var z3 := Asking(s3, id, r3, n + 3);
    assert Step(z2, Advance(id, StoreAnswers(Admits))) == z3;
    Responds(z3, id);
    var s4 := s3.(returned := s.returned + [Returned(id, auth, r.startedAt, |s.past| + n + 1, s.clock)]);
    SteppedAsking(s4, id, r3, n + 3, Done);
    assert Step(z3, Advance(id, Resumes)) == Asking(s4, id, r.(pc := Done), n + 4);
    FourSteps(z, Advance(id, SignerAnswers(true, header)), Advance(id, Resumes), Advance(id, StoreAnswers(Admits)),
      Advance(id, Resumes));
  }

  lemma CopiesLength(activations: map<string, Activation>, n: nat)
    ensures |Copies(activations, n)| == n
  {
  }

  /** From the first await to the last: fourteen steps. */
  function Authorizing(id: nat, envelope: EnvelopeHash, offer: int, challenge: int, ctx: Context, header: string)
    : seq<Action>
  {
    UpToSigner(id, envelope, offer, challenge, ctx) + Success(id, header)
  }

  /**
   * After any run: a new request in whose current context every rule holds gets a
   * header when nothing else happens. Its reservation, its one signer call, its
   * authorization and its response are written out; nothing else is touched.
   */
  lemma AllowedRequestIsAuthorized(run: seq<Action>, id: nat, envelope: EnvelopeHash, offer: int, challenge: int,
      ctx: Context, header: string) returns (amount: int, expiresAt: int)
    requires Authorizable(After(INIT, run), id, envelope, offer, challenge, ctx)
    ensures
      var s, s' := After(INIT, run), After(INIT, run + Authorizing(id, envelope, offer, challenge, ctx, header));
      var p := envelope.proposal;
      && p.mandateId in s.mandates && p.mandateId in s.activations
      && var m, v := s.mandates[p.mandateId], s.activations[p.mandateId];
         var auth := Authorization(p.idempotencyKey, 1, p.requestFingerprint, p.paymentId, m.id, m.mandateHash,
           m.executionPolicyHash, v.version, v.activationHash, envelope, expiresAt, s.clock, header);
         && Decimal.ParseBaseUnits(p.amount) == Some(amount)
         && expiresAt <= m.expiresAt && expiresAt <= offer && expiresAt <= challenge && expiresAt <= p.expiresAt
         && expiresAt in [m.expiresAt, offer, challenge, p.expiresAt] && s.clock < expiresAt
         && s'.ledger.reservations == s.ledger.reservations[p.idempotencyKey := Reservation(
              p.idempotencyKey, p.incidentId, p.mandateId, p.paymentId, p.nonce, p.idempotencyKey,
              p.requestFingerprint, amount, s.clock / 86_400_000, Reserved, 1, s.clock, s.clock,
              [StateEvent(Proposed, s.clock, None), StateEvent(Reserved, s.clock, None)], None, None, None)]
         && s'.signed == s.signed + [SignerCall(id, p.idempotencyKey, p.paymentId, p.nonce)]
         && p.idempotencyKey !in s.authorizations
         && s'.authorizations == s.authorizations[p.idempotencyKey := auth]
         && s'.returned == s.returned + [Returned(id, auth, |run|, |run| + 11, s.clock)]
         && s'.requests == s.requests[id := SignRequest(p, envelope, s.clock, |run|, Done)]
         && s'.clock == s.clock && s'.mandates == s.mandates && s'.activations == s.activations
  {
    hide After, Step, Safe, Armed, Holds, CurrentContext, LoadSnapshot, UpToSigner, Success, ProposalParses, UsageOf,
      Earliest;
    var s := After(INIT, run);
    var p := envelope.proposal;
    ReachableSafe(run);
    RunArmed(run);
    OneEntryPerStep(INIT, run);
    CurrentMandate(s, ctx, p, offer, challenge, UsageOf(s.ledger, p.mandateId, p.incidentId, s.clock));
    OwnProposal(s, ctx, p, offer, challenge, UsageOf(s.ledger, p.mandateId, p.incidentId, s.clock));
    ArmedAt(s, p.mandateId);
    NotStoredYet(s, p.idempotencyKey);
    var m, v := s.mandates[p.mandateId], s.activations[p.mandateId];
    expiresAt := Earliest([m.expiresAt, offer, challenge, p.expiresAt]);
    BeforeTheFirst(ctx, m.expiresAt, offer, challenge, p.expiresAt);
    assert expiresAt in [m.expiresAt, offer, challenge, p.expiresAt];
    assert m.expiresAt in [m.expiresAt, offer, challenge, p.expiresAt]
      && offer in [m.expiresAt, offer, challenge, p.expiresAt]
      && challenge in [m.expiresAt, offer, challenge, p.expiresAt]
      && p.expiresAt in [m.expiresAt, offer, challenge, p.expiresAt];
    amount := AllowedAsksSigner(s, id, envelope, offer, challenge, ctx);
    var record := Fresh(p, amount, s.clock);
    var s1 := s.(ledger := L.Inserted(s.ledger, record),
      signed := s.signed + [SignerCall(id, p.idempotencyKey, p.paymentId, p.nonce)]);
    SuccessReturns(s1, id,
      Begun(s, envelope, AwaitingSigner(Authority(LoadSnapshot(s, p.mandateId), offer, challenge), record)), 10, header,
      m, v, expiresAt);
    AfterPrefix(INIT, run, Authorizing(id, envelope, offer, challenge, ctx, header));
    AfterPrefix(s, UpToSigner(id, envelope, offer, challenge, ctx), Success(id, header));
  }

  lemma ArmedAt(s: State, mandateId: string)
    requires Armed(s) && mandateId in s.activations
    ensures mandateId in s.mandates
    ensures
      var m, v := s.mandates[mandateId], s.activations[mandateId];
      m.id == mandateId && v.mandateId == mandateId && v.mandateHash == m.mandateHash
  {
  }

  // A header that does not leave.

  /** The three ways in which a signed reservation is given up, from the answer of the signer on. */
  datatype Failure = SignerFails | Revoked(at: int, activationHash: string) | NotStored(verdict: Verdict)

  function FailureSteps(id: nat, mandateId: string, failure: Failure, header: string): seq<Action> {
    match failure
    case SignerFails => [Advance(id, SignerAnswers(false, header))] + ([Advance(id, Resumes)] + [])
    case Revoked(at, hash) =>
      [Advance(id, SignerAnswers(true, header))] + ([Revoke(mandateId, at, hash)] + ([Advance(id, Resumes)]
      + ([Advance(id, Resumes)] + [])))
    case NotStored(verdict) =>
      [Advance(id, SignerAnswers(true, header))] + ([Advance(id, Resumes)] + ([Advance(id, StoreAnswers(verdict))]
      + ([Advance(id, Resumes)] + [])))
  }

  /** The request is over, its reservation is given up, and no header was stored or returned. */
  ghost predicate GivenUp(s: State, s': State, id: nat, key: string) {
    && id in s'.requests && s'.requests[id].pc.Done?
    && s'.ledger == L.Step(s.ledger, GivingUp(key, s.clock)).1
    && s'.authorizations == s.authorizations && s'.published == s.published
    && s'.returned == s.returned && s'.signed == s.signed
  }

  lemma SignerFailureReleases(s: State, id: nat, header: string)
    requires id in s.requests && s.requests[id].pc.AwaitingSigner?
    ensures GivenUp(s, After(s, FailureSteps(id, "", SignerFails, header)), id,
      s.requests[id].pc.record.reservationId)
  {
    hide After, Step;
    SignerEnds(s, id, false, header);
    var s1 := Step(s, Advance(id, SignerAnswers(false, header)));
    Releases(s1, id);
    AfterCons(s, Advance(id, SignerAnswers(false, header)), [Advance(id, Resumes)] + []);
    AfterCons(s1, Advance(id, Resumes), []);
    AfterNothing(Step(s1, Advance(id, Resumes)));
  }

  lemma RevokeIs(s: State, mandateId: string, at: int, hash: string)
    requires mandateId in s.mandates && mandateId in s.activations
    ensures
      var s' := Step(s, Revoke(mandateId, at, hash));
      && s' == s.(activations := s'.activations, past := s'.past)
      && mandateId in s'.activations && !s'.activations[mandateId].active
  {
  }

  lemma RevocationReleases(s: State, id: nat, at: int, hash: string, header: string)
    requires id in s.requests && s.requests[id].pc.AwaitingSigner?
    requires s.requests[id].proposal.mandateId in s.mandates && s.requests[id].proposal.mandateId in s.activations
    ensures
      GivenUp(s, After(s, FailureSteps(id, s.requests[id].proposal.mandateId, Revoked(at, hash), header)), id,
        s.requests[id].pc.record.reservationId)
  {
    hide After, Step;
    var m := s.requests[id].proposal.mandateId;
    SignerEnds(s, id, true, header);
    var s1 := Step(s, Advance(id, SignerAnswers(true, header)));
    RevokeIs(s1, m, at, hash);
    var s2 := Step(s1, Revoke(m, at, hash));
    Rereads(s2, id);
    var s3 := Step(s2, Advance(id, Resumes));
    Releases(s3, id);
    FourSteps(s, Advance(id, SignerAnswers(true, header)), Revoke(m, at, hash), Advance(id, Resumes),
      Advance(id, Resumes));
  }

  lemma Refused(s: State, id: nat, verdict: Verdict)
    requires id in s.requests && (s.requests[id].pc.Publishing? || s.requests[id].pc.Releasing?) && !verdict.Admits?
    ensures
      var s' := Step(s, Advance(id, StoreAnswers(verdict)));
      s' == s.(requests := s'.requests, past := s'.past)
      && id in s'.requests && s'.requests[id].pc == Releasing(s.requests[id].pc.record)
  {
    hide ReplayPhase, DecisionPhase, RereadStep, L.TransitionEffect;
  }

  lemma NotStoredReleases(s: State, id: nat, verdict: Verdict, header: string)
    requires id in s.requests && s.requests[id].pc.AwaitingSigner? && !verdict.Admits?
    ensures GivenUp(s, After(s, FailureSteps(id, "", NotStored(verdict), header)), id,
      s.requests[id].pc.record.reservationId)
  {
    hide After, Step, Earliest;
    SignerEnds(s, id, true, header);
    var s1 := Step(s, Advance(id, SignerAnswers(true, header)));
    Rereads(s1, id);
    var s2 := Step(s1, Advance(id, Resumes));
    Refused(s2, id, verdict);
    Releases(Step(s2, Advance(id, StoreAnswers(verdict))), id);
    FourSteps(s, Advance(id, SignerAnswers(true, header)), Advance(id, Resumes), Advance(id, StoreAnswers(verdict)),
      Advance(id, Resumes));
  }

  /** Reserved and given up: the record stays, and every budget is what it was. */
  lemma GivenBack(s: L.State, q: ReserveRequest, at: int)
    requires Inv(s)
    requires L.ReserveEffect(s, q).0.Ok? && L.ReserveEffect(s, q).0.value.NewlyReserved?
    ensures
      var r := Opened(q);
      var s' := L.Step(L.Inserted(s, r), GivingUp(q.reservationId, at)).1;
      && s'.reservations == s.reservations[q.reservationId := r.(state := Released, version := 2, updatedAt := at,
           failureReason := Some("no payment payload was returned"),
           stateHistory := r.stateHistory + [StateEvent(Released, at, None)])]
      && forall mandateId, incidentId, time ::
           UsageOf(s', mandateId, incidentId, time) == UsageOf(s, mandateId, incidentId, time)
  {
    hide Inv, L.ReserveEffect, UsageOf;
    var call := GivingUp(q.reservationId, at);
    NewReservation(s, q);
    var s1 := L.Inserted(s, Opened(q));
    ReserveStepIs(s, q);
    StepKeepsInv(s, Reserve(q));
    TransitionIsExact(s1, call);
    hide L.Step;
    forall mandateId, incidentId, time
      ensures UsageOf(L.Step(s1, call).1, mandateId, incidentId, time) == UsageOf(s, mandateId, incidentId, time)
    {
      UsageAfterReserve(s, q, mandateId, incidentId, time);
      UsageAfterTransition(s1, call, mandateId, incidentId, time);
    }
  }

  lemma ReserveStepIs(s: L.State, q: ReserveRequest)
    requires L.ReserveEffect(s, q).0.Ok?
    ensures L.Step(s, Reserve(q)) == (Ok(ReserveResponse(L.ReserveEffect(s, q).0.value)), L.ReserveEffect(s, q).1)
  {
    hide L.ReserveEffect;
  }

  lemma FailureReleases(s: State, id: nat, failure: Failure, header: string)
    requires id in s.requests && s.requests[id].pc.AwaitingSigner?
    requires failure.NotStored? ==> !failure.verdict.Admits?
    requires s.requests[id].proposal.mandateId in s.mandates && s.requests[id].proposal.mandateId in s.activations
    ensures GivenUp(s, After(s, FailureSteps(id, s.requests[id].proposal.mandateId, failure, header)), id,
      s.requests[id].pc.record.reservationId)
  {
    hide After, GivenUp;
    match failure
    case SignerFails => SignerFailureReleases(s, id, header);
    case Revoked(at, hash) => RevocationReleases(s, id, at, hash, header);
    case NotStored(verdict) => NotStoredReleases(s, id, verdict, header);
  }

  /**
   * After any run: when the signer of an allowed request fails, or its mandate is
   * revoked before it is read again, or the store does not take the authorization,
   * then no header is stored or returned, the reservation is released, and every
   * budget is what it was before the request.
   */
  lemma FailedRequestIsReleased(run: seq<Action>, id: nat, envelope: EnvelopeHash, offer: int, challenge: int,
      ctx: Context, failure: Failure, header: string) returns (amount: int)
    requires Authorizable(After(INIT, run), id, envelope, offer, challenge, ctx)
    requires failure.NotStored? ==> !failure.verdict.Admits?
    ensures
      var s := After(INIT, run);
      var p := envelope.proposal;
      var s' := After(INIT, run +
        (UpToSigner(id, envelope, offer, challenge, ctx) + FailureSteps(id, p.mandateId, failure, header)));
      && Decimal.ParseBaseUnits(p.amount) == Some(amount)
      && s'.ledger.reservations == s.ledger.reservations[p.idempotencyKey := Reservation(
           p.idempotencyKey, p.incidentId, p.mandateId, p.paymentId, p.nonce, p.idempotencyKey,
           p.requestFingerprint, amount, s.clock / 86_400_000, Released, 2, s.clock, s.clock,
           [StateEvent(Proposed, s.clock, None), StateEvent(Reserved, s.clock, None)]
           + [StateEvent(Released, s.clock, None)], None, None, Some("no payment payload was returned"))]
      && s'.signed == s.signed + [SignerCall(id, p.idempotencyKey, p.paymentId, p.nonce)]
      && s'.authorizations == s.authorizations && s'.published == s.published && s'.returned == s.returned
      && id in s'.requests && s'.requests[id].pc.Done?
      && forall mandateId, incidentId, time ::
           UsageOf(s'.ledger, mandateId, incidentId, time) == UsageOf(s.ledger, mandateId, incidentId, time)
  {
    hide After, Step, Safe, Holds, CurrentContext, LoadSnapshot, UpToSigner, FailureSteps, ProposalParses, UsageOf,
      L.Inserted, L.Step, L.ReserveEffect, Inv;
    var s := After(INIT, run);
    var p := envelope.proposal;
    ReachableSafe(run);
    LedgerIsLawful(s);
    CurrentMandate(s, ctx, p, offer, challenge, UsageOf(s.ledger, p.mandateId, p.incidentId, s.clock));
    amount := AllowedReserves(s, id, envelope, offer, challenge, ctx);
    var again := AllowedAsksSigner(s, id, envelope, offer, challenge, ctx);
    var q := ReserveRequestOf(p, s.mandates[p.mandateId], s.clock);
    GivenBack(s.ledger, q, s.clock);
    var z := After(s, UpToSigner(id, envelope, offer, challenge, ctx));
    FailureReleases(z, id, failure, header);
    AfterPrefix(INIT, run, UpToSigner(id, envelope, offer, challenge, ctx) + FailureSteps(id, p.mandateId, failure,
      header));
    AfterPrefix(s, UpToSigner(id, envelope, offer, challenge, ctx), FailureSteps(id, p.mandateId, failure, header));
  }

  // A repeated request.

  /** A request that finds a reservation, the answer of the store, the mandate's and its own response. */
  function Repeating(id: nat, envelope: EnvelopeHash, granted: bool): seq<Action> {
    [Start(id, envelope)] + ([Advance(id, Resumes)] + ([Advance(id, CacheAnswers(granted))]
    + ([Advance(id, Resumes)] + ([Advance(id, Resumes)] + []))))
  }

  lemma DoneStays(s: State, id: nat, r: SignRequest, n: nat, answer: Answer)
    requires r.pc.Done?
    ensures Step(Asking(s, id, r, n), Advance(id, answer)) == Asking(s, id, r, n + 1)
  {
    var z := Asking(s, id, r, n);
    EndsStay(z, id, answer);
    hide AdvanceStep;
    AskingStep(s, id, r, n, answer, Done);
  }

  lemma LooksUp(s: State, id: nat, r: SignRequest, n: nat)
    requires r.pc.LookingUp? && r.proposal.idempotencyKey in s.ledger.reservations
    ensures
      var record := s.ledger.reservations[r.proposal.idempotencyKey];
      Step(Asking(s, id, r, n), Advance(id, Resumes)) == Asking(s, id, r.(pc :=
        if record.requestFingerprint == r.proposal.requestFingerprint && record.state == Reserved
        then LookingInCache(record) else Done), n + 1)
  {
    hide DecisionPhase, OwnerPhase, LoadSnapshot, Releasable, StillActive;
    var record := s.ledger.reservations[r.proposal.idempotencyKey];
    AskingStep(s, id, r, n, Resumes,
      if record.requestFingerprint == r.proposal.requestFingerprint && record.state == Reserved
      then LookingInCache(record) else Done);
  }

  lemma AsksCache(s: State, id: nat, r: SignRequest, n: nat, granted: bool)
    requires r.pc.LookingInCache?
    ensures
      var key := r.pc.existing.reservationId;
      Step(Asking(s, id, r, n), Advance(id, CacheAnswers(granted))) == Asking(s, id, r.(pc :=
        if granted && key in s.authorizations && s.authorizations[key].contextHash == r.envelopeHash
           && s.authorizations[key].requestFingerprint == r.proposal.requestFingerprint
           && r.occurredAt < s.authorizations[key].expiresAt
        then LoadingForReplay(s.authorizations[key]) else Done), n + 1)
  {
    hide DecisionPhase, OwnerPhase, LoadSnapshot, StillActive, AfterLookUp;
    var z := Asking(s, id, r, n);
    var z' := AdvanceStep(z, id, CacheAnswers(granted));
    AskingStep(s, id, r, n, CacheAnswers(granted), z'.requests[id].pc);
  }

  lemma LoadsForReplay(s: State, id: nat, r: SignRequest, n: nat)
    requires r.pc.LoadingForReplay?
    ensures Step(Asking(s, id, r, n), Advance(id, Resumes)) ==
      Asking(s, id, r.(pc := CheckingReplay(r.pc.cached, LoadSnapshot(s, r.proposal.mandateId), |s.past| + n)), n + 1)
  {
    hide DecisionPhase, OwnerPhase, StillActive, AfterLookUp, Releasable;
    CopiesLength(s.activations, n);
    AskingStep(s, id, r, n, Resumes, CheckingReplay(r.pc.cached, LoadSnapshot(s, r.proposal.mandateId), |s.past| + n));
  }

  lemma ChecksReplay(s: State, id: nat, r: SignRequest, n: nat)
    requires r.pc.CheckingReplay? && r.pc.snapshot == LoadSnapshot(s, r.proposal.mandateId)
    ensures
      var pc, mandateId := r.pc, r.proposal.mandateId;
      Step(Asking(s, id, r, n), Advance(id, Resumes)) == Asking(s.(returned :=
        if && mandateId in s.mandates && mandateId in s.activations
           && var m, v := s.mandates[mandateId], s.activations[mandateId];
              && v.active && v.mandateId == m.id && v.mandateHash == m.mandateHash && s.clock < m.expiresAt
              && m.id == pc.cached.mandateId && m.mandateHash == pc.cached.mandateHash
              && m.executionPolicyHash == pc.cached.executionPolicyHash
              && v.version == pc.cached.activationVersion && v.activationHash == pc.cached.activationHash
        then s.returned + [Returned(id, pc.cached, r.startedAt, pc.readAt, s.clock)] else s.returned),
        id, r.(pc := Done), n + 1)
  {
    hide DecisionPhase, OwnerPhase, AfterLookUp, Releasable;
    var z := Asking(s, id, r, n);
    var z' := AdvanceStep(z, id, Resumes);
    AdvanceIs(z, id, Resumes);
    SteppedAsking(s.(returned := z'.returned), id, r, n, Done);
  }

  lemma FiveSteps(s: State, a: Action, b: Action, c: Action, d: Action, e: Action)
    ensures After(s, [a] + ([b] + ([c] + ([d] + ([e] + []))))) == Step(Step(Step(Step(Step(s, a), b), c), d), e)
  {
    hide After, Step;
    AfterCons(s, a, [b] + ([c] + ([d] + ([e] + []))));
    FourSteps(Step(s, a), b, c, d, e);
  }

  lemma RepeatSteps(s: State, id: nat, envelope: EnvelopeHash, granted: bool, s1: State, s2: State, s3: State,
      s4: State,
      s5: State)
    requires s1 == Step(s, Start(id, envelope)) && s2 == Step(s1, Advance(id, Resumes))
    requires s3 == Step(s2, Advance(id, CacheAnswers(granted))) && s4 == Step(s3, Advance(id, Resumes))
    requires s5 == Step(s4, Advance(id, Resumes))
    ensures After(s, Repeating(id, envelope, granted)) == s5
  {
    hide After, Step;
    FiveSteps(s, Start(id, envelope), Advance(id, Resumes), Advance(id, CacheAnswers(granted)), Advance(id, Resumes),
      Advance(id, Resumes));
  }

  /** The stored authorization may still be handed out to this request. */
  predicate Replayable(s: State, envelope: EnvelopeHash) {
    var p := envelope.proposal;
    var key := p.idempotencyKey;
    && key in s.ledger.reservations && s.ledger.reservations[key].state == Reserved
    && s.ledger.reservations[key].requestFingerprint == p.requestFingerprint
    && key in s.authorizations && s.authorizations[key].contextHash == envelope
    && s.authorizations[key].requestFingerprint == p.requestFingerprint && s.clock < s.authorizations[key].expiresAt
    && p.mandateId in s.mandates && p.mandateId in s.activations
    && var m, v, cached := s.mandates[p.mandateId], s.activations[p.mandateId], s.authorizations[key];
       && v.active && v.mandateId == m.id && v.mandateHash == m.mandateHash && s.clock < m.expiresAt
       && m.id == cached.mandateId && m.mandateHash == cached.mandateHash
       && m.executionPolicyHash == cached.executionPolicyHash
       && v.version == cached.activationVersion && v.activationHash == cached.activationHash
  }

  predicate Matches(s: State, p: Proposal) {
    && p.idempotencyKey in s.ledger.reservations
    && s.ledger.reservations[p.idempotencyKey].requestFingerprint == p.requestFingerprint
    && s.ledger.reservations[p.idempotencyKey].state == Reserved
  }

  predicate Cached(s: State, envelope: EnvelopeHash) {
    var p := envelope.proposal;
    && p.idempotencyKey in s.authorizations && s.authorizations[p.idempotencyKey].contextHash == envelope
    && s.authorizations[p.idempotencyKey].requestFingerprint == p.requestFingerprint
    && s.clock < s.authorizations[p.idempotencyKey].expiresAt
  }

  /** After five steps the request is over, and this is what has been returned. */
  ghost predicate Ends(s: State, id: nat, envelope: EnvelopeHash, granted: bool, returned: seq<Returned>) {
    After(s, Repeating(id, envelope, granted)) == Asking(s.(returned := returned), id, Begun(s, envelope, Done), 5)
  }

  lemma EndsAtOnce(s: State, id: nat, envelope: EnvelopeHash, granted: bool)
    requires id !in s.requests && envelope.proposal.idempotencyKey in s.ledger.reservations
    requires !Matches(s, envelope.proposal)
    ensures Ends(s, id, envelope, granted, s.returned) && !Replayable(s, envelope)
  {
    hide After, Step, Asking, Repeating;
    var r0 := Begun(s, envelope, Done);
    Starts(s, id, envelope);
    LooksUp(s, id, Begun(s, envelope, LookingUp), 1);
    DoneStays(s, id, r0, 2, CacheAnswers(granted));
    EndsFrom(s, id, r0, 3);
    RepeatSteps(s, id, envelope, granted, Asking(s, id, Begun(s, envelope, LookingUp), 1), Asking(s, id, r0, 2),
      Asking(s, id, r0, 3), Asking(s, id, r0, 4), Asking(s, id, r0, 5));
  }

  lemma EndsAtCache(s: State, id: nat, envelope: EnvelopeHash, granted: bool)
    requires id !in s.requests && Matches(s, envelope.proposal) && !(granted && Cached(s, envelope))
    requires s.ledger.reservations[envelope.proposal.idempotencyKey].reservationId == envelope.proposal.idempotencyKey
    ensures Ends(s, id, envelope, granted, s.returned) && !(granted && Replayable(s, envelope))
  {
    hide After, Step, Asking, Repeating;
    var r0 := Begun(s, envelope, Done);
    var r2 := Begun(s, envelope, LookingInCache(s.ledger.reservations[envelope.proposal.idempotencyKey]));
    Starts(s, id, envelope);
    LooksUp(s, id, Begun(s, envelope, LookingUp), 1);
    AsksCache(s, id, r2, 2, granted);
    EndsFrom(s, id, r0, 3);
    RepeatSteps(s, id, envelope, granted, Asking(s, id, Begun(s, envelope, LookingUp), 1), Asking(s, id, r2, 2),
      Asking(s, id, r0, 3), Asking(s, id, r0, 4), Asking(s, id, r0, 5));
  }

  lemma IsReplayed(s: State, id: nat, envelope: EnvelopeHash)
    requires id !in s.requests && Matches(s, envelope.proposal) && Cached(s, envelope)
    requires s.ledger.reservations[envelope.proposal.idempotencyKey].reservationId == envelope.proposal.idempotencyKey
    ensures Ends(s, id, envelope, true,
      if Replayable(s, envelope)
      then s.returned +
        [Returned(id, s.authorizations[envelope.proposal.idempotencyKey], |s.past|, |s.past| + 3, s.clock)]
      else s.returned)
  {
    hide After, Step, Asking, Repeating, LoadSnapshot;
    var p := envelope.proposal;
    var cached := s.authorizations[p.idempotencyKey];
    var r2 := Begun(s, envelope, LookingInCache(s.ledger.reservations[p.idempotencyKey]));
    var r3 := Begun(s, envelope, LoadingForReplay(cached));
    var r4 := Begun(s, envelope, CheckingReplay(cached, LoadSnapshot(s, p.mandateId), |s.past| + 3));
    Starts(s, id, envelope);
    LooksUp(s, id, Begun(s, envelope, LookingUp), 1);
    AsksCache(s, id, r2, 2, true);
    LoadsForReplay(s, id, r3, 3);
    ChecksReplay(s, id, r4, 4);
    RepeatSteps(s, id, envelope, true, Asking(s, id, Begun(s, envelope, LookingUp), 1), Asking(s, id, r2, 2),
      Asking(s, id, r3, 3), Asking(s, id, r4, 4), Step(Asking(s, id, r4, 4), Advance(id, Resumes)));
  }

  lemma RepeatEnds(s: State, id: nat, envelope: EnvelopeHash, granted: bool)
    requires id !in s.requests && envelope.proposal.idempotencyKey in s.ledger.reservations
    requires s.ledger.reservations[envelope.proposal.idempotencyKey].reservationId == envelope.proposal.idempotencyKey
    ensures granted && Replayable(s, envelope) ==> envelope.proposal.idempotencyKey in s.authorizations
    ensures Ends(s, id, envelope, granted,
      if granted && Replayable(s, envelope)
      then s.returned +
        [Returned(id, s.authorizations[envelope.proposal.idempotencyKey], |s.past|, |s.past| + 3, s.clock)]
      else s.returned)
  {
    hide Ends, Matches, Replayable;
    if Replayable(s, envelope) {
      ReplayableIsStored(s, envelope);
    }
    if !Matches(s, envelope.proposal) {
      EndsAtOnce(s, id, envelope, granted);
    } else if !(granted && Cached(s, envelope)) {
      EndsAtCache(s, id, envelope, granted);
    } else {
      IsReplayed(s, id, envelope);
    }
  }

  /**
   * After any run: a request whose reservation exists is answered with the stored
   * authorization exactly when that is still good for it, and with no header
   * otherwise. It reserves nothing, asks no signer and stores nothing.
   */
  lemma RepeatedRequestIsReplayed(run: seq<Action>, id: nat, envelope: EnvelopeHash, granted: bool)
    requires id !in After(INIT, run).requests
    requires envelope.proposal.idempotencyKey in After(INIT, run).ledger.reservations
    ensures
      var s, s' := After(INIT, run), After(INIT, run + Repeating(id, envelope, granted));
      var p := envelope.proposal;
      && s'.returned ==
           (if granted && Replayable(s, envelope)
            then s.returned + [Returned(id, s.authorizations[p.idempotencyKey], |run|, |run| + 3, s.clock)]
            else s.returned)
      && s'.requests == s.requests[id := SignRequest(p, envelope, s.clock, |run|, Done)]
      && s'.ledger == s.ledger && s'.signed == s.signed && s'.authorizations == s.authorizations
      && s'.published == s.published
  {
    hide After, Step, Safe, Repeating, Replayable;
    var s := After(INIT, run);
    ReachableSafe(run);
    OneEntryPerStep(INIT, run);
    AfterPrefix(INIT, run, Repeating(id, envelope, granted));
    KeyIsItsId(s, envelope.proposal.idempotencyKey);
    RepeatEnds(s, id, envelope, granted);
    if granted && Replayable(s, envelope) {
      ReplayableIsStored(s, envelope);
    }
  }

  lemma ReplayableIsStored(s: State, envelope: EnvelopeHash)
    requires Replayable(s, envelope)
    ensures envelope.proposal.idempotencyKey in s.authorizations
  {
  }

  lemma EndsFrom(s: State, id: nat, r: SignRequest, n: nat)
    requires r.pc.Done?
    ensures Step(Asking(s, id, r, n), Advance(id, Resumes)) == Asking(s, id, r, n + 1)
    ensures Step(Asking(s, id, r, n + 1), Advance(id, Resumes)) == Asking(s, id, r, n + 2)
  {
    hide Step, Asking;
    DoneStays(s, id, r, n, Resumes);
    DoneStays(s, id, r, n + 1, Resumes);
  }

  lemma KeyIsItsId(s: State, key: string)
    requires Safe(s) && key in s.ledger.reservations
    ensures s.ledger.reservations[key].reservationId == key
  {
    hide Safe, Inv;
    LedgerIsLawful(s);
    IdsAreNotEmpty(s.ledger, key);
  }

  // A header can be had.

  lemma StoredAndArmed(m: Mandate, hash: string)
    requires MandateParses(m)
    ensures
      var s := After(INIT, [PutMandate(m), Arm(m.id, 0, hash)]);
      && s.clock == 0 && s.ledger == L.EMPTY && s.requests == map[] && s.returned == []
      && s.mandates == map[m.id := m] && s.activations == map[m.id := Activation(m.id, m.mandateHash, true, 1, 0, hash)]
  {
    var s1 := Step(INIT, PutMandate(m));
    var s2 := Step(s1, Arm(m.id, 0, hash));
    assert [PutMandate(m), Arm(m.id, 0, hash)] == [PutMandate(m)] + ([Arm(m.id, 0, hash)] + []);
    hide After, Step, MandateParses;
    AfterCons(INIT, PutMandate(m), [Arm(m.id, 0, hash)] + []);
    AfterCons(s1, Arm(m.id, 0, hash), []);
    AfterNothing(s2);
  }

  /**
   * The conditions of an authorization can be met: a mandate is stored and armed, and a request for it
   * is authorized.
   */
  lemma HeaderIsReachable(name: string, fingerprint: string, header: string) returns (actions: seq<Action>)
    requires IsIdentifier(name) && IsSha256(fingerprint)
    ensures
      var s := After(INIT, actions);
      && |s.returned| == 1 && s.returned[0].authorization.header == header
      && s.returned[0].authorization.paymentId == name && s.returned[0].authorization.expiresAt == 1
  {
    hide After, IsIdentifier, IsSha256, Holds, Inv;
    var m, p, ctx := ExampleMandate(name), ExampleProposal(name, fingerprint), ExampleContext(name, fingerprint);
    var envelope := EnvelopeHash(p, "");
    var run := [PutMandate(m), Arm(name, 0, "hash")];
    ExampleNumbers();
    StoredAndArmed(m, "hash");
    ExampleIsAllowed(name, fingerprint);
    UsageAtStart(name, name, 0);
    ExampleIsCurrent(After(INIT, run), name, fingerprint);
    var amount, expiresAt := AllowedRequestIsAuthorized(run, 0, envelope, 1, 1, ctx, header);
    actions := run + Authorizing(0, envelope, 1, 1, ctx, header);
  }

  lemma ExampleIsCurrent(s: State, name: string, fingerprint: string)
    requires s.clock == 0 && s.ledger == L.EMPTY
    requires name in s.mandates && s.mandates[name] == ExampleMandate(name)
    requires name in s.activations && s.activations[name].active
    ensures CurrentContext(s, ExampleContext(name, fingerprint), ExampleProposal(name, fingerprint), 1, 1,
      UsageOf(s.ledger, name, name, s.clock))
  {
    ExampleNumbers();
    UsageAtStart(name, name, 0);
    hide Decimal.ParseBaseUnits;
  }
}
