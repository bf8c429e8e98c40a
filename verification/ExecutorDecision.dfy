/**
 * What the policy decided, over every interleaving: nothing is reserved, signed,
 * published or returned but for a request whose own answered policy context, put
 * together from its own reads, satisfies every rule.
 */
module ExecutorDecision {
  import opened Prelude
  import opened Ledger
  import opened LedgerHistory
  import opened Policy
  import opened Executor
  import opened ExecutorSafety
  import opened ExecutorTheorems
  import opened ExecutorBinding
  import opened ExecutorExpiry
  import L = MemoryLedger
  import Decimal

  /** The state in which action `t` of a run is taken. */
  ghost function At(actions: seq<Action>, t: nat): State
    requires t <= |actions|
  {
    After(INIT, actions[..t])
  }

  // Where a request's knowledge comes from.

  /** At step `t` the authority answered the request, and this is what the mandate stores held then. */
  ghost predicate LoadedAt(actions: seq<Action>, t: nat, id: nat, p: Proposal, a: Authority) {
    && t < |actions|
    && actions[t] == Advance(id, AuthorityAnswers(true, a.offerExpiresAt, a.challengeExpiresAt))
    && a.snapshot == LoadSnapshot(At(actions, t), p.mandateId)
  }

  ghost predicate BudgetReadAt(actions: seq<Action>, t: nat, id: nat, p: Proposal, day: int, used: Usage) {
    && t < |actions| && actions[t] == Advance(id, LedgerAnswers(BudgetRead))
    && used == L.Used(At(actions, t).ledger.reservations, p.mandateId, p.incidentId, day)
  }

  ghost predicate LookedUpAt(actions: seq<Action>, t: nat, id: nat, read: Read, kind: IdentifierKind, value: string,
      bound: bool)
  {
    && t < |actions| && actions[t] == Advance(id, LedgerAnswers(read))
    && bound == L.LookupBy(At(actions, t).ledger, kind, value).Some?
  }

  ghost predicate Loaded(actions: seq<Action>, id: nat, p: Proposal, a: Authority) {
    exists t :: LoadedAt(actions, t, id, p, a)
  }

  ghost predicate LookedUp(actions: seq<Action>, id: nat, read: Read, kind: IdentifierKind, value: string,
      bound: bool) {
    exists t :: LookedUpAt(actions, t, id, read, kind, value, bound)
  }

  /** Each ledger read that the request has completed was answered by the ledger as it was at some step. */
  ghost predicate ReallySeen(actions: seq<Action>, id: nat, p: Proposal, at: int, seen: Seen) {
    && (seen.budget.Some? ==> exists t :: BudgetReadAt(actions, t, id, p, BudgetDay(at), seen.budget.value))
    && (seen.paymentIdBound.Some? ==>
          LookedUp(actions, id, PaymentIdRead, ByPaymentId, p.paymentId, seen.paymentIdBound.value))
    && (seen.nonceBound.Some? ==> LookedUp(actions, id, NonceRead, ByNonce, p.nonce, seen.nonceBound.value))
    && (seen.idempotencyKeyBound.Some? ==>
          LookedUp(actions, id, IdempotencyKeyRead, ByIdempotencyKey, p.idempotencyKey, seen.idempotencyKeyBound.value))
  }

  /** The context is the request's own: its proposal and time, and what it has loaded and read. */
  predicate OwnContext(ctx: Context, p: Proposal, at: int, a: Authority, seen: Seen) {
    && ctx.proposal == p && ctx.now == at
    && (ctx.mandate.Some? <==> a.snapshot.Some?)
    && (ctx.mandate.Some? ==> ctx.mandate.value == a.snapshot.value.mandate)
    && ctx.offer.expiresAt == a.offerExpiresAt && ctx.challenge.expiresAt == a.challengeExpiresAt
    && seen.budget.Some? && seen.budget.value.incident >= 0 && seen.budget.value.daily >= 0
    && Decimal.ParseBaseUnits(ctx.incidentUsed) == Some(seen.budget.value.incident)
    && Decimal.ParseBaseUnits(ctx.dailyUsed) == Some(seen.budget.value.daily)
    && seen.paymentIdBound == Some(ctx.paymentIdBound)
    && seen.nonceBound == Some(ctx.nonceBound)
    && seen.idempotencyKeyBound == Some(ctx.idempotencyKeyBound)
  }

  /** At step `t` the policy was evaluated for the request on its own context, and every rule held. */
  ghost predicate ApprovedAt(actions: seq<Action>, t: nat, id: nat, p: Proposal, at: int, ctx: Context, a: Authority,
      seen: Seen)
  {
    && t < |actions| && actions[t] == Advance(id, PolicyContext(ctx))
    && Loaded(actions[..t], id, p, a) && ReallySeen(actions[..t], id, p, at, seen)
    && OwnContext(ctx, p, at, a, seen)
    && forall rule: Rule :: Holds(rule, ctx)
  }

  ghost predicate Approved(actions: seq<Action>, id: nat, p: Proposal, at: int) {
    exists t, ctx, a, seen :: ApprovedAt(actions, t, id, p, at, ctx, a, seen)
  }

  ghost predicate Knows(actions: seq<Action>, id: nat, r: SignRequest) {
    && (r.pc.ReadingLedger? ==>
          && Loaded(actions, id, r.proposal, r.pc.authority)
          && ReallySeen(actions, id, r.proposal, r.occurredAt, r.pc.seen))
    && (r.pc.Reserving? || Owned(r.pc).Some? ==> Approved(actions, id, r.proposal, r.occurredAt))
  }

  // A longer run has seen at least as much.

  lemma PrefixesSame(actions: seq<Action>, action: Action)
    ensures forall t: nat :: t <= |actions| ==> (actions + [action])[..t] == actions[..t]
    ensures forall t: nat :: t < |actions| ==> (actions + [action])[t] == actions[t]
  {
  }

  lemma LoadedLater(actions: seq<Action>, action: Action, id: nat, p: Proposal, a: Authority)
    requires Loaded(actions, id, p, a)
    ensures Loaded(actions + [action], id, p, a)
  {
    hide After, LoadSnapshot;
    PrefixesSame(actions, action);
    var t :| LoadedAt(actions, t, id, p, a);
    assert LoadedAt(actions + [action], t, id, p, a);
  }

  lemma LookedUpLater(actions: seq<Action>, action: Action, id: nat, read: Read, kind: IdentifierKind, value: string,
      bound: bool)
    requires LookedUp(actions, id, read, kind, value, bound)
    ensures LookedUp(actions + [action], id, read, kind, value, bound)
  {
    hide After, L.LookupBy;
    PrefixesSame(actions, action);
    var t :| LookedUpAt(actions, t, id, read, kind, value, bound);
    assert LookedUpAt(actions + [action], t, id, read, kind, value, bound);
  }

  lemma SeenLater(actions: seq<Action>, action: Action, id: nat, p: Proposal, at: int, seen: Seen)
    requires ReallySeen(actions, id, p, at, seen)
    ensures ReallySeen(actions + [action], id, p, at, seen)
  {
    hide After, L.LookupBy, L.Used, LookedUp;
    PrefixesSame(actions, action);
    if seen.budget.Some? {
      var t :| BudgetReadAt(actions, t, id, p, BudgetDay(at), seen.budget.value);
      assert BudgetReadAt(actions + [action], t, id, p, BudgetDay(at), seen.budget.value);
    }
    if seen.paymentIdBound.Some? {
      LookedUpLater(actions, action, id, PaymentIdRead, ByPaymentId, p.paymentId, seen.paymentIdBound.value);
    }
    if seen.nonceBound.Some? {
      LookedUpLater(actions, action, id, NonceRead, ByNonce, p.nonce, seen.nonceBound.value);
    }
    if seen.idempotencyKeyBound.Some? {
      LookedUpLater(actions, action, id, IdempotencyKeyRead, ByIdempotencyKey, p.idempotencyKey,
        seen.idempotencyKeyBound.value);
    }
  }

  lemma ApprovedLater(actions: seq<Action>, action: Action, id: nat, p: Proposal, at: int)
    requires Approved(actions, id, p, at)
    ensures Approved(actions + [action], id, p, at)
  {
    hide Loaded, ReallySeen, OwnContext, Holds;
    PrefixesSame(actions, action);
    var t, ctx, a, seen :| ApprovedAt(actions, t, id, p, at, ctx, a, seen);
    assert ApprovedAt(actions + [action], t, id, p, at, ctx, a, seen);
  }

  lemma KnowsLater(actions: seq<Action>, action: Action, id: nat, r: SignRequest)
    requires Knows(actions, id, r)
    ensures Knows(actions + [action], id, r)
  {
    hide Loaded, ReallySeen, Approved;
    if r.pc.ReadingLedger? {
      LoadedLater(actions, action, id, r.proposal, r.pc.authority);
      SeenLater(actions, action, id, r.proposal, r.occurredAt, r.pc.seen);
    }
    if r.pc.Reserving? || Owned(r.pc).Some? {
      ApprovedLater(actions, action, id, r.proposal, r.occurredAt);
    }
  }

  // One step of one request.

  /** How a request comes to hold what needs an approval. */
  lemma ReplayDecidesNothing(s: State, id: nat, answer: Answer)
    requires id in s.requests
    requires
      var pc := s.requests[id].pc;
      pc.LookingUp? || pc.LookingInCache? || pc.LoadingForReplay? || pc.CheckingReplay?
    ensures
      var s' := AdvanceStep(s, id, answer);
      && id in s'.requests
      && var pc := s'.requests[id].pc; !pc.ReadingLedger? && !pc.Reserving? && Owned(pc).None?
  {
    hide DecisionPhase, OwnerPhase, LoadSnapshot, StillActive, Releasable;
  }

  lemma LoadsAuthority(s: State, id: nat, answer: Answer)
    requires id in s.requests && s.requests[id].pc.LoadingAuthority?
    ensures
      var s', r := AdvanceStep(s, id, answer), s.requests[id];
      if answer.AuthorityAnswers? && answer.complete then
        s' == Goto(s, id, ReadingLedger(
          Authority(LoadSnapshot(s, r.proposal.mandateId), answer.offerExpiresAt, answer.challengeExpiresAt),
          Seen(None, None, None, None)))
      else s' == s || s' == Goto(s, id, Done)
  {
    hide ReplayPhase, OwnerPhase, LoadSnapshot, L.Used, Evaluate, ContextOf, ReserveStep, RecordRead;
  }

  lemma ReadsLedger(s: State, id: nat, read: Read)
    requires id in s.requests && s.requests[id].pc.ReadingLedger?
    ensures
      var r, p := s.requests[id], s.requests[id].proposal;
      var seen := r.pc.seen;
      AdvanceStep(s, id, LedgerAnswers(read)) == Goto(s, id, ReadingLedger(r.pc.authority,
        match read
        case BudgetRead =>
          seen.(budget := Some(L.Used(s.ledger.reservations, p.mandateId, p.incidentId, BudgetDay(r.occurredAt))))
        case PaymentIdRead => seen.(paymentIdBound := Some(L.LookupBy(s.ledger, ByPaymentId, p.paymentId).Some?))
        case NonceRead => seen.(nonceBound := Some(L.LookupBy(s.ledger, ByNonce, p.nonce).Some?))
        case IdempotencyKeyRead =>
          seen.(idempotencyKeyBound := Some(L.LookupBy(s.ledger, ByIdempotencyKey, p.idempotencyKey).Some?))))
  {
    hide ReplayPhase, OwnerPhase, LoadSnapshot, L.Used, Evaluate, ContextOf, ReserveStep, L.LookupBy;
  }

  /** The decision: with every rule holding the request goes on to reserve, with one failing it ends. */
  lemma Decides(s: State, id: nat, ctx: Context)
    requires id in s.requests && s.requests[id].pc.ReadingLedger?
    ensures
      var r := s.requests[id];
      var a, seen := r.pc.authority, r.pc.seen;
      AdvanceStep(s, id, PolicyContext(ctx)) ==
        if !ContextOf(ctx, r, a, seen) then s
        else if forall rule: Rule :: Holds(rule, ctx) then Goto(s, id, Reserving(a))
        else Goto(s, id, Done)
  {
    hide ReplayPhase, OwnerPhase, LoadSnapshot, L.Used, Evaluate, ContextOf, ReserveStep, RecordRead, Holds;
    DecisionIsExact(ctx);
  }

  lemma OtherAnswers(s: State, id: nat, answer: Answer)
    requires id in s.requests && s.requests[id].pc.ReadingLedger?
    requires !answer.LedgerAnswers? && !answer.PolicyContext?
    ensures AdvanceStep(s, id, answer) == s
  {
    hide ReplayPhase, OwnerPhase, LoadSnapshot, L.Used, Evaluate, ContextOf, ReserveStep, RecordRead;
  }

  /** From the decision on a request never reads the ledger again. */
  predicate NotReading(s: State, id: nat) {
    id in s.requests && !s.requests[id].pc.ReadingLedger?
  }

  lemma ReserveIsNoRead(s: State, id: nat, a: Authority)
    requires id in s.requests && a.snapshot.Some?
    ensures NotReading(ReserveStep(s, id, a), id)
  {
    hide L.ReserveEffect, IncidentBudgetEvidence, ReserveRequestOf;
  }

  lemma RereadIsNoRead(s: State, id: nat, a: Authority, record: Reservation, header: string, at: int)
    requires id in s.requests
    ensures NotReading(RereadStep(s, id, a, record, header, at), id)
  {
    hide ActivationUnchanged, LoadSnapshot, Authorize;
  }

  lemma PublishIsNoRead(s: State, id: nat, record: Reservation, auth: Authorization, readAt: nat, expiries: Expiries,
      verdict: Verdict)
    requires id in s.requests
    ensures NotReading(PublishStep(s, id, record, auth, readAt, expiries, verdict), id)
  {
  }

  lemma OwnersStayOwners(s: State, id: nat, answer: Answer)
    requires id in s.requests && (s.requests[id].pc.Reserving? || Owned(s.requests[id].pc).Some?)
    ensures NotReading(AdvanceStep(s, id, answer), id)
  {
    hide ReplayPhase, LoadSnapshot, L.Used, Evaluate, ContextOf, L.TransitionEffect, RecordRead, ReserveStep,
      RereadStep, PublishStep;
    match (s.requests[id].pc, answer)
    case (Reserving(a), Resumes) => if a.snapshot.Some? { ReserveIsNoRead(s, id, a); }
    case (Rereading(a, record, header, at), Resumes) => RereadIsNoRead(s, id, a, record, header, at);
    case (Publishing(record, auth, readAt, expiries), StoreAnswers(verdict)) =>
      PublishIsNoRead(s, id, record, auth, readAt, expiries, verdict);
    case _ =>
  }

  lemma ContextIsOwn(ctx: Context, r: SignRequest, a: Authority, seen: Seen)
    ensures ContextOf(ctx, r, a, seen) ==> OwnContext(ctx, r.proposal, r.occurredAt, a, seen)
  {
    if seen.budget.Some? && seen.budget.value.incident >= 0 && seen.budget.value.daily >= 0 {
      Decimal.ParsePrinted(seen.budget.value.incident);
      Decimal.ParsePrinted(seen.budget.value.daily);
    }
    hide Decimal.ParseBaseUnits, Decimal.Print;
  }

  lemma SeesOneMore(actions: seq<Action>, s: State, id: nat, read: Read)
    requires s == After(INIT, actions) && id in s.requests && s.requests[id].pc.ReadingLedger?
    requires Knows(actions, id, s.requests[id])
    ensures var s' := AdvanceStep(s, id, LedgerAnswers(read));
      id in s'.requests && Knows(actions + [Advance(id, LedgerAnswers(read))], id, s'.requests[id])
  {
    hide After, AdvanceStep, Loaded, L.Used, L.LookupBy, LookedUp;
    var action, r := Advance(id, LedgerAnswers(read)), s.requests[id];
    var p := r.proposal;
    KnowsLater(actions, action, id, r);
    ReadsLedger(s, id, read);
    var more := actions + [action];
    assert more[..|actions|] == actions && more[|actions|] == action;
    match read
    case BudgetRead =>
      var used := L.Used(s.ledger.reservations, p.mandateId, p.incidentId, BudgetDay(r.occurredAt));
      assert BudgetReadAt(more, |actions|, id, p, BudgetDay(r.occurredAt), used);
    case PaymentIdRead => LooksUpNow(actions, s, id, read, ByPaymentId, p.paymentId);
    case NonceRead => LooksUpNow(actions, s, id, read, ByNonce, p.nonce);
    case IdempotencyKeyRead => LooksUpNow(actions, s, id, read, ByIdempotencyKey, p.idempotencyKey);
  }

  lemma LooksUpNow(actions: seq<Action>, s: State, id: nat, read: Read, kind: IdentifierKind, value: string)
    requires s == After(INIT, actions)
    ensures LookedUp(actions + [Advance(id, LedgerAnswers(read))], id, read, kind, value,
      L.LookupBy(s.ledger, kind, value).Some?)
  {
    hide After, L.LookupBy;
    var more := actions + [Advance(id, LedgerAnswers(read))];
    assert more[..|actions|] == actions;
    assert LookedUpAt(more, |actions|, id, read, kind, value, L.LookupBy(s.ledger, kind, value).Some?);
  }

  lemma LoadsNow(actions: seq<Action>, s: State, id: nat, p: Proposal, offer: int, challenge: int)
    requires s == After(INIT, actions)
    ensures Loaded(actions + [Advance(id, AuthorityAnswers(true, offer, challenge))], id, p,
      Authority(LoadSnapshot(s, p.mandateId), offer, challenge))
  {
    hide After, LoadSnapshot;
    var more := actions + [Advance(id, AuthorityAnswers(true, offer, challenge))];
    assert more[..|actions|] == actions;
    assert LoadedAt(more, |actions|, id, p, Authority(LoadSnapshot(s, p.mandateId), offer, challenge));
  }

  lemma ApprovesNow(actions: seq<Action>, id: nat, r: SignRequest, ctx: Context)
    requires r.pc.ReadingLedger? && Knows(actions, id, r)
    requires ContextOf(ctx, r, r.pc.authority, r.pc.seen) && forall rule: Rule :: Holds(rule, ctx)
    ensures Approved(actions + [Advance(id, PolicyContext(ctx))], id, r.proposal, r.occurredAt)
  {
    hide Loaded, ReallySeen, OwnContext, Holds, ContextOf;
    ContextIsOwn(ctx, r, r.pc.authority, r.pc.seen);
    var more := actions + [Advance(id, PolicyContext(ctx))];
    assert more[..|actions|] == actions;
    assert ApprovedAt(more, |actions|, id, r.proposal, r.occurredAt, ctx, r.pc.authority, r.pc.seen);
  }

  lemma KnowsNext(actions: seq<Action>, s: State, id: nat, answer: Answer)
    requires s == After(INIT, actions) && id in s.requests && Knows(actions, id, s.requests[id])
    ensures var s' := AdvanceStep(s, id, answer);
      id in s'.requests && Knows(actions + [Advance(id, answer)], id, s'.requests[id])
  {
    hide After, AdvanceStep, Loaded, ReallySeen, Approved, ContextOf, Holds;
    var action, r := Advance(id, answer), s.requests[id];
    KnowsLater(actions, action, id, r);
    if r.pc.LookingUp? || r.pc.LookingInCache? || r.pc.LoadingForReplay? || r.pc.CheckingReplay? {
      ReplayDecidesNothing(s, id, answer);
    } else if r.pc.LoadingAuthority? {
      LoadsAuthority(s, id, answer);
      if answer.AuthorityAnswers? && answer.complete {
        LoadsNow(actions, s, id, r.proposal, answer.offerExpiresAt, answer.challengeExpiresAt);
        NothingSeen(actions + [action], id, r.proposal, r.occurredAt);
      }
    } else if r.pc.ReadingLedger? {
      if answer.LedgerAnswers? {
        SeesOneMore(actions, s, id, answer.read);
      } else if answer.PolicyContext? {
        Decides(s, id, answer.ctx);
        if ContextOf(answer.ctx, r, r.pc.authority, r.pc.seen) && forall rule: Rule :: Holds(rule, answer.ctx) {
          ApprovesNow(actions, id, r, answer.ctx);
        }
      } else {
        OtherAnswers(s, id, answer);
      }
    } else if r.pc.Reserving? || Owned(r.pc).Some? {
      OwnersStayOwners(s, id, answer);
      AdvanceFramed(s, id, answer);
    } else {
      EndsStay(s, id, answer);
    }
  }

  lemma NothingSeen(actions: seq<Action>, id: nat, p: Proposal, at: int)
    ensures ReallySeen(actions, id, p, at, Seen(None, None, None, None))
  {
  }

  lemma EndsStay(s: State, id: nat, answer: Answer)
    requires id in s.requests && (s.requests[id].pc.Done? || s.requests[id].pc.EvidenceError?)
    ensures AdvanceStep(s, id, answer) == s
  {
    hide ReplayPhase, DecisionPhase, OwnerPhase;
  }

  // Every step, every run.

  /** A stored reservation was opened by a request that was approved. */
  ghost predicate OpenedByApproved(actions: seq<Action>, s: State, x: string) {
    exists id :: id in s.requests && x in s.ledger.reservations
      && Approved(actions, id, s.requests[id].proposal, s.requests[id].occurredAt)
      && MadeFor(s.ledger.reservations[x], s.requests[id].proposal)
  }

  ghost predicate AskedByApproved(actions: seq<Action>, s: State, id: nat) {
    id in s.requests && Approved(actions, id, s.requests[id].proposal, s.requests[id].occurredAt)
  }

  ghost predicate Decided(actions: seq<Action>, s: State) {
    && (forall id :: id in s.requests ==> Knows(actions, id, s.requests[id]))
    && (forall i :: 0 <= i < |s.signed| ==> AskedByApproved(actions, s, s.signed[i].requestId))
    && (forall i :: 0 <= i < |s.published| ==> AskedByApproved(actions, s, s.published[i].requestId))
    && (forall x :: x in s.ledger.reservations ==> OpenedByApproved(actions, s, x))
  }

  /** Requests stay and keep their proposal and time. */
  ghost predicate KeepsAsking(s: State, s': State) {
    forall id :: id in s.requests ==>
      && id in s'.requests && s'.requests[id].proposal == s.requests[id].proposal
      && s'.requests[id].occurredAt == s.requests[id].occurredAt
  }

  lemma AskedLater(actions: seq<Action>, action: Action, s: State, s': State, id: nat)
    requires AskedByApproved(actions, s, id) && KeepsAsking(s, s')
    ensures AskedByApproved(actions + [action], s', id)
  {
    hide Approved;
    ApprovedLater(actions, action, id, s.requests[id].proposal, s.requests[id].occurredAt);
  }

  lemma OpenedLater(actions: seq<Action>, action: Action, s: State, s': State, x: string)
    requires OpenedByApproved(actions, s, x) && KeepsAsking(s, s') && LedgerContinues(s, s')
    ensures OpenedByApproved(actions + [action], s', x)
  {
    hide Approved;
    var id :| id in s.requests && x in s.ledger.reservations
      && Approved(actions, id, s.requests[id].proposal, s.requests[id].occurredAt)
      && MadeFor(s.ledger.reservations[x], s.requests[id].proposal);
    ApprovedLater(actions, action, id, s.requests[id].proposal, s.requests[id].occurredAt);
    assert Continues(s.ledger.reservations[x], s'.ledger.reservations[x]);
    assert id in s'.requests;
  }

  /** What a step may add: an entry of the request that took it, or a reservation that it opened. */
  ghost predicate AddsOwn(actions: seq<Action>, s: State, s': State) {
    && s.signed <= s'.signed && s.published <= s'.published
    && (forall i :: |s.signed| <= i < |s'.signed| ==> AskedByApproved(actions, s, s'.signed[i].requestId))
    && (forall i :: |s.published| <= i < |s'.published| ==> AskedByApproved(actions, s, s'.published[i].requestId))
    && (forall x :: x in s'.ledger.reservations && x !in s.ledger.reservations ==>
          exists id :: AskedByApproved(actions, s, id) && MadeFor(s'.ledger.reservations[x], s.requests[id].proposal))
  }

  lemma DecidedKept(actions: seq<Action>, action: Action, s: State, s': State)
    requires Decided(actions, s) && KeepsAsking(s, s') && LedgerContinues(s, s') && AddsOwn(actions, s, s')
    requires forall id :: id in s'.requests ==> Knows(actions + [action], id, s'.requests[id])
    ensures Decided(actions + [action], s')
  {
    hide Approved, Knows, KeepsAsking, LedgerContinues, MadeFor, OpenedByApproved;
    forall i | 0 <= i < |s'.signed| ensures AskedByApproved(actions + [action], s', s'.signed[i].requestId) {
      assert i < |s.signed| ==> s'.signed[i] == s.signed[i];
      AskedLater(actions, action, s, s', s'.signed[i].requestId);
    }
    forall i | 0 <= i < |s'.published| ensures AskedByApproved(actions + [action], s', s'.published[i].requestId) {
      assert i < |s.published| ==> s'.published[i] == s.published[i];
      AskedLater(actions, action, s, s', s'.published[i].requestId);
    }
    forall x | x in s'.ledger.reservations ensures OpenedByApproved(actions + [action], s', x) {
      if x in s.ledger.reservations {
        OpenedLater(actions, action, s, s', x);
      } else {
        var id :| AskedByApproved(actions, s, id) && MadeFor(s'.ledger.reservations[x], s.requests[id].proposal);
        OpenedNow(actions, action, s, s', x, id);
      }
    }
  }

  lemma OpenedNow(actions: seq<Action>, action: Action, s: State, s': State, x: string, id: nat)
    requires AskedByApproved(actions, s, id) && KeepsAsking(s, s')
    requires x in s'.ledger.reservations && MadeFor(s'.ledger.reservations[x], s.requests[id].proposal)
    ensures OpenedByApproved(actions + [action], s', x)
  {
    hide Approved, MadeFor;
    AskedLater(actions, action, s, s', id);
  }

  lemma SignsOwn(s: State, id: nat, answer: Answer)
    requires id in s.requests
    ensures
      var s', pc := AdvanceStep(s, id, answer), s.requests[id].pc;
      || s'.signed == s.signed
      || (pc.Signing? && answer == Resumes && s'.signed ==
          s.signed + [SignerCall(id, pc.record.reservationId, pc.record.paymentId, pc.record.nonce)])
  {
    hide ReplayPhase, DecisionPhase, OwnerPhase;
    ReplaySignsNothing(s, id, answer);
    DecisionSignsNothing(s, id, answer);
    OwnerSignsOwn(s, id, answer);
  }

  lemma ReplaySignsNothing(s: State, id: nat, answer: Answer)
    requires id in s.requests
    ensures ReplayPhase(s, id, answer).signed == s.signed
  {
    hide LoadSnapshot, Releasable, AfterLookUp, StillActive;
  }

  lemma DecisionSignsNothing(s: State, id: nat, answer: Answer)
    requires id in s.requests
    ensures DecisionPhase(s, id, answer).signed == s.signed
  {
    hide L.ReserveEffect, L.Used, Evaluate, ContextOf, LoadSnapshot, RecordRead, IncidentBudgetEvidence,
      ReserveRequestOf;
  }

  lemma OwnerSignsOwn(s: State, id: nat, answer: Answer)
    requires id in s.requests
    ensures
      var s', pc := OwnerPhase(s, id, answer), s.requests[id].pc;
      || s'.signed == s.signed
      || (pc.Signing? && answer == Resumes && s'.signed ==
          s.signed + [SignerCall(id, pc.record.reservationId, pc.record.paymentId, pc.record.nonce)])
  {
    hide L.TransitionEffect, LoadSnapshot, ActivationUnchanged, Authorize;
  }

  lemma OpensOwn(s: State, id: nat, answer: Answer)
    requires Safe(s) && id in s.requests
    ensures
      var s', r := AdvanceStep(s, id, answer), s.requests[id];
      forall x :: x in s'.ledger.reservations && x !in s.ledger.reservations ==>
        r.pc.Reserving? && MadeFor(s'.ledger.reservations[x], r.proposal)
  {
    hide Safe, AdvanceStep, L.TransitionEffect, L.ReserveEffect, Opened;
    LedgerIsLawful(s);
    var r := s.requests[id];
    if r.pc.Reserving? && r.pc.authority.snapshot.Some? && answer.Resumes? {
      ReserveStepLedger(s, id);
      ReserveOpens(s.ledger, r.proposal, RequestOf(r));
    } else if r.pc.Releasing? && answer.Resumes? {
      ReleasedPc(s, id, Transition(r.pc.record.reservationId, [Reserved], Released, s.clock, RELEASE));
      TransitionOpensNothing(s.ledger, r.pc.record.reservationId, [Reserved], Released, s.clock, RELEASE);
    } else {
      LedgerUnmoved(s, id, answer);
    }
  }

  lemma ReserveOpens(ledger: L.State, p: Proposal, q: ReserveRequest)
    requires q.reservationId == p.idempotencyKey == q.idempotencyKey && q.paymentId == p.paymentId
    requires q.nonce == p.nonce && q.mandateId == p.mandateId && q.incidentId == p.incidentId
    requires q.requestFingerprint == p.requestFingerprint && q.amount == Amount(p.amount)
    ensures
      var after := L.ReserveEffect(ledger, q).1.reservations;
      forall x :: x in after && x !in ledger.reservations ==> MadeFor(after[x], p)
  {
    hide ValidRequest, L.Known, L.Used, Amount;
  }

  lemma TransitionOpensNothing(ledger: L.State, id: string, expected: seq<ReservationState>, next: ReservationState,
      at: int, patch: Patch)
    ensures L.TransitionEffect(ledger, id, expected, next, at, patch).1.reservations.Keys == ledger.reservations.Keys
  {
    hide MayTransition, Transitioned;
  }

  lemma AdvanceAddsOwn(actions: seq<Action>, s: State, id: nat, answer: Answer)
    requires Safe(s) && id in s.requests && Knows(actions, id, s.requests[id])
    ensures AddsOwn(actions, s, AdvanceStep(s, id, answer))
  {
    hide Safe, AdvanceStep, Approved, MadeFor;
    SignsOwn(s, id, answer);
    OpensOwn(s, id, answer);
    AdvanceFramed(s, id, answer);
    var s' := AdvanceStep(s, id, answer);
    forall x | x in s'.ledger.reservations && x !in s.ledger.reservations
      ensures exists id ::
        AskedByApproved(actions, s, id) && MadeFor(s'.ledger.reservations[x], s.requests[id].proposal)
    {
      assert AskedByApproved(actions, s, id);
    }
  }

  lemma FramedKeepsAsking(s: State, s': State, id: nat)
    requires id in s.requests && OwnPcOnly(s, s', id)
    ensures KeepsAsking(s, s')
  {
  }

  lemma AdvanceDecided(actions: seq<Action>, s: State, id: nat, answer: Answer)
    requires s == After(INIT, actions) && Safe(s) && Decided(actions, s) && id in s.requests
    ensures Decided(actions + [Advance(id, answer)], Aged(s, AdvanceStep(s, id, answer)))
  {
    hide After, Safe, AdvanceStep, Knows, AddsOwn, KeepsAsking, LedgerContinues, AskedByApproved, OpenedByApproved;
    var s' := AdvanceStep(s, id, answer);
    var action := Advance(id, answer);
    KnowsNext(actions, s, id, answer);
    AdvanceFramed(s, id, answer);
    FramedKeepsAsking(s, s', id);
    AdvanceContinues(s, id, answer);
    AdvanceAddsOwn(actions, s, id, answer);
    forall x | x in s'.requests ensures Knows(actions + [action], x, s'.requests[x]) {
      if x != id {
        KnowsLater(actions, action, x, s.requests[x]);
      }
    }
    DecidedKept(actions, action, s, s');
    AgedDecided(actions + [action], s, s');
  }

  lemma AgedDecided(actions: seq<Action>, s: State, s': State)
    requires Decided(actions, s')
    ensures Decided(actions, Aged(s, s'))
  {
    hide Knows, Approved, MadeFor;
    var s'' := Aged(s, s');
    forall i | 0 <= i < |s''.signed| ensures AskedByApproved(actions, s'', s''.signed[i].requestId) {
      assert AskedByApproved(actions, s', s'.signed[i].requestId);
    }
    forall i | 0 <= i < |s''.published| ensures AskedByApproved(actions, s'', s''.published[i].requestId) {
      assert AskedByApproved(actions, s', s'.published[i].requestId);
    }
    forall x | x in s''.ledger.reservations ensures OpenedByApproved(actions, s'', x) {
      assert OpenedByApproved(actions, s', x);
    }
  }

  lemma NewOrDoneKnows(actions: seq<Action>, action: Action, s: State, s': State)
    requires Decided(actions, s) && NewOrDone(s, s')
    ensures forall id :: id in s'.requests ==> Knows(actions + [action], id, s'.requests[id])
  {
    hide Knows, AskedByApproved, OpenedByApproved;
    forall id | id in s'.requests ensures Knows(actions + [action], id, s'.requests[id]) {
      if id in s.requests && s'.requests[id] == s.requests[id] {
        KnowsLater(actions, action, id, s.requests[id]);
      } else {
        FreshKnows(actions + [action], id, s'.requests[id]);
      }
    }
  }

  lemma FreshKnows(actions: seq<Action>, id: nat, r: SignRequest)
    requires r.pc.LookingUp? || r.pc.Done?
    ensures Knows(actions, id, r)
  {
  }

  /** A step that is no request's own signs, publishes and opens nothing. */
  lemma OtherAddsNothing(actions: seq<Action>, s: State, action: Action)
    requires !(action.Advance? && action.requestId in s.requests)
    ensures AddsOwn(actions, s, Effect(s, action)) && LedgerContinues(s, Effect(s, action))
  {
    hide AdvanceStep, L.TransitionEffect, Activated, MandateParses, Holding, Continues, MadeFor, AskedByApproved;
    AllContinue(s);
    if action.ControlPlane? {
      TransitionContinues(s.ledger, action.id, action.expected, action.next, action.at, action.patch);
      TransitionOpensNothing(s.ledger, action.id, action.expected, action.next, action.at, action.patch);
    }
  }

  lemma OtherKeepsAsking(s: State, action: Action)
    requires !(action.Advance? && action.requestId in s.requests)
    ensures KeepsAsking(s, Effect(s, action))
  {
    hide AdvanceStep, L.TransitionEffect, Activated, MandateParses, Holding;
  }

  lemma StepDecided(actions: seq<Action>, s: State, action: Action)
    requires s == After(INIT, actions) && Safe(s) && Decided(actions, s)
    ensures Decided(actions + [action], Step(s, action))
  {
    hide After, Safe, Decided, AdvanceStep, Effect, AddsOwn, KeepsAsking, LedgerContinues, NewOrDone;
    assert Step(s, action) == Aged(s, Effect(s, action));
    if action.Advance? && action.requestId in s.requests {
      AdvanceDecided(actions, s, action.requestId, action.answer);
      AdvanceEffect(s, action);
    } else {
      OtherRequests(s, action);
      OtherKeepsAsking(s, action);
      OtherAddsNothing(actions, s, action);
      NewOrDoneKnows(actions, action, s, Effect(s, action));
      DecidedKept(actions, action, s, Effect(s, action));
      AgedDecided(actions + [action], s, Effect(s, action));
    }
  }

  lemma {:induction false} RunDecided(actions: seq<Action>)
    ensures Decided(actions, After(INIT, actions))
    decreases |actions|
  {
    hide Decided, Safe, Step;
    if actions == [] {
      NothingDecided();
    } else {
      var front, last := actions[..|actions| - 1], actions[|actions| - 1];
      RunDecided(front);
      ReachableSafe(front);
      StepDecided(front, After(INIT, front), last);
      assert actions == front + [last];
      AfterPrefix(INIT, front, [last]);
      OneStep(After(INIT, front), last);
    }
  }

  lemma OneStep(s: State, action: Action)
    ensures After(s, [action]) == Step(s, action)
  {
    hide Step;
    assert [action][1..] == [];
  }

  lemma NothingDecided()
    ensures Decided([], INIT) && After(INIT, []) == INIT
  {
  }

  // The theorems.

  /** The stores hold this mandate, and its activation is active. */
  predicate IsActiveMandate(s: State, id: string, m: Mandate) {
    id in s.mandates && s.mandates[id] == m && id in s.activations && s.activations[id].active
  }

  /**
   * The steps at which a request was decided: its authority was loaded at `loadedAt`,
   * and at `decidedAt` the policy was evaluated on the request's own context, and
   * every one of its rules held.
   */
  ghost predicate WasAllowed(actions: seq<Action>, id: nat, r: SignRequest, loadedAt: nat, decidedAt: nat,
      ctx: Context) {
    && loadedAt < decidedAt < |actions|
    && actions[loadedAt] == Advance(id, AuthorityAnswers(true, ctx.offer.expiresAt, ctx.challenge.expiresAt))
    && actions[decidedAt] == Advance(id, PolicyContext(ctx))
    && ctx.proposal == r.proposal && ctx.now == r.occurredAt
    && ctx.mandate.Some?
    && IsActiveMandate(After(INIT, actions[..loadedAt]), r.proposal.mandateId, ctx.mandate.value)
    && forall rule: Rule :: Holds(rule, ctx)
  }

  lemma ApprovedWasAllowed(actions: seq<Action>, id: nat, r: SignRequest)
      returns (loadedAt: nat, decidedAt: nat, ctx: Context)
    requires Approved(actions, id, r.proposal, r.occurredAt)
    ensures WasAllowed(actions, id, r, loadedAt, decidedAt, ctx)
  {
    hide After, ReallySeen;
    var p, at := r.proposal, r.occurredAt;
    var t: nat, c, a, seen :| ApprovedAt(actions, t, id, p, at, c, a, seen);
    var u: nat :| LoadedAt(actions[..t], u, id, p, a);
    loadedAt, decidedAt, ctx := u, t, c;
    assert actions[..t][..u] == actions[..u];
    assert Holds(OfMandate(MandateNotRevoked), c);
  }

  /** The signer is called only for a request that every rule of the policy allowed. */
  lemma SignedWasAllowed(actions: seq<Action>, i: nat) returns (loadedAt: nat, decidedAt: nat, ctx: Context)
    requires i < |After(INIT, actions).signed|
    ensures
      var s := After(INIT, actions);
      var id := s.signed[i].requestId;
      id in s.requests && WasAllowed(actions, id, s.requests[id], loadedAt, decidedAt, ctx)
  {
    hide After, WasAllowed, Approved;
    RunDecided(actions);
    var s := After(INIT, actions);
    var id := s.signed[i].requestId;
    assert AskedByApproved(actions, s, id);
    loadedAt, decidedAt, ctx := ApprovedWasAllowed(actions, id, s.requests[id]);
  }

  /** Every header that was ever returned, first or replayed, was published by a request that every rule allowed. */
  lemma HeaderWasAllowed(actions: seq<Action>, i: nat)
      returns (p: Publication, loadedAt: nat, decidedAt: nat, ctx: Context)
    requires i < |After(INIT, actions).returned|
    ensures
      var s := After(INIT, actions);
      && p in s.published && p.authorization == s.returned[i].authorization
      && p.requestId in s.requests
      && WasAllowed(actions, p.requestId, s.requests[p.requestId], loadedAt, decidedAt, ctx)
  {
    hide After, WasAllowed, Approved;
    p := PublishedBeforeEveryExpiry(actions, i);
    RunDecided(actions);
    var s := After(INIT, actions);
    var k :| 0 <= k < |s.published| && s.published[k] == p;
    assert AskedByApproved(actions, s, s.published[k].requestId);
    loadedAt, decidedAt, ctx := ApprovedWasAllowed(actions, p.requestId, s.requests[p.requestId]);
  }

  /** Every reservation was opened by a request that every rule allowed, and for what that request proposed. */
  lemma ReservationWasAllowed(actions: seq<Action>, x: string)
      returns (id: nat, loadedAt: nat, decidedAt: nat, ctx: Context)
    requires x in After(INIT, actions).ledger.reservations
    ensures
      var s := After(INIT, actions);
      && id in s.requests && WasAllowed(actions, id, s.requests[id], loadedAt, decidedAt, ctx)
      && var r, p := s.ledger.reservations[x], s.requests[id].proposal;
         && r.reservationId == p.idempotencyKey && r.paymentId == p.paymentId && r.nonce == p.nonce
         && r.mandateId == p.mandateId && r.incidentId == p.incidentId
         && r.requestFingerprint == p.requestFingerprint && r.amount == Amount(p.amount)
  {
    hide After, WasAllowed, Approved;
    RunDecided(actions);
    var s := After(INIT, actions);
    assert OpenedByApproved(actions, s, x);
    id :| id in s.requests && Approved(actions, id, s.requests[id].proposal, s.requests[id].occurredAt)
      && MadeFor(s.ledger.reservations[x], s.requests[id].proposal);
    loadedAt, decidedAt, ctx := ApprovedWasAllowed(actions, id, s.requests[id]);
  }

  // A request that was denied.

  /** A request with an entry to its name is past its signing. */
  predicate Late(pc: Pc) {
    pc.Done? || (Owned(pc).Some? && !pc.Signing?)
  }

  predicate LateRequest(s: State, id: nat) {
    id in s.requests && Late(s.requests[id].pc)
  }

  predicate EntriesAreLate(s: State) {
    && (forall i :: 0 <= i < |s.signed| ==> LateRequest(s, s.signed[i].requestId))
    && (forall i :: 0 <= i < |s.published| ==> LateRequest(s, s.published[i].requestId))
    && (forall i :: 0 <= i < |s.returned| ==> LateRequest(s, s.returned[i].requestId))
  }

  lemma RereadStaysLate(s: State, id: nat, a: Authority, record: Reservation, header: string, at: int)
    requires id in s.requests
    ensures LateRequest(RereadStep(s, id, a, record, header, at), id)
  {
    hide ActivationUnchanged, LoadSnapshot, Authorize;
  }

  lemma PublishStaysLate(s: State, id: nat, verdict: Verdict)
    requires id in s.requests && s.requests[id].pc.Publishing?
    ensures var pc := s.requests[id].pc;
      LateRequest(PublishStep(s, id, pc.record, pc.authorization, pc.readAt, pc.expiries, verdict), id)
  {
  }

  lemma LateStaysLate(s: State, id: nat, answer: Answer)
    requires LateRequest(s, id)
    ensures LateRequest(AdvanceStep(s, id, answer), id)
  {
    hide ReplayPhase, DecisionPhase, L.TransitionEffect, RereadStep, PublishStep;
    match (s.requests[id].pc, answer)
    case (Rereading(a, record, header, at), Resumes) => RereadStaysLate(s, id, a, record, header, at);
    case (Publishing(_, _, _, _), StoreAnswers(verdict)) => PublishStaysLate(s, id, verdict);
    case _ =>
  }

  lemma SigningBecomesLate(s: State, id: nat)
    requires id in s.requests && s.requests[id].pc.Signing?
    ensures LateRequest(AdvanceStep(s, id, Resumes), id)
  {
    hide ReplayPhase, DecisionPhase, L.TransitionEffect, RereadStep, PublishStep;
  }

  lemma ReturningBecomesLate(s: State, id: nat, answer: Answer)
    requires id in s.requests && HeldAuthorization(s.requests[id].pc).Some?
    ensures AdvanceStep(s, id, answer).returned != s.returned ==> LateRequest(AdvanceStep(s, id, answer), id)
  {
    hide DecisionPhase, L.TransitionEffect, RereadStep, PublishStep, StillActive, LoadSnapshot;
  }

  lemma AdvanceEntriesLate(s: State, id: nat, answer: Answer)
    requires EntriesAreLate(s) && id in s.requests
    ensures EntriesAreLate(AdvanceStep(s, id, answer))
    ensures
      var s' := AdvanceStep(s, id, answer);
      s.signed <= s'.signed && s.published <= s'.published && s.returned <= s'.returned
  {
    hide AdvanceStep, Late;
    var s' := AdvanceStep(s, id, answer);
    SignsOwn(s, id, answer);
    AdvanceFramed(s, id, answer);
    if LateRequest(s, id) {
      LateStaysLate(s, id, answer);
    }
    if s.requests[id].pc.Signing? && answer == Resumes {
      SigningBecomesLate(s, id);
    }
    if s'.returned != s.returned {
      ReturningBecomesLate(s, id, answer);
    }
    if s.requests[id].pc.Publishing? {
      PublishingIsLate(s.requests[id].pc);
    }
    forall x | LateRequest(s, x) ensures LateRequest(s', x) {
    }
  }

  lemma PublishingIsLate(pc: Pc)
    requires pc.Publishing?
    ensures Late(pc)
  {
  }

  lemma OtherStaysLate(s: State, action: Action, id: nat)
    requires !(action.Advance? && action.requestId in s.requests) && LateRequest(s, id)
    ensures LateRequest(Effect(s, action), id)
  {
    hide AdvanceStep, L.TransitionEffect, Activated, MandateParses, Holding;
  }

  lemma OtherAddsNoEntry(s: State, action: Action)
    requires !(action.Advance? && action.requestId in s.requests)
    ensures
      var s' := Effect(s, action);
      s'.signed == s.signed && s'.published == s.published && s'.returned == s.returned
  {
    hide AdvanceStep, L.TransitionEffect, Activated, MandateParses, Holding;
  }

  lemma StepEntriesLate(s: State, action: Action)
    requires EntriesAreLate(s)
    ensures EntriesAreLate(Step(s, action))
  {
    hide Effect, Late;
    if action.Advance? && action.requestId in s.requests {
      AdvanceEffect(s, action);
      AdvanceEntriesLate(s, action.requestId, action.answer);
    } else {
      OtherAddsNoEntry(s, action);
      forall x | LateRequest(s, x) ensures LateRequest(Effect(s, action), x) {
        OtherStaysLate(s, action, x);
      }
    }
  }

  lemma {:induction false} RunEntriesLate(s: State, actions: seq<Action>)
    requires EntriesAreLate(s)
    ensures EntriesAreLate(After(s, actions))
    decreases |actions|
  {
    hide EntriesAreLate, Step;
    if actions == [] {
    } else {
      StepEntriesLate(s, actions[0]);
      RunEntriesLate(Step(s, actions[0]), actions[1..]);
    }
  }

  predicate NoEntries(s: State, id: nat) {
    && (forall i :: 0 <= i < |s.signed| ==> s.signed[i].requestId != id)
    && (forall i :: 0 <= i < |s.published| ==> s.published[i].requestId != id)
    && (forall i :: 0 <= i < |s.returned| ==> s.returned[i].requestId != id)
  }

  predicate Over(s: State, id: nat) {
    id in s.requests && s.requests[id].pc.Done? && NoEntries(s, id)
  }

  lemma StepStaysOver(s: State, action: Action, id: nat)
    requires Over(s, id)
    ensures Over(Step(s, action), id)
    ensures action.Advance? && action.requestId == id ==> Effect(s, action) == s
  {
    hide AdvanceStep, L.TransitionEffect, Activated, MandateParses, Holding;
    if action.Advance? && action.requestId in s.requests {
      if action.requestId == id {
        EndsStay(s, id, action.answer);
      } else {
        SignsOwn(s, action.requestId, action.answer);
        AdvanceFramed(s, action.requestId, action.answer);
      }
    }
  }

  lemma {:induction false} RunStaysOver(s: State, actions: seq<Action>, id: nat)
    requires Over(s, id)
    ensures Over(After(s, actions), id)
    decreases |actions|
  {
    hide Over, Step;
    if actions == [] {
    } else {
      StepStaysOver(s, actions[0], id);
      RunStaysOver(Step(s, actions[0]), actions[1..], id);
    }
  }

  /**
   * A request whose answered context fails a rule is over with that answer: the step
   * touches nothing but the request, and whatever else happens it never signs,
   * publishes or returns anything, nor takes any step that changes anything.
   */
  lemma DeniedIsOver(actions: seq<Action>, id: nat, ctx: Context, more: seq<Action>)
    requires
      var s := After(INIT, actions);
      && id in s.requests && s.requests[id].pc.ReadingLedger?
      && ContextOf(ctx, s.requests[id], s.requests[id].pc.authority, s.requests[id].pc.seen)
      && !forall rule: Rule :: Holds(rule, ctx)
    ensures
      var s := After(INIT, actions);
      Effect(s, Advance(id, PolicyContext(ctx))) == s.(requests := s.requests[id := s.requests[id].(pc := Done)])
    ensures Over(After(INIT, actions + [Advance(id, PolicyContext(ctx))] + more), id)
  {
    hide After, Step, AdvanceStep, ContextOf, Holds, Over;
    var s, action := After(INIT, actions), Advance(id, PolicyContext(ctx));
    InitEntriesLate();
    RunEntriesLate(INIT, actions);
    Decides(s, id, ctx);
    AdvanceEffect(s, action);
    DeniedStepIsOver(s, id, ctx);
    AfterPrefix(INIT, actions + [action], more);
    AfterPrefix(INIT, actions, [action]);
    OneStep(s, action);
    RunStaysOver(Step(s, action), more, id);
  }

  lemma InitEntriesLate()
    ensures EntriesAreLate(INIT)
  {
  }

  lemma DeniedStepIsOver(s: State, id: nat, ctx: Context)
    requires EntriesAreLate(s) && id in s.requests && s.requests[id].pc.ReadingLedger?
    requires Effect(s, Advance(id, PolicyContext(ctx))) == Goto(s, id, Done)
    ensures Over(Step(s, Advance(id, PolicyContext(ctx))), id)
  {
    hide Effect;
    assert !LateRequest(s, id);
  }
}
