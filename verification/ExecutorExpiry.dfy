/** Every header was made before all four expiries it depends on, as its request had been told them. */
module ExecutorExpiry {
  import opened Prelude
  import opened Ledger
  import opened LedgerHistory
  import opened LedgerBudget
  import opened Policy
  import opened Executor
  import opened ExecutorSafety
  import opened ExecutorTheorems
  import opened ExecutorBinding
  import L = MemoryLedger

  /** The authority told this request these two expiries. */
  ghost predicate Heard(actions: seq<Action>, id: nat, offer: int, challenge: int) {
    exists t :: 0 <= t < |actions| && actions[t] == Advance(id, AuthorityAnswers(true, offer, challenge))
  }

  function AuthorityOf(pc: Pc): Option<Authority> {
    match pc
    case ReadingLedger(a, _) => Some(a)
    case Reserving(a) => Some(a)
    case Signing(a, _) => Some(a)
    case AwaitingSigner(a, _) => Some(a)
    case Rereading(a, _, _, _) => Some(a)
    case _ => None
  }

  /** The expiries are those of the mandate, of the proposal, and what the request was told of offer and challenge. */
  ghost predicate TrueExpiries(actions: seq<Action>, s: State, id: nat, auth: Authorization, e: Expiries) {
    && id in s.requests && e.proposal == s.requests[id].proposal.expiresAt
    && auth.mandateId in s.mandates && e.mandate == s.mandates[auth.mandateId].expiresAt
    && Heard(actions, id, e.offer, e.challenge)
    && auth.expiresAt == e.First()
  }

  ghost predicate RequestTold(actions: seq<Action>, s: State, id: nat)
    requires id in s.requests
  {
    var pc := s.requests[id].pc;
    && (AuthorityOf(pc).Some? ==> Heard(actions, id, AuthorityOf(pc).value.offerExpiresAt,
      AuthorityOf(pc).value.challengeExpiresAt))
    && (pc.Publishing? ==> TrueExpiries(actions, s, id, pc.authorization, pc.expiries))
  }

  ghost predicate PublicationOk(actions: seq<Action>, s: State, p: Publication) {
    p.authorization.publishedAt < p.authorization.expiresAt && TrueExpiries(actions, s, p.requestId, p.authorization,
      p.expiries)
  }

  ghost predicate IsPublished(s: State, auth: Authorization) {
    exists i :: 0 <= i < |s.published| && s.published[i].authorization == auth
  }

  ghost predicate Told(actions: seq<Action>, s: State) {
    && (forall id :: id in s.requests ==> RequestTold(actions, s, id))
    && (forall i :: 0 <= i < |s.published| ==> PublicationOk(actions, s, s.published[i]))
    && (forall id :: id in s.authorizations ==> IsPublished(s, s.authorizations[id]))
  }

  // What later steps cannot take back.

  ghost predicate Keeps(s: State, s': State) {
    && SameAsks(s.requests, s'.requests)
    && forall id :: id in s.mandates ==> id in s'.mandates && s'.mandates[id] == s.mandates[id]
  }

  lemma HeardLater(actions: seq<Action>, action: Action, id: nat, offer: int, challenge: int)
    requires Heard(actions, id, offer, challenge)
    ensures Heard(actions + [action], id, offer, challenge)
  {
    var t :| 0 <= t < |actions| && actions[t] == Advance(id, AuthorityAnswers(true, offer, challenge));
    assert (actions + [action])[t] == actions[t];
  }

  lemma ExpiriesLater(actions: seq<Action>, action: Action, s: State, s': State, id: nat, auth: Authorization,
      e: Expiries)
    requires TrueExpiries(actions, s, id, auth, e) && Keeps(s, s')
    ensures TrueExpiries(actions + [action], s', id, auth, e)
  {
    hide Heard, Earliest;
    HeardLater(actions, action, id, e.offer, e.challenge);
  }

  lemma RequestToldLater(actions: seq<Action>, action: Action, s: State, s': State, id: nat)
    requires id in s.requests && RequestTold(actions, s, id) && Keeps(s, s')
    requires id in s'.requests && s'.requests[id] == s.requests[id]
    ensures RequestTold(actions + [action], s', id)
  {
    hide Heard, TrueExpiries;
    var pc := s.requests[id].pc;
    if AuthorityOf(pc).Some? {
      HeardLater(actions, action, id, AuthorityOf(pc).value.offerExpiresAt, AuthorityOf(pc).value.challengeExpiresAt);
    }
    if pc.Publishing? {
      ExpiriesLater(actions, action, s, s', id, pc.authorization, pc.expiries);
    }
  }

  /** At most one publication more, of a header whose expiries are true. */
  ghost predicate PublishesTold(actions: seq<Action>, s: State, s': State) {
    || (s'.authorizations == s.authorizations && s'.published == s.published)
    || exists p :: s'.published == s.published + [p] && PublicationOk(actions, s, p)
                   && s'.authorizations == s.authorizations[p.authorization.reservationId := p.authorization]
  }

  lemma ToldKept(actions: seq<Action>, action: Action, s: State, s': State)
    requires Told(actions, s) && Keeps(s, s') && PublishesTold(actions, s, s')
    requires forall id :: id in s'.requests ==> RequestTold(actions + [action], s', id)
    ensures Told(actions + [action], s')
  {
    hide TrueExpiries, Keeps;
    assert s.published <= s'.published;
    forall i | 0 <= i < |s'.published| ensures PublicationOk(actions + [action], s', s'.published[i]) {
      assert i < |s.published| ==> PublicationOk(actions, s, s.published[i]);
      var p := s'.published[i];
      ExpiriesLater(actions, action, s, s', p.requestId, p.authorization, p.expiries);
    }
    forall id | id in s'.authorizations ensures IsPublished(s', s'.authorizations[id]) {
      PublishedLater(actions, s, s', id);
    }
  }

  lemma PublishedLater(actions: seq<Action>, s: State, s': State, id: string)
    requires Told(actions, s) && PublishesTold(actions, s, s') && id in s'.authorizations
    ensures IsPublished(s', s'.authorizations[id])
  {
    hide PublicationOk, RequestTold;
    if id in s.authorizations && s'.authorizations[id] == s.authorizations[id] {
      var i :| 0 <= i < |s.published| && s.published[i].authorization == s.authorizations[id];
      assert s'.published[i].authorization == s'.authorizations[id];
    } else {
      assert s'.published[|s.published|].authorization == s'.authorizations[id];
    }
  }

  // One step of one request.

  /** A request on its way to a replayed response has been told nothing, and learns nothing. */
  lemma ReplayLearnsNothing(s: State, id: nat, answer: Answer)
    requires id in s.requests
    requires
      var pc := s.requests[id].pc;
      pc.LookingUp? || pc.LookingInCache? || pc.LoadingForReplay? || pc.CheckingReplay?
    ensures
      var s' := AdvanceStep(s, id, answer);
      id in s'.requests && !s'.requests[id].pc.Publishing? && AuthorityOf(s'.requests[id].pc).None?
  {
    hide DecisionPhase, OwnerPhase, LoadSnapshot, StillActive;
  }

  lemma DecisionTold(actions: seq<Action>, s: State, id: nat, answer: Answer)
    requires id in s.requests && RequestTold(actions, s, id)
    requires var pc := s.requests[id].pc; pc.LoadingAuthority? || pc.ReadingLedger? || pc.Reserving?
    ensures
      var s' := AdvanceStep(s, id, answer);
      && id in s'.requests && !s'.requests[id].pc.Publishing?
      && var a := AuthorityOf(s'.requests[id].pc);
         a.Some? ==> Heard(actions + [Advance(id, answer)], id, a.value.offerExpiresAt, a.value.challengeExpiresAt)
  {
    hide Heard, TrueExpiries, ReplayPhase, OwnerPhase, L.ReserveEffect, L.Used, Evaluate, ContextOf, LoadSnapshot,
      RecordRead, IncidentBudgetEvidence, ReserveRequestOf;
    var a := AuthorityOf(s.requests[id].pc);
    if a.Some? {
      HeardLater(actions, Advance(id, answer), id, a.value.offerExpiresAt, a.value.challengeExpiresAt);
    }
    if answer.AuthorityAnswers? && answer.complete {
      JustHeard(actions, id, answer.offerExpiresAt, answer.challengeExpiresAt);
    }
  }

  lemma OwnerTold(actions: seq<Action>, s: State, id: nat, answer: Answer)
    requires id in s.requests && RequestTold(actions, s, id)
    requires var pc := s.requests[id].pc;
      pc.Signing? || pc.AwaitingSigner? || pc.Releasing? || pc.Responding? || pc.EvidenceError? || pc.Done?
    ensures
      var s' := AdvanceStep(s, id, answer);
      && id in s'.requests && !s'.requests[id].pc.Publishing?
      && var a := AuthorityOf(s'.requests[id].pc);
         a.Some? ==> Heard(actions + [Advance(id, answer)], id, a.value.offerExpiresAt, a.value.challengeExpiresAt)
  {
    hide Heard, TrueExpiries, ReplayPhase, DecisionPhase, L.TransitionEffect, RereadStep, PublishStep;
    var a := AuthorityOf(s.requests[id].pc);
    if a.Some? {
      HeardLater(actions, Advance(id, answer), id, a.value.offerExpiresAt, a.value.challengeExpiresAt);
    }
  }

  lemma JustHeard(actions: seq<Action>, id: nat, offer: int, challenge: int)
    ensures Heard(actions + [Advance(id, AuthorityAnswers(true, offer, challenge))], id, offer, challenge)
  {
    var more := actions + [Advance(id, AuthorityAnswers(true, offer, challenge))];
    assert more[|actions|] == Advance(id, AuthorityAnswers(true, offer, challenge));
  }

  lemma RereadToldNext(actions: seq<Action>, s: State, id: nat)
    requires id in s.requests && s.requests[id].pc.Rereading? && RequestTold(actions, s, id) && MandatesOk(s)
    ensures
      var s' := AdvanceStep(s, id, Resumes);
      && id in s'.requests && AuthorityOf(s'.requests[id].pc).None?
      && (s'.requests[id].pc.Publishing? ==>
            TrueExpiries(actions + [Advance(id, Resumes)], s, id, s'.requests[id].pc.authorization,
              s'.requests[id].pc.expiries))
  {
    hide ReplayPhase, DecisionPhase, Heard, L.ReserveEffect, L.TransitionEffect, L.Used, L.LookupBy, Evaluate,
      ContextOf, LoadSnapshot, RecordRead, StillActive, IncidentBudgetEvidence, ReserveRequestOf, PublishStep,
      ReplayStep, ReserveStep, Earliest;
    var a := s.requests[id].pc.authority;
    SnapshotLoaded(s, s.requests[id].proposal.mandateId);
    HeardLater(actions, Advance(id, Resumes), id, a.offerExpiresAt, a.challengeExpiresAt);
  }

  /** A request at these two places that is not resumed stays there; a publication ends elsewhere. */
  lemma LateToldNext(s: State, id: nat, answer: Answer)
    requires id in s.requests && (s.requests[id].pc.Rereading? || s.requests[id].pc.Publishing?)
    ensures
      var s' := AdvanceStep(s, id, answer);
      && id in s'.requests
      && (s.requests[id].pc.Rereading? && !answer.Resumes? ==> s'.requests[id] == s.requests[id])
      && (s.requests[id].pc.Publishing? ==>
            s'.requests[id] == s.requests[id] || (AuthorityOf(s'.requests[id].pc).None?
              && !s'.requests[id].pc.Publishing?))
  {
    hide ReplayPhase, DecisionPhase, L.ReserveEffect, L.TransitionEffect, L.Used, L.LookupBy, Evaluate, ContextOf,
      LoadSnapshot, RecordRead, StillActive, IncidentBudgetEvidence, ReserveRequestOf, ReplayStep, ReserveStep,
      ActivationUnchanged, Authorize;
  }

  lemma ToldNext(actions: seq<Action>, s: State, id: nat, answer: Answer)
    requires id in s.requests && RequestTold(actions, s, id) && MandatesOk(s)
    requires Keeps(s, AdvanceStep(s, id, answer))
    ensures RequestTold(actions + [Advance(id, answer)], AdvanceStep(s, id, answer), id)
  {
    hide AdvanceStep, Heard, TrueExpiries, RequestTold, Keeps, MandatesOk;
    var s' := AdvanceStep(s, id, answer);
    var pc := s.requests[id].pc;
    if pc.Rereading? && answer.Resumes? {
      RereadToldNext(actions, s, id);
      if s'.requests[id].pc.Publishing? {
        ExpiriesKept(actions + [Advance(id, answer)], s, s', id, s'.requests[id].pc.authorization,
          s'.requests[id].pc.expiries);
      }
      ToldWhen(actions + [Advance(id, answer)], s', id);
    } else if pc.Rereading? || pc.Publishing? {
      LateToldNext(s, id, answer);
      if s'.requests[id] == s.requests[id] {
        RequestToldLater(actions, Advance(id, answer), s, s', id);
      } else {
        ToldWhen(actions + [Advance(id, answer)], s', id);
      }
    } else {
      if pc.LookingUp? || pc.LookingInCache? || pc.LoadingForReplay? || pc.CheckingReplay? {
        ReplayLearnsNothing(s, id, answer);
      } else if pc.LoadingAuthority? || pc.ReadingLedger? || pc.Reserving? {
        DecisionTold(actions, s, id, answer);
      } else {
        OwnerTold(actions, s, id, answer);
      }
      ToldWhen(actions + [Advance(id, answer)], s', id);
    }
  }

  lemma ToldWhen(actions: seq<Action>, s: State, id: nat)
    requires id in s.requests
    requires var a := AuthorityOf(s.requests[id].pc); a.Some? ==>
      Heard(actions, id, a.value.offerExpiresAt, a.value.challengeExpiresAt)
    requires s.requests[id].pc.Publishing? ==>
      TrueExpiries(actions, s, id, s.requests[id].pc.authorization, s.requests[id].pc.expiries)
    ensures RequestTold(actions, s, id)
  {
  }

  lemma ExpiriesKept(actions: seq<Action>, s: State, s': State, id: nat, auth: Authorization, e: Expiries)
    requires TrueExpiries(actions, s, id, auth, e) && Keeps(s, s')
    ensures TrueExpiries(actions, s', id, auth, e)
  {
    hide Heard, Earliest;
  }

  lemma MandatesUntouched(s: State, id: nat, answer: Answer)
    requires id in s.requests
    ensures AdvanceStep(s, id, answer).mandates == s.mandates
  {
    hide ReplayPhase, DecisionPhase, OwnerPhase;
    ReplayMandates(s, id, answer);
    DecisionMandates(s, id, answer);
    OwnerMandates(s, id, answer);
  }

  lemma ReplayMandates(s: State, id: nat, answer: Answer)
    requires id in s.requests
    ensures ReplayPhase(s, id, answer).mandates == s.mandates
  {
    hide LoadSnapshot, Releasable, AfterLookUp, StillActive;
  }

  lemma DecisionMandates(s: State, id: nat, answer: Answer)
    requires id in s.requests
    ensures DecisionPhase(s, id, answer).mandates == s.mandates
  {
    hide L.ReserveEffect, L.Used, Evaluate, ContextOf, LoadSnapshot, RecordRead, IncidentBudgetEvidence,
      ReserveRequestOf;
  }

  lemma OwnerMandates(s: State, id: nat, answer: Answer)
    requires id in s.requests
    ensures OwnerPhase(s, id, answer).mandates == s.mandates
  {
    hide L.TransitionEffect, LoadSnapshot, ActivationUnchanged, Authorize;
  }

  lemma AdvanceKeeps(s: State, id: nat, answer: Answer)
    requires id in s.requests
    ensures Keeps(s, AdvanceStep(s, id, answer))
    ensures forall x :: x in AdvanceStep(s, id, answer).requests && x != id ==>
      x in s.requests && AdvanceStep(s, id, answer).requests[x] == s.requests[x]
  {
    hide AdvanceStep;
    MandatesUntouched(s, id, answer);
    AdvanceFramed(s, id, answer);
  }

  lemma AdvancePublishesTold(actions: seq<Action>, s: State, id: nat, answer: Answer)
    requires id in s.requests && RequestTold(actions, s, id)
    ensures PublishesTold(actions, s, AdvanceStep(s, id, answer))
  {
    hide AdvanceStep, TrueExpiries;
    AdvanceFramed(s, id, answer);
    var pc := s.requests[id].pc;
    var s' := AdvanceStep(s, id, answer);
    if s'.published != s.published {
      var p := Publication(id, pc.authorization, pc.expiries);
      assert s'.published == s.published + [p] && PublicationOk(actions, s, p);
    }
  }

  lemma AdvanceTold(actions: seq<Action>, s: State, id: nat, answer: Answer)
    requires Safe(s) && Told(actions, s) && id in s.requests
    ensures Told(actions + [Advance(id, answer)], Aged(s, AdvanceStep(s, id, answer)))
  {
    hide Safe, AdvanceStep, RequestTold, PublicationOk, IsPublished, PublishesTold, Keeps, PcOk, MandatesOk;
    var s' := AdvanceStep(s, id, answer);
    SafeParts(s, id);
    AdvanceKeeps(s, id, answer);
    AdvancePublishesTold(actions, s, id, answer);
    ToldNext(actions, s, id, answer);
    forall x | x in s'.requests ensures RequestTold(actions + [Advance(id, answer)], s', x) {
      if x != id {
        RequestToldLater(actions, Advance(id, answer), s, s', x);
      }
    }
    ToldKept(actions, Advance(id, answer), s, s');
    AgedTold(actions + [Advance(id, answer)], s, s');
  }

  lemma AgedTold(actions: seq<Action>, s: State, s': State)
    requires Told(actions, s')
    ensures Told(actions, Aged(s, s'))
  {
    hide Heard, Earliest;
    var s'' := Aged(s, s');
    forall id | id in s''.requests ensures RequestTold(actions, s'', id) {
      assert RequestTold(actions, s', id);
    }
    forall i | 0 <= i < |s''.published| ensures PublicationOk(actions, s'', s''.published[i]) {
      assert PublicationOk(actions, s', s'.published[i]);
    }
    forall id | id in s''.authorizations ensures IsPublished(s'', s''.authorizations[id]) {
      assert IsPublished(s', s'.authorizations[id]);
    }
  }

  // Every step, every run.

  /** A step that is no request's own: it publishes nothing, and at most starts or crashes one request. */
  lemma OtherTold(actions: seq<Action>, action: Action, s: State, s': State)
    requires Told(actions, s) && Keeps(s, s')
    requires s'.authorizations == s.authorizations && s'.published == s.published
    requires forall id :: id in s'.requests ==>
      || (id in s.requests && s'.requests[id] == s.requests[id])
      || s'.requests[id].pc.LookingUp? || s'.requests[id].pc.Done?
    ensures Told(actions + [action], Aged(s, s'))
  {
    hide PublicationOk, IsPublished, Keeps, TrueExpiries, Heard;
    forall id | id in s'.requests ensures RequestTold(actions + [action], s', id) {
      if id in s.requests && s'.requests[id] == s.requests[id] {
        assert RequestTold(actions, s, id);
        RequestToldLater(actions, action, s, s', id);
      }
    }
    hide RequestTold;
    ToldKept(actions, action, s, s');
    AgedTold(actions + [action], s, s');
  }

  lemma StepTold(actions: seq<Action>, s: State, action: Action)
    requires Safe(s) && Told(actions, s)
    ensures Told(actions + [action], Step(s, action))
  {
    hide Safe, Told, AdvanceStep, Effect, Keeps;
    assert Step(s, action) == Aged(s, Effect(s, action));
    if action.Advance? && action.requestId in s.requests {
      AdvanceTold(actions, s, action.requestId, action.answer);
      AdvanceEffect(s, action);
    } else {
      OtherStores(s, action);
      OtherRequests(s, action);
      BothKept(s, Effect(s, action));
      OtherTold(actions, action, s, Effect(s, action));
    }
  }

  lemma AdvanceEffect(s: State, action: Action)
    requires action.Advance? && action.requestId in s.requests
    ensures Effect(s, action) == AdvanceStep(s, action.requestId, action.answer)
  {
    hide AdvanceStep;
  }

  lemma BothKept(s: State, s': State)
    requires SameAsks(s.requests, s'.requests)
    requires forall id :: id in s.mandates ==> id in s'.mandates && s'.mandates[id] == s.mandates[id]
    ensures Keeps(s, s')
  {
    hide SameAsks;
  }

  lemma OtherStores(s: State, action: Action)
    requires !(action.Advance? && action.requestId in s.requests)
    ensures
      var s' := Effect(s, action);
      && s'.authorizations == s.authorizations && s'.published == s.published
      && forall id :: id in s.mandates ==> id in s'.mandates && s'.mandates[id] == s.mandates[id]
  {
    hide AdvanceStep, L.TransitionEffect, Activated, MandateParses;
  }

  lemma OtherRequests(s: State, action: Action)
    requires !(action.Advance? && action.requestId in s.requests)
    ensures SameAsks(s.requests, Effect(s, action).requests) && NewOrDone(s, Effect(s, action))
  {
    hide AdvanceStep, L.TransitionEffect, Activated, MandateParses, Holding, LoadSnapshot, SameAsks, NewOrDone;
    if action.Crash? {
      AfterCrash(s, action.requestId);
    } else if action.Start? {
      AfterStart(s, action.requestId, action.envelope);
    } else {
      RequestsUntouched(s, Effect(s, action));
    }
  }

  ghost predicate NewOrDone(s: State, s': State) {
    forall id :: id in s'.requests ==>
      || (id in s.requests && s'.requests[id] == s.requests[id])
      || s'.requests[id].pc.LookingUp? || s'.requests[id].pc.Done?
  }

  lemma RequestsUntouched(s: State, s': State)
    requires s'.requests == s.requests
    ensures SameAsks(s.requests, s'.requests) && NewOrDone(s, s')
  {
  }

  lemma AfterCrash(s: State, id: nat)
    ensures var s' := Effect(s, Crash(id)); SameAsks(s.requests, s'.requests) && NewOrDone(s, s')
  {
    hide SameAsks, NewOrDone;
    CrashIs(s, id);
    hide Effect;
    if id in s.requests {
      EndIsDone(s, id);
    } else {
      NothingIsDone(s);
    }
  }

  lemma CrashIs(s: State, id: nat)
    ensures Effect(s, Crash(id)) == if id in s.requests then Goto(s, id, Done) else s
  {
    hide AdvanceStep, Activated, L.TransitionEffect, MandateParses, Holding, Goto;
  }

  lemma EndIsDone(s: State, id: nat)
    requires id in s.requests
    ensures SameAsks(s.requests, Goto(s, id, Done).requests) && NewOrDone(s, Goto(s, id, Done))
  {
  }

  lemma NothingIsDone(s: State)
    ensures SameAsks(s.requests, s.requests) && NewOrDone(s, s)
  {
  }

  lemma AfterStart(s: State, id: nat, envelope: EnvelopeHash)
    ensures var s' := Effect(s, Start(id, envelope)); SameAsks(s.requests, s'.requests) && NewOrDone(s, s')
  {
    hide AdvanceStep, Activated, L.TransitionEffect, MandateParses, Holding;
  }

  lemma {:induction false} RunTold(actions: seq<Action>)
    ensures Told(actions, After(INIT, actions))
    decreases |actions|
  {
    hide Told, Safe, Step;
    if actions == [] {
      NothingTold();
    } else {
      var front, last := actions[..|actions| - 1], actions[|actions| - 1];
      RunTold(front);
      ReachableSafe(front);
      StepTold(front, After(INIT, front), last);
      assert actions == front + [last];
      AfterPrefix(INIT, front, [last]);
      assert After(After(INIT, front), [last]) == Step(After(INIT, front), last) by {
        assert [last][1..] == [];
      }
    }
  }

  lemma NothingTold()
    ensures Told([], INIT) && After(INIT, []) == INIT
  {
  }

  /**
   * Over every interleaving: each returned header was published by some
   * request, before the mandate's and the proposal's expiry and before the
   * expiries of offer and challenge that the authority had told that request;
   * and it expires with the first of the four.
   */
  lemma PublishedBeforeEveryExpiry(actions: seq<Action>, i: nat) returns (p: Publication)
    requires i < |After(INIT, actions).returned|
    ensures
      var s := After(INIT, actions);
      var auth := s.returned[i].authorization;
      && p in s.published && p.authorization == auth && p.requestId in s.requests
      && auth.mandateId in s.mandates && p.expiries.mandate == s.mandates[auth.mandateId].expiresAt
      && p.expiries.proposal == s.requests[p.requestId].proposal.expiresAt
      && Heard(actions, p.requestId, p.expiries.offer, p.expiries.challenge)
      && var four := [p.expiries.mandate, p.expiries.offer, p.expiries.challenge, p.expiries.proposal];
         auth.publishedAt < auth.expiresAt && auth.expiresAt in four && forall e :: e in four ==> auth.expiresAt <= e
  {
    hide After, Heard;
    var s := After(INIT, actions);
    var auth := s.returned[i].authorization;
    OneHeaderPerReservation(actions, i, i);
    RunTold(actions);
    assert IsPublished(s, auth);
    var k :| 0 <= k < |s.published| && s.published[k].authorization == auth;
    p := s.published[k];
    assert PublicationOk(actions, s, p);
  }
}
