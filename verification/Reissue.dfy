/**
 * packages/domain/src/recovery-reissue.ts and packages/persistence/src/reissues.ts:
 * a paid but incomplete recovery may be leased once more, once, for ten minutes.
 */
module Reissue {
  import opened Prelude

  /** A digest stands for the value it was taken of: hashing is injective. */
  datatype Digest =
    | OfApproval(approval: Approval)
    | OfResource(resource: Resource)
    | OfReceipt(receipt: Receipt)
    | OtherDigest(text: string)

  /** A reissue's activation id is the digest of a text that only its approval determines. */
  datatype ActivationId = Original(id: string) | ReissueOf(approval: Approval)

  datatype Approval = Approval(
    approvalId: string, paymentId: string, originalActivationId: ActivationId, originalReceiptHash: Digest,
    approvedAt: int, expiresAt: int)

  datatype Link = Link(approvalHash: Digest, originalActivationId: ActivationId, originalReceiptHash: Digest)

  /** What a resource is for; all of it must survive a reissue. */
  datatype Binding = Binding(
    incidentId: string, offerId: string, operationId: string, paymentId: string,
    txSignature: string, resourceUrl: string, rpcEndpoint: Option<string>)

  datatype Resource = Resource(
    activationId: ActivationId, binding: Binding, activatedAt: int, expiresAt: int, reissue: Option<Link>)

  /** The fields of the signed payload that the validation names, and all the others as `rest`. */
  datatype Receipt = Receipt(
    incidentId: string, offerId: string, paymentId: string, txSignature: string, resourceUrl: string,
    rest: seq<string>, resourceResponseHash: Digest, fulfilledAt: int, signature: string)

  datatype Fulfillment = Fulfillment(
    approval: Approval, originalResource: Resource, originalReceipt: Receipt, resource: Resource, receipt: Receipt)

  const TTL_MILLISECONDS := 600_000

  predicate HistoryBound(v: Fulfillment) {
    && v.resource.reissue.Some?
    && v.originalResource.reissue.None?
    && v.originalResource.activationId == v.approval.originalActivationId
    && v.originalResource.binding.paymentId == v.approval.paymentId
    && OfReceipt(v.originalReceipt) == v.approval.originalReceiptHash
    && OfResource(v.originalResource) == v.originalReceipt.resourceResponseHash
    && v.resource.reissue.value.approvalHash == OfApproval(v.approval)
    && v.resource.reissue.value.originalReceiptHash == v.approval.originalReceiptHash
    && v.resource.reissue.value.originalActivationId == v.originalResource.activationId
    && v.resource.activationId == ReissueOf(v.approval)
    && OfResource(v.resource) == v.receipt.resourceResponseHash
  }

  /** The two receipts' payloads agree but for the response hash and the time. */
  predicate SamePayment(a: Receipt, b: Receipt) {
    && a.incidentId == b.incidentId && a.offerId == b.offerId && a.paymentId == b.paymentId
    && a.txSignature == b.txSignature && a.resourceUrl == b.resourceUrl && a.rest == b.rest
  }

  predicate ReceiptMatches(original: Resource, r: Receipt) {
    && original.binding.incidentId == r.incidentId && original.binding.offerId == r.offerId
      && original.binding.paymentId == r.paymentId
    && original.binding.txSignature == r.txSignature && original.binding.resourceUrl == r.resourceUrl
  }

  predicate TimesOk(v: Fulfillment) {
    var issued, expiry := v.resource.activatedAt, v.resource.expiresAt;
    && v.originalResource.expiresAt <= issued
    && v.approval.approvedAt <= issued < v.approval.expiresAt
    && issued < expiry <= issued + TTL_MILLISECONDS && expiry <= v.approval.expiresAt
    && v.receipt.fulfilledAt == issued
    && v.originalReceipt.fulfilledAt <= issued
  }

  /** validateReissuedFulfillment */
  predicate Validated(v: Fulfillment) {
    && HistoryBound(v)
    && v.resource.binding == v.originalResource.binding
    && SamePayment(v.receipt, v.originalReceipt)
    && ReceiptMatches(v.originalResource, v.originalReceipt)
    && TimesOk(v)
  }

  /** The approval alone fixes the whole history and everything about the lease but its times and signature. */
  lemma ApprovalFixesHistory(v: Fulfillment, w: Fulfillment)
    requires Validated(v) && Validated(w) && v.approval == w.approval
    ensures v.originalResource == w.originalResource && v.originalReceipt == w.originalReceipt
    ensures v.resource == w.resource.(activatedAt := v.resource.activatedAt, expiresAt := v.resource.expiresAt)
    ensures v.receipt == w.receipt.(
      resourceResponseHash := OfResource(v.resource), fulfilledAt := v.resource.activatedAt,
        signature := v.receipt.signature)
  {
    assert OfReceipt(v.originalReceipt) == OfReceipt(w.originalReceipt);
    assert OfResource(v.originalResource) == OfResource(w.originalResource);
  }

  // The store.

  datatype Store = Store(approvals: map<string, Approval>, resources: map<ActivationId, Resource>,
    reissues: map<string, Fulfillment>)

  /** One createOnce transaction. */
  function CreateEffect(s: Store, v: Fulfillment): (Store, Result<Fulfillment>) {
    if Find(s.approvals, v.approval.approvalId) != Some(v.approval) then (s, Rejected)
    else if Find(s.resources, v.approval.originalActivationId) != Some(v.originalResource) then (s, Rejected)
    else if v.approval.paymentId in s.reissues then
      var saved := s.reissues[v.approval.paymentId];
      if saved.approval != v.approval then (s, Rejected) else (s, Ok(saved))
    else if v.resource.activationId in s.resources then (s, Rejected)
    else
      (s.(reissues := s.reissues[v.approval.paymentId := v],
        resources := s.resources[v.resource.activationId := v.resource]), Ok(v))
  }

  class ReissueStore {
    var store: Store

    method CreateOnce(value: Fulfillment) returns (r: Result<Fulfillment>)
      modifies this
      ensures (store, r) == CreateEffect(old(store), value)
    {
      var approval := Find(store.approvals, value.approval.approvalId);
      var original := Find(store.resources, value.approval.originalActivationId);
      if approval != Some(value.approval) || original != Some(value.originalResource) {
        return Rejected;
      }
      var existing := Find(store.reissues, value.approval.paymentId);
      if existing.Some? {
        if existing.value.approval != value.approval {
          return Rejected;
        }
        return Ok(existing.value);
      }
      if value.resource.activationId in store.resources {
        return Rejected;
      }
      store := store.(reissues := store.reissues[value.approval.paymentId := value]);
      store := store.(resources := store.resources[value.resource.activationId := value.resource]);
      return Ok(value);
    }
  }

  /** A retry of the service, or anything at all happening to the other two collections. */
  datatype Event = Create(value: Fulfillment) | Elsewhere(approvals: map<string, Approval>,
    resources: map<ActivationId, Resource>)

  function Next(s: Store, e: Event): Store {
    match e
    case Create(v) => CreateEffect(s, v).0
    case Elsewhere(a, r) => Store(a, r, s.reissues)
  }

  function Returned(s: Store, e: Event): Option<Fulfillment> {
    if e.Create? && CreateEffect(s, e.value).1.Ok? then Some(CreateEffect(s, e.value).1.value) else None
  }

  /** What each event of a run returned. */
  function Returns(s: Store, events: seq<Event>): (r: seq<Option<Fulfillment>>)
    ensures |r| == |events|
    decreases |events|
  {
    if events == [] then [] else [Returned(s, events[0])] + Returns(Next(s, events[0]), events[1..])
  }

  /** Every record is kept under its own payment. */
  ghost predicate Keyed(s: Store) {
    forall p :: p in s.reissues ==> s.reissues[p].approval.paymentId == p
  }

  lemma NextKeepsKeyed(s: Store, e: Event)
    requires Keyed(s)
    ensures Keyed(Next(s, e))
    ensures forall p :: p in s.reissues ==> p in Next(s, e).reissues && Next(s, e).reissues[p] == s.reissues[p]
    ensures Returned(s, e).Some? ==>
      var v := Returned(s, e).value;
      v.approval == e.value.approval
      && v.approval.paymentId in Next(s, e).reissues && Next(s, e).reissues[v.approval.paymentId] == v
  {
  }

  /** Whatever a run returns for a payment that has a record is that record. */
  lemma {:induction false} RecordIsForEver(s: Store, events: seq<Event>, p: string, i: nat)
    requires Keyed(s) && p in s.reissues && i < |events|
    ensures
      var r := Returns(s, events)[i];
      r.Some? && r.value.approval.paymentId == p ==> r.value == s.reissues[p]
    decreases |events|
  {
    hide Next, Returned;
    NextKeepsKeyed(s, events[0]);
    if i == 0 {
    } else {
      RecordIsForEver(Next(s, events[0]), events[1..], p, i - 1);
    }
  }

  /**
   * In every run all successful calls for one payment return one and the same
   * lease, the first one: whatever values are handed in, validated or not.
   */
  lemma {:induction false} FirstLeaseWins(s: Store, events: seq<Event>, i: nat, j: nat)
    requires Keyed(s) && i <= j < |events|
    requires Returns(s, events)[i].Some? && Returns(s, events)[j].Some?
    requires Returns(s, events)[i].value.approval.paymentId == Returns(s, events)[j].value.approval.paymentId
    ensures Returns(s, events)[i] == Returns(s, events)[j]
    decreases |events|
  {
    hide Next, Returned;
    NextKeepsKeyed(s, events[0]);
    var t := Next(s, events[0]);
    if j == 0 {
    } else if i == 0 {
      RecordIsForEver(t, events[1..], Returned(s, events[0]).value.approval.paymentId, j - 1);
    } else {
      FirstLeaseWins(t, events[1..], i - 1, j - 1);
    }
  }

  // With the validation that the service makes before each call.

  ghost predicate AllValidated(s: Store) {
    forall p :: p in s.reissues ==> Validated(s.reissues[p])
  }

  predicate OnlyValidated(events: seq<Event>) {
    forall e :: e in events && e.Create? ==> Validated(e.value)
  }

  /** Then whatever a run returns is validated. */
  lemma {:induction false} ReturnsAreValidated(s: Store, events: seq<Event>, i: nat)
    requires AllValidated(s) && OnlyValidated(events) && i < |events| && Returns(s, events)[i].Some?
    ensures Validated(Returns(s, events)[i].value)
    decreases |events|
  {
    hide Validated;
    assert events[0] in events;
    if i == 0 {
      assert Returns(s, events)[0] == Returned(s, events[0]);
    } else {
      assert forall e :: e in events[1..] ==> e in events;
      ReturnsAreValidated(Next(s, events[0]), events[1..], i - 1);
    }
  }

  /** Everything a run returns is a lease of at most 600 seconds that starts when the original access is over. */
  lemma EveryLeaseIsBounded(s: Store, events: seq<Event>, i: nat)
    requires AllValidated(s) && OnlyValidated(events) && i < |events| && Returns(s, events)[i].Some?
    ensures
      var v := Returns(s, events)[i].value;
      && 0 < v.resource.expiresAt - v.resource.activatedAt <= 600 * 1000
      && v.resource.activatedAt >= v.originalResource.expiresAt
      && v.approval.approvedAt <= v.resource.activatedAt < v.resource.expiresAt <= v.approval.expiresAt
  {
    hide Returns;
    ReturnsAreValidated(s, events, i);
  }

  /** At any instant one payment has at most one lease, and a lease never runs beside the original access. */
  lemma AccessOfOnePayment(s: Store, events: seq<Event>, i: nat, j: nat, at: int)
    requires Keyed(s) && AllValidated(s) && OnlyValidated(events) && i < |events| && j < |events|
    requires Returns(s, events)[i].Some? && Returns(s, events)[j].Some?
    requires Returns(s, events)[i].value.approval.paymentId == Returns(s, events)[j].value.approval.paymentId
    ensures
      var v, w := Returns(s, events)[i].value, Returns(s, events)[j].value;
      v.resource.activatedAt <= at < v.resource.expiresAt ==>
        && w.resource.activatedAt <= at < w.resource.expiresAt && w.resource == v.resource
        && !(w.originalResource.activatedAt <= at < w.originalResource.expiresAt)
  {
    hide Keyed, AllValidated, OnlyValidated, Returns;
    EveryLeaseIsBounded(s, events, j);
    if i <= j {
      FirstLeaseWins(s, events, i, j);
    } else {
      FirstLeaseWins(s, events, j, i);
    }
  }

  /** No lease that a run returns is ever the original that another successful call of the run extends. */
  lemma LeasesDoNotChain(s: Store, events: seq<Event>, i: nat, j: nat)
    requires AllValidated(s) && OnlyValidated(events) && i < |events| && j < |events|
    requires Returns(s, events)[i].Some? && Returns(s, events)[j].Some?
    ensures Returns(s, events)[j].value.originalResource != Returns(s, events)[i].value.resource
  {
    hide Returns;
    ReturnsAreValidated(s, events, i);
    ReturnsAreValidated(s, events, j);
  }

  /**
   * The validation is what prevents it: the store alone would extend a lease
   * that it has just made, under a second approval that names it.
   */
  lemma UnvalidatedLeasesChain(v: Fulfillment, w: Fulfillment) returns (s: Store, events: seq<Event>)
    requires v.resource.activationId != v.approval.originalActivationId
    requires w.originalResource == v.resource && w.approval.originalActivationId == v.resource.activationId
    requires w.approval.paymentId != v.approval.paymentId && w.approval.approvalId != v.approval.approvalId
    requires w.resource.activationId !in {v.resource.activationId, v.approval.originalActivationId}
    ensures s.reissues == map[] && events == [Create(v), Create(w)]
    ensures Returns(s, events) == [Some(v), Some(w)] && w.originalResource == v.resource
  {
    s := Store(
      map[v.approval.approvalId := v.approval, w.approval.approvalId := w.approval],
      map[v.approval.originalActivationId := v.originalResource],
      map[]);
    events := [Create(v), Create(w)];
    var t := Next(s, Create(v));
    assert Returned(s, Create(v)) == Some(v);
    assert Returned(t, Create(w)) == Some(w);
    hide Next, Returned;
    assert events[1..] == [Create(w)] && [Create(w)][1..] == [];
    assert Returns(t, [Create(w)]) == [Some(w)];
  }
}
