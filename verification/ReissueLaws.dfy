/** What a reissue must be, and what the store of leases answers, written out. */
module ReissueLaws {
  import opened Prelude
  import opened Reissue

  /**
   * A fulfilment is valid exactly when it is the lease of its approval: the original
   * history is the approved one, the new resource and receipt are the original ones
   * but for what is written here, and the times are in order.
   */
  lemma ValidatedIsTheLease(v: Fulfillment)
    ensures Validated(v) <==>
      var a, first, paid := v.approval, v.originalResource, v.originalReceipt;
      var issued, expiry := v.resource.activatedAt, v.resource.expiresAt;
      && first.reissue == None
      && a.originalActivationId == first.activationId && a.paymentId == first.binding.paymentId
      && a.originalReceiptHash == OfReceipt(paid) && paid.resourceResponseHash == OfResource(first)
      && paid.incidentId == first.binding.incidentId && paid.offerId == first.binding.offerId
      && paid.paymentId == first.binding.paymentId && paid.txSignature == first.binding.txSignature
      && paid.resourceUrl == first.binding.resourceUrl
      && v.resource == Resource(ReissueOf(a), first.binding, issued, expiry,
           Some(Link(OfApproval(a), first.activationId, OfReceipt(paid))))
      && v.receipt == Receipt(paid.incidentId, paid.offerId, paid.paymentId, paid.txSignature, paid.resourceUrl,
           paid.rest, OfResource(v.resource), issued, v.receipt.signature)
      && first.expiresAt <= issued && paid.fulfilledAt <= issued && a.approvedAt <= issued
      && issued < expiry && expiry <= issued + 600_000 && expiry <= a.expiresAt
  {
  }

  /** The approval is stored as it was given, and so is the resource that it extends. */
  predicate StoredAsGiven(s: Store, v: Fulfillment) {
    && v.approval.approvalId in s.approvals && s.approvals[v.approval.approvalId] == v.approval
    && v.approval.originalActivationId in s.resources
    && s.resources[v.approval.originalActivationId] == v.originalResource
  }

  /**
   * A call creates a lease exactly when approval and original are stored as given,
   * the payment has none and the activation id is unused; it returns the payment's
   * lease when that was made under the same approval; and it is refused otherwise.
   */
  lemma CreateIsExact(s: Store, v: Fulfillment)
    ensures
      var returned, s' := Returned(s, Create(v)), Next(s, Create(v));
      var payment := v.approval.paymentId;
      if StoredAsGiven(s, v) && payment !in s.reissues && v.resource.activationId !in s.resources then
        && returned == Some(v) && s'.approvals == s.approvals
        && s'.reissues == s.reissues[payment := v]
        && s'.resources == s.resources[v.resource.activationId := v.resource]
      else if StoredAsGiven(s, v) && payment in s.reissues && s.reissues[payment].approval == v.approval then
        returned == Some(s.reissues[payment]) && s' == s
      else returned == None && s' == s
  {
  }

  /** A retry after the first success gets the lease that was made then, whatever it hands in and whatever its times. */
  lemma RetryGetsTheFirst(s: Store, v: Fulfillment, w: Fulfillment)
    requires Returned(s, Create(v)) == Some(v) && v.approval.paymentId !in s.reissues
    requires w.approval == v.approval && w.originalResource == v.originalResource
    ensures Returned(Next(s, Create(v)), Create(w)) == Some(v)
    ensures Next(Next(s, Create(v)), Create(w)) == Next(s, Create(v))
  {
    hide Next, Returned;
    CreateIsExact(s, v);
    CreateIsExact(Next(s, Create(v)), w);
  }

  /** A second approval of the same payment gets nothing, whatever it approves. */
  lemma SecondApprovalIsRefused(s: Store, v: Fulfillment, w: Fulfillment)
    requires Returned(s, Create(v)) == Some(v)
    requires w.approval.paymentId == v.approval.paymentId && w.approval != v.approval
    ensures Returned(Next(s, Create(v)), Create(w)) == None
    ensures Next(Next(s, Create(v)), Create(w)) == Next(s, Create(v))
  {
    hide Next, Returned;
    CreateIsExact(s, v);
    CreateIsExact(Next(s, Create(v)), w);
  }
}
