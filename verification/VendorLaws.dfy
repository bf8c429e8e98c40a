/**
 * What a vendor's claim on a payment answers, call by call, written out: which of
 * the four answers a claim gets, when an attempt, a transition and a release
 * succeed, and the record that each of them leaves behind.
 */
module VendorLaws {
  import opened Prelude
  import opened Schemas
  import opened VendorClaims
  import opened VendorSafety

  /**
   * A well-formed claim of a payment that nobody has claimed is acquired. One with
   * another fingerprint than the stored one is a conflict, in whatever state the
   * claim is; one with the same fingerprint gets the persisted result when the
   * receipt is signed, and has to be reconciled before that.
   */
  lemma ClaimIsExact(s: Claims, key: Key, fingerprint: string, at: int)
    ensures
      var (s', reply) := Step(s, ClaimPayment(key, fingerprint, at));
      if !(IsIdentifier(key.0) && IsIdentifier(key.1) && IsSha256(fingerprint)) then
        reply == Claimed(Rejected) && s' == s
      else if key !in s then
        var r := Claim(key.0, key.1, fingerprint, Settling, 1, false, None, at, at, None, None, None, None, None);
        reply == Claimed(Ok(Acquired(r))) && s' == s[key := r]
      else
        && s' == s && reply.Claimed? && reply.outcome.Ok?
        && var r, outcome := s[key], reply.outcome.value;
           && outcome.record == r
           && (outcome.Conflict409? <==> fingerprint != r.fingerprint)
           && (outcome.Persisted? <==> fingerprint == r.fingerprint && r.state.ReceiptSigned?)
           && (outcome.ReconcileRequired? <==> fingerprint == r.fingerprint && !r.state.ReceiptSigned?)
           && (outcome.ReconcileRequired? ==> (outcome.reason.AmbiguousSettling? <==> r.state.Settling?))
  {
    hide IsIdentifier, IsSha256;
  }

  /**
   * An attempt is marked exactly on a settling claim at the expected version that
   * has none, with no signature or one of 1 to 350000 units, and this is the record.
   */
  lemma MarkIsExact(s: Claims, key: Key, version: int, at: int, signature: Option<string>)
    ensures
      var (s', reply) := Step(s, MarkAttempted(key, version, at, signature));
      if && key in s && s[key].state == Settling && s[key].version == version && !s[key].attempted
         && (signature.Some? ==> 1 <= |signature.value| <= 350_000)
      then
        var r := s[key].(attempted := true, version := version + 1, updatedAt := at,
          settlementPaymentSignature := if signature.Some? then signature else s[key].settlementPaymentSignature);
        reply == Updated(Ok(r)) && s' == s[key := r]
      else reply == Updated(Rejected) && s' == s
  {
  }

  /** The text is there and not empty. */
  predicate Given(patched: Option<string>, stored: Option<string>) {
    if patched.Some? then patched.value != "" else stored.Some? && stored.value != ""
  }

  /** A truthy receipt in the patch, or no receipt or a null one there and a truthy one in the record. */
  predicate ReceiptGiven(patched: Option<Receipt>, stored: Option<Receipt>) {
    || (patched.Some? && patched.value.JsonValue? && patched.value.truthy)
    || ((patched.None? || patched.value.JsonNull?) && stored.Some? && stored.value.JsonValue? && stored.value.truthy)
  }

  /** A field of the patch replaces that of the record when the patch has it. */
  function Spread<T>(patched: Option<T>, stored: Option<T>): Option<T> {
    if patched.Some? then patched else stored
  }

  /**
   * A transition succeeds exactly in the expected state and version, one step
   * along settling, verified, generated, signed, with what the next state needs.
   */
  lemma TransitionIsExact(s: Claims, call: ClaimCall)
    requires Inv(s) && call.Transition?
    ensures
      var (s', reply) := Step(s, call);
      var p := call.patch;
      if && call.key in s && s[call.key].state == call.expectedState && s[call.key].version == call.expectedVersion
         && var r := s[call.key];
            || (r.state == Settling && call.next == SettlementVerified
                && r.attempted && Given(p.txSignature, r.txSignature))
            || (r.state == SettlementVerified && call.next == ResourceGenerated
                && Given(p.txSignature, r.txSignature) && Given(p.responseHash, r.responseHash)
                && Given(p.contentType, None) && Given(p.bodyBase64, None))
            || (r.state == ResourceGenerated && call.next == ReceiptSigned
                && Given(p.txSignature, r.txSignature) && Given(p.responseHash, r.responseHash)
                && ReceiptGiven(p.receipt, r.receipt))
      then
        var r := s[call.key];
        var r' := Claim(r.tenant, r.paymentId, r.fingerprint, call.next, r.version + 1, r.attempted,
          r.settlementPaymentSignature, r.createdAt, call.at, Spread(p.txSignature, r.txSignature),
          Spread(p.responseHash, r.responseHash), Spread(p.contentType, r.contentType),
          Spread(p.bodyBase64, r.bodyBase64), Spread(p.receipt, r.receipt));
        reply == Updated(Ok(r')) && s' == s[call.key := r']
      else reply == Updated(Rejected) && s' == s
  {
    hide Inv;
  }

  /** A claim is given back exactly before its settlement was attempted, at the expected version. */
  lemma ReleaseIsExact(s: Claims, key: Key, version: int)
    ensures
      var (s', reply) := Step(s, ReleaseClaim(key, version));
      if key in s && s[key].state == Settling && s[key].version == version && !s[key].attempted then
        reply == Freed(true) && key !in s' && forall other :: other != key ==>
          (other in s' <==> other in s) && (other in s ==> s'[other] == s[other])
      else reply == Freed(false) && s' == s
  {
  }

  // Whole lives of a claim.

  /**
   * Once a settlement was attempted, whatever is called: every later claim with the
   * attempted fingerprint is sent to reconciliation or gets the persisted result,
   * never a new claim, and every one with another fingerprint is a conflict.
   */
  lemma AttemptedIsNeverAcquired(s: Claims, calls: seq<ClaimCall>, key: Key, fingerprint: string, at: int)
    requires Inv(s) && key in s && s[key].attempted
    requires IsIdentifier(key.0) && IsIdentifier(key.1) && IsSha256(fingerprint)
    ensures
      var reply := Step(Run(s, calls), ClaimPayment(key, fingerprint, at)).1;
      && reply.Claimed? && reply.outcome.Ok? && !reply.outcome.value.Acquired?
      && (reply.outcome.value.Conflict409? <==> fingerprint != s[key].fingerprint)
      && reply.outcome.value.record.createdAt == s[key].createdAt
  {
    hide IsIdentifier, IsSha256, Inv, Run;
    AttemptedIsForEver(s, calls, key);
    ClaimIsExact(Run(s, calls), key, fingerprint, at);
  }

  /** A signed claim is answered with the same record for ever. */
  lemma {:induction false} SignedIsPersistedForEver(s: Claims, calls: seq<ClaimCall>, key: Key, at: int)
    requires key in s && s[key].state == ReceiptSigned
    requires IsIdentifier(key.0) && IsIdentifier(key.1) && IsSha256(s[key].fingerprint)
    ensures Step(Run(s, calls), ClaimPayment(key, s[key].fingerprint, at)) ==
      (Run(s, calls), Claimed(Ok(Persisted(s[key]))))
    decreases |calls|
  {
    hide IsIdentifier, IsSha256;
    if calls == [] {
      ClaimIsExact(s, key, s[key].fingerprint, at);
    } else {
      hide Step;
      SignedIsFinal(s, calls[0], key);
      SignedIsPersistedForEver(Step(s, calls[0]).0, calls[1..], key, at);
    }
  }

  /** A claim that was released can be acquired again, by any request. */
  lemma ReleasedIsAcquiredAgain(s: Claims, key: Key, version: int, fingerprint: string, at: int)
    requires IsIdentifier(key.0) && IsIdentifier(key.1) && IsSha256(fingerprint)
    requires Step(s, ReleaseClaim(key, version)).1 == Freed(true)
    ensures
      var reply := Step(Step(s, ReleaseClaim(key, version)).0, ClaimPayment(key, fingerprint, at)).1;
      reply.Claimed? && reply.outcome.Ok? && reply.outcome.value.Acquired? && reply.outcome.value.record.version == 1
  {
    hide IsIdentifier, IsSha256;
    ReleaseIsExact(s, key, version);
    ClaimIsExact(Step(s, ReleaseClaim(key, version)).0, key, fingerprint, at);
  }
}
