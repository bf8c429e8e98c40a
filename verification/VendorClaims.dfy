/** packages/persistence/src/index.ts: the vendor's claim on a payment, which lets it settle the payment once. */
module VendorClaims {
  import opened Prelude
  import opened Schemas

  datatype ClaimState = Settling | SettlementVerified | ResourceGenerated | ReceiptSigned

  /** A receipt is any JSON value: `null`, or one that is truthy or not. */
  datatype Receipt = JsonNull | JsonValue(truthy: bool, text: string)

  datatype Claim = Claim(
    tenant: string, paymentId: string, fingerprint: string,
    state: ClaimState, version: int, attempted: bool,
    settlementPaymentSignature: Option<string>, createdAt: int, updatedAt: int,
    txSignature: Option<string>, responseHash: Option<string>,
    contentType: Option<string>, bodyBase64: Option<string>, receipt: Option<Receipt>)

  datatype ClaimPatch = ClaimPatch(
    txSignature: Option<string>, responseHash: Option<string>,
    contentType: Option<string>, bodyBase64: Option<string>, receipt: Option<Receipt>)

  /** vendorClaimKey writes the pair as a JSON array, so distinct pairs have distinct keys. */
  type Key = (string, string)

  type Claims = map<Key, Claim>

  datatype ReconcileReason = AmbiguousSettling | IncompleteFulfillment

  datatype ClaimOutcome =
    | Acquired(record: Claim)
    | Persisted(record: Claim)
    | ReconcileRequired(record: Claim, reason: ReconcileReason)
    | Conflict409(record: Claim)

  datatype ClaimCall =
    | ClaimPayment(key: Key, fingerprint: string, at: int)
    | MarkAttempted(key: Key, expectedVersion: int, at: int, signature: Option<string>)
    | Transition(key: Key, expectedState: ClaimState, expectedVersion: int, next: ClaimState, at: int,
      patch: ClaimPatch)
    | ReleaseClaim(key: Key, expectedVersion: int)

  datatype ClaimReply =
    | Claimed(outcome: Result<ClaimOutcome>)
    | Updated(record: Result<Claim>)
    | Freed(done: bool)

  function NextClaimState(s: ClaimState): Option<ClaimState> {
    match s
    case Settling => Some(SettlementVerified)
    case SettlementVerified => Some(ResourceGenerated)
    case ResourceGenerated => Some(ReceiptSigned)
    case ReceiptSigned => None
  }

  const MAX_SIGNATURE_LENGTH := 350_000

  function NewClaim(key: Key, fingerprint: string, at: int): Claim {
    Claim(key.0, key.1, fingerprint, Settling, 1, false, None, at, at, None, None, None, None, None)
  }

  function ClaimEffect(s: Claims, key: Key, fingerprint: string, at: int): (Claims, Result<ClaimOutcome>) {
    if !IsIdentifier(key.0) || !IsIdentifier(key.1) || !IsSha256(fingerprint) then (s, Rejected)
    else if key !in s then
      (s[key := NewClaim(key, fingerprint, at)], Ok(Acquired(NewClaim(key, fingerprint, at))))
    else
      var r := s[key];
      (s, Ok(
        if r.fingerprint != fingerprint then Conflict409(r)
        else if r.state == ReceiptSigned then Persisted(r)
        else ReconcileRequired(r, if r.state == Settling then AmbiguousSettling else IncompleteFulfillment)))
  }

  function Marked(r: Claim, at: int, signature: Option<string>): Claim {
    r.(attempted := true, settlementPaymentSignature := Coalesce(signature, r.settlementPaymentSignature),
       version := r.version + 1, updatedAt := at)
  }

  function MarkEffect(s: Claims, key: Key, expectedVersion: int, at: int, signature: Option<string>): (Claims,
      Result<Claim>) {
    if signature.Some? && (signature.value == "" || |signature.value| > MAX_SIGNATURE_LENGTH) then (s, Rejected)
    else if key !in s then (s, Rejected)
    else
      var r := s[key];
      if r.state != Settling || r.version != expectedVersion || r.attempted then (s, Rejected)
      else (s[key := Marked(r, at, signature)], Ok(Marked(r, at, signature)))
  }

  /** `a ?? b`, where null counts as missing. */
  function CoalesceReceipt(a: Option<Receipt>, b: Option<Receipt>): Option<Receipt> {
    if a.Some? && a.value.JsonValue? then a else b
  }

  predicate TruthyReceipt(r: Option<Receipt>) {
    r.Some? && r.value.JsonValue? && r.value.truthy
  }

  /** The bindings a claim must have to enter a state. */
  predicate MayEnter(r: Claim, next: ClaimState, p: ClaimPatch) {
    var tx, hash := Coalesce(p.txSignature, r.txSignature), Coalesce(p.responseHash, r.responseHash);
    && NextClaimState(r.state) == Some(next)
    && Truthy(tx)
    && (next == SettlementVerified ==> r.attempted)
    && (next == ResourceGenerated ==> Truthy(hash) && Truthy(p.contentType) && Truthy(p.bodyBase64))
    && (next == ReceiptSigned ==> Truthy(hash) && TruthyReceipt(CoalesceReceipt(p.receipt, r.receipt)))
  }

  /** The patch is spread over the record: also a null receipt replaces what was there. */
  function Patched(r: Claim, next: ClaimState, at: int, p: ClaimPatch): Claim {
    r.(txSignature := Coalesce(p.txSignature, r.txSignature), responseHash := Coalesce(p.responseHash, r.responseHash),
       contentType := Coalesce(p.contentType, r.contentType), bodyBase64 := Coalesce(p.bodyBase64, r.bodyBase64),
       receipt := Coalesce(p.receipt, r.receipt),
       state := next, version := r.version + 1, updatedAt := at)
  }

  function TransitionEffect(s: Claims, key: Key, expectedState: ClaimState, expectedVersion: int,
                            next: ClaimState, at: int, p: ClaimPatch): (Claims, Result<Claim>)
  {
    if key !in s then (s, Rejected)
    else
      var r := s[key];
      if r.state != expectedState || r.version != expectedVersion || !MayEnter(r, next, p) then (s, Rejected)
      else (s[key := Patched(r, next, at, p)], Ok(Patched(r, next, at, p)))
  }

  predicate Releasable(s: Claims, key: Key, expectedVersion: int) {
    key in s && s[key].state == Settling && s[key].version == expectedVersion && !s[key].attempted
  }

  function Step(s: Claims, call: ClaimCall): (Claims, ClaimReply) {
    match call
    case ClaimPayment(key, fingerprint, at) =>
      var (t, r) := ClaimEffect(s, key, fingerprint, at);
      (t, Claimed(r))
    case MarkAttempted(key, version, at, signature) =>
      var (t, r) := MarkEffect(s, key, version, at, signature);
      (t, Updated(r))
    case Transition(key, state, version, next, at, patch) =>
      var (t, r) := TransitionEffect(s, key, state, version, next, at, patch);
      (t, Updated(r))
    case ReleaseClaim(key, version) =>
      if Releasable(s, key, version) then (s - {key}, Freed(true)) else (s, Freed(false))
  }

  function Run(s: Claims, calls: seq<ClaimCall>): Claims
    decreases |calls|
  {
    if calls == [] then s else Run(Step(s, calls[0]).0, calls[1..])
  }

  class Repository {
    var vendorClaims: Claims

    constructor ()
      ensures vendorClaims == map[]
    {
      vendorClaims := map[];
    }

    method ClaimVendorPayment(tenant: string, paymentId: string, fingerprint: string, at: int)
        returns (r: Result<ClaimOutcome>)
      modifies this
      ensures (vendorClaims, r) == ClaimEffect(old(vendorClaims), (tenant, paymentId), fingerprint, at)
    {
      if !IsIdentifier(tenant) || !IsIdentifier(paymentId) || !IsSha256(fingerprint) {
        return Rejected;
      }
      var key := (tenant, paymentId);
      if key !in vendorClaims {
        var record := Claim(tenant, paymentId, fingerprint, Settling, 1, false, None, at, at, None, None, None, None,
          None);
        vendorClaims := vendorClaims[key := record];
        return Ok(Acquired(record));
      }
      var existing := vendorClaims[key];
      if existing.fingerprint != fingerprint {
        return Ok(Conflict409(existing));
      }
      if existing.state == ReceiptSigned {
        return Ok(Persisted(existing));
      }
      return Ok(ReconcileRequired(existing, if existing.state == Settling then AmbiguousSettling
        else IncompleteFulfillment));
    }

    method MarkVendorSettlementAttempted(tenant: string, paymentId: string, expectedVersion: int, at: int,
                                         signature: Option<string>)
      returns (r: Result<Claim>)
      modifies this
      ensures (vendorClaims, r) == MarkEffect(old(vendorClaims), (tenant, paymentId), expectedVersion, at, signature)
    {
      if signature.Some? && (signature.value == "" || |signature.value| > MAX_SIGNATURE_LENGTH) {
        return Rejected;
      }
      var key := (tenant, paymentId);
      if key !in vendorClaims {
        return Rejected;
      }
      var record := vendorClaims[key];
      if record.state != Settling || record.version != expectedVersion || record.attempted {
        return Rejected;
      }
      var updated := record.(attempted := true, version := record.version + 1, updatedAt := at);
      if signature.Some? {
        updated := updated.(settlementPaymentSignature := signature);
      }
      vendorClaims := vendorClaims[key := updated];
      return Ok(updated);
    }

    method TransitionVendorPaymentClaim(tenant: string, paymentId: string, expectedState: ClaimState,
        expectedVersion: int,
                                        next: ClaimState, at: int, patch: ClaimPatch)
      returns (r: Result<Claim>)
      modifies this
      ensures (vendorClaims, r) ==
        TransitionEffect(old(vendorClaims), (tenant, paymentId), expectedState, expectedVersion, next, at, patch)
    {
      var key := (tenant, paymentId);
      if key !in vendorClaims {
        return Rejected;
      }
      var record := vendorClaims[key];
      if record.state != expectedState || record.version != expectedVersion {
        return Rejected;
      }
      if NextClaimState(record.state) != Some(next) {
        return Rejected;
      }
      var tx, hash := Coalesce(patch.txSignature, record.txSignature),
        Coalesce(patch.responseHash, record.responseHash);
      var receipt := CoalesceReceipt(patch.receipt, record.receipt);
      if next == SettlementVerified && (!record.attempted || !Truthy(tx)) {
        return Rejected;
      }
      if next == ResourceGenerated && (!Truthy(tx) || !Truthy(hash) || !Truthy(patch.contentType)
        || !Truthy(patch.bodyBase64)) {
        return Rejected;
      }
      if next == ReceiptSigned && (!Truthy(tx) || !Truthy(hash) || !TruthyReceipt(receipt)) {
        return Rejected;
      }
      var updated := Patched(record, next, at, patch);
      vendorClaims := vendorClaims[key := updated];
      return Ok(updated);
    }

    method ReleaseVendorClaimBeforeSubmission(tenant: string, paymentId: string, expectedVersion: int)
        returns (done: bool)
      modifies this
      ensures done == Releasable(old(vendorClaims), (tenant, paymentId), expectedVersion)
      ensures vendorClaims == if done then old(vendorClaims) - {(tenant, paymentId)} else old(vendorClaims)
    {
      var key := (tenant, paymentId);
      if key !in vendorClaims {
        return false;
      }
      var record := vendorClaims[key];
      if record.state != Settling || record.version != expectedVersion || record.attempted {
        return false;
      }
      vendorClaims := vendorClaims - {key};
      return true;
    }
  }
}

/** What holds of every claim over whole runs, whichever instances make the calls. */
module VendorSafety {
  import opened Prelude
  import opened Schemas
  import opened VendorClaims

  /** The phase a claim is in: 1 claimed, 2 attempted, 3 verified, 4 generated, 5 signed. */
  function Phase(r: Claim): int {
    match r.state
    case Settling => if r.attempted then 2 else 1
    case SettlementVerified => 3
    case ResourceGenerated => 4
    case ReceiptSigned => 5
  }

  /** The version is the phase, and a phase has what it needs. */
  predicate Lawful(key: Key, r: Claim) {
    && key == (r.tenant, r.paymentId)
    && r.version == Phase(r)
    && (r.attempted <==> Phase(r) >= 2)
    && (Phase(r) >= 3 ==> Truthy(r.txSignature))
    && (Phase(r) >= 4 ==> Truthy(r.responseHash))
  }

  ghost predicate Inv(s: Claims) {
    forall key :: key in s ==> Lawful(key, s[key])
  }

  lemma StepKeepsInv(s: Claims, call: ClaimCall)
    requires Inv(s)
    ensures Inv(Step(s, call).0)
  {
    var t := Step(s, call).0;
    forall key | key in t ensures Lawful(key, t[key]) {
      if key in s {
        assert Lawful(key, s[key]);
      }
    }
  }

  lemma {:induction false} RunKeepsInv(s: Claims, calls: seq<ClaimCall>)
    requires Inv(s)
    ensures Inv(Run(s, calls))
    decreases |calls|
  {
    if calls == [] {
    } else {
      StepKeepsInv(s, calls[0]);
      RunKeepsInv(Step(s, calls[0]).0, calls[1..]);
    }
  }

  /** `later` is a claim after some more successful calls: what identifies it never changes. */
  predicate SameClaim(earlier: Claim, later: Claim) {
    && (later.tenant, later.paymentId) == (earlier.tenant, earlier.paymentId)
    && later.fingerprint == earlier.fingerprint && later.createdAt == earlier.createdAt
    && later.version >= earlier.version && (earlier.attempted ==> later.attempted)
    && (earlier.attempted ==> later.settlementPaymentSignature == earlier.settlementPaymentSignature)
  }

  lemma StepKeepsClaim(s: Claims, call: ClaimCall, key: Key)
    requires Inv(s) && key in s
    ensures
      var t := Step(s, call).0;
      if key in t then SameClaim(s[key], t[key]) && t[key].version <= s[key].version + 1
      else !s[key].attempted && call == ReleaseClaim(key, 1)
  {
    assert Lawful(key, s[key]);
  }

  /** Once settlement was attempted, a claim is never deleted, reset or re-bound. */
  lemma {:induction false} AttemptedIsForEver(s: Claims, calls: seq<ClaimCall>, key: Key)
    requires Inv(s) && key in s && s[key].attempted
    ensures key in Run(s, calls) && SameClaim(s[key], Run(s, calls)[key])
    decreases |calls|
  {
    if calls == [] {
    } else {
      StepKeepsInv(s, calls[0]);
      StepKeepsClaim(s, calls[0], key);
      AttemptedIsForEver(Step(s, calls[0]).0, calls[1..], key);
    }
  }

  /** The call resolved with this claim at this version. */
  predicate Enters(s: Claims, call: ClaimCall, key: Key, version: int) {
    var reply := Step(s, call).1;
    && call.key == key && reply.Updated? && reply.record.Ok?
    && reply.record.value.version == version
  }

  /** How many calls of a run brought a claim to a version. */
  function Entries(s: Claims, calls: seq<ClaimCall>, key: Key, version: int): nat
    decreases |calls|
  {
    if calls == [] then 0
    else (if Enters(s, calls[0], key, version) then 1 else 0) + Entries(Step(s, calls[0]).0, calls[1..], key, version)
  }

  function VersionOf(s: Claims, key: Key): int {
    if key in s then s[key].version else 0
  }

  lemma EntersMeansNext(s: Claims, call: ClaimCall, key: Key, version: int)
    requires Inv(s)
    ensures Enters(s, call, key, version) ==>
      key in s && s[key].version == version - 1 && VersionOf(Step(s, call).0, key) == version && version >= 2
    ensures VersionOf(s, key) >= 2 ==> VersionOf(Step(s, call).0, key) >= VersionOf(s, key)
  {
    if key in s {
      assert Lawful(key, s[key]);
      StepKeepsClaim(s, call, key);
    }
  }

  /** Over a whole run each version from 2 on is reached at most once, and never again once it is passed. */
  lemma {:induction false} EachVersionOnce(s: Claims, calls: seq<ClaimCall>, key: Key, version: int)
    requires Inv(s) && version >= 2
    ensures Entries(s, calls, key, version) <= if VersionOf(s, key) >= version then 0 else 1
    decreases |calls|
  {
    if calls == [] {
    } else {
      StepKeepsInv(s, calls[0]);
      EntersMeansNext(s, calls[0], key, version);
      EachVersionOnce(Step(s, calls[0]).0, calls[1..], key, version);
    }
  }

  /** How many calls to markVendorSettlementAttempted for a key succeeded in a run. */
  function Attempts(s: Claims, calls: seq<ClaimCall>, key: Key): nat
    decreases |calls|
  {
    if calls == [] then 0
    else
      (if calls[0].MarkAttempted? && calls[0].key == key && Step(s, calls[0]).1.record.Ok? then 1 else 0)
      + Attempts(Step(s, calls[0]).0, calls[1..], key)
  }

  lemma {:induction false} AttemptsAreEntries(s: Claims, calls: seq<ClaimCall>, key: Key)
    requires Inv(s)
    ensures Attempts(s, calls, key) == Entries(s, calls, key, 2)
    decreases |calls|
  {
    if calls == [] {
    } else {
      StepKeepsInv(s, calls[0]);
      MarkEntersTwo(s, calls[0], key);
      AttemptsAreEntries(Step(s, calls[0]).0, calls[1..], key);
    }
  }

  lemma MarkEntersTwo(s: Claims, call: ClaimCall, key: Key)
    requires Inv(s)
    ensures Enters(s, call, key, 2) <==> call.MarkAttempted? && call.key == key && Step(s, call).1.record.Ok?
  {
    if key in s {
      assert Lawful(key, s[key]);
    }
  }

  /** Settle once: whatever is claimed, released and claimed again, at most one attempt per payment succeeds. */
  lemma SettleOnce(calls: seq<ClaimCall>, key: Key)
    ensures Attempts(map[], calls, key) <= 1
    ensures Attempts(map[], calls, key) == 1 ==> key in Run(map[], calls) && Run(map[], calls)[key].attempted
  {
    AttemptsAreEntries(map[], calls, key);
    EachVersionOnce(map[], calls, key, 2);
    OneAttemptLeavesItsMark(map[], calls, key);
  }

  lemma {:induction false} OneAttemptLeavesItsMark(s: Claims, calls: seq<ClaimCall>, key: Key)
    requires Inv(s)
    ensures Attempts(s, calls, key) >= 1 ==> key in Run(s, calls) && Run(s, calls)[key].attempted
    decreases |calls|
  {
    if calls == [] {
    } else {
      var t := Step(s, calls[0]).0;
      StepKeepsInv(s, calls[0]);
      if calls[0].MarkAttempted? && calls[0].key == key && Step(s, calls[0]).1.record.Ok? {
        AttemptedIsForEver(t, calls[1..], key);
      } else {
        OneAttemptLeavesItsMark(t, calls[1..], key);
      }
    }
  }

  lemma {:induction false} RunSnoc(s: Claims, calls: seq<ClaimCall>, last: ClaimCall)
    ensures Run(s, calls + [last]) == Step(Run(s, calls), last).0
    decreases |calls|
  {
    hide Step;
    if calls == [] {
      assert calls + [last] == [last] && [last][1..] == [];
    } else {
      assert (calls + [last])[1..] == calls[1..] + [last];
      RunSnoc(Step(s, calls[0]).0, calls[1..], last);
    }
  }

  /** The call at this position of a run is the one that signed the claim. */
  ghost predicate SignedBy(calls: seq<ClaimCall>, i: nat, key: Key)
    requires i < |calls|
  {
    var before := Run(map[], calls[..i]);
    && calls[i].Transition? && calls[i].key == key && calls[i].next == ReceiptSigned
    && Step(before, calls[i]).1.record.Ok?
  }

  /** A signed claim never changes any more. */
  lemma SignedIsFinal(s: Claims, call: ClaimCall, key: Key)
    requires key in s && s[key].state == ReceiptSigned
    ensures key in Step(s, call).0 && Step(s, call).0[key] == s[key]
  {
  }

  lemma SigningCall(s: Claims, call: ClaimCall, key: Key)
    requires key !in s || s[key].state != ReceiptSigned
    requires key in Step(s, call).0 && Step(s, call).0[key].state == ReceiptSigned
    ensures call.Transition? && call.key == key && call.next == ReceiptSigned && Step(s, call).1.record.Ok?
    ensures Step(s, call).1.record.value == Step(s, call).0[key]
  {
  }

  /**
   * In every reachable state a signed claim was signed by some call of the run,
   * and it has its receipt if and only if that call's patch did not carry a null one.
   */
  lemma {:induction false} SignedClaimHasReceipt(calls: seq<ClaimCall>, key: Key) returns (i: nat)
    requires key in Run(map[], calls) && Run(map[], calls)[key].state == ReceiptSigned
    ensures i < |calls| && SignedBy(calls, i, key)
    ensures TruthyReceipt(Run(map[], calls)[key].receipt) <==> calls[i].patch.receipt != Some(JsonNull)
    decreases |calls|
  {
    hide Step;
    if calls == [] {
      assert false;
    } else {
      var front, last := calls[..|calls| - 1], calls[|calls| - 1];
      var before := Run(map[], front);
      assert calls == front + [last];
      RunSnoc(map[], front, last);
      if key in before && before[key].state == ReceiptSigned {
        SignedIsFinal(before, last, key);
        i := SignedClaimHasReceipt(front, key);
        assert calls[..i] == front[..i];
      } else {
        i := |calls| - 1;
        SigningCall(before, last, key);
        SignedHasReceipt(before, last);
      }
    }
  }

  /** A claim that was just signed lacks its receipt exactly when the patch carried a null one. */
  lemma SignedHasReceipt(s: Claims, call: ClaimCall)
    requires call.Transition? && call.next == ReceiptSigned && Step(s, call).1.record.Ok?
    ensures TruthyReceipt(Step(s, call).1.record.value.receipt) <==> call.patch.receipt != Some(JsonNull)
  {
  }

  /** ... which can happen: the check falls back to a receipt stored earlier, the stored record does not. */
  lemma SignedWithoutReceipt(fingerprint: string, receipt: Receipt) returns (calls: seq<ClaimCall>, key: Key)
    requires IsSha256(fingerprint) && receipt.JsonValue? && receipt.truthy
    ensures key in Run(map[], calls) && Run(map[], calls)[key].state == ReceiptSigned
    ensures Run(map[], calls)[key].receipt == Some(JsonNull)
  {
    hide IsSha256;
    key := ("vendor", "payment");
    var none := ClaimPatch(None, None, None, None, None);
    var generated := ClaimPatch(None, Some("hash"), Some("type"), Some("body"), Some(receipt));
    var c1, r1 := ClaimPayment(key, fingerprint, 0), NewClaim(key, fingerprint, 0);
    var c2, r2 := MarkAttempted(key, 1, 0, None), Marked(r1, 0, None);
    var c3 := Transition(key, Settling, 2, SettlementVerified, 0, none.(txSignature := Some("tx")));
    var r3 := Patched(r2, c3.next, 0, c3.patch);
    var c4 := Transition(key, SettlementVerified, 3, ResourceGenerated, 0, generated);
    var r4 := Patched(r3, c4.next, 0, c4.patch);
    var c5 := Transition(key, ResourceGenerated, 4, ReceiptSigned, 0, none.(receipt := Some(JsonNull)));
    calls := [c1, c2, c3, c4, c5];
    hide Step, Run;
    Opens(key, fingerprint);
    RunCons(map[], c1, [c2, c3, c4, c5]);
    RunCons(map[key := r1], c2, [c3, c4, c5]);
    Transits(key, r2, c3, [c4, c5]);
    Transits(key, r3, c4, [c5]);
    Transits(key, r4, c5, []);
    RunNothing(map[key := Patched(r4, c5.next, 0, c5.patch)]);
    assert [c1] + [c2, c3, c4, c5] == calls && [c2] + [c3, c4, c5] == [c2, c3, c4, c5];
    assert [c3] + [c4, c5] == [c3, c4, c5] && [c4] + [c5] == [c4, c5] && [c5] + [] == [c5];
  }

  lemma Opens(key: Key, fingerprint: string)
    requires IsSha256(fingerprint) && key == ("vendor", "payment")
    ensures
      var r := NewClaim(key, fingerprint, 0);
      && Step(map[], ClaimPayment(key, fingerprint, 0)).0 == map[key := r]
      && Step(map[key := r], MarkAttempted(key, 1, 0, None)).0 == map[key := Marked(r, 0, None)]
  {
    hide IsSha256;
  }

  lemma Transits(key: Key, r: Claim, c: ClaimCall, rest: seq<ClaimCall>)
    requires c.Transition? && c.key == key && c.expectedState == r.state && c.expectedVersion == r.version
    requires MayEnter(r, c.next, c.patch)
    ensures Run(map[key := r], [c] + rest) == Run(map[key := Patched(r, c.next, c.at, c.patch)], rest)
  {
    hide MayEnter, Patched;
    RunCons(map[key := r], c, rest);
    assert Step(map[key := r], c).0 == map[key := Patched(r, c.next, c.at, c.patch)];
  }

  lemma RunNothing(s: Claims)
    ensures Run(s, []) == s
  {
  }

  lemma RunCons(s: Claims, c: ClaimCall, rest: seq<ClaimCall>)
    ensures Run(s, [c] + rest) == Run(Step(s, c).0, rest)
  {
    hide Step;
    assert ([c] + rest)[1..] == rest;
  }
}
