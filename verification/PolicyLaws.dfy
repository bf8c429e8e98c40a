/**
 * When the policy allows a payment, in terms of what the parties say: one list of
 * agreements, limits and guarantees that holds exactly when no rule denies.
 */
module PolicyLaws {
  import opened Prelude
  import opened Decimal
  import opened Policy

  /** The number that a base-unit text stands for; -1 when it is none. */
  function Number(text: string): int {
    match ParseBaseUnits(text)
    case Some(n) => n
    case None => -1
  }

  /** Mandate, policy, offer and challenge are what they claim to be, and the proposal names these very ones. */
  predicate Genuine(ctx: Context, m: Mandate) {
    var p, c, hash := ctx.proposal, ctx.challenge, ctx.lib.policyHash(ctx.policy);
    && ctx.formatsValid && ctx.mandateAttestation && ctx.offerSignature && c.verified
    && m.revokedAt == None && m.mandateHash == ctx.lib.mandateHash(m)
    && m.subject == ctx.expectedSubject && m.issuerPrincipal == ctx.expectedIssuerPrincipal
    && ctx.policy.policyHash == hash && m.executionPolicyHash == hash && p.executionPolicyHash == hash
    && p.incidentId == ctx.incidentId && p.mandateId == m.id && p.offerId == ctx.offer.offerId
    && p.challengeHash == c.challengeHash
  }

  predicate InTime(ctx: Context, m: Mandate) {
    && m.notBefore <= ctx.now
    && ctx.now < m.expiresAt && ctx.now < ctx.proposal.expiresAt
    && ctx.now < ctx.offer.expiresAt && ctx.now < ctx.challenge.expiresAt
  }

  /** All who name a network name the one that was observed and that the policy is for. */
  predicate OneNetwork(ctx: Context, m: Mandate) {
    var n, p := ctx.policy.network, ctx.proposal.network;
    && m.clusterLabel == n.clusterLabel && p.clusterLabel == n.clusterLabel
    && ctx.observed.clusterLabel == n.clusterLabel
    && p.genesisHash == n.genesisHash && ctx.observed.genesisHash == n.genesisHash
    && p.sdkNetworkId == n.sdkNetworkId && ctx.observed.sdkNetworkId == n.sdkNetworkId
    && p.x402NetworkId == n.x402NetworkId && ctx.offer.network == n.x402NetworkId
    && ctx.challenge.network == n.x402NetworkId
  }

  /** One asset of six decimals, one amount and one payee for policy, mandate, offer, challenge and proposal. */
  predicate OneDeal(ctx: Context, m: Mandate) {
    var p, c, offer := ctx.proposal, ctx.challenge, ctx.offer;
    && ctx.policy.assetDecimals == 6 && c.scheme == "exact"
    && ctx.policy.assetMint == p.assetMint && m.assetMint == p.assetMint && offer.assetMint == p.assetMint
    && c.assetMint == p.assetMint
    && offer.amount == p.amount && c.amount == p.amount
    && offer.payee == p.recipient && c.payee == p.recipient
  }

  /** The provider's origin is one that the mandate allows, and so are capability, agent card and recipient. */
  predicate AllowedParties(ctx: Context, m: Mandate) {
    var card := ctx.lib.normalizeUrl(ctx.offer.providerAgentCardUrl, None);
    var facilitator := ctx.lib.normalizeOrigin(ctx.challenge.facilitatorOrigin);
    && ctx.offer.capability == Some(ctx.requiredCapability) && ctx.requiredCapability in m.allowedCapabilities
    && ctx.offer.providerAgentCardHash in m.allowedAgentCardHashes
    && ctx.proposal.recipient in m.allowedRecipients
    && card.Some? && card.value != ""
    && (exists o :: o in m.allowedVendorOrigins && ctx.lib.normalizeOrigin(o) == Some(ctx.lib.originOf(card.value)))
    && facilitator.Some?
    && (exists o :: o in ctx.policy.allowedFacilitatorOrigins && ctx.lib.normalizeOrigin(o) == facilitator)
  }

  /** One request: method, URL at the provider's origin, body, operation and the fingerprint of all of it. */
  predicate OneRequest(ctx: Context, m: Mandate) {
    var p, c, offer, asked := ctx.proposal, ctx.challenge, ctx.offer, ctx.request;
    var card := ctx.lib.normalizeUrl(offer.providerAgentCardUrl, None);
    && card.Some? && card.value != ""
    && var origin := Some(ctx.lib.originOf(card.value));
       var url := ctx.lib.normalizeUrl(p.resourceUrl, origin);
       && url.Some?
       && ctx.lib.normalizeUrl(offer.resourceUrl, origin) == url && ctx.lib.normalizeUrl(c.resourceUrl, origin) == url
       && ctx.lib.normalizeUrl(asked.resourceUrl, origin) == url
       && offer.httpMethod == Some(p.httpMethod) && c.httpMethod == p.httpMethod && asked.httpMethod == p.httpMethod
       && asked.canonicalBodyHash == p.canonicalBodyHash && asked.operationId == p.operationId
       && p.requestFingerprint == ctx.lib.fingerprint(FingerprintInput(p.httpMethod, url.value, p.operationId,
            p.canonicalBodyHash, p.paymentId, "exact", p.network.x402NetworkId, p.assetMint, p.amount, p.recipient))
  }

  /** A positive amount that no limit and no budget is exceeded by, under identifiers that were never used. */
  predicate Affordable(ctx: Context, m: Mandate) {
    var amount := Number(ctx.proposal.amount);
    && 0 < amount <= Number(m.perTransactionLimit) <= Number(m.incidentLimit) <= Number(m.dailyLimit)
    && 0 <= Number(ctx.incidentUsed) && Number(ctx.incidentUsed) + amount <= Number(m.incidentLimit)
    && 0 <= Number(ctx.dailyUsed) && Number(ctx.dailyUsed) + amount <= Number(m.dailyLimit)
    && !ctx.paymentIdBound && !ctx.nonceBound && !ctx.idempotencyKeyBound
  }

  /** The planned transaction stays inside the policy, and it is signed in private by the policy's own key. */
  predicate SafeToSign(ctx: Context) {
    var t, policy := ctx.transaction, ctx.policy;
    && t.planVerified && ctx.redirectsDisabled && ctx.addressesPublic && ctx.signerPrivate && ctx.signerAvailable
    && t.programIds != [] && (forall i :: 0 <= i < |t.programIds| ==> t.programIds[i] in policy.allowedProgramIds)
    && t.accountKeys != [] && (forall i :: 0 <= i < |t.accountKeys| ==> t.accountKeys[i] in policy.allowedAccountRules)
    && t.feePayer == policy.feePayer
    && t.executorPublicKey == policy.executorPublicKey && ctx.activeWallet == policy.executorPublicKey
    && 0 <= Number(t.networkFeeUpperBound) <= Number(policy.maxNetworkFee) && 0 < Number(policy.maxNetworkFee)
  }

  /** Everything that must be so for a payment under this mandate. */
  predicate Acceptable(ctx: Context, m: Mandate) {
    && Genuine(ctx, m) && InTime(ctx, m) && OneNetwork(ctx, m) && OneDeal(ctx, m) && AllowedParties(ctx, m)
    && OneRequest(ctx, m) && Affordable(ctx, m) && SafeToSign(ctx)
  }

  // Stretch by stretch.

  lemma MandateRules(ctx: Context, m: Mandate)
    requires forall r: MandateRule :: MandateRuleHolds(r, ctx, m)
    ensures AmountSchemasValid(m, ctx.policy, ctx.offer, ctx.proposal) && ctx.formatsValid && ctx.mandateAttestation
    ensures m.notBefore <= ctx.now < m.expiresAt && ctx.now < ctx.proposal.expiresAt
    ensures
      var p, hash := ctx.proposal, ctx.lib.policyHash(ctx.policy);
      && m.revokedAt == None && m.mandateHash == ctx.lib.mandateHash(m)
      && m.subject == ctx.expectedSubject && m.issuerPrincipal == ctx.expectedIssuerPrincipal
      && ctx.policy.policyHash == hash && m.executionPolicyHash == hash && p.executionPolicyHash == hash
      && p.incidentId == ctx.incidentId && p.mandateId == m.id && p.offerId == ctx.offer.offerId
  {
    hide AmountSchemasValid;
    assert MandateRuleHolds(SchemaValid, ctx, m) && MandateRuleHolds(ProposalBindsIds, ctx, m);
    assert MandateRuleHolds(MandateSubject, ctx, m) && MandateRuleHolds(MandateNotRevoked, ctx, m);
    assert MandateRuleHolds(MandateHash, ctx, m) && MandateRuleHolds(MandateAttestation, ctx, m);
    assert MandateRuleHolds(ExecutionPolicyHash, ctx, m) && MandateRuleHolds(ExecutionPolicyBinding, ctx, m);
    assert MandateRuleHolds(MandateIssuer, ctx, m) && MandateRuleHolds(MandateTimeWindow, ctx, m);
  }

  lemma NetworkRules(ctx: Context, m: Mandate)
    requires forall r: NetworkRule :: NetworkRuleHolds(r, ctx, m)
    requires TermsRuleHolds(ChallengeBinding, ctx, m)
    ensures OneNetwork(ctx, m)
  {
    assert NetworkRuleHolds(NetworkCluster, ctx, m) && NetworkRuleHolds(NetworkGenesis, ctx, m);
    assert NetworkRuleHolds(NetworkCaip2, ctx, m) && NetworkRuleHolds(NetworkSdk, ctx, m);
  }

  lemma DealRules(ctx: Context, m: Mandate)
    requires NetworkRuleHolds(AssetMint, ctx, m) && NetworkRuleHolds(AssetDecimals, ctx, m)
    requires TermsRuleHolds(ChallengeBinding, ctx, m) && MoneyRuleHolds(AmountCoherent, ctx, m)
    requires VendorRuleHolds(RecipientAllowlist, ctx, m)
    ensures OneDeal(ctx, m) && ctx.proposal.challengeHash == ctx.challenge.challengeHash
  {
    hide AllowsOrigin, ProviderOrigin;
  }

  lemma VendorRules(ctx: Context, m: Mandate)
    requires forall r: VendorRule :: VendorRuleHolds(r, ctx, m)
    ensures AllowedParties(ctx, m)
  {
    assert VendorRuleHolds(CapabilityAllowlist, ctx, m) && VendorRuleHolds(AgentCardAllowlist, ctx, m);
    assert VendorRuleHolds(VendorOrigin, ctx, m) && VendorRuleHolds(FacilitatorOrigin, ctx, m);
    assert VendorRuleHolds(RecipientAllowlist, ctx, m);
  }

  lemma RequestRules(ctx: Context, m: Mandate)
    requires forall r: RequestRule :: RequestRuleHolds(r, ctx, m)
    requires VendorRuleHolds(VendorOrigin, ctx, m)
    ensures OneRequest(ctx, m) && ctx.redirectsDisabled && ctx.addressesPublic
  {
    assert RequestRuleHolds(RequestMethod, ctx, m) && RequestRuleHolds(RequestUrl, ctx, m);
    assert RequestRuleHolds(RequestBodyHash, ctx, m) && RequestRuleHolds(RequestOperationId, ctx, m);
    assert RequestRuleHolds(RequestFingerprint, ctx, m) && RequestRuleHolds(RedirectsDisabled, ctx, m);
    assert RequestRuleHolds(PublicAddresses, ctx, m);
  }

  lemma MoneyRules(ctx: Context, m: Mandate)
    requires forall r: MoneyRule :: MoneyRuleHolds(r, ctx, m)
    requires AmountSchemasValid(m, ctx.policy, ctx.offer, ctx.proposal)
    ensures Affordable(ctx, m)
  {
    assert MoneyRuleHolds(AmountPositive, ctx, m) && MoneyRuleHolds(PerTransactionLimit, ctx, m);
    assert MoneyRuleHolds(PaymentIdFresh, ctx, m) && MoneyRuleHolds(NonceFresh, ctx, m);
    assert MoneyRuleHolds(IdempotencyKeyFresh, ctx, m) && MoneyRuleHolds(IncidentBudget, ctx, m);
    assert MoneyRuleHolds(DailyBudget, ctx, m);
    hide Value, IsBaseUnits;
  }

  lemma SigningRules(ctx: Context, m: Mandate)
    requires forall r: TransactionRule :: TransactionRuleHolds(r, ctx, m)
    requires forall r: SignerRule :: SignerRuleHolds(r, ctx, m)
    requires AmountSchemasValid(m, ctx.policy, ctx.offer, ctx.proposal)
    requires ctx.redirectsDisabled && ctx.addressesPublic
    ensures SafeToSign(ctx)
  {
    assert TransactionRuleHolds(TransactionInstructions, ctx, m) && TransactionRuleHolds(ProgramAllowlist, ctx, m);
    assert TransactionRuleHolds(AccountAllowlist, ctx, m) && TransactionRuleHolds(FeePayer, ctx, m);
    assert TransactionRuleHolds(ExecutorPublicKey, ctx, m) && TransactionRuleHolds(NetworkFeeLimit, ctx, m);
    assert SignerRuleHolds(PrivateBoundary, ctx, m) && SignerRuleHolds(SignerAvailable, ctx, m);
    assert SignerRuleHolds(ActiveWallet, ctx, m);
    hide Value, IsBaseUnits;
  }

  lemma RulesByKind(ctx: Context, m: Mandate)
    requires ctx.mandate == Some(m) && forall rule: Rule :: Holds(rule, ctx)
    ensures forall r: MandateRule :: MandateRuleHolds(r, ctx, m)
    ensures forall r: NetworkRule :: NetworkRuleHolds(r, ctx, m)
    ensures forall r: VendorRule :: VendorRuleHolds(r, ctx, m)
    ensures forall r: TermsRule :: TermsRuleHolds(r, ctx, m)
    ensures forall r: RequestRule :: RequestRuleHolds(r, ctx, m)
    ensures forall r: MoneyRule :: MoneyRuleHolds(r, ctx, m)
    ensures forall r: TransactionRule :: TransactionRuleHolds(r, ctx, m)
    ensures forall r: SignerRule :: SignerRuleHolds(r, ctx, m)
  {
    hide MandateRuleHolds, NetworkRuleHolds, VendorRuleHolds, TermsRuleHolds, RequestRuleHolds, MoneyRuleHolds,
      TransactionRuleHolds, SignerRuleHolds;
    forall r: MandateRule ensures MandateRuleHolds(r, ctx, m) { assert Holds(OfMandate(r), ctx); }
    forall r: NetworkRule ensures NetworkRuleHolds(r, ctx, m) { assert Holds(OfNetwork(r), ctx); }
    forall r: VendorRule ensures VendorRuleHolds(r, ctx, m) { assert Holds(OfVendor(r), ctx); }
    forall r: TermsRule ensures TermsRuleHolds(r, ctx, m) { assert Holds(OfTerms(r), ctx); }
    forall r: RequestRule ensures RequestRuleHolds(r, ctx, m) { assert Holds(OfRequest(r), ctx); }
    forall r: MoneyRule ensures MoneyRuleHolds(r, ctx, m) { assert Holds(OfMoney(r), ctx); }
    forall r: TransactionRule ensures TransactionRuleHolds(r, ctx, m) { assert Holds(OfTransaction(r), ctx); }
    forall r: SignerRule ensures SignerRuleHolds(r, ctx, m) { assert Holds(OfSigner(r), ctx); }
  }

  lemma TermsRules(ctx: Context, m: Mandate)
    requires forall r: TermsRule :: TermsRuleHolds(r, ctx, m)
    ensures ctx.offerSignature && ctx.challenge.verified
    ensures ctx.now < ctx.offer.expiresAt && ctx.now < ctx.challenge.expiresAt
  {
    assert TermsRuleHolds(OfferSignature, ctx, m) && TermsRuleHolds(ChallengeSignature, ctx, m);
    assert TermsRuleHolds(OfferExpiry, ctx, m) && TermsRuleHolds(ChallengeExpiry, ctx, m);
  }

  lemma AllowedIsAcceptable(ctx: Context, m: Mandate)
    requires ctx.mandate == Some(m) && forall rule: Rule :: Holds(rule, ctx)
    ensures Acceptable(ctx, m)
  {
    hide Holds, MandateRuleHolds, NetworkRuleHolds, VendorRuleHolds, TermsRuleHolds, RequestRuleHolds, MoneyRuleHolds,
      TransactionRuleHolds, SignerRuleHolds, AmountSchemasValid, OneNetwork, OneDeal, AllowedParties, OneRequest,
      Affordable, SafeToSign;
    RulesByKind(ctx, m);
    MandateRules(ctx, m);
    TermsRules(ctx, m);
    NetworkRules(ctx, m);
    DealRules(ctx, m);
    VendorRules(ctx, m);
    RequestRules(ctx, m);
    MoneyRules(ctx, m);
    SigningRules(ctx, m);
  }

  lemma AcceptableMoney(ctx: Context, m: Mandate)
    requires Acceptable(ctx, m)
    ensures AmountSchemasValid(m, ctx.policy, ctx.offer, ctx.proposal)
    ensures forall r: MoneyRule :: MoneyRuleHolds(r, ctx, m)
  {
    hide Genuine, OneNetwork, AllowedParties, OneRequest, Value, IsBaseUnits;
  }

  lemma AcceptableMandate(ctx: Context, m: Mandate)
    requires Acceptable(ctx, m)
    ensures forall r: MandateRule :: MandateRuleHolds(r, ctx, m)
  {
    hide AmountSchemasValid;
    AcceptableMoney(ctx, m);
    hide OneNetwork, OneDeal, AllowedParties, OneRequest, Affordable, SafeToSign;
  }

  lemma AcceptableTerms(ctx: Context, m: Mandate)
    requires Acceptable(ctx, m)
    ensures forall r: NetworkRule :: NetworkRuleHolds(r, ctx, m)
    ensures forall r: TermsRule :: TermsRuleHolds(r, ctx, m)
  {
    hide AllowedParties, OneRequest, Affordable, SafeToSign;
  }

  lemma AcceptableRequest(ctx: Context, m: Mandate)
    requires Acceptable(ctx, m)
    ensures forall r: VendorRule :: VendorRuleHolds(r, ctx, m)
    ensures forall r: RequestRule :: RequestRuleHolds(r, ctx, m)
  {
    hide Genuine, InTime, OneNetwork, Affordable;
  }

  lemma AcceptableSigning(ctx: Context, m: Mandate)
    requires Acceptable(ctx, m)
    ensures forall r: TransactionRule :: TransactionRuleHolds(r, ctx, m)
    ensures forall r: SignerRule :: SignerRuleHolds(r, ctx, m)
  {
    hide Genuine, InTime, OneNetwork, OneDeal, AllowedParties, OneRequest, Affordable, Value, IsBaseUnits;
  }

  lemma AcceptableIsAllowed(ctx: Context, m: Mandate, rule: Rule)
    requires ctx.mandate == Some(m) && Acceptable(ctx, m)
    ensures Holds(rule, ctx)
  {
    hide Acceptable, MandateRuleHolds, NetworkRuleHolds, VendorRuleHolds, TermsRuleHolds, RequestRuleHolds,
      MoneyRuleHolds, TransactionRuleHolds, SignerRuleHolds;
    AcceptableMoney(ctx, m);
    AcceptableMandate(ctx, m);
    AcceptableTerms(ctx, m);
    AcceptableRequest(ctx, m);
    AcceptableSigning(ctx, m);
  }

  /** A payment is allowed if and only if its mandate is there and everything is acceptable under it. */
  lemma AllowIsExact(ctx: Context)
    ensures Evaluate(ctx).Allow? <==> ctx.mandate.Some? && Acceptable(ctx, ctx.mandate.value)
  {
    hide Evaluate, Holds, Acceptable;
    DecisionIsExact(ctx);
    if ctx.mandate.Some? && Acceptable(ctx, ctx.mandate.value) {
      forall rule: Rule ensures Holds(rule, ctx) {
        AcceptableIsAllowed(ctx, ctx.mandate.value, rule);
      }
    } else if Evaluate(ctx).Allow? {
      NoMandateNoAllow(ctx);
      AllowedIsAcceptable(ctx, ctx.mandate.value);
    }
  }

  lemma NoMandateNoAllow(ctx: Context)
    ensures Holds(OfMandate(MandateExists), ctx) ==> ctx.mandate.Some?
  {
  }

  // A payment that is allowed.

  const NETWORK := Network("devnet", "genesis", "caip2", "sdk")

  function ExampleMandate(name: string): Mandate {
    Mandate(name, "subject", "devnet", "mint", "1", "1", "1", ["payee"], ["capability"], ["card"], [ORIGIN], 0, 1, None,
      "issuer", "policy", "mandate")
  }

  function ExampleProposal(name: string, fingerprint: string): Proposal {
    Proposal(name, name, "offer", "operation", "policy", "challenge", NETWORK, "mint", "payee", "1", "GET", ORIGIN,
      "body", name, name, name, fingerprint, 1)
  }

  const ORIGIN := "origin"

  ghost function ExampleLibrary(fingerprint: string): Library {
    var lib := Functions((url, origin) => Some(ORIGIN), url => ORIGIN, origin => Some(origin), m => "mandate",
      p => "policy", f => fingerprint);
    assert NormalizesOnce(lib);
    lib
  }

  /** Every party says what it should, at time zero, with nothing spent. */
  ghost function ExampleContext(name: string, fingerprint: string): Context {
    Context(0, "subject", "issuer", "capability", name, Some(ExampleMandate(name)),
      ExecutionPolicy(NETWORK, "mint", 6, "executor", "payer", "1", ["program"], ["account"], [ORIGIN], "policy"),
      Offer("offer", "caip2", "mint", "1", "payee", ORIGIN, Some("capability"), Some("GET"), ORIGIN, "card", 1),
      ExampleProposal(name, fingerprint),
      Challenge(true, "challenge", 1, "exact", "caip2", "mint", "1", "payee", "GET", ORIGIN, ORIGIN),
      Request("GET", ORIGIN, "operation", "body"), true, true, NETWORK, true, true, "0", "0", false, false, false,
      TransactionPlan(true, ["program"], ["account"], "payer", "executor", "1"), true, true, "executor", true,
      ExampleLibrary(fingerprint))
  }

  lemma ExampleNumbers()
    ensures ParseBaseUnits("0") == Some(0) && ParseBaseUnits("1") == Some(1)
    ensures Number("0") == 0 && Number("1") == 1
  {
    ParsePrinted(0);
    ParsePrinted(1);
    DigitChar(0);
    DigitChar(1);
    assert Print(0) == "0" && Print(1) == "1";
  }

  lemma ExampleIsAllowed(name: string, fingerprint: string)
    ensures Evaluate(ExampleContext(name, fingerprint)).Allow?
    ensures forall rule: Rule :: Holds(rule, ExampleContext(name, fingerprint))
  {
    hide Evaluate, Holds, ParseBaseUnits;
    var ctx := ExampleContext(name, fingerprint);
    var m := ExampleMandate(name);
    ExampleNumbers();
    hide Number;
    ExampleParties(name, fingerprint);
    assert Genuine(ctx, m) && InTime(ctx, m) && OneNetwork(ctx, m) && OneDeal(ctx, m);
    assert Affordable(ctx, m) && SafeToSign(ctx);
    AllowIsExact(ctx);
    DecisionIsExact(ctx);
  }

  lemma ExampleParties(name: string, fingerprint: string)
    ensures AllowedParties(ExampleContext(name, fingerprint), ExampleMandate(name))
    ensures OneRequest(ExampleContext(name, fingerprint), ExampleMandate(name))
  {
    var ctx, m := ExampleContext(name, fingerprint), ExampleMandate(name);
    assert ORIGIN in m.allowedVendorOrigins && ORIGIN in ctx.policy.allowedFacilitatorOrigins;
    assert ctx.lib.normalizeOrigin(ORIGIN) == Some(ORIGIN);
    assert m.allowedCapabilities[0] == "capability" && m.allowedAgentCardHashes[0] == "card";
    assert m.allowedRecipients[0] == "payee";
  }
}
