/**
 * packages/policy/src/index.ts: the ordered authorization rules. URL
 * normalisation and hashing are library functions of the context; what
 * signature verifiers and inspectors found are plain answers in it.
 */
module Policy {
  import opened Prelude
  import opened Decimal

  datatype Network = Network(clusterLabel: string, genesisHash: string, x402NetworkId: string, sdkNetworkId: string)

  datatype Mandate = Mandate(
    id: string, subject: string, clusterLabel: string, assetMint: string,
    perTransactionLimit: string, incidentLimit: string, dailyLimit: string,
    allowedRecipients: seq<string>, allowedCapabilities: seq<string>, allowedAgentCardHashes: seq<string>,
    allowedVendorOrigins: seq<string>,
    notBefore: int, expiresAt: int, revokedAt: Option<int>,
    issuerPrincipal: string, executionPolicyHash: string, mandateHash: string)

  datatype ExecutionPolicy = ExecutionPolicy(
    network: Network, assetMint: string, assetDecimals: int, executorPublicKey: string, feePayer: string,
    maxNetworkFee: string, allowedProgramIds: seq<string>, allowedAccountRules: seq<string>,
    allowedFacilitatorOrigins: seq<string>, policyHash: string)

  datatype Offer = Offer(
    offerId: string, network: string, assetMint: string, amount: string, payee: string, resourceUrl: string,
    capability: Option<string>, httpMethod: Option<string>,
    providerAgentCardUrl: string, providerAgentCardHash: string, expiresAt: int)

  datatype Proposal = Proposal(
    incidentId: string, mandateId: string, offerId: string, operationId: string,
    executionPolicyHash: string, challengeHash: string, network: Network, assetMint: string,
    recipient: string, amount: string, httpMethod: string, resourceUrl: string, canonicalBodyHash: string,
    paymentId: string, nonce: string, idempotencyKey: string, requestFingerprint: string, expiresAt: int)

  datatype Challenge = Challenge(
    verified: bool, challengeHash: string, expiresAt: int, scheme: string, network: string,
    assetMint: string, amount: string, payee: string, httpMethod: string, resourceUrl: string,
      facilitatorOrigin: string)

  datatype Request = Request(httpMethod: string, resourceUrl: string, operationId: string, canonicalBodyHash: string)

  datatype TransactionPlan = TransactionPlan(
    planVerified: bool, programIds: seq<string>, accountKeys: seq<string>,
    feePayer: string, executorPublicKey: string, networkFeeUpperBound: string)

  /** What createRequestFingerprint hashes. */
  datatype FingerprintInput = FingerprintInput(
    httpMethod: string, resourceUrl: string, operationId: string, canonicalBodyHash: string, paymentId: string,
    scheme: string, network: string, assetMint: string, amount: string, payee: string)

  /** The library functions the rules call; a normalisation that throws answers None. */
  datatype Functions = Functions(
    normalizeUrl: (string, Option<string>) -> Option<string>,
    originOf: string -> string,
    normalizeOrigin: string -> Option<string>,
    mandateHash: Mandate -> string,
    policyHash: ExecutionPolicy -> string,
    fingerprint: FingerprintInput -> string)

  /** A normalised URL normalises to itself. */
  ghost predicate NormalizesOnce(l: Functions) {
    forall url, origin :: l.normalizeUrl(url, origin).Some? ==>
      l.normalizeUrl(l.normalizeUrl(url, origin).value, origin) == l.normalizeUrl(url, origin)
  }

  type Library = l: Functions | NormalizesOnce(l)
    ghost witness Functions((url, origin) => None, url => url, origin => None, m => "", p => "", f => "")

  datatype Context = Context(
    now: int, expectedSubject: string, expectedIssuerPrincipal: string, requiredCapability: string,
    incidentId: string, mandate: Option<Mandate>, policy: ExecutionPolicy, offer: Offer, proposal: Proposal,
    challenge: Challenge, request: Request,
    mandateAttestation: bool, offerSignature: bool,
    observed: Network, redirectsDisabled: bool, addressesPublic: bool,
    incidentUsed: string, dailyUsed: string,
    paymentIdBound: bool, nonceBound: bool, idempotencyKeyBound: bool,
    transaction: TransactionPlan,
    signerPrivate: bool, signerAvailable: bool, activeWallet: string,
    /** Whether the five records meet every schema rule that is not in `AmountSchemasValid`. */
    formatsValid: bool,
    lib: Library)

  // The rules, by what they are about.

  datatype MandateRule =
    ExecutionPolicyBinding | ExecutionPolicyHash | MandateAttestation | MandateExists | MandateHash |
    MandateIssuer | MandateNotRevoked | MandateSubject | MandateTimeWindow | ProposalBindsIds | SchemaValid

  datatype NetworkRule =
    AssetDecimals | AssetMint | NetworkCaip2 | NetworkCluster | NetworkGenesis | NetworkSdk

  datatype VendorRule =
    AgentCardAllowlist | CapabilityAllowlist | FacilitatorOrigin | RecipientAllowlist | VendorOrigin

  datatype TermsRule =
    ChallengeBinding | ChallengeExpiry | ChallengeSignature | OfferExpiry | OfferHash | OfferSignature

  datatype RequestRule =
    PublicAddresses | RedirectsDisabled | RequestBodyHash | RequestFingerprint | RequestMethod |
    RequestOperationId | RequestUrl

  datatype MoneyRule =
    AmountCoherent | AmountPositive | DailyBudget | IdempotencyKeyFresh | IncidentBudget | NonceFresh |
    PaymentIdFresh | PerTransactionLimit

  datatype TransactionRule =
    AccountAllowlist | ExecutorPublicKey | FeePayer | NetworkFeeLimit | ProgramAllowlist | TransactionInstructions

  datatype SignerRule =
    ActiveWallet | PrivateBoundary | SignerAvailable

  datatype Rule =
    | OfMandate(MandateRule)
    | OfNetwork(NetworkRule)
    | OfVendor(VendorRule)
    | OfTerms(TermsRule)
    | OfRequest(RequestRule)
    | OfMoney(MoneyRule)
    | OfTransaction(TransactionRule)
    | OfSigner(SignerRule)

  // The order the rules are published in, in eight stretches.

  const MANDATE_RULES: seq<Rule> := [
    OfMandate(MandateExists), OfMandate(SchemaValid), OfMandate(ProposalBindsIds), OfMandate(MandateSubject),
    OfMandate(MandateNotRevoked), OfMandate(MandateHash), OfMandate(MandateAttestation),
    OfMandate(ExecutionPolicyHash), OfMandate(ExecutionPolicyBinding), OfMandate(MandateIssuer),
    OfMandate(MandateTimeWindow)]

  const NETWORK_RULES: seq<Rule> := [
    OfNetwork(NetworkCluster), OfNetwork(NetworkGenesis), OfNetwork(NetworkCaip2), OfNetwork(NetworkSdk),
    OfNetwork(AssetMint), OfNetwork(AssetDecimals)]

  const VENDOR_RULES: seq<Rule> := [
    OfVendor(CapabilityAllowlist), OfVendor(AgentCardAllowlist), OfVendor(VendorOrigin),
    OfVendor(FacilitatorOrigin), OfVendor(RecipientAllowlist)]

  const TERMS_RULES: seq<Rule> := [
    OfTerms(OfferHash), OfTerms(OfferSignature), OfTerms(OfferExpiry), OfTerms(ChallengeSignature),
    OfTerms(ChallengeExpiry), OfTerms(ChallengeBinding)]

  const REQUEST_RULES: seq<Rule> := [
    OfRequest(RequestMethod), OfRequest(RequestUrl), OfRequest(RequestBodyHash), OfRequest(RequestOperationId),
    OfRequest(RequestFingerprint), OfRequest(RedirectsDisabled), OfRequest(PublicAddresses)]

  const MONEY_RULES: seq<Rule> := [
    OfMoney(AmountPositive), OfMoney(AmountCoherent), OfMoney(PerTransactionLimit), OfMoney(PaymentIdFresh),
    OfMoney(NonceFresh), OfMoney(IdempotencyKeyFresh), OfMoney(IncidentBudget), OfMoney(DailyBudget)]

  const TRANSACTION_RULES: seq<Rule> := [
    OfTransaction(TransactionInstructions), OfTransaction(ProgramAllowlist), OfTransaction(AccountAllowlist),
    OfTransaction(FeePayer), OfTransaction(ExecutorPublicKey), OfTransaction(NetworkFeeLimit)]

  const SIGNER_RULES: seq<Rule> := [
    OfSigner(PrivateBoundary), OfSigner(SignerAvailable), OfSigner(ActiveWallet)]

  const POLICY_RULES: seq<Rule> :=
    MANDATE_RULES + NETWORK_RULES + VENDOR_RULES + TERMS_RULES + REQUEST_RULES + MONEY_RULES + TRANSACTION_RULES
    + SIGNER_RULES

  const RULE_COUNT: nat := |POLICY_RULES|

  // What each rule demands.

  predicate IsPositive(amount: string) {
    IsBaseUnits(amount) && Value(amount) > 0
  }

  /** The schema rules that later rules rely on. */
  predicate AmountSchemasValid(m: Mandate, policy: ExecutionPolicy, offer: Offer, p: Proposal) {
    && IsPositive(m.perTransactionLimit) && IsPositive(m.incidentLimit) && IsPositive(m.dailyLimit)
    && Value(m.perTransactionLimit) <= Value(m.incidentLimit) <= Value(m.dailyLimit)
    && m.notBefore < m.expiresAt
    && IsPositive(policy.maxNetworkFee) && policy.assetDecimals == 6
    && IsPositive(offer.amount) && IsPositive(p.amount)
  }

  /** Three base-unit texts with the first two adding up to at most the third. */
  predicate Within(used: string, amount: string, limit: string) {
    && IsBaseUnits(used) && IsBaseUnits(amount) && IsBaseUnits(limit)
    && Value(used) + Value(amount) <= Value(limit)
  }

  predicate AtMost(amount: string, limit: string) {
    IsBaseUnits(amount) && IsBaseUnits(limit) && Value(amount) <= Value(limit)
  }

  /** The origin of the provider's agent card, when that is a URL. */
  function ProviderOrigin(ctx: Context): Option<string> {
    var url := ctx.lib.normalizeUrl(ctx.offer.providerAgentCardUrl, None);
    if Truthy(url) then Some(ctx.lib.originOf(url.value)) else None
  }

  /** A URL in normal form, pinned to the provider's origin. */
  function Pinned(ctx: Context, url: string): Option<string> {
    ctx.lib.normalizeUrl(url, ProviderOrigin(ctx))
  }

  predicate AllowsOrigin(ctx: Context, allowed: seq<string>, origin: Option<string>) {
    origin.Some? && exists o :: o in allowed && ctx.lib.normalizeOrigin(o) == origin
  }

  function FingerprintOf(ctx: Context, url: string): string {
    var p := ctx.proposal;
    ctx.lib.fingerprint(FingerprintInput(
      p.httpMethod, url, p.operationId, p.canonicalBodyHash, p.paymentId,
      "exact", p.network.x402NetworkId, p.assetMint, p.amount, p.recipient))
  }

  /** What the rules on the mandate, its bindings and its time demand. */
  predicate MandateRuleHolds(rule: MandateRule, ctx: Context, m: Mandate) {
    var p, offer, policy := ctx.proposal, ctx.offer, ctx.policy;
    match rule
    case MandateExists => true
    case SchemaValid => ctx.formatsValid && AmountSchemasValid(m, policy, offer, p)
    case ProposalBindsIds => p.incidentId == ctx.incidentId && p.mandateId == m.id && p.offerId == offer.offerId
    case MandateSubject => m.subject == ctx.expectedSubject
    case MandateNotRevoked => m.revokedAt.None?
    case MandateHash => m.mandateHash == ctx.lib.mandateHash(m)
    case MandateAttestation => ctx.mandateAttestation
    case ExecutionPolicyHash => policy.policyHash == ctx.lib.policyHash(policy)
    case ExecutionPolicyBinding => m.executionPolicyHash == policy.policyHash == p.executionPolicyHash
    case MandateIssuer => m.issuerPrincipal == ctx.expectedIssuerPrincipal
    case MandateTimeWindow => m.notBefore <= ctx.now < m.expiresAt && ctx.now < p.expiresAt
  }

  /** What the rules on the network and the asset demand. */
  predicate NetworkRuleHolds(rule: NetworkRule, ctx: Context, m: Mandate) {
    var p, offer, policy := ctx.proposal, ctx.offer, ctx.policy;
    match rule
    case NetworkCluster =>
      policy.network.clusterLabel == p.network.clusterLabel == ctx.observed.clusterLabel == m.clusterLabel
    case NetworkGenesis => policy.network.genesisHash == p.network.genesisHash == ctx.observed.genesisHash
    case NetworkCaip2 => policy.network.x402NetworkId == p.network.x402NetworkId == offer.network
    case NetworkSdk => policy.network.sdkNetworkId == p.network.sdkNetworkId == ctx.observed.sdkNetworkId
    case AssetMint => policy.assetMint == m.assetMint == p.assetMint == offer.assetMint
    case AssetDecimals => policy.assetDecimals == 6
  }

  /** What the rules on the vendor, the facilitator and the recipient demand. */
  predicate VendorRuleHolds(rule: VendorRule, ctx: Context, m: Mandate) {
    var p, c, offer, policy := ctx.proposal, ctx.challenge, ctx.offer, ctx.policy;
    match rule
    case CapabilityAllowlist => offer.capability == Some(ctx.requiredCapability)
      && ctx.requiredCapability in m.allowedCapabilities
    case AgentCardAllowlist => offer.providerAgentCardHash in m.allowedAgentCardHashes
    case VendorOrigin => AllowsOrigin(ctx, m.allowedVendorOrigins, ProviderOrigin(ctx))
    case FacilitatorOrigin => AllowsOrigin(ctx, policy.allowedFacilitatorOrigins,
      ctx.lib.normalizeOrigin(c.facilitatorOrigin))
    case RecipientAllowlist => p.recipient in m.allowedRecipients && p.recipient == offer.payee
  }

  /** What the rules on the offer and the challenge demand. */
  predicate TermsRuleHolds(rule: TermsRule, ctx: Context, m: Mandate) {
    var p, c, offer := ctx.proposal, ctx.challenge, ctx.offer;
    match rule
    case OfferHash => true
    case OfferSignature => ctx.offerSignature
    case OfferExpiry => ctx.now < offer.expiresAt
    case ChallengeSignature => c.verified
    case ChallengeExpiry => ctx.now < c.expiresAt
    case ChallengeBinding =>
      && c.scheme == "exact" && c.challengeHash == p.challengeHash && c.network == p.network.x402NetworkId
      && c.assetMint == p.assetMint && c.amount == p.amount && c.payee == p.recipient
  }

  /** What the rules on the request and the transport demand. */
  predicate RequestRuleHolds(rule: RequestRule, ctx: Context, m: Mandate) {
    var p, c, offer := ctx.proposal, ctx.challenge, ctx.offer;
    match rule
    case RequestMethod => offer.httpMethod == Some(p.httpMethod)
      && p.httpMethod == c.httpMethod == ctx.request.httpMethod
    case RequestUrl =>
      && Pinned(ctx, p.resourceUrl).Some?
      && Pinned(ctx, p.resourceUrl) == Pinned(ctx, offer.resourceUrl) == Pinned(ctx, c.resourceUrl) == Pinned(ctx,
        ctx.request.resourceUrl)
    case RequestBodyHash => p.canonicalBodyHash == ctx.request.canonicalBodyHash
    case RequestOperationId => p.operationId == ctx.request.operationId
    case RequestFingerprint => Pinned(ctx, p.resourceUrl).Some?
      && p.requestFingerprint == FingerprintOf(ctx, Pinned(ctx, p.resourceUrl).value)
    case RedirectsDisabled => ctx.redirectsDisabled
    case PublicAddresses => ctx.addressesPublic
  }

  /** What the rules on amounts, identifiers and budgets demand. */
  predicate MoneyRuleHolds(rule: MoneyRule, ctx: Context, m: Mandate) {
    var p, c, offer := ctx.proposal, ctx.challenge, ctx.offer;
    match rule
    case AmountPositive => IsPositive(p.amount)
    case AmountCoherent => p.amount == offer.amount == c.amount
    case PerTransactionLimit => AtMost(p.amount, m.perTransactionLimit)
    case PaymentIdFresh => !ctx.paymentIdBound
    case NonceFresh => !ctx.nonceBound
    case IdempotencyKeyFresh => !ctx.idempotencyKeyBound
    case IncidentBudget => Within(ctx.incidentUsed, p.amount, m.incidentLimit)
    case DailyBudget => Within(ctx.dailyUsed, p.amount, m.dailyLimit)
  }

  /** What the rules on the transaction plan demand. */
  predicate TransactionRuleHolds(rule: TransactionRule, ctx: Context, m: Mandate) {
    var t, policy := ctx.transaction, ctx.policy;
    match rule
    case TransactionInstructions => t.planVerified
    case ProgramAllowlist => t.programIds != [] && forall id :: id in t.programIds ==> id in policy.allowedProgramIds
    case AccountAllowlist => t.accountKeys != [] && forall key :: key in t.accountKeys ==>
      key in policy.allowedAccountRules
    case FeePayer => t.feePayer == policy.feePayer
    case ExecutorPublicKey => t.executorPublicKey == policy.executorPublicKey
    case NetworkFeeLimit => AtMost(t.networkFeeUpperBound, policy.maxNetworkFee)
  }

  /** What the rules on the signer demand. */
  predicate SignerRuleHolds(rule: SignerRule, ctx: Context, m: Mandate) {
    var policy := ctx.policy;
    match rule
    case PrivateBoundary => ctx.signerPrivate
    case SignerAvailable => ctx.signerAvailable
    case ActiveWallet => ctx.activeWallet == policy.executorPublicKey
  }

  predicate Holds(rule: Rule, ctx: Context) {
    && ctx.mandate.Some?
    && var m := ctx.mandate.value;
       match rule
       case OfMandate(r) => MandateRuleHolds(r, ctx, m)
       case OfNetwork(r) => NetworkRuleHolds(r, ctx, m)
       case OfVendor(r) => VendorRuleHolds(r, ctx, m)
       case OfTerms(r) => TermsRuleHolds(r, ctx, m)
       case OfRequest(r) => RequestRuleHolds(r, ctx, m)
       case OfMoney(r) => MoneyRuleHolds(r, ctx, m)
       case OfTransaction(r) => TransactionRuleHolds(r, ctx, m)
       case OfSigner(r) => SignerRuleHolds(r, ctx, m)
  }

  // The decision they make up.

  datatype Check = Check(rule: Rule, pass: bool)

  datatype Decision = Allow(checks: seq<Check>) | Deny(reasonCode: Rule, checks: seq<Check>)

  /** The position of the first of some rules, at or after `from`, that fails. */
  function FirstFailure(rules: seq<Rule>, ctx: Context, from: nat): (k: nat)
    requires from <= |rules|
    ensures from <= k <= |rules|
    ensures forall i :: from <= i < k ==> Holds(rules[i], ctx)
    ensures k < |rules| ==> !Holds(rules[k], ctx)
    decreases |rules| - from
  {
    if from == |rules| || !Holds(rules[from], ctx) then from else FirstFailure(rules, ctx, from + 1)
  }

  function PassedChecks(rules: seq<Rule>): seq<Check> {
    seq(|rules|, i requires 0 <= i < |rules| => Check(rules[i], true))
  }

  function EvaluateIn(rules: seq<Rule>, ctx: Context): Decision {
    var k := FirstFailure(rules, ctx, 0);
    if k == |rules| then Allow(PassedChecks(rules))
    else Deny(rules[k], PassedChecks(rules[..k]) + [Check(rules[k], false)])
  }

  /** The decision of the rules in their published order. */
  function Evaluate(ctx: Context): Decision {
    EvaluateIn(POLICY_RULES, ctx)
  }

  function MandatePosition(rule: MandateRule): nat {
    match rule
    case MandateExists => 0
    case SchemaValid => 1
    case ProposalBindsIds => 2
    case MandateSubject => 3
    case MandateNotRevoked => 4
    case MandateHash => 5
    case MandateAttestation => 6
    case ExecutionPolicyHash => 7
    case ExecutionPolicyBinding => 8
    case MandateIssuer => 9
    case MandateTimeWindow => 10
  }

  function NetworkPosition(rule: NetworkRule): nat {
    match rule
    case NetworkCluster => 11
    case NetworkGenesis => 12
    case NetworkCaip2 => 13
    case NetworkSdk => 14
    case AssetMint => 15
    case AssetDecimals => 16
  }

  function VendorPosition(rule: VendorRule): nat {
    match rule
    case CapabilityAllowlist => 17
    case AgentCardAllowlist => 18
    case VendorOrigin => 19
    case FacilitatorOrigin => 20
    case RecipientAllowlist => 21
  }

  function TermsPosition(rule: TermsRule): nat {
    match rule
    case OfferHash => 22
    case OfferSignature => 23
    case OfferExpiry => 24
    case ChallengeSignature => 25
    case ChallengeExpiry => 26
    case ChallengeBinding => 27
  }

  function RequestPosition(rule: RequestRule): nat {
    match rule
    case RequestMethod => 28
    case RequestUrl => 29
    case RequestBodyHash => 30
    case RequestOperationId => 31
    case RequestFingerprint => 32
    case RedirectsDisabled => 33
    case PublicAddresses => 34
  }

  function MoneyPosition(rule: MoneyRule): nat {
    match rule
    case AmountPositive => 35
    case AmountCoherent => 36
    case PerTransactionLimit => 37
    case PaymentIdFresh => 38
    case NonceFresh => 39
    case IdempotencyKeyFresh => 40
    case IncidentBudget => 41
    case DailyBudget => 42
  }

  function TransactionPosition(rule: TransactionRule): nat {
    match rule
    case TransactionInstructions => 43
    case ProgramAllowlist => 44
    case AccountAllowlist => 45
    case FeePayer => 46
    case ExecutorPublicKey => 47
    case NetworkFeeLimit => 48
  }

  function SignerPosition(rule: SignerRule): nat {
    match rule
    case PrivateBoundary => 49
    case SignerAvailable => 50
    case ActiveWallet => 51
  }

  /** Where a rule stands in the order. */
  function Position(rule: Rule): nat {
    match rule
    case OfMandate(r) => MandatePosition(r)
    case OfNetwork(r) => NetworkPosition(r)
    case OfVendor(r) => VendorPosition(r)
    case OfTerms(r) => TermsPosition(r)
    case OfRequest(r) => RequestPosition(r)
    case OfMoney(r) => MoneyPosition(r)
    case OfTransaction(r) => TransactionPosition(r)
    case OfSigner(r) => SignerPosition(r)
  }

  lemma MandateRuleStands(rule: MandateRule)
    ensures 0 <= MandatePosition(rule) < 11 && MANDATE_RULES[MandatePosition(rule)] == OfMandate(rule)
  {
    match rule
    case MandateExists => case SchemaValid => case ProposalBindsIds => case MandateSubject =>
    case MandateNotRevoked => case MandateHash => case MandateAttestation => case ExecutionPolicyHash =>
    case ExecutionPolicyBinding => case MandateIssuer => case MandateTimeWindow =>
  }

  lemma NetworkRuleStands(rule: NetworkRule)
    ensures 11 <= NetworkPosition(rule) < 17 && NETWORK_RULES[NetworkPosition(rule) - 11] == OfNetwork(rule)
  {
    match rule
    case NetworkCluster => case NetworkGenesis => case NetworkCaip2 => case NetworkSdk => case AssetMint =>
    case AssetDecimals =>
  }

  lemma VendorRuleStands(rule: VendorRule)
    ensures 17 <= VendorPosition(rule) < 22 && VENDOR_RULES[VendorPosition(rule) - 17] == OfVendor(rule)
  {
    match rule
    case CapabilityAllowlist => case AgentCardAllowlist => case VendorOrigin => case FacilitatorOrigin =>
    case RecipientAllowlist =>
  }

  lemma TermsRuleStands(rule: TermsRule)
    ensures 22 <= TermsPosition(rule) < 28 && TERMS_RULES[TermsPosition(rule) - 22] == OfTerms(rule)
  {
    match rule
    case OfferHash => case OfferSignature => case OfferExpiry => case ChallengeSignature => case ChallengeExpiry =>
    case ChallengeBinding =>
  }

  lemma RequestRuleStands(rule: RequestRule)
    ensures 28 <= RequestPosition(rule) < 35 && REQUEST_RULES[RequestPosition(rule) - 28] == OfRequest(rule)
  {
    match rule
    case RequestMethod => case RequestUrl => case RequestBodyHash => case RequestOperationId =>
    case RequestFingerprint => case RedirectsDisabled => case PublicAddresses =>
  }

  lemma MoneyRuleStands(rule: MoneyRule)
    ensures 35 <= MoneyPosition(rule) < 43 && MONEY_RULES[MoneyPosition(rule) - 35] == OfMoney(rule)
  {
    match rule
    case AmountPositive => case AmountCoherent => case PerTransactionLimit => case PaymentIdFresh =>
    case NonceFresh => case IdempotencyKeyFresh => case IncidentBudget => case DailyBudget =>
  }

  lemma TransactionRuleStands(rule: TransactionRule)
    ensures 43 <= TransactionPosition(rule) < 49
    ensures TRANSACTION_RULES[TransactionPosition(rule) - 43] == OfTransaction(rule)
  {
    match rule
    case TransactionInstructions => case ProgramAllowlist => case AccountAllowlist => case FeePayer =>
    case ExecutorPublicKey => case NetworkFeeLimit =>
  }

  lemma SignerRuleStands(rule: SignerRule)
    ensures 49 <= SignerPosition(rule) < 52 && SIGNER_RULES[SignerPosition(rule) - 49] == OfSigner(rule)
  {
    match rule
    case PrivateBoundary => case SignerAvailable => case ActiveWallet =>
  }

  /** Every rule stands in the order... */
  lemma PositionIsIndex(rule: Rule)
    ensures RULE_COUNT == 52 && Position(rule) < RULE_COUNT && POLICY_RULES[Position(rule)] == rule
  {
    hide MandatePosition, NetworkPosition, VendorPosition, TermsPosition, RequestPosition, MoneyPosition,
      TransactionPosition, SignerPosition;
    match rule
    case OfMandate(r) => MandateRuleStands(r);
    case OfNetwork(r) => NetworkRuleStands(r);
    case OfVendor(r) => VendorRuleStands(r);
    case OfTerms(r) => TermsRuleStands(r);
    case OfRequest(r) => RequestRuleStands(r);
    case OfMoney(r) => MoneyRuleStands(r);
    case OfTransaction(r) => TransactionRuleStands(r);
    case OfSigner(r) => SignerRuleStands(r);
  }

  lemma MandateRulesPlaced(i: nat)
    ensures i < 11 ==> Position(MANDATE_RULES[i]) == i
  {
  }

  lemma NetworkRulesPlaced(i: nat)
    ensures i < 6 ==> Position(NETWORK_RULES[i]) == 11 + i
  {
  }

  lemma VendorRulesPlaced(i: nat)
    ensures i < 5 ==> Position(VENDOR_RULES[i]) == 17 + i
  {
  }

  lemma TermsRulesPlaced(i: nat)
    ensures i < 6 ==> Position(TERMS_RULES[i]) == 22 + i
  {
  }

  lemma RequestRulesPlaced(i: nat)
    ensures i < 7 ==> Position(REQUEST_RULES[i]) == 28 + i
  {
  }

  lemma MoneyRulesPlaced(i: nat)
    ensures i < 8 ==> Position(MONEY_RULES[i]) == 35 + i
  {
  }

  lemma TransactionRulesPlaced(i: nat)
    ensures i < 6 ==> Position(TRANSACTION_RULES[i]) == 43 + i
  {
  }

  lemma SignerRulesPlaced(i: nat)
    ensures i < 3 ==> Position(SIGNER_RULES[i]) == 49 + i
  {
  }

  /** ... exactly once. */
  lemma IndexIsPosition(i: nat)
    requires i < RULE_COUNT
    ensures Position(POLICY_RULES[i]) == i
  {
    hide Position;
    if i < 11 { MandateRulesPlaced(i); }
    else if i < 17 { NetworkRulesPlaced(i - 11); }
    else if i < 22 { VendorRulesPlaced(i - 17); }
    else if i < 28 { TermsRulesPlaced(i - 22); }
    else if i < 35 { RequestRulesPlaced(i - 28); }
    else if i < 43 { MoneyRulesPlaced(i - 35); }
    else if i < 49 { TransactionRulesPlaced(i - 43); }
    else { SignerRulesPlaced(i - 49); }
  }

  /** The checks so far are the first of the rules in order, and all of them passed. */
  ghost predicate Passed(rules: seq<Rule>, ctx: Context, checks: seq<Check>) {
    && |checks| <= |rules|
    && forall i :: 0 <= i < |checks| ==> checks[i] == Check(rules[i], true) && Holds(rules[i], ctx)
  }

  lemma {:induction false} FailureAfter(rules: seq<Rule>, ctx: Context, from: nat, k: nat)
    requires from <= k <= |rules|
    requires forall i :: from <= i < k ==> Holds(rules[i], ctx)
    requires k < |rules| ==> !Holds(rules[k], ctx)
    ensures FirstFailure(rules, ctx, from) == k
    decreases k - from
  {
    hide Holds;
    if from == k {
    } else {
      FailureAfter(rules, ctx, from + 1, k);
    }
  }

  lemma EvaluateIs(rules: seq<Rule>, ctx: Context, checks: seq<Check>)
    requires Passed(rules, ctx, checks)
    ensures |checks| == |rules| ==> EvaluateIn(rules, ctx) == Allow(checks)
    ensures |checks| < |rules| && !Holds(rules[|checks|], ctx) ==>
      EvaluateIn(rules, ctx) == Deny(rules[|checks|], checks + [Check(rules[|checks|], false)])
  {
    hide Holds, FirstFailure;
    if |checks| == |rules| || !Holds(rules[|checks|], ctx) {
      FailureAfter(rules, ctx, 0, |checks|);
      assert checks == PassedChecks(rules[..|checks|]);
      assert |checks| == |rules| ==> rules[..|checks|] == rules;
    }
  }

  // What the decision says.

  /** Allow means exactly that every rule holds, and a denial names the first in the order that does not. */
  lemma DecisionIsExact(ctx: Context)
    ensures Evaluate(ctx).Allow? <==> forall rule: Rule :: Holds(rule, ctx)
    ensures Evaluate(ctx).Deny? ==>
      && !Holds(Evaluate(ctx).reasonCode, ctx)
      && forall rule: Rule :: Position(rule) < Position(Evaluate(ctx).reasonCode) ==> Holds(rule, ctx)
  {
    hide Holds, Position;
    var k := FirstFailure(POLICY_RULES, ctx, 0);
    forall rule: Rule
      ensures Position(rule) < RULE_COUNT && POLICY_RULES[Position(rule)] == rule
        && (Position(rule) < k ==> Holds(rule, ctx))
    {
      PositionIsIndex(rule);
    }
    if k < RULE_COUNT {
      IndexIsPosition(k);
      assert !Holds(POLICY_RULES[k], ctx);
    }
  }

  function RulesOf(checks: seq<Check>): seq<Rule> {
    seq(|checks|, i requires 0 <= i < |checks| => checks[i].rule)
  }

  /** The recorded checks are a prefix of POLICY_RULES, each with its own verdict, that ends at the first failure. */
  lemma ChecksAreAPrefix(ctx: Context)
    ensures
      var decision := Evaluate(ctx);
      var checks := decision.checks;
      && 0 < |checks| && RulesOf(checks) <= POLICY_RULES
      && (forall i :: 0 <= i < |checks| ==> checks[i].pass == Holds(checks[i].rule, ctx))
      && (forall i :: 0 <= i < |checks| - 1 ==> checks[i].pass)
      && (decision.Allow? ==> RulesOf(checks) == POLICY_RULES && checks[|checks| - 1].pass)
      && (decision.Deny? ==> checks[|checks| - 1] == Check(decision.reasonCode, false))
  {
    var rules := POLICY_RULES;
    assert |rules| == 52;
    hide Holds, POLICY_RULES;
    ChecksOf(rules, ctx);
  }

  lemma ChecksOf(rules: seq<Rule>, ctx: Context)
    requires rules != []
    ensures
      var decision := EvaluateIn(rules, ctx);
      var checks := decision.checks;
      && 0 < |checks| && RulesOf(checks) <= rules
      && (forall i :: 0 <= i < |checks| ==> checks[i].pass == Holds(checks[i].rule, ctx))
      && (forall i :: 0 <= i < |checks| - 1 ==> checks[i].pass)
      && (decision.Allow? ==> RulesOf(checks) == rules && checks[|checks| - 1].pass)
      && (decision.Deny? ==> checks[|checks| - 1] == Check(decision.reasonCode, false))
  {
    hide Holds;
    var k := FirstFailure(rules, ctx, 0);
    var decision := EvaluateIn(rules, ctx);
    if k == |rules| {
      assert RulesOf(decision.checks) == rules;
    } else {
      assert RulesOf(decision.checks) == rules[..k + 1];
    }
  }

  // The method.

  /** `value!`: the source asserts that the value is there. */
  function Unwrap<T>(value: Option<T>): T
    requires value.Some?
  {
    value.value
  }

  /** Every rule so far, in the published order, has passed. */
  ghost predicate PassedInOrder(ctx: Context, checks: seq<Check>) {
    Passed(POLICY_RULES, ctx, checks)
  }

  /** The `check` closure: records one rule with its verdict and answers the denial when it fails. */
  method RecordCheck(ghost ctx: Context, rule: Rule, pass: bool, checks: seq<Check>)
    returns (checks': seq<Check>, denied: Option<Decision>)
    requires PassedInOrder(ctx, checks) && |checks| == Position(rule) && pass == Holds(rule, ctx)
    ensures pass ==> denied.None? && PassedInOrder(ctx, checks') && |checks'| == |checks| + 1
    ensures !pass ==> denied == Some(Evaluate(ctx))
  {
    hide Holds, EvaluateIn, Position;
    PositionIsIndex(rule);
    EvaluateIs(POLICY_RULES, ctx, checks);
    checks' := checks + [Check(rule, pass)];
    denied := if pass then None else Some(Deny(rule, checks'));
  }

  /** The rules on the mandate, its bindings and its time. */
  method CheckMandate(ctx: Context, mandate: Mandate, checks: seq<Check>)
    returns (checks': seq<Check>, denied: Option<Decision>)
    requires ctx.mandate == Some(mandate) && PassedInOrder(ctx, checks) && |checks| == 1
    ensures denied.None? ==> PassedInOrder(ctx, checks') && |checks'| == 11
    ensures denied.Some? ==> denied.value == Evaluate(ctx)
    ensures denied.None? ==> AmountSchemasValid(mandate, ctx.policy, ctx.offer, ctx.proposal)
  {
    hide Evaluate, PassedInOrder, NetworkRuleHolds, VendorRuleHolds, TermsRuleHolds, RequestRuleHolds, MoneyRuleHolds,
      TransactionRuleHolds, SignerRuleHolds, AmountSchemasValid, NetworkPosition, VendorPosition, TermsPosition,
      RequestPosition, MoneyPosition, TransactionPosition, SignerPosition;
    var policy, offer, proposal := ctx.policy, ctx.offer, ctx.proposal;
    checks' := checks;
    var schemasValid := ctx.formatsValid && AmountSchemasValid(mandate, policy, offer, proposal);
    checks', denied := RecordCheck(ctx, OfMandate(SchemaValid), schemasValid, checks');
    if denied.Some? { return; }
    var idsBound :=
      proposal.incidentId == ctx.incidentId && proposal.mandateId == mandate.id && proposal.offerId == offer.offerId;
    checks', denied := RecordCheck(ctx, OfMandate(ProposalBindsIds), idsBound, checks');
    if denied.Some? { return; }
    checks', denied := RecordCheck(ctx, OfMandate(MandateSubject), mandate.subject == ctx.expectedSubject, checks');
    if denied.Some? { return; }
    checks', denied := RecordCheck(ctx, OfMandate(MandateNotRevoked), mandate.revokedAt.None?, checks');
    if denied.Some? { return; }
    var computedMandateHash := ctx.lib.mandateHash(mandate);
    checks', denied := RecordCheck(ctx, OfMandate(MandateHash), mandate.mandateHash == computedMandateHash, checks');
    if denied.Some? { return; }
    checks', denied := RecordCheck(ctx, OfMandate(MandateAttestation), ctx.mandateAttestation, checks');
    if denied.Some? { return; }
    var computedPolicyHash := ctx.lib.policyHash(policy);
    checks', denied := RecordCheck(ctx, OfMandate(ExecutionPolicyHash), policy.policyHash == computedPolicyHash,
      checks');
    if denied.Some? { return; }
    var policyBindingValid :=
      mandate.executionPolicyHash == policy.policyHash && proposal.executionPolicyHash == policy.policyHash;
    checks', denied := RecordCheck(ctx, OfMandate(ExecutionPolicyBinding), policyBindingValid, checks');
    if denied.Some? { return; }
    checks', denied := RecordCheck(ctx, OfMandate(MandateIssuer),
      mandate.issuerPrincipal == ctx.expectedIssuerPrincipal, checks');
    if denied.Some? { return; }
    var mandateTimeValid := !(ctx.now < mandate.notBefore) && ctx.now < mandate.expiresAt
      && ctx.now < proposal.expiresAt;
    checks', denied := RecordCheck(ctx, OfMandate(MandateTimeWindow), mandateTimeValid, checks');
  }

  /** The rules on the network and the asset. */
  method CheckNetwork(ctx: Context, mandate: Mandate, checks: seq<Check>)
    returns (checks': seq<Check>, denied: Option<Decision>)
    requires ctx.mandate == Some(mandate) && PassedInOrder(ctx, checks) && |checks| == 11
    ensures denied.None? ==> PassedInOrder(ctx, checks') && |checks'| == 17
    ensures denied.Some? ==> denied.value == Evaluate(ctx)
  {
    hide Evaluate, PassedInOrder, MandateRuleHolds, VendorRuleHolds, TermsRuleHolds, RequestRuleHolds, MoneyRuleHolds,
      TransactionRuleHolds, SignerRuleHolds, MandatePosition, VendorPosition, TermsPosition, RequestPosition,
      MoneyPosition, TransactionPosition, SignerPosition;
    var policy, offer, proposal := ctx.policy, ctx.offer, ctx.proposal;
    checks' := checks;
    var clusterValid :=
      && ctx.observed.clusterLabel == mandate.clusterLabel
      && proposal.network.clusterLabel == policy.network.clusterLabel
      && proposal.network.clusterLabel == ctx.observed.clusterLabel;
    checks', denied := RecordCheck(ctx, OfNetwork(NetworkCluster), clusterValid, checks');
    if denied.Some? { return; }
    var genesisValid :=
      ctx.observed.genesisHash == policy.network.genesisHash
        && proposal.network.genesisHash == policy.network.genesisHash;
    checks', denied := RecordCheck(ctx, OfNetwork(NetworkGenesis), genesisValid, checks');
    if denied.Some? { return; }
    var caip2Valid :=
      proposal.network.x402NetworkId == policy.network.x402NetworkId && offer.network == policy.network.x402NetworkId;
    checks', denied := RecordCheck(ctx, OfNetwork(NetworkCaip2), caip2Valid, checks');
    if denied.Some? { return; }
    var sdkValid :=
      ctx.observed.sdkNetworkId == policy.network.sdkNetworkId
        && proposal.network.sdkNetworkId == policy.network.sdkNetworkId;
    checks', denied := RecordCheck(ctx, OfNetwork(NetworkSdk), sdkValid, checks');
    if denied.Some? { return; }
    var mintValid :=
      proposal.assetMint == policy.assetMint && proposal.assetMint == mandate.assetMint
        && proposal.assetMint == offer.assetMint;
    checks', denied := RecordCheck(ctx, OfNetwork(AssetMint), mintValid, checks');
    if denied.Some? { return; }
    checks', denied := RecordCheck(ctx, OfNetwork(AssetDecimals), policy.assetDecimals == 6, checks');
  }

  /** The rules on the vendor, the facilitator and the recipient. */
  method CheckVendor(ctx: Context, mandate: Mandate, checks: seq<Check>)
    returns (checks': seq<Check>, denied: Option<Decision>, providerOrigin: Option<string>)
    requires ctx.mandate == Some(mandate) && PassedInOrder(ctx, checks) && |checks| == 17
    ensures denied.None? ==> PassedInOrder(ctx, checks') && |checks'| == 22
    ensures denied.Some? ==> denied.value == Evaluate(ctx)
    ensures denied.None? ==> providerOrigin.Some? && providerOrigin == ProviderOrigin(ctx)
  {
    hide Evaluate, PassedInOrder, MandateRuleHolds, NetworkRuleHolds, TermsRuleHolds, RequestRuleHolds,
      MoneyRuleHolds, TransactionRuleHolds, SignerRuleHolds, MandatePosition, NetworkPosition, TermsPosition,
      RequestPosition, MoneyPosition, TransactionPosition, SignerPosition;
    var policy, offer, proposal := ctx.policy, ctx.offer, ctx.proposal;
    checks' := checks;
    providerOrigin := None;
    var capabilityValid :=
      Some(ctx.requiredCapability) == offer.capability && offer.capability.GetOr("") in mandate.allowedCapabilities;
    checks', denied := RecordCheck(ctx, OfVendor(CapabilityAllowlist), capabilityValid, checks');
    if denied.Some? { return; }
    var agentCardValid := offer.providerAgentCardHash in mandate.allowedAgentCardHashes;
    checks', denied := RecordCheck(ctx, OfVendor(AgentCardAllowlist), agentCardValid, checks');
    if denied.Some? { return; }
    var providerUrl := ctx.lib.normalizeUrl(offer.providerAgentCardUrl, None);
    providerOrigin := if Truthy(providerUrl) then Some(ctx.lib.originOf(providerUrl.value)) else None;
    var vendorOriginValid :=
      && providerOrigin.Some?
      && exists o :: o in mandate.allowedVendorOrigins && ctx.lib.normalizeOrigin(o) == providerOrigin;
    checks', denied := RecordCheck(ctx, OfVendor(VendorOrigin), vendorOriginValid, checks');
    if denied.Some? { return; }
    var facilitatorOrigin := ctx.lib.normalizeOrigin(ctx.challenge.facilitatorOrigin);
    var facilitatorValid :=
      && facilitatorOrigin.Some?
      && exists o :: o in policy.allowedFacilitatorOrigins && ctx.lib.normalizeOrigin(o) == facilitatorOrigin;
    checks', denied := RecordCheck(ctx, OfVendor(FacilitatorOrigin), facilitatorValid, checks');
    if denied.Some? { return; }
    var recipientValid := proposal.recipient in mandate.allowedRecipients && proposal.recipient == offer.payee;
    checks', denied := RecordCheck(ctx, OfVendor(RecipientAllowlist), recipientValid, checks');
  }

  /** The rules on the offer and the challenge. */
  method CheckTerms(ctx: Context, mandate: Mandate, checks: seq<Check>)
    returns (checks': seq<Check>, denied: Option<Decision>)
    requires ctx.mandate == Some(mandate) && PassedInOrder(ctx, checks) && |checks| == 22
    ensures denied.None? ==> PassedInOrder(ctx, checks') && |checks'| == 28
    ensures denied.Some? ==> denied.value == Evaluate(ctx)
  {
    hide Evaluate, PassedInOrder, MandateRuleHolds, NetworkRuleHolds, VendorRuleHolds, RequestRuleHolds,
      MoneyRuleHolds, TransactionRuleHolds, SignerRuleHolds, MandatePosition, NetworkPosition, VendorPosition,
      RequestPosition, MoneyPosition, TransactionPosition, SignerPosition;
    var offer, proposal := ctx.offer, ctx.proposal;
    checks' := checks;
    checks', denied := RecordCheck(ctx, OfTerms(OfferHash), true, checks');
    if denied.Some? { return; }
    checks', denied := RecordCheck(ctx, OfTerms(OfferSignature), ctx.offerSignature, checks');
    if denied.Some? { return; }
    checks', denied := RecordCheck(ctx, OfTerms(OfferExpiry), ctx.now < offer.expiresAt, checks');
    if denied.Some? { return; }
    checks', denied := RecordCheck(ctx, OfTerms(ChallengeSignature), ctx.challenge.verified, checks');
    if denied.Some? { return; }
    checks', denied := RecordCheck(ctx, OfTerms(ChallengeExpiry), ctx.now < ctx.challenge.expiresAt, checks');
    if denied.Some? { return; }
    var challengeBindingValid :=
      && ctx.challenge.scheme == "exact"
      && ctx.challenge.challengeHash == proposal.challengeHash
      && ctx.challenge.network == proposal.network.x402NetworkId
      && ctx.challenge.assetMint == proposal.assetMint
      && ctx.challenge.amount == proposal.amount
      && ctx.challenge.payee == proposal.recipient;
    checks', denied := RecordCheck(ctx, OfTerms(ChallengeBinding), challengeBindingValid, checks');
  }

  /** The rules on the request and the transport. */
  method CheckRequest(ctx: Context, mandate: Mandate, checks: seq<Check>, providerOrigin: Option<string>)
    returns (checks': seq<Check>, denied: Option<Decision>)
    requires ctx.mandate == Some(mandate) && PassedInOrder(ctx, checks) && |checks| == 28
    requires providerOrigin.Some? && providerOrigin == ProviderOrigin(ctx)
    ensures denied.None? ==> PassedInOrder(ctx, checks') && |checks'| == 35
    ensures denied.Some? ==> denied.value == Evaluate(ctx)
  {
    hide Evaluate, PassedInOrder, MandateRuleHolds, NetworkRuleHolds, VendorRuleHolds, TermsRuleHolds, MoneyRuleHolds,
      TransactionRuleHolds, SignerRuleHolds, ProviderOrigin, MandatePosition, NetworkPosition, VendorPosition,
      TermsPosition, MoneyPosition, TransactionPosition, SignerPosition;
    var offer, proposal := ctx.offer, ctx.proposal;
    checks' := checks;
    var methodValid :=
      && Some(proposal.httpMethod) == offer.httpMethod
      && proposal.httpMethod == ctx.challenge.httpMethod
      && proposal.httpMethod == ctx.request.httpMethod;
    checks', denied := RecordCheck(ctx, OfRequest(RequestMethod), methodValid, checks');
    if denied.Some? { return; }
    var proposalUrl := ctx.lib.normalizeUrl(proposal.resourceUrl, providerOrigin);
    var offerUrl := ctx.lib.normalizeUrl(offer.resourceUrl, providerOrigin);
    var challengeUrl := ctx.lib.normalizeUrl(ctx.challenge.resourceUrl, providerOrigin);
    var requestUrl := ctx.lib.normalizeUrl(ctx.request.resourceUrl, providerOrigin);
    var urlValid := proposalUrl.Some? && proposalUrl == offerUrl && proposalUrl == challengeUrl
      && proposalUrl == requestUrl;
    checks', denied := RecordCheck(ctx, OfRequest(RequestUrl), urlValid, checks');
    if denied.Some? { return; }
    checks', denied := RecordCheck(ctx, OfRequest(RequestBodyHash),
      proposal.canonicalBodyHash == ctx.request.canonicalBodyHash, checks');
    if denied.Some? { return; }
    checks', denied := RecordCheck(ctx, OfRequest(RequestOperationId),
      proposal.operationId == ctx.request.operationId, checks');
    if denied.Some? { return; }
    // createRequestFingerprint normalises the URL once more, and throws when that fails.
    var pinnedUrl := Unwrap(ctx.lib.normalizeUrl(Unwrap(proposalUrl), Some(Unwrap(providerOrigin))));
    var computedFingerprint := ctx.lib.fingerprint(FingerprintInput(
      proposal.httpMethod, pinnedUrl, proposal.operationId, proposal.canonicalBodyHash, proposal.paymentId,
      "exact", proposal.network.x402NetworkId, proposal.assetMint, proposal.amount, proposal.recipient));
    checks', denied := RecordCheck(ctx, OfRequest(RequestFingerprint),
      proposal.requestFingerprint == computedFingerprint, checks');
    if denied.Some? { return; }
    checks', denied := RecordCheck(ctx, OfRequest(RedirectsDisabled), ctx.redirectsDisabled, checks');
    if denied.Some? { return; }
    checks', denied := RecordCheck(ctx, OfRequest(PublicAddresses), ctx.addressesPublic, checks');
  }

  /** The rules on amounts, identifiers and budgets. */
  method CheckMoney(ctx: Context, mandate: Mandate, checks: seq<Check>)
    returns (checks': seq<Check>, denied: Option<Decision>)
    requires ctx.mandate == Some(mandate) && PassedInOrder(ctx, checks) && |checks| == 35
    requires AmountSchemasValid(mandate, ctx.policy, ctx.offer, ctx.proposal)
    ensures denied.None? ==> PassedInOrder(ctx, checks') && |checks'| == 43
    ensures denied.Some? ==> denied.value == Evaluate(ctx)
  {
    hide Evaluate, PassedInOrder, MandateRuleHolds, NetworkRuleHolds, VendorRuleHolds, TermsRuleHolds,
      RequestRuleHolds, TransactionRuleHolds, SignerRuleHolds, Value, Print, IsBaseUnits, MandatePosition,
      NetworkPosition, VendorPosition, TermsPosition, RequestPosition, TransactionPosition, SignerPosition;
    var offer, proposal := ctx.offer, ctx.proposal;
    checks' := checks;
    var amount := ParseBaseUnits(proposal.amount);
    checks', denied := RecordCheck(ctx, OfMoney(AmountPositive), amount.Some? && amount.value > 0, checks');
    if denied.Some? { return; }
    checks', denied := RecordCheck(ctx, OfMoney(AmountCoherent), proposal.amount == offer.amount
      && proposal.amount == ctx.challenge.amount, checks');
    if denied.Some? { return; }
    var perTransactionLimit := Unwrap(ParseBaseUnits(mandate.perTransactionLimit));
    checks', denied := RecordCheck(ctx, OfMoney(PerTransactionLimit), Unwrap(amount) <= perTransactionLimit, checks');
    if denied.Some? { return; }
    checks', denied := RecordCheck(ctx, OfMoney(PaymentIdFresh), !ctx.paymentIdBound, checks');
    if denied.Some? { return; }
    checks', denied := RecordCheck(ctx, OfMoney(NonceFresh), !ctx.nonceBound, checks');
    if denied.Some? { return; }
    checks', denied := RecordCheck(ctx, OfMoney(IdempotencyKeyFresh), !ctx.idempotencyKeyBound, checks');
    if denied.Some? { return; }
    var incidentUsed := ParseBaseUnits(ctx.incidentUsed);
    var incidentLimit := Unwrap(ParseBaseUnits(mandate.incidentLimit));
    var incidentWithinLimit := incidentUsed.Some? && incidentUsed.value + Unwrap(amount) <= incidentLimit;
    checks', denied := RecordCheck(ctx, OfMoney(IncidentBudget), incidentWithinLimit, checks');
    if denied.Some? { return; }
    var dailyUsed := ParseBaseUnits(ctx.dailyUsed);
    var dailyLimit := Unwrap(ParseBaseUnits(mandate.dailyLimit));
    var dailyWithinLimit := dailyUsed.Some? && dailyUsed.value + Unwrap(amount) <= dailyLimit;
    checks', denied := RecordCheck(ctx, OfMoney(DailyBudget), dailyWithinLimit, checks');
  }

  /** The rules on the transaction plan. */
  method CheckTransaction(ctx: Context, mandate: Mandate, checks: seq<Check>)
    returns (checks': seq<Check>, denied: Option<Decision>)
    requires ctx.mandate == Some(mandate) && PassedInOrder(ctx, checks) && |checks| == 43
    requires AmountSchemasValid(mandate, ctx.policy, ctx.offer, ctx.proposal)
    ensures denied.None? ==> PassedInOrder(ctx, checks') && |checks'| == 49
    ensures denied.Some? ==> denied.value == Evaluate(ctx)
  {
    hide Evaluate, PassedInOrder, MandateRuleHolds, NetworkRuleHolds, VendorRuleHolds, TermsRuleHolds,
      RequestRuleHolds, MoneyRuleHolds, SignerRuleHolds, Value, Print, IsBaseUnits, MandatePosition, NetworkPosition,
      VendorPosition, TermsPosition, RequestPosition, MoneyPosition, SignerPosition;
    var policy := ctx.policy;
    checks' := checks;
    checks', denied := RecordCheck(ctx, OfTransaction(TransactionInstructions), ctx.transaction.planVerified, checks');
    if denied.Some? { return; }
    var programsAllowed :=
      |ctx.transaction.programIds| > 0 && forall id :: id in ctx.transaction.programIds ==>
        id in policy.allowedProgramIds;
    checks', denied := RecordCheck(ctx, OfTransaction(ProgramAllowlist), programsAllowed, checks');
    if denied.Some? { return; }
    var accountsAllowed :=
      |ctx.transaction.accountKeys| > 0 && forall key :: key in ctx.transaction.accountKeys ==>
        key in policy.allowedAccountRules;
    checks', denied := RecordCheck(ctx, OfTransaction(AccountAllowlist), accountsAllowed, checks');
    if denied.Some? { return; }
    checks', denied := RecordCheck(ctx, OfTransaction(FeePayer), ctx.transaction.feePayer == policy.feePayer, checks');
    if denied.Some? { return; }
    checks', denied := RecordCheck(ctx, OfTransaction(ExecutorPublicKey),
      ctx.transaction.executorPublicKey == policy.executorPublicKey, checks');
    if denied.Some? { return; }
    var feeUpperBound := ParseBaseUnits(ctx.transaction.networkFeeUpperBound);
    var maxFee := Unwrap(ParseBaseUnits(policy.maxNetworkFee));
    checks', denied := RecordCheck(ctx, OfTransaction(NetworkFeeLimit), feeUpperBound.Some?
      && feeUpperBound.value <= maxFee, checks');
  }

  /** The rules on the signer. */
  method CheckSigner(ctx: Context, mandate: Mandate, checks: seq<Check>)
    returns (checks': seq<Check>, denied: Option<Decision>)
    requires ctx.mandate == Some(mandate) && PassedInOrder(ctx, checks) && |checks| == 49
    ensures denied.None? ==> PassedInOrder(ctx, checks') && |checks'| == 52
    ensures denied.Some? ==> denied.value == Evaluate(ctx)
  {
    hide Evaluate, PassedInOrder, MandateRuleHolds, NetworkRuleHolds, VendorRuleHolds, TermsRuleHolds,
      RequestRuleHolds, MoneyRuleHolds, TransactionRuleHolds, MandatePosition, NetworkPosition, VendorPosition,
      TermsPosition, RequestPosition, MoneyPosition, TransactionPosition;
    var policy := ctx.policy;
    checks' := checks;
    checks', denied := RecordCheck(ctx, OfSigner(PrivateBoundary), ctx.signerPrivate, checks');
    if denied.Some? { return; }
    checks', denied := RecordCheck(ctx, OfSigner(SignerAvailable), ctx.signerAvailable, checks');
    if denied.Some? { return; }
    checks', denied := RecordCheck(ctx, OfSigner(ActiveWallet), ctx.activeWallet == policy.executorPublicKey, checks');
  }

  /**
   * The source's one function, cut into its eight stretches: every condition is
   * computed where the source computes it, and every `!` of the source is
   * proved to find a value, by the rules that passed before.
   */
  method EvaluatePaymentPolicy(ctx: Context) returns (decision: Decision)
    ensures decision == Evaluate(ctx)
  {
    hide Evaluate, PassedInOrder, NetworkRuleHolds, VendorRuleHolds, TermsRuleHolds, RequestRuleHolds, MoneyRuleHolds,
      TransactionRuleHolds, SignerRuleHolds, NetworkPosition, VendorPosition, TermsPosition, RequestPosition,
      MoneyPosition, TransactionPosition, SignerPosition;
    NothingPassed(ctx);
    var checks: seq<Check>, denied := [], None;
    checks, denied := RecordCheck(ctx, OfMandate(MandateExists), ctx.mandate.Some?, checks);
    if denied.Some? { return denied.value; }
    var mandate := Unwrap(ctx.mandate);
    checks, denied := CheckMandate(ctx, mandate, checks);
    if denied.Some? { return denied.value; }
    checks, denied := CheckNetwork(ctx, mandate, checks);
    if denied.Some? { return denied.value; }
    var providerOrigin: Option<string>;
    checks, denied, providerOrigin := CheckVendor(ctx, mandate, checks);
    if denied.Some? { return denied.value; }
    checks, denied := CheckTerms(ctx, mandate, checks);
    if denied.Some? { return denied.value; }
    checks, denied := CheckRequest(ctx, mandate, checks, providerOrigin);
    if denied.Some? { return denied.value; }
    checks, denied := CheckMoney(ctx, mandate, checks);
    if denied.Some? { return denied.value; }
    checks, denied := CheckTransaction(ctx, mandate, checks);
    if denied.Some? { return denied.value; }
    checks, denied := CheckSigner(ctx, mandate, checks);
    if denied.Some? { return denied.value; }
    AllPassed(ctx, checks);
    return Allow(checks);
  }

  lemma NothingPassed(ctx: Context)
    ensures PassedInOrder(ctx, [])
  {
  }

  lemma AllPassed(ctx: Context, checks: seq<Check>)
    requires PassedInOrder(ctx, checks) && |checks| == 52
    ensures Evaluate(ctx) == Allow(checks)
  {
    hide Holds;
    EvaluateIs(POLICY_RULES, ctx, checks);
  }

  // What an allow means.

  lemma EveryRuleHolds(ctx: Context, rule: Rule)
    requires Evaluate(ctx).Allow?
    ensures Holds(rule, ctx)
  {
    hide Evaluate, Holds;
    DecisionIsExact(ctx);
  }

  /** The payment is inside every validity period at once, and under a mandate that is what it claims to be. */
  lemma AllowMeansValidNow(ctx: Context)
    requires Evaluate(ctx).Allow?
    ensures ctx.mandate.Some?
    ensures
      var m, p := ctx.mandate.value, ctx.proposal;
      && m.notBefore <= ctx.now
      && (forall e :: e in [m.expiresAt, p.expiresAt, ctx.offer.expiresAt, ctx.challenge.expiresAt] ==> ctx.now < e)
      && m.revokedAt.None? && m.mandateHash == ctx.lib.mandateHash(m) && ctx.mandateAttestation
      && m.executionPolicyHash == p.executionPolicyHash == ctx.lib.policyHash(ctx.policy)
  {
    hide Evaluate, NetworkRuleHolds, VendorRuleHolds, RequestRuleHolds, MoneyRuleHolds, TransactionRuleHolds,
      SignerRuleHolds, AmountSchemasValid;
    EveryRuleHolds(ctx, OfMandate(MandateTimeWindow));
    EveryRuleHolds(ctx, OfMandate(MandateNotRevoked));
    EveryRuleHolds(ctx, OfMandate(MandateHash));
    EveryRuleHolds(ctx, OfMandate(MandateAttestation));
    EveryRuleHolds(ctx, OfMandate(ExecutionPolicyHash));
    EveryRuleHolds(ctx, OfMandate(ExecutionPolicyBinding));
    EveryRuleHolds(ctx, OfTerms(OfferExpiry));
    EveryRuleHolds(ctx, OfTerms(ChallengeExpiry));
  }

  /** All parties speak of the same network, asset and amount, and the money goes to one allowed recipient. */
  lemma AllowMeansSameTerms(ctx: Context)
    requires Evaluate(ctx).Allow?
    ensures ctx.mandate.Some?
    ensures
      var m, p, c, offer, policy := ctx.mandate.value, ctx.proposal, ctx.challenge, ctx.offer, ctx.policy;
      && ctx.observed.clusterLabel == policy.network.clusterLabel == p.network.clusterLabel == m.clusterLabel
      && ctx.observed.genesisHash == policy.network.genesisHash
      && policy.network.x402NetworkId == p.network.x402NetworkId == offer.network == c.network
      && policy.assetMint == m.assetMint == p.assetMint == offer.assetMint == c.assetMint
      && p.amount == offer.amount == c.amount
      && p.recipient == offer.payee == c.payee && p.recipient in m.allowedRecipients
  {
    hide Evaluate, MandateRuleHolds, RequestRuleHolds, TransactionRuleHolds, SignerRuleHolds, Within, AtMost,
      IsPositive, AllowsOrigin;
    EveryRuleHolds(ctx, OfNetwork(NetworkCluster));
    EveryRuleHolds(ctx, OfNetwork(NetworkGenesis));
    EveryRuleHolds(ctx, OfNetwork(NetworkCaip2));
    EveryRuleHolds(ctx, OfNetwork(AssetMint));
    EveryRuleHolds(ctx, OfVendor(RecipientAllowlist));
    EveryRuleHolds(ctx, OfTerms(ChallengeBinding));
    EveryRuleHolds(ctx, OfMoney(AmountCoherent));
  }

  /** The amount is positive and fits the transaction limit and what is left of both budgets. */
  lemma AllowMeansWithinLimits(ctx: Context)
    requires Evaluate(ctx).Allow?
    ensures ctx.mandate.Some?
    ensures
      var m, p := ctx.mandate.value, ctx.proposal;
      && IsPositive(p.amount) && AmountSchemasValid(m, ctx.policy, ctx.offer, p)
      && AtMost(p.amount, m.perTransactionLimit)
      && Within(ctx.incidentUsed, p.amount, m.incidentLimit)
      && Within(ctx.dailyUsed, p.amount, m.dailyLimit)
      && !ctx.paymentIdBound && !ctx.nonceBound && !ctx.idempotencyKeyBound
  {
    hide Evaluate, NetworkRuleHolds, VendorRuleHolds, TermsRuleHolds, RequestRuleHolds, TransactionRuleHolds,
      SignerRuleHolds, Within, AtMost, IsPositive, AmountSchemasValid;
    EveryRuleHolds(ctx, OfMandate(SchemaValid));
    EveryRuleHolds(ctx, OfMoney(AmountPositive));
    EveryRuleHolds(ctx, OfMoney(PerTransactionLimit));
    EveryRuleHolds(ctx, OfMoney(IncidentBudget));
    EveryRuleHolds(ctx, OfMoney(DailyBudget));
    EveryRuleHolds(ctx, OfMoney(PaymentIdFresh));
    EveryRuleHolds(ctx, OfMoney(NonceFresh));
    EveryRuleHolds(ctx, OfMoney(IdempotencyKeyFresh));
  }

  /**
   * The four URLs are one URL at an allowed vendor's origin, the fingerprint
   * is the one of exactly this request, and the key that signs is the policy's.
   */
  lemma AllowMeansBoundRequest(ctx: Context)
    requires Evaluate(ctx).Allow?
    ensures ctx.mandate.Some?
    ensures
      var p := ctx.proposal;
      && ProviderOrigin(ctx).Some?
      && (exists o :: o in ctx.mandate.value.allowedVendorOrigins && ctx.lib.normalizeOrigin(o) == ProviderOrigin(ctx))
      && Pinned(ctx, p.resourceUrl).Some?
      && (forall url :: url in [ctx.offer.resourceUrl, ctx.challenge.resourceUrl, ctx.request.resourceUrl] ==>
            Pinned(ctx, url) == Pinned(ctx, p.resourceUrl))
      && p.requestFingerprint == FingerprintOf(ctx, Pinned(ctx, p.resourceUrl).value)
      && ctx.transaction.executorPublicKey == ctx.policy.executorPublicKey == ctx.activeWallet
  {
    hide Evaluate, MandateRuleHolds, NetworkRuleHolds, TermsRuleHolds, MoneyRuleHolds, ProviderOrigin, FingerprintOf;
    EveryRuleHolds(ctx, OfVendor(VendorOrigin));
    EveryRuleHolds(ctx, OfRequest(RequestUrl));
    EveryRuleHolds(ctx, OfRequest(RequestFingerprint));
    EveryRuleHolds(ctx, OfTransaction(ExecutorPublicKey));
    EveryRuleHolds(ctx, OfSigner(ActiveWallet));
  }

  /** Three of the rules are never the reason of a denial: what they ask is constant, or was a schema rule. */
  lemma NeverTheReason(ctx: Context)
    ensures Evaluate(ctx).Deny? ==>
      Evaluate(ctx).reasonCode !in {OfTerms(OfferHash), OfNetwork(AssetDecimals), OfMoney(AmountPositive)}
  {
    hide Evaluate, IsPositive;
    DecisionIsExact(ctx);
    PositionsOf();
    if Evaluate(ctx).Deny? {
      var reason := Evaluate(ctx).reasonCode;
      if Position(reason) > 1 {
        assert Holds(OfMandate(SchemaValid), ctx);
      }
    }
  }

  lemma PositionsOf()
    ensures Position(OfMandate(SchemaValid)) == 1 && Position(OfTerms(OfferHash)) == 22
    ensures Position(OfNetwork(AssetDecimals)) == 16 && Position(OfMoney(AmountPositive)) == 35
  {
  }
}
