# Uptime402: a model of its money paths, with proofs

Uptime402 lets a software agent pay for incident recovery with USDC. Three parts
decide whether that money is safe, and this project models them and proves what
they promise:

1. **The ledger and the private executor.** A reservation ledger is written
   twice: in memory, adding up all reservations on every call, and on Firestore,
   with incremental budget counters and identifier-binding documents. On top of
   it `/v1/payments/sign` runs a protocol of some fifteen awaited calls, next to
   other sign requests, mandate revocation, the control plane and crashes. A
   vendor-side claim lets a payment be settled once, and a paid recovery can be
   leased once more.
2. **Strict JSON and canonical JSON.** A hand-written scanner that refuses
   repeated keys, and a hand-written RFC 8785 printer. Every hash, fingerprint
   and signature of the system rests on this pair.
3. **Exact money.** The settlement verifier's token-delta arithmetic and the
   USDC decimal texts of the evidence scripts.

## How to read it

| file | what it holds |
|---|---|
| `Prelude.dfy` | options and results, the code-unit order, the identifier and digest patterns |
| `Ledger.dfy` | reservations, the transition table, filtered sums of amounts |
| `MemoryLedger.dfy`, `CounterLedger.dfy` | the two ledgers: what each call does, and the class whose methods do it |
| `LedgerHistory.dfy` | invariants over every run of ledger calls, and the budget limits |
| `LedgerLaws.dfy`, `FirestoreLaws.dfy` | what every ledger call answers and leaves behind, spelled out field by field and state by state |
| `LedgerRefinement.dfy` | the counter ledger against the recomputing one, and its counters over every run |
| `Mutex.dfy` | the promise-chain mutex, concurrent ledger calls behind it, and the lookups that bypass it |
| `Policy.dfy` | the 52 ordered policy rules, the evaluation that computes them one after the other, and what an allow means |
| `PolicyLaws.dfy` | when the policy allows: one list of agreements, limits and guarantees, and a payment that meets it |
| `Executor.dfy` | the sign protocol as a state machine, one await a step |
| `ExecutorSafety.dfy`, `ExecutorTheorems.dfy` | its invariant, and what follows for every interleaving |
| `ExecutorBinding.dfy`, `ExecutorExpiry.dfy` | what every header is bound to, and the expiries it was published before |
| `ExecutorDecision.dfy` | over every interleaving, nothing is reserved, signed or returned without a policy decision that every rule carried |
| `ExecutorScenarios.dfy` | the handler from its first await to its last: authorized, denied, repeated, failed |
| `VendorClaims.dfy`, `VendorLaws.dfy` | the vendor claim machine and settle-once, and each of its answers spelled out |
| `Reissue.dfy`, `ReissueLaws.dfy` | the reissue validation and its first-lease-wins store, and what each accepts |
| `JsonGrammar.dfy` | JSON texts declaratively, as the texts of syntax trees |
| `JsonScan.dfy`, `JsonReading.dfy`, `JsonAccepting.dfy` | the scanner's reading as functions, its soundness and its completeness |
| `JsonScanner.dfy` | the scanner itself, a class with an index field |
| `Doubles.dfy` | exact powers, the finite doubles of IEEE 754, rounding to the nearest |
| `JsonNumber.dfy` | how a numeral is read as a double and a double written with the fewest digits |
| `JsonValue.dfy` | values, JSON.parse and parseStrictJson |
| `JsonLaws.dfy` | what strict parsing makes of white space, words, strings, numerals, arrays and objects, unit by unit |
| `JsonCanonical.dfy`, `Canonicalizer.dfy` | the canonical form, the canonicalizer, read-back, injectivity and what is refused |
| `JsonMinimal.dfy`, `JsonNumberLaws.dfy` | how a canonical text spells strings and numbers, without the functions that spell them |
| `Settlement.dfy`, `SettlementLaws.dfy` | token balances, deltas and conservation, and the verdict on the listed balances themselves |
| `Decimal.dfy` | decimal printing and parsing |

Classes carry the source's mutable fields (`Repository`, `AuthorizationStore`,
`DuplicateKeyScanner`, `ReissueStore`). Each of their methods is tied to a
specification function on values, and the theorems are about those functions:
a run is a sequence of calls, an interleaving a sequence of atomic steps. The files
named after laws state what the operations do in the caller's terms, with literal
fields, states and code units: they do not use the functions that the methods are
specified by, so those functions are themselves held to an independent account.

## What was found

* **The two ledgers are not quite interchangeable.** Budget usage and identifier
  lookups with an invalid identifier are refused by Firestore and answered by the
  in-memory store, and this is the only difference between runs with well-formed
  patches (`LedgerRefinement.StoresAgree`, an if and only if). A malformed
  fulfilment receipt hash is accepted by both with the same answer, and from then
  on well-formed calls can tell the stores apart
  (`LedgerRefinement.MalformedReceiptSeparates`, an if and only if on the patch;
  `LedgerRefinement.MalformedReceiptIsReachable` gives a run from empty stores).
* **Lookups do not wait for the mutex.** `getReservation` and the three lookups by
  identifier never enter `runExclusive`, so a lookup made after a reserve that was not
  awaited may miss it (`MutexLedger.UnawaitedReserveIsMissed`). What a lookup does see
  is a prefix of the calls in call order (`MutexLedger.LookupsSeeAPrefix`).
* **A claim can be signed without a receipt.** `patch.fulfillmentReceipt ?? record.fulfillmentReceipt`
  falls back to a stored receipt when the patch says null, but the spread then
  stores the null. `VendorSafety.SignedHasReceipt` gives the exact condition of one
  call, `VendorSafety.SignedClaimHasReceipt` that of every reachable claim, and
  `VendorSafety.SignedWithoutReceipt` a run that reaches it.
* **The scalar-string check lets one kind of ill-formed string through**: a string
  whose only fault is a high surrogate at its very end, because the code unit
  after it is NaN (`Canonicalizer.AssertUnicodeScalarString`, an if and only if;
  `Canonicalizer.LoneHighIsTolerated` shows the shortest one).
  The canonical text of such a string still reads back as that string.
* **Canonical texts lose minus zero and nothing else.** JSON.stringify writes `-0` as
  `0`, so a value reads back from its canonical text exactly when it holds no minus
  zero (`Canonicalizer.CanonicalReadsBack` with `JsonCanonical.SettledIsExact`;
  `Canonicalizer.MinusZeroIsLost` is the least input).
* **The scanner skips more white space than RFC 8259 allows** (`\s`); the JSON.parse
  after it refuses those texts, so parseStrictJson as a whole accepts exactly the
  RFC's texts without repeated names (`JsonValue.ParseStrictJson`).
* **The settlement verifier's last three tests are implied**: the total-delta test
  follows from the two owners' tests, and the two final guards can never fire
  (`SettlementConservation.LastGuardsNeverFire`).
* **Three policy rules are never the reason of a denial**: the offer hash is compared
  with itself, and six decimals and a positive amount are already schema rules
  (`Policy.NeverTheReason`). None of the non-null assertions of the evaluation can fail.
* **The store of leases does not check what it is given.** It returns the first lease of
  a payment whatever its input (`Reissue.FirstLeaseWins`), but that leases do not chain
  rests on the validation before the call (`Reissue.LeasesDoNotChain`,
  `Reissue.UnvalidatedLeasesChain`).
* **The executor never sees its own store answer "existing"** when it publishes, and
  the budget evidence after a reservation never throws
  (`ExecutorSafety.PublishSafe`, `ExecutorSafety.EvidenceNeverThrows`).

## Model

| member | source | states |
|---|---|---|
| LedgerSum.SumUpdated | packages/persistence/src/index.ts:373-385 | writing one reservation changes a filtered sum by exactly the difference of its old and new weight |
| MemoryLedger.Repository.AddUp | packages/persistence/src/index.ts:373-385 | the accumulation loop yields the two sums of budget-holding amounts, of the incident and of the day |
| MemoryLedger.Repository.ReserveBudget | packages/persistence/src/index.ts:325-445 | the Maps after a reserve and its result are those of the specification function in every branch; LedgerLaws says what that answers, field by field |
| MemoryLedger.Repository.TransitionReservation | packages/persistence/src/index.ts:467-509 | the Maps after a transition and its result are those of the specification function; LedgerLaws.TransitionIsExact says when it succeeds and what it writes |
| MemoryLedger.Repository.GetBudgetUsage | packages/persistence/src/index.ts:511-529 | the usage is the two sums of holding amounts |
| MemoryLedger.Repository.GetReservationBy | packages/persistence/src/index.ts:452-465 | an identifier lookup goes through its index to the record |
| CounterLedger.Repository.ReadCounter | packages/persistence/src/firestore.ts:454-476 | a counter document is refused when it does not parse or identify its key, and reads as zero when absent |
| CounterLedger.Repository.SetCounter | packages/persistence/src/firestore.ts:616-633 | a counter is written with the new amount and the next version, and nothing else changes |
| CounterLedger.Repository.ReserveBudget | packages/persistence/src/firestore.ts:819-1010 | the documents after a reserve and its result, with every integrity refusal, are those of the specification function; FirestoreLaws says what is answered and written |
| CounterLedger.Repository.CreateReservation | packages/persistence/src/firestore.ts:878-982 | the budget decision from the counters, and the six documents that a new reservation writes |
| CounterLedger.Repository.TransitionReservation | packages/persistence/src/firestore.ts:1059-1172 | the documents after a transition and its result are those of the specification function; FirestoreLaws.CounterTransitionIsExact and FirestoreLaws.TransitionCounts say when it succeeds and which counters fall |
| CounterLedger.Repository.GetBudgetUsage | packages/persistence/src/firestore.ts:1174-1192 | usage read from the counters, refused on invalid identifiers |
| CounterLedger.Repository.GetReservationBy | packages/persistence/src/firestore.ts:1018-1057 | lookup through a binding document with its three integrity checks |
| LedgerLaws.ReserveRefusesTheMalformed | packages/persistence/src/index.ts:300-326 | a reserve throws if and only if an identifier, the fingerprint, the amount or a limit is malformed, and then changes nothing |
| LedgerLaws.StoredIdAnswers | packages/persistence/src/index.ts:287-346 | a stored id is answered with its record if and only if all eight fields of the request are the record's, and with a conflict otherwise |
| LedgerLaws.OneBearerConflicts | packages/persistence/src/index.ts:356-368 | a new id whose identifiers one record bears is a conflict that names the first shared identifier |
| LedgerLaws.SeveralBearersConflict | packages/persistence/src/index.ts:348-354 | a new id whose identifiers several records bear is a mixed conflict with the least of their ids |
| LedgerLaws.NewRequestAnswers | packages/persistence/src/index.ts:370-444 | a request that is new in every respect is measured against what a usage read answers, incident before day, and opens the record written out in the lemma |
| LedgerLaws.RetriesAreAnsweredForEver | packages/persistence/src/index.ts:336-346 | whatever was called in between, an accepted request is answered with its record when only limits and time differ, and with a conflict when anything else does |
| LedgerLaws.LookupsAreExact | packages/persistence/src/index.ts:447-465 | a lookup answers the record that bears exactly this identifier of exactly this kind, or none |
| LedgerLaws.TransitionIsExact | packages/persistence/src/index.ts:467-509 | a transition succeeds if and only if the stored state is expected, the move is in the table of eleven moves, and the bindings of the new state are given; the new record is written out |
| LedgerLaws.EachStateIsLeftOnce | packages/persistence/src/index.ts:480-482 | of all transitions of a run that expect one and the same state of a reservation at most one succeeds, whatever happens in between |
| LedgerLaws.UsageAfterReserve | packages/persistence/src/index.ts:373-444 | a reservation raises the usage of its mandate's incident and day by its amount, and no other usage |
| LedgerLaws.UsageAfterTransition | packages/persistence/src/index.ts:251-258 | usage falls by the amount at a release or refund, and at no other transition |
| FirestoreLaws.AnswersAsTheSimpleStore | packages/persistence/src/firestore.ts:819-1191 | after any calls with well-formed patches a call with valid arguments is answered as those laws say |
| FirestoreLaws.CounterTransitionIsExact | packages/persistence/src/firestore.ts:1059-1172 | after any calls at all a transition succeeds if and only if the state is expected, the move is in the table, the bindings are given and the stored receipt hash is well-formed |
| FirestoreLaws.ReserveWrites | packages/persistence/src/firestore.ts:907-982 | a new reservation is written with its three bindings, and nothing is written otherwise |
| FirestoreLaws.ReserveCounts | packages/persistence/src/firestore.ts:878-982 | a new reservation gives its two counters the next version with its amount added, and no other reserve touches a counter |
| FirestoreLaws.TransitionCounts | packages/persistence/src/firestore.ts:1086-1152 | a release or refund takes the amount out of those two counters, and no other transition touches a counter |
| LedgerHistory.StepKeepsInv | packages/persistence/src/index.ts:325-529 | every call keeps: lawful histories, positive amounts, and the three indexes exactly inverse to the reservations |
| LedgerHistory.RunKeepsInv | packages/persistence/src/index.ts:325-529 | the same over every run of calls |
| LedgerHistory.TransitionedIsLawful | packages/persistence/src/index.ts:480-505 | an accepted transition extends a path of the transition graph, with version one below the number of recorded transitions, and keeps the signature and receipt that late states need |
| LedgerHistory.AtMostSixTransitions | packages/persistence/src/index.ts:231-242 | at most six transitions ever succeed on one reservation, and the sixth is a release or a refund |
| LedgerHistory.HoldingIsNotReentered | packages/persistence/src/index.ts:231-260 | a reservation that has stopped holding budget never holds it again |
| LedgerHistory.BindingsAreForEver | packages/persistence/src/index.ts:328-368 | over any run, also after a release, no reservation disappears, no identity or amount changes, no history is rewritten and no identifier is bound anew |
| LedgerBudget.StepWithinLimits | packages/persistence/src/index.ts:387-407 | with per-mandate limits fixed, no call lets the holding sum of any incident or day exceed its limit |
| LedgerRefinement.StepAgrees | packages/persistence/src/firestore.ts:819-1191 | from coupled states the two ledgers answer a call alike if and only if its read arguments are valid identifiers, and they stay coupled either way |
| LedgerRefinement.RunsAgree | packages/persistence/src/firestore.ts:819-1191 | the same for every sequence of calls with well-formed patches |
| LedgerRefinement.StoresAgree | packages/persistence/src/firestore.ts:819-1191 | from empty stores, all responses of the counter ledger equal those of the recomputing one if and only if all read arguments are valid |
| LedgerRefinement.MalformedReceiptSeparates | packages/persistence/src/firestore.ts:425-430 | after an accepted transition the stores stay indistinguishable if and only if its receipt hash was well-formed |
| LedgerRefinement.MalformedReceiptIsReachable | packages/persistence/src/firestore.ts:425-430 | any admissible request with any malformed receipt hash gives a run from empty stores, accepted by both, after which one read tells them apart |
| LedgerRefinement.KnownAlike | packages/persistence/src/firestore.ts:838-876 | the existing, conflict and mixed-binding answers of the two ledgers coincide, and no binding read fails |
| LedgerRefinement.CountersCover | packages/persistence/src/firestore.ts:1096-1130 | a holding reservation's two counters exist and hold at least its amount, so the missing-counter and underflow errors are unreachable |
| LedgerRefinement.CountersAfterTransition | packages/persistence/src/firestore.ts:1086-1152 | no integrity error can stop a lawful transition, and afterwards every counter is still the sum of its holding reservations |
| CounterLimits.CountersAreExact | packages/persistence/src/firestore.ts:878-1152 | in every reachable state, whatever patches were accepted, every counter present or absent reads as exactly the sum of its budget-holding reservations |
| CounterLimits.CountersNeverExceed | packages/persistence/src/firestore.ts:878-981 | over every run with each mandate's limits fixed, no incident or daily counter is ever negative or above its limit |
| CounterLimits.CounterErrorsUnreachable | packages/persistence/src/firestore.ts:1086-1152 | over every run a transition succeeds if and only if the stored record admits it: no missing-counter or underflow error ever decides |
| CounterLimits.StepKeepsCountersSound | packages/persistence/src/firestore.ts:819-1172 | no call, with a well-formed patch or not, makes a counter inexact or a record unlawful |
| LedgerRefinement.LookupsAgree | packages/persistence/src/firestore.ts:1012-1057 | lookups on coupled states agree if and only if the argument is a valid identifier: no integrity error is ever raised |
| Mutex.AtMostOneRuns | packages/persistence/src/index.ts:203-219 | whatever the schedule, at most one operation runs, in call order, and updates of two operations are never mixed |
| Mutex.AlwaysProgress | packages/persistence/src/index.ts:203-219 | the first call that is not over can run, also when the ones before it threw |
| MutexLedger.ConcurrentIsSequential | packages/persistence/src/index.ts:203-219 | under every schedule the calls that take the mutex leave the Maps, at every moment, as the sequential run of a prefix in call order, and each gets the response of that run |
| MutexLedger.LookupsSeeAPrefix | packages/persistence/src/index.ts:447-465 | a lookup, which takes no mutex, answers from the sequential run of a prefix of the calls that contains all finished ones, and later lookups see no shorter prefix |
| MutexLedger.UnawaitedReserveIsMissed | packages/persistence/src/index.ts:447-450 | a schedule in which a lookup after an unawaited reserve of the same id answers null |
| Policy.PositionIsIndex | packages/policy/src/index.ts:21-74 | every rule stands in POLICY_RULES, at the position its stretch gives it |
| Policy.IndexIsPosition | packages/policy/src/index.ts:21-74 | no rule stands in POLICY_RULES twice |
| Policy.DecisionIsExact | packages/policy/src/index.ts:248-725 | the decision is allow if and only if every rule's condition holds, and a denial names a rule that fails while all rules before it hold |
| Policy.ChecksAreAPrefix | packages/policy/src/index.ts:249-258 | the rules of the recorded checks are a prefix of POLICY_RULES, each recorded with its verdict, up to and including the first failure |
| Policy.EvaluatePaymentPolicy | packages/policy/src/index.ts:248-725 | computing the 52 conditions in the code's order, with its non-null assertions as partial operations that never fail, gives exactly the decision of the first failing rule |
| Policy.CheckMandate | packages/policy/src/index.ts:264-350 | the conditions from schema to time window, as computed in place, are those of their rules in POLICY_RULES order |
| Policy.CheckNetwork | packages/policy/src/index.ts:352-405 | the same for network and asset |
| Policy.CheckVendor | packages/policy/src/index.ts:407-450 | the same for capability, agent card, origins and recipient; the provider's origin it hands on exists when it passes |
| Policy.CheckTerms | packages/policy/src/index.ts:452-493 | the same for offer, challenge and their expiries |
| Policy.CheckRequest | packages/policy/src/index.ts:495-578 | the same for the request; the normal form that the fingerprint needs is there |
| Policy.CheckMoney | packages/policy/src/index.ts:579-647 | the same for amounts, fresh identifiers and budgets; the parsed amount and limits are there |
| Policy.CheckTransaction | packages/policy/src/index.ts:648-703 | the same for the transaction |
| Policy.CheckSigner | packages/policy/src/index.ts:704-722 | the same for the signer |
| Policy.RecordCheck | packages/policy/src/index.ts:250-258 | one recorded check extends the passed prefix, or ends in the whole decision |
| Policy.AllowMeansValidNow | packages/policy/src/index.ts:295-350 | an allow means: now lies inside the mandate's window and before the offer, challenge and proposal expire, and the unrevoked mandate has its own hash and is bound to this policy |
| Policy.AllowMeansSameTerms | packages/policy/src/index.ts:351-493 | an allow means: cluster, network, mint, amount and recipient are the same wherever mandate, policy, proposal, offer and challenge name them |
| Policy.AllowMeansWithinLimits | packages/policy/src/index.ts:578-647 | an allow means: a positive amount within the transaction limit and within what is left of the incident and the daily budget, and unused identifiers |
| Policy.AllowMeansBoundRequest | packages/policy/src/index.ts:426-561 | an allow means: the four URLs are one URL at an allowed origin, the fingerprint is that of exactly this request, and the active wallet is the policy's key |
| Policy.NeverTheReason | packages/policy/src/index.ts:404-581 | no denial ever names the offer hash, the asset decimals or the positive amount |
| PolicyLaws.AllowIsExact | packages/policy/src/index.ts:248-725 | the policy allows if and only if the mandate is there and every party's statement agrees, every period contains now, every limit and budget holds and the planned transaction and signer are the policy's: spelled out by what is agreed, both directions |
| PolicyLaws.ExampleIsAllowed | packages/policy/src/index.ts:248-725 | a family of contexts that the policy allows |
| Executor.Earliest | services/payment-executor/src/index.ts:489-496 | one of the timestamps, and none is earlier |
| Executor.AuthorizationStore.GetReleasable | services/payment-executor/src/index.ts:279-293 | hands out an authorization exactly when context, fingerprint and expiry allow it |
| Executor.AuthorizationStore.PublishIfActive | services/payment-executor/src/index.ts:295-304 | stores exactly when unexpired and the reservation has none yet, and never overwrites |
| ExecutorSafety.EvidenceNeverThrows | services/payment-executor/src/index.ts:443-463 | after a reservation the budget evidence is computed without throwing, from the sum of holding amounts, whatever budget the policy had read |
| ExecutorSafety.PublishSafe | services/payment-executor/src/index.ts:857-952 | when a request publishes, nobody has stored a header for its reservation, and the step keeps the invariant |
| ExecutorSafety.ReserveSafe | services/payment-executor/src/index.ts:784-828 | the atomic reserve of one request keeps every other request's assumptions |
| ExecutorSafety.ReleaseSafe | services/payment-executor/src/index.ts:845-887 | a request only releases a reservation that it owns and that has no header |
| ExecutorSafety.StepSafe | services/payment-executor/src/index.ts:596-967 | no step of any request, operator, control plane or clock leaves the safe states: ledger, owners, signer calls and responses stay consistent (what the policy decides about is ExecutorDecision) |
| ExecutorTheorems.ReachableSafe | services/payment-executor/src/index.ts:596-967 | every state of every interleaving from the start is safe |
| ExecutorTheorems.SignerRunsAtMostOnce | services/payment-executor/src/index.ts:784-855 | over any interleaving the signer is called at most once per reservation id (which is the idempotency key), per payment id and per nonce |
| ExecutorTheorems.OneHeaderPerReservation | services/payment-executor/src/index.ts:596-650 | all responses for a reservation, first or replayed, carry the one header stored for it |
| ExecutorTheorems.HeadersWithinBudget | services/payment-executor/src/index.ts:705-822 | although the policy may read a stale budget, the amounts of all headers ever returned for a mandate's incident, and for a day, are within its limits |
| ExecutorTheorems.ReleasedHasNoHeader | services/payment-executor/src/index.ts:845-945 | for a released reservation no header was returned and none ever will be |
| ExecutorTheorems.PastIsHistory | services/payment-executor/src/index.ts:858-867 | the recorded past at time t is what the activations were before action t |
| ExecutorTheorems.HeaderReadItsMandateActive | services/payment-executor/src/index.ts:857-911 | every returned header came from a request that, while it ran, read its mandate active at exactly the version and hash bound into the header, before the mandate's expiry |
| ExecutorBinding.RunBinds | services/payment-executor/src/index.ts:889-911 | over every interleaving: a request's record was opened for its own proposal, a stored authorization names the payment, mandate and fingerprint of its reservation, and a response fits the request it answers |
| ExecutorBinding.HeaderIsBound | services/payment-executor/src/index.ts:616-650 | a header, first or replayed, is returned only to a request with the fingerprint and decision envelope it was made for, and its reservation has that request's payment, mandate, incident, nonce and amount |
| ExecutorExpiry.PublishedBeforeEveryExpiry | services/payment-executor/src/index.ts:857-914 | over every interleaving each returned header was published before the expiries of mandate, proposal, offer and challenge as its request had been told them, and expires with the first of the four |
| ExecutorExpiry.RunTold | services/payment-executor/src/index.ts:857-914 | the invariant behind it: whatever a request holds or has published traces back to an answer of the authority in the run |
| ExecutorTheorems.NoHeaderAfterRevocation | services/payment-executor/src/index.ts:465-487 | a request that starts after a revocation returns no header bound to that activation version or an earlier one; only a later re-arm that it reads itself can give it one |
| ExecutorTheorems.AllowGuaranteesReserve | services/payment-executor/src/index.ts:728-821 | with nothing in between, an allowing policy means that the ledger reserves, with the budget the policy read |
| ExecutorDecision.RunDecided | services/payment-executor/src/index.ts:661-822 | the invariant behind the next four, over every interleaving: who reserves, signs or publishes was approved on its own context, and what it read was answered by the stores at steps of the run |
| ExecutorDecision.SignedWasAllowed | services/payment-executor/src/index.ts:778-839 | the signer is called only for a request whose own policy context, with its proposal, its time and the active mandate it had loaded, was answered earlier in the run and satisfied every rule |
| ExecutorDecision.HeaderWasAllowed | services/payment-executor/src/index.ts:778-967 | every returned header, first or replayed, was published by such a request |
| ExecutorDecision.ReservationWasAllowed | services/payment-executor/src/index.ts:778-796 | every reservation was opened by such a request, with the fields of its proposal |
| ExecutorDecision.DeniedIsOver | services/payment-executor/src/index.ts:778-782 | a request whose context fails a rule touches nothing with that step, and whatever follows it never signs, publishes or returns anything |
| ExecutorScenarios.QuestionsDecide | services/payment-executor/src/index.ts:616-782 | a new request whose questions are answered in one state goes on to reserve if and only if every rule holds, and has touched nothing |
| ExecutorScenarios.AllowedRequestIsAuthorized | services/payment-executor/src/index.ts:596-967 | after any run, an allowed request gets its header when nothing else happens: its reservation, signer call, stored authorization and response are written out, and nothing else changes |
| ExecutorScenarios.FailedRequestIsReleased | services/payment-executor/src/index.ts:830-939 | when the signer fails, the mandate is revoked before it is read again, or the store does not take the authorization, then nothing is stored or returned, the reservation is released and every budget is what it was |
| ExecutorScenarios.RepeatedRequestIsReplayed | services/payment-executor/src/index.ts:596-650 | after any run, a request whose reservation exists is answered with the stored authorization if and only if state, fingerprint, envelope, expiry and current mandate still allow it, and reserves, signs and stores nothing |
| ExecutorScenarios.HeaderIsReachable | services/payment-executor/src/index.ts:596-967 | a run of sixteen steps from the empty state that returns a header |
| VendorClaims.Repository.ClaimVendorPayment | packages/persistence/src/index.ts:552-587 | acquired, persisted, reconcile or conflict, and the claims afterwards |
| VendorClaims.Repository.MarkVendorSettlementAttempted | packages/persistence/src/index.ts:594-620 | succeeds only on an unattempted claim at the expected version, and sets the flag once |
| VendorClaims.Repository.TransitionVendorPaymentClaim | packages/persistence/src/index.ts:622-664 | compare-and-set along the claim's states with the bindings each state needs, and the patch spread over the record |
| VendorClaims.Repository.ReleaseVendorClaimBeforeSubmission | packages/persistence/src/index.ts:666-681 | deletes exactly an unattempted claim at the expected version |
| VendorLaws.ClaimIsExact | packages/persistence/src/index.ts:552-587 | a claim is acquired if and only if there is none, a conflict if and only if the fingerprint differs, persisted if and only if the receipt is signed, and to be reconciled otherwise, with its reason |
| VendorLaws.MarkIsExact | packages/persistence/src/index.ts:594-620 | an attempt is marked if and only if the claim is settling, unattempted and at the expected version and the signature has 1 to 350000 units |
| VendorLaws.TransitionIsExact | packages/persistence/src/index.ts:622-664 | a transition succeeds if and only if it is the next step from the expected state and version with what that step needs, and the record afterwards is written out |
| VendorLaws.ReleaseIsExact | packages/persistence/src/index.ts:666-681 | a claim is given back if and only if it is settling, unattempted and at the expected version, and no other claim changes |
| VendorLaws.AttemptedIsNeverAcquired | packages/persistence/src/index.ts:558-587 | once an attempt was marked, whatever is called, no later claim of the payment acquires it, and another fingerprint is a conflict |
| VendorLaws.SignedIsPersistedForEver | packages/persistence/src/index.ts:578-580 | a signed claim answers every later claim of its fingerprint with the same record |
| VendorLaws.ReleasedIsAcquiredAgain | packages/persistence/src/index.ts:558-681 | a released claim is acquired anew by the next well-formed request |
| VendorSafety.RunKeepsInv | packages/persistence/src/index.ts:244-249 | over every run a claim's version is its phase, and each phase has its attempt flag, transaction signature and response hash |
| VendorSafety.AttemptedIsForEver | packages/persistence/src/index.ts:594-681 | an attempted claim is never deleted, reset or re-bound, whatever calls follow |
| VendorSafety.EachVersionOnce | packages/persistence/src/index.ts:606-609 | over a whole run each version from 2 on is reached at most once per payment |
| VendorSafety.SettleOnce | packages/persistence/src/index.ts:594-620 | across any claims, releases and re-claims at most one settlement attempt per tenant and payment succeeds, and it leaves its mark |
| VendorSafety.SignedHasReceipt | packages/persistence/src/index.ts:643-654 | a claim that was just signed has a receipt if and only if the patch did not carry a null one |
| VendorSafety.SignedClaimHasReceipt | packages/persistence/src/index.ts:643-661 | over every run a signed claim has a receipt if and only if the patch of the call that signed it did not carry a null one |
| VendorSafety.SignedWithoutReceipt | packages/persistence/src/index.ts:643-661 | a run of five calls that ends in a signed claim whose receipt is null |
| Reissue.ReissueStore.CreateOnce | packages/persistence/src/reissues.ts:34-53 | the stored lease, a new one, or a refusal, and the two documents written |
| Reissue.ApprovalFixesHistory | packages/domain/src/recovery-reissue.ts:40-66 | two validated reissues under one approval have the same original resource and receipt and differ only in times and signature |
| Reissue.LeasesDoNotChain | packages/domain/src/recovery-reissue.ts:44-48 | over any interleaving of validated retries, no lease returned by one call is the original resource of the lease returned by another |
| Reissue.UnvalidatedLeasesChain | packages/persistence/src/reissues.ts:34-53 | without the validation before the call two accepted leases do chain |
| Reissue.FirstLeaseWins | packages/persistence/src/reissues.ts:41-52 | over any interleaving of retries, with any values, all successful calls for a payment return one and the same lease |
| Reissue.EveryLeaseIsBounded | packages/domain/src/recovery-reissue.ts:60-65 | every returned lease lasts at most 600 seconds, begins after the original access and lies within its approval |
| Reissue.AccessOfOnePayment | packages/domain/src/recovery-reissue.ts:60-65 | at any instant a payment has at most one lease, and never beside the original access |
| ReissueLaws.ValidatedIsTheLease | packages/domain/src/recovery-reissue.ts:40-66 | validation accepts exactly the one resource and receipt that approval, original history and the lease's times determine, with the times in order |
| ReissueLaws.CreateIsExact | packages/persistence/src/reissues.ts:34-53 | createOnce makes a lease if and only if approval and original are stored as given, the payment has none and the activation id is unused; it returns the stored one under the same approval, and refuses otherwise without a change |
| ReissueLaws.RetryGetsTheFirst | packages/persistence/src/reissues.ts:44-48 | a retry after the first success gets the lease made then, whatever times it hands in |
| ReissueLaws.SecondApprovalIsRefused | packages/persistence/src/reissues.ts:44-47 | a second approval of the same payment gets nothing |
| JsonScanner.DuplicateKeyScanner.Scan | packages/domain/src/strict-json.ts:7-13 | terminates on every input, and returns normally if and only if the text is that of a well-formed tree no object of which repeats a decoded key |
| JsonScanner.DuplicateKeyScanner.Whitespace | packages/domain/src/strict-json.ts:15-17 | skips exactly the white units at the index |
| JsonScanner.DuplicateKeyScanner.Value | packages/domain/src/strict-json.ts:19-33 | accepts and consumes exactly what the reading of a value does |
| JsonScanner.DuplicateKeyScanner.Object | packages/domain/src/strict-json.ts:35-67 | accepts and consumes exactly an object whose keys are distinct, with the set of keys filled on the way |
| JsonScanner.DuplicateKeyScanner.Array | packages/domain/src/strict-json.ts:69-90 | accepts and consumes exactly an array |
| JsonScanner.DuplicateKeyScanner.String | packages/domain/src/strict-json.ts:92-122 | accepts and consumes exactly a string, and returns its decoded units |
| JsonAccepting.ScanIsExact | packages/domain/src/strict-json.ts:2-123 | a text is read as a tree if and only if it is the text of that well-formed tree: soundness, completeness and unambiguity |
| JsonReading.EntriesSound | packages/domain/src/strict-json.ts:43-66 | whatever object members are read, their text was there, they are well-formed, and no decoded key repeats |
| JsonAccepting.EntriesScan | packages/domain/src/strict-json.ts:43-66 | the text of any well-formed members with fresh keys is read back as those members |
| JsonAccepting.ReadingIsUnique | packages/domain/src/strict-json.ts:2-123 | no text is the text of two well-formed trees |
| JsonValue.ParseStrictJson | packages/domain/src/strict-json.ts:125-128 | accepts exactly the texts of RFC 8259 whose objects have distinct decoded names, and gives the value such a text denotes |
| JsonValue.JsonParseIsTheGrammar | packages/domain/src/strict-json.ts:127 | JSON.parse, as modelled, accepts exactly the grammar of RFC 8259, and later duplicates win |
| JsonLaws.WhiteSpaceAround | packages/domain/src/strict-json.ts:125-128 | the four white units of RFC 8259 may stand before and after any text |
| JsonLaws.FirstUnit | packages/domain/src/strict-json.ts:125-128 | a text with a value begins with one of those or with a unit that a value begins with |
| JsonLaws.WordsAreExact | packages/domain/src/strict-json.ts:27-32 | true, false and null, unit by unit |
| JsonLaws.PlainUnit | packages/domain/src/strict-json.ts:92-122 | a unit between quotes stands for itself if and only if it is at least 0x20 and neither quote nor backslash |
| JsonLaws.LetterEscape | packages/domain/src/strict-json.ts:111-113 | the eight letters that may follow a backslash, and what they stand for |
| JsonLaws.HexEscape | packages/domain/src/strict-json.ts:103-110 | four hexadecimal digits of either case after `\u` are one unit, and nothing else is accepted there |
| JsonLaws.StringsConcatenate | packages/domain/src/strict-json.ts:92-122 | the insides of two strings, joined, are the inside of their concatenation |
| JsonLaws.NumeralsAreExact | packages/domain/src/strict-json.ts:28-32 | a text of digits, signs, points and exponent marks has a value if and only if it is a numeral of RFC 8259, part by part |
| JsonLaws.ArraysAreExact | packages/domain/src/strict-json.ts:69-90 | texts of values in brackets with commas between are the text of the array of those values, and of no other value |
| JsonLaws.EmptyOnes | packages/domain/src/strict-json.ts:36-75 | empty arrays and objects, with white space inside |
| JsonLaws.ObjectsAreExact | packages/domain/src/strict-json.ts:35-67 | members in braces: JSON.parse gives the last value under each name, strict parsing the same if and only if all names differ |
| CodeUnitOrder.BeforeIsByFirstDifference | packages/domain/src/canonical.ts:81 | the order of keys is decided by the first unit in which they differ, a prefix coming first |
| JsonCanonical.LeastKey | packages/domain/src/canonical.ts:81 | the key that comes before all others by UTF-16 code units |
| JsonCanonical.SortedKeys | packages/domain/src/canonical.ts:81 | the keys of an object, each once, in ascending order of UTF-16 code units (section 3.2.3 of RFC 8785) |
| JsonCanonical.QuotedDecodes | packages/domain/src/canonical.ts:41-43 | a quoted string decodes to the string, also when it holds lone surrogates |
| Doubles.RoundIsNearest | packages/domain/src/strict-json.ts:127 | no double is nearer to a magnitude than the one it is rounded to |
| Doubles.OverflowIsExact | packages/domain/src/canonical.ts:35-38 | a numeral overflows to an infinite number exactly from half a step beyond the greatest double on |
| JsonNumber.NumeralBack | packages/domain/src/canonical.ts:35-40 | every finite double is written as a well-formed numeral that is read as that double |
| JsonNumber.NothingShorter | packages/domain/src/canonical.ts:39 | no decimal with fewer digits is read as that double (section 3.2.2.3 of RFC 8785) |
| JsonNumber.NothingNearer | packages/domain/src/canonical.ts:39 | and none with as few digits lies nearer to it |
| JsonNumber.SafeIntegerIsPlain | packages/domain/src/canonical.ts:39 | a safe integer is written as its plain decimal digits |
| JsonCanonical.SettledIsExact | packages/domain/src/canonical.ts:35-40 | writing loses nothing exactly of the values without minus zeros and numbers that are not finite |
| JsonMinimal.PlainTextIsVerbatim | packages/domain/src/canonical.ts:41-43 | a well-formed string without quotes, backslashes and controls is written as it is, in quotes |
| JsonMinimal.OneCharacter | packages/domain/src/canonical.ts:41-43 | each other character is written with its own two-unit escape if it is one of seven, and with four lower-case hexadecimal digits if not |
| JsonMinimal.MinimalIsQuoted | packages/domain/src/canonical.ts:41-43 | a spelling of a string has every character written as section 3.2.2.2 of RFC 8785 demands if and only if it is the one that is written |
| JsonMinimal.NoSpellingIsShorter | packages/domain/src/canonical.ts:41-43 | no other way to write a well-formed string is shorter |
| JsonNumberLaws.WrittenShape | packages/domain/src/canonical.ts:39 | where a number is written with a point, with trailing zeros or with an exponent, by its magnitude |
| JsonNumberLaws.WrittenDigitsAreBest | packages/domain/src/canonical.ts:39 | the digits written are the fewest that read back as the number, and the nearest of those |
| Canonicalizer.AssertUnicodeScalarString | packages/domain/src/canonical.ts:9-24 | accepts exactly well-formed UTF-16 and strings whose only fault is a high surrogate at the end |
| Canonicalizer.LoneHighIsTolerated | packages/domain/src/canonical.ts:9-24 | a single high surrogate is accepted, and written as an escape |
| Canonicalizer.SerializeCanonical | packages/domain/src/canonical.ts:26-100 | the canonical text of the value or a refusal; Canonicalizer.RefusalIsExact says when, JsonMinimal and JsonNumberLaws how strings and numbers are spelled |
| Canonicalizer.RefusalIsExact | packages/domain/src/canonical.ts:9-93 | a value is refused if and only if somewhere in it there is a number that is not finite, or a string or key with an unpaired surrogate other than a high one at its end |
| Canonicalizer.ExampleDocument | packages/domain/src/canonical.ts:26-104 | the canonical text of one document with every kind of value, unit by unit |
| Canonicalizer.SerializeArray | packages/domain/src/canonical.ts:61-70 | pushing the items' texts and joining them gives the text of the array |
| Canonicalizer.SerializeObject | packages/domain/src/canonical.ts:80-93 | joining the members' texts in key order gives the text of the object |
| Canonicalizer.CanonicalReadsBack | packages/domain/src/canonical.ts:102-104 | strict parsing accepts every canonical text and gives exactly the value it was made from, a minus zero becoming zero |
| Canonicalizer.MinusZeroIsLost | packages/domain/src/canonical.ts:35-40 | the value of the text `-0` is accepted, and its canonical text reads back as zero |
| Canonicalizer.CanonicalIsInjective | packages/domain/src/canonical.ts:102-117 | two values have the same canonical text if and only if they are equal, key order and the sign of zero aside |
| Canonicalizer.CanonicalFormIsExact | packages/domain/src/canonical.ts:26-104 | among all trees with a value, the canonical text's tree is the only one without white space, with ascending names, numerals as they are written and every character spelled as section 3.2.2.2 of RFC 8785 demands |
| Settlement.IndexTokenBalances | packages/payments/src/settlement.ts:148-157 | the map by account index, or a refusal exactly when an index repeats |
| Settlement.CollectDeltas | packages/payments/src/settlement.ts:228-262 | the non-zero deltas in order, or a refusal exactly when some account is objectionable; SettlementLaws.DeltasAreTheChanges and the refusals beside it say so of the listed balances |
| Settlement.VerifyDeltas | packages/payments/src/settlement.ts:224-293 | the verdict of the whole delta part; SettlementLaws.PlainTransferIsExact says what it is, with the mint written out |
| SettlementConservation.VerdictIsExact | packages/payments/src/settlement.ts:224-293 | verification succeeds if and only if the listed balances are well-formed, the payer's accounts lost exactly the amount, the payee's gained it, and every other account holds what it held |
| SettlementConservation.VerifiedConserves | packages/payments/src/settlement.ts:264-287 | then the total over all listed USDC accounts is unchanged |
| SettlementConservation.SumsAreDifferences | packages/payments/src/settlement.ts:264-273 | the sum of an owner's deltas is what the owner's accounts hold afterwards less what they held before |
| SettlementConservation.LastGuardsNeverFire | packages/payments/src/settlement.ts:282-293 | the total-delta test and the two final guards are implied by the tests before them |
| SettlementLaws.PlainTransferIsExact | packages/payments/src/settlement.ts:224-293 | for USDC entries with one owner per account the verdict is a success if and only if the payer's listed amounts fell by the amount, the payee's rose by it and every other account kept its own |
| SettlementLaws.OtherMintsDoNotMatter | packages/payments/src/settlement.ts:236-237 | taking the accounts of every other mint out of both lists leaves the verdict as it is |
| SettlementLaws.DeltasAreTheChanges | packages/payments/src/settlement.ts:251-265 | the deltas of a verified transfer are exactly the changed USDC accounts, with owner and both amounts |
| SettlementLaws.RepeatsAreRefused | packages/payments/src/settlement.ts:148-157 | a list that names an account twice is refused |
| SettlementLaws.ChangedMintIsRefused | packages/payments/src/settlement.ts:233-235 | an account whose mint differs before and after is refused |
| SettlementLaws.WrongDecimalsAreRefused | packages/payments/src/settlement.ts:238-243 | a USDC entry without six decimals is refused |
| SettlementLaws.TwoOwnersAreRefused | packages/payments/src/settlement.ts:244-246 | a USDC account with two owners is refused |
| SettlementLaws.MissingOwnerIsRefused | packages/payments/src/settlement.ts:247-250 | a USDC account without an owner is refused |
| SettlementLaws.UnlistedAccountIsRefused | packages/payments/src/settlement.ts:255-258 | a changed USDC account beyond the transaction's account keys is refused |
| SettlementLaws.OmittedOwnerBefore | packages/payments/src/settlement.ts:247 | an owner omitted before the transaction is taken from the entry after it |
| SettlementLaws.OmittedOwnerAfter | packages/payments/src/settlement.ts:247 | and one omitted after it from the entry before |
| Decimal.ParsePrinted | packages/policy/src/index.ts:213-222 | every natural number reads back from its printed form |
| Decimal.PrintParsed | packages/policy/src/index.ts:213-222 | every accepted base-unit text is the print of its value |
| Decimal.DecimalReadsBack | scripts/capture-live-evidence.ts:539-544 | amountToBaseUnits after toUsdcDecimal is the identity on every amount |
| Decimal.DecimalPrintsBack | scripts/verify-evidence.ts:501-505 | the reverse trip gives an accepted text without its trailing fractional zeros |
| Decimal.SameAmountSameText | scripts/verify-evidence.ts:501-505 | two accepted texts mean the same amount if and only if they differ only in trailing fractional zeros |
| Decimal.AmountIsItsDecimalValue | scripts/verify-evidence.ts:501-505 | which texts with at most one point are accepted, and that each means that decimal number of USDC in millionths |
| Schemas.IdentifierGrows | packages/domain/src/schemas.ts:6-12 | the identifier pattern, unit by unit: what it begins with, goes on with and how long it gets |
| Schemas.DigestIsPrefixed | packages/domain/src/schemas.ts:9-16 | a digest is its prefix and sixty-four lower-case hexadecimal digits |

## Left out

- HTTP, IAM, header decoding, DNS-pinned fetch, RPC and facilitator clients, signatures and hashes: their answers are arbitrary inputs of the model; a digest stands for the value it was taken of.
- Zod schemas: records are typed values, amounts integers and timestamps milliseconds; the identifier and SHA-256 patterns are modelled where a store checks them. Years beyond 9999 in the UTC day are not distinguished.
- Firestore transactions are one atomic step; envelopes, record hashes, retries and audit documents are not modelled, nor is the second vendor-claim implementation in packages/persistence/src/firestore.ts, whose audit ids carry no version.
- Denial records, and the evidence values attached to each policy check: only rule, order and verdict are kept. The hash and URL functions that the policy calls are arbitrary functions of the context, with normalisation assumed idempotent; the schemas are modelled in the amounts and decimals that later rules rely on, their other demands are one boolean answer.
- Executor.AuthorizationStore.PublishIfActive: the shown in-memory store does not look at the mandate; in the state machine the store's guard may refuse or throw at will, and a throw means that nothing was stored, as its interface documents.
- The sign handler's identical exits: responses that carry no header all lead to one end state, and the three failure reasons that a release records are one text.
- Canonicalizer.SerializeCanonical: values are finite trees, so cycles, sparse arrays, accessors, symbols and non-plain objects do not occur.
- JsonValue.JsonParseIsTheGrammar: JSON.parse is the platform's, so this is a model of it, not a proof about it; so are the rounding and printing of numbers in Doubles.dfy and JsonNumber.dfy, which follow IEEE 754 and Number::toString of ECMA-262.
- The order of an object's keys: objects are maps, which is sound here because sorting distinct keys depends on their set only.
- AsyncMutex is modelled as a machine over promises and the event loop; single-threaded statements between two awaits are one step.
- Reissue.EveryLeaseIsBounded: it, Reissue.AccessOfOnePayment and Reissue.LeasesDoNotChain assume that every value handed to createOnce was validated, as services/vendor-agent/src/reissue.ts does before the call; the store itself does not check it.
- ExecutorBinding.HeaderIsBound: the hash of a decision envelope stands for the envelope, as a proposal together with the rest of what the hash covers.
- Settlement: the network, status, slot, signature and block-time checks before the delta part.
- parseBoundedStrictJsonBytes, stateSequence, the money check of verify-evidence.ts beyond its decimals, runtime leases and recovery checkpoints: shallow next to what is modelled.
