# NewHumans control plane: verified model

This project models the transactional core of the NewHumans control plane and proves what it keeps
over whole runs. Almost every service function is one atomic transaction on a few tables; here each
is a function from the tables it finds to the tables it leaves, a method of a class that updates the
same tables row by row, and a step of a state machine whose runs the main theorems quantify over.

| part | files |
|---|---|
| cross-product saga, contracts, deliveries | `OperationKeys`, `Sagas`, `SagaRules`, `SagaStore`, `SagaWorker`, `Contracts`, `ContractSagas`, `SagaInvariants`, `SocialDb`, `SagaWorld`, `SagaWorldProofs`, `SagaTheorems`, `SagaWitness`, `SagaOutcomes`, `SocialOutcomes`, `ContractRules` |
| double-entry ledger and idempotent commands | `EventLog`, `Ledger`, `LedgerInvariants`, `LedgerTheorems`, `Commands`, `LedgerRules`, `LedgerDb` |
| metered gateway | `GatewayCharges`, `Holds`, `GatewayTables`, `GatewayRuns`, `Gateway` |
| agent runtime | `Runtime`, `RuntimeTheorems`, `RuntimeRules`, `RuntimeOutcomes`, `RuntimeDb` |
| canonical JSON, migration order | `CanonicalJson`, `MigrationOrder`, `MigrationNames` |
| shared | `Wrappers`, `Text` |

`dafny verify dfyconfig.toml` checks everything.

**Rules.** The operations have two independent accounts: the function its method is proved against, and a rule that says on
the rows alone who may do it, when, and what is left. `SagaRules`, `SagaOutcomes`, `SocialOutcomes`, `ContractRules`, `LedgerRules`,
`GatewayRuns` and `RuntimeRules` prove that they are accepted exactly under its rule, with exactly its effect, and
lift that to runs: who could have brought about what a reachable state shows.

**Saga.** `SagaWorld.Step` has one step for each thing that can happen: contract commands, preparing,
claiming, sending, handling a reply, looking up, NOT_FOUND, committing ACTIVE or SETTLED, the clock. Every
claim and lookup ever handed out stays usable, so a crash is a step that is never taken, and a late,
repeated or outdated report is a step on an old claim. The Knowledge Ball is a map from idempotency key
to a durable decision; the first request to arrive for a key is run or refused, later ones change
nothing, and replies that claim success or refusal report that decision. Replies that claim neither are
unrestricted, as are the digests of lookup answers.

**Gateway.** `GatewayTables.Transaction` lists every transaction that can commit in a world: ledger commands, and
preparing, dispatching, ending, blocking and cancelling any execution. Any of them may commit before each dispatch of a
run and between a dispatch and the end of its attempt. A run assumes only that others do not close its reservation,
prepare an execution on it or book its settlement key; anybody may ask to cancel its execution at any time.

**Three facts about the code that shape the statements.** The store writes RECONCILIATION_REQUIRED into snapshots
that the asserted invariant rejects, and un-freezes them before it observes a result. A result that
contradicts the stored one freezes even a completed saga. And a row whose result is in the inbox but not
in the saga can be handed out again: the first result had a foreign digest, and a NOT_FOUND answer
followed. `SagaTheorems.InboxAloneIsNoFence` shows this, `SagaWitness` with a run of the whole protocol that ends there, and
`SagaTheorems.NotFoundReopensIff` and `SagaTheorems.StoredResultIsNeverSentAgain` give the exact condition.

**Where the documents and the code differ.** `docs/implementation/NH_009_KB_Idempotency_Retry_Contract.md:70-80` treats
a timeout as an unknown outcome that needs a lookup before any retry. The worker sends TIMEOUT and UNAVAILABLE replies
again directly under the same key, as `docs/implementation/NH_011_Cross_Product_Saga.md:142` allows; the model follows the
code, and the theorems hold because a key is run at most once. On the quoted inference path a quote does not always
cover the request: without an explicit output limit `prepareExecution` falls back to the descriptor's limit instead of
the quote's. `GatewayCharges.QuotedPathIsCovered` gives the exact condition, and
`GatewayCharges.QuotedWithoutLimitCanBeRefused` an input.

**How values are represented.** A payload digest is the payload itself, which `CanonicalJson.CanonicalTextIsIdentity`
justifies up to hash collisions. Saga ids, operation keys and contract ids are table keys; operation keys contain the
world. Columns that only repeat the snapshot or only inform (last error, timestamps of rows) are left out. Times are
natural numbers of milliseconds. Strings are sequences of Unicode scalar values, and surrounding spaces count as
already trimmed. The ledger and the runtime are those of one world and one agent, because every query they make is
restricted to it. Identity status, route availability and what the economy answers to the runtime are inputs of the
transaction that asks for them.

## Model

| member | source | states |
|---|---|---|
| OperationKeys.EncodeURIComponentRoundTrip | src/shared/cross_product_saga.js:90-95 | percent-decoding gives back every world or attempt id that was encoded into a key |
| OperationKeys.EncodeURIComponentSlashFree | src/shared/cross_product_saga.js:94 | an encoded part contains no slash, so it cannot imitate a separator |
| OperationKeys.OperationKeyRoundTrip | src/shared/cross_product_saga.js:90-95 | splitting a saga key at its slashes and decoding gives back world, attempt and step |
| OperationKeys.OperationKeyInjective | src/shared/cross_product_saga.js:90-95 | equal keys mean equal world, attempt and step |
| CanonicalJson.BelowTotal | src/integrations/knowledge-ball/idempotency-retry.js:36 | UTF-16 code unit order of keys is total and strict |
| CanonicalJson.BelowIsCodeUnitOrder | src/integrations/knowledge-ball/idempotency-retry.js:36 | the order of keys is exactly the lexicographic order of their UTF-16 code units, surrogate pairs included |
| CanonicalJson.EscapesAreShort | src/integrations/knowledge-ball/idempotency-retry.js:27 | each character is escaped in two, six or no extra characters exactly as JSON requires, so with the round trip its escape is the only one |
| CanonicalJson.ObjectsListKeysInOrder | src/integrations/knowledge-ball/idempotency-retry.js:35-39 | the text of an object lists each of its properties once, strictly ascending by the code units of their keys |
| CanonicalJson.StringRoundTrip | src/integrations/knowledge-ball/idempotency-retry.js:27 | reading an escaped string literal gives back the string, whatever follows it |
| CanonicalJson.ValueParses | src/integrations/knowledge-ball/idempotency-retry.js:25-42 | parsing the canonical text of any valid value, at any depth and before any delimiter, gives back its meaning |
| CanonicalJson.PrintIsInjective | src/integrations/knowledge-ball/idempotency-retry.js:25-47 | two values with one canonical text mean the same, so equal digests of canonical texts mean equal payloads |
| CanonicalJson.MeaningDeterminesPrint | src/integrations/knowledge-ball/idempotency-retry.js:35-40 | values that mean the same have one canonical text, in whatever order their keys were written |
| CanonicalJson.CanonicalTextIsIdentity | src/integrations/knowledge-ball/idempotency-retry.js:25-47 | canonical texts are equal if and only if the values are equal up to key order; valid values are never refused |
| CanonicalJson.DecisionsMean | src/integrations/knowledge-ball/idempotency-retry.js:138-167 | within the budget the same key is sent again exactly after a retryable failure or an unknown outcome that a lookup did not find; an unlooked one is looked up first; a found one is returned |
| CanonicalJson.RetriesStayInBudget | src/integrations/knowledge-ball/idempotency-retry.js:131-167 | an operation that follows the retry decisions makes at most one attempt more than its retry budget |
| Sagas.CreateSagaIsSound | src/shared/cross_product_saga.js:142-172 | a created saga satisfies the asserted invariant and its first command is exactly its request with the step's action |
| Sagas.AdvanceKeepsSound | src/shared/cross_product_saga.js:279-369 | every accepted transition keeps the asserted invariant and the saga's identity, and forgets no result |
| Sagas.EveryRunIsSound | src/shared/cross_product_saga.js:392-443 | the same over every sequence of transitions, rejected ones included, and between any two moments of it |
| Sagas.RefundIsNeverRejected | src/shared/cross_product_saga.js:339-369 | a refund request for a funded activation never fails its own port check, and asks back what was funded |
| SagaRules.PortFollowsTheRule | src/ports/economy_port.js:81-216 | the escrow port takes exactly an action on a positive amount of a named contract for a named principal; a distribution names escrow and receipt and hands out exactly its balance |
| SagaRules.RequestsAreNormalized | src/shared/cross_product_saga.js:104-133 | a step takes exactly an allowed request that names no action or its own, and fills it in |
| SagaRules.InvariantByState | src/shared/cross_product_saga.js:392-443 | the asserted invariant, state by state: identity always, a success where money moved, a refusal where it did not, the refund fields where a refund is under way |
| SagaRules.UnsoundSagasAreRefused | src/shared/cross_product_saga.js:219-369 | a saga that fails its check takes no transition and has no command |
| SagaRules.PrimaryResultsFollowTheRule | src/shared/cross_product_saga.js:279-297 | a primary result is taken exactly when it is for the request's digest and is the one held or the first one waited for; the state says what it said |
| SagaRules.RefundResultsFollowTheRule | src/shared/cross_product_saga.js:299-325 | the same for the refund, whose refusal waits for somebody; a result for any other key is refused |
| SagaRules.EndsFollowTheRule | src/shared/cross_product_saga.js:327-369 | exactly a confirmed success is completed by the local transition of its kind, and exactly a confirmed funding is refunded, in full to its principal |
| SagaRules.CommandsAreDue | src/shared/cross_product_saga.js:198-238 | a command is due exactly while a result is waited for, under its key for both operation and idempotency |
| SagaInvariants.LocalStepKeepsOk | src/services/cross_product_saga_store.js:62-161 | rewriting one saga row and one of its outbox rows keeps all cross-table agreements of all other rows |
| SagaInvariants.KeysBelongToOneSaga | src/services/cross_product_saga_store.js:34-60 | no two sagas share a primary or refund key |
| SagaInvariants.FreshAttemptHasFreshKey | src/services/cross_product_saga_store.js:54-58 | the outbox insert of a new business attempt never meets an existing key |
| SagaInvariants.PrepareIntentKeepsOk | src/services/cross_product_saga_store.js:34-60 | preparing an intent, replayed or not, keeps every table agreement |
| SagaInvariants.ClaimKeepsOk | src/services/cross_product_saga_store.js:62-74 | claims and reclaims of expired leases keep every table agreement |
| SagaInvariants.RecordFailureKeepsOk | src/services/cross_product_saga_store.js:76-98 | failure reports keep every table agreement, although they freeze snapshots in states the asserted invariant rejects |
| SagaInvariants.StoreRefinesSaga | src/services/cross_product_saga_store.js:122-135 | whenever a first result is observed, the un-frozen snapshot is sound, and only a digest mismatch can be thrown |
| SagaInvariants.AcceptKeepsOk | src/services/cross_product_saga_store.js:140-146 | an accepted result leaves the columns equal to the snapshot and the snapshot in the phase of that result |
| SagaInvariants.FreezeKeepsOk | src/services/cross_product_saga_store.js:115-139 | contradicting evidence freezes saga and row, from any state, and keeps every table agreement |
| SagaInvariants.RecordResultKeepsOk | src/services/cross_product_saga_store.js:100-146 | every way of recording a result keeps the agreements, and adds to the inbox only that result under its own key |
| SagaInvariants.MarkCommittedKeepsOk | src/services/cross_product_saga_store.js:149-161 | a local commit keeps the agreements |
| SagaInvariants.CommitIsNeverRejected | src/services/cross_product_saga_store.js:149-161 | the pure saga never refuses the local commit of a stored saga with a confirmed success |
| SagaInvariants.QueueCompensationKeepsOk | src/services/contract_saga.js:178-191 | a funded activation can always queue its refund, the refund row is always new, and it matches the funding |
| SagaInvariants.RetryAfterNotFoundKeepsOk | src/services/cross_product_saga_worker.js:226-247 | NOT_FOUND re-sends only a primary key whose result is unknown |
| SagaWorldProofs.StepKeepsInv | src/services/cross_product_saga_worker.js:60-255 | each of the fifteen kinds of step keeps the invariant of the whole protocol and takes nothing back |
| SagaWorldProofs.RunKeepsInv | src/services/cross_product_saga_worker.js:60-255 | so does every run: sagas, results, keys, requests, contracts and activations only grow |
| SagaWorldProofs.RejectMismatchKeepsInv | src/services/cross_product_saga_worker.js:79-88 | the worker's identity check never fails in a reachable state, so its DEAD_LETTER branch is never taken |
| SagaTheorems.RowsAgree | src/services/cross_product_saga_store.js:100-146 | in every reachable state columns equal snapshots and each result in a saga has its inbox row |
| SagaTheorems.ObservationNeverSurprises | src/services/cross_product_saga_store.js:122-135 | in every reachable state a result meets a saga that satisfies the asserted invariant, and fails only for its digest |
| SagaTheorems.RequestsForOneKeyAgree | src/services/cross_product_saga_worker.js:28-37 | all requests ever sent for one key are equal except for their request id |
| SagaTheorems.EffectsAreOwned | src/services/cross_product_saga_worker.js:28-37 | each operation at the Knowledge Ball belongs to exactly one saga and one of its two keys |
| SagaTheorems.FundsMoveAtMostOnce | src/services/cross_product_saga_worker.js:60-163 | under any interleaving a saga causes at most one primary effect and one refund, and no refund without the primary effect |
| SagaTheorems.RefundFollowsFunding | src/services/contract_saga.js:178-191 | every REFUND follows the executed FUND of its saga and has its amount, principal, contract and returned escrow reference |
| SagaTheorems.RefusedIsNeverFunded | src/services/cross_product_saga_worker.js:151-163 | a saga with a recorded refusal never moved funds and never asks a refund |
| SagaTheorems.UnknownOutcomeIsFenced | src/services/cross_product_saga_store.js:62-97 | a row behind the fence stays out of reach of workers through every run without a NOT_FOUND answer for its key |
| SagaTheorems.ReportedUnknownIsNeverSentAgain | src/services/cross_product_saga_store.js:76-97 | from an accepted report of an unknown outcome on, no run without NOT_FOUND for the key hands the row out again |
| SagaTheorems.StoredResultIsNeverSentAgain | src/services/cross_product_saga_store.js:62-74 | once a saga holds the result of a key, no run ever hands that key out again |
| SagaTheorems.NotFoundReopensIff | src/services/cross_product_saga_worker.js:226-247 | NOT_FOUND re-opens a row exactly when the saga is frozen without a primary result and the row waits for it |
| SagaTheorems.InboxAloneIsNoFence | src/services/cross_product_saga_store.js:110-139 | a result that only the inbox holds is no fence: after a digest mismatch, NOT_FOUND lets the key be sent again |
| SagaWitness.InboxAloneIsNoFenceWitness | src/services/cross_product_saga_store.js:110-139 | a run of ten steps of the whole protocol ends in such a state: the Knowledge Ball ran the key, the inbox holds a result for it, and it is due again |
| SagaTheorems.AmbiguousRefundStaysFenced | src/services/cross_product_saga_worker.js:234 | an ambiguous refund is never sent again, not even after NOT_FOUND |
| SagaTheorems.RetriesAreBounded | src/services/cross_product_saga_store.js:81 | in any run failures move a row to RETRY_WAIT fewer than maxAttempts times |
| SagaTheorems.AtMostOneActivates | src/services/contract_saga.js:193-214 | after one saga committed ACTIVE, no saga of that contract ever does, and it never asks a refund itself |
| SagaTheorems.RefundExcludesActivation | src/services/contract_saga.js:193-205 | a saga that queued its refund never commits ACTIVE afterwards |
| SagaTheorems.ActiveIsPaidAsAgreed | src/services/contract_saga.js:193-214 | every contract past PROPOSED carries the reference of an executed FUND for the price of its current version, accepted by both parties |
| SagaTheorems.PaidStaysPaid | src/services/m04_contracts.js:98-139 | and keeps that reference, version, acceptances and saga in every later state |
| SagaTheorems.SettlementConverges | src/services/contract_saga.js:217-232 | a confirmed settlement commits unless another settlement already settled the contract |
| SagaTheorems.SettlementNeverLosesItsContract | src/services/contract_saga.js:112-164 | from preparation on its contract keeps the version and stays SUBMITTED, DISPUTED or SETTLED |
| SagaTheorems.SettlementConservesEscrow | src/ports/economy_port.js:158-184 | every settlement saga passes the DISTRIBUTE check, and its allocations sum to its amount and to the escrow balance |
| SagaTheorems.ReworkIsBounded | src/services/m04_contract_delivery.js:82-125 | submissions are numbered 1..n without gaps, n <= limit + 1, rejections <= limit, and only the last one is open |
| SagaTheorems.DeliveryReplays | src/services/m04_contract_delivery.js:55-65 | a delivery key replayed after any run returns its delivery and changes nothing |
| SagaOutcomes.RecordingMeans | src/services/cross_product_saga_store.js:100-146 | a report is taken exactly when it is final and its operation is known; it is a duplicate exactly when the inbox holds this very result, and then changes nothing; it conflicts exactly when the inbox holds another result, or none and the digest is not the row's, and then freezes saga and row; otherwise it is the saga's result |
| SagaOutcomes.KnownResultsReplay | src/services/cross_product_saga_store.js:110-119 | once the inbox holds a result, recording it again after any run is answered as a duplicate with the saga's state and changes nothing |
| SagaOutcomes.DefiniteRepliesAreRecordedOnce | src/services/cross_product_saga_worker.js:110-163 | a success or refusal that a worker recorded is recorded for good: recording it again after any run changes nothing |
| SagaOutcomes.FailuresMean | src/services/cross_product_saga_store.js:76-98 | a failure is reported exactly by the holder of the lease; it ends in reconciliation exactly when the outcome is unknown, in a retry exactly while attempts are left, and freezes exactly the saga that is not finished |
| SagaOutcomes.RepliesMean | src/services/cross_product_saga_worker.js:92-163 | each reply is recorded, retried or left in doubt exactly as it says whether the request was run, with the digest, key and reference of its own command |
| SagaOutcomes.ReferencesAreTheFirst | src/services/cross_product_saga_worker.js:40-58 | a distribution is known by its settlement reference and anything else by its escrow reference, or by the first of the other references that is there |
| SagaOutcomes.RequestsNameTheirClaim | src/services/cross_product_saga_worker.js:79-88 | a row is sent exactly when its command is the escrow operation of its own key and digest |
| SagaOutcomes.RepliesDecideTheRow | src/services/cross_product_saga_worker.js:92-163 | a current lease left in doubt is never handed out again in any run without NOT_FOUND for its key; a transient reply is retried exactly while attempts are left |
| SagaOutcomes.ClaimsTakeDueRows | src/services/cross_product_saga_store.js:62-74 | a row is leased exactly when it is due or its lease has run out, for a named worker and an allowed time |
| SagaOutcomes.LeasesAreExclusive | src/services/cross_product_saga_store.js:62-74 | until a lease has run out nobody gets its row |
| SagaOutcomes.LookupsTakeDueSagas | src/services/cross_product_saga_worker.js:182-198 | exactly a frozen saga whose time has come and whose row waits is looked up, and then hidden for the asked time |
| SagaOutcomes.NotFoundMeans | src/services/cross_product_saga_worker.js:226-247 | NOT_FOUND re-sends exactly the primary command of a saga frozen without a result, and changes nothing else |
| SagaOutcomes.CommitsMean | src/services/cross_product_saga_store.js:149-161 | a saga is completed exactly from a confirmed success by the local transition of its kind, and only its row changes |
| SagaOutcomes.RefundsMean | src/services/contract_saga.js:178-191 | a refund is queued exactly for a confirmed funding, under a new key, for all of it, to the principal that paid |
| SagaOutcomes.IntentsMean | src/services/cross_product_saga_store.js:34-60 | an attempt is prepared once; the same digest, contract and version replay the first saga, anything else is refused, and nothing changes either way |
| SagaOutcomes.PreparedIntentsReplay | src/services/cross_product_saga_store.js:34-60 | after any run the same intent is answered with the first saga and changes nothing |
| SocialOutcomes.FundingsStartFromAgreements | src/services/contract_saga.js:87-109 | a funding is prepared exactly from a proposal that both parties accepted in its current version and that says when work is done, for exactly its price; anything else is refused and nothing changes |
| SocialOutcomes.SettlementsStartFromDecisions | src/services/contract_saga.js:112-164 | a settlement is prepared exactly from a decision (an accepted delivery of the current version of a SUBMITTED contract, or a resolved dispute of a DISPUTED one, with ruling and adjudicator), for the contract's own escrow, handing out its whole authoritative balance; anything else is refused and nothing changes |
| SocialOutcomes.SagasWerePrepared | src/services/contract_saga.js:87-164 | in any run every saga entered the store in a step that found an agreement or a decision |
| SocialOutcomes.ActivationsCommit | src/services/contract_saga.js:193-214 | confirmed funds activate exactly the contract that is still agreed in their version, are queued for refund if it is not, and without confirmed funds nothing happens |
| SocialOutcomes.SettlementsCommit | src/services/contract_saga.js:217-232 | a confirmed settlement settles exactly the contract that still waits for it in its version; otherwise nothing happens |
| Contracts.TwoAcceptancesAreBothParties | src/services/contract_saga.js:34-41 | counting two distinct accepting parties is the same as both parties holding live acceptances |
| Contracts.ExecuteKeepsOk | src/services/m04_contract_delivery.js:44-202 | every contract command keeps versions, acceptances and deliveries consistent with the status |
| Contracts.ExecuteGrows | src/services/m04_contracts.js:98-139 | no command takes back an activation, a version, a submission, or the way to SETTLED |
| Contracts.ReviewKeepsOk | src/services/m04_contract_delivery.js:82-125 | only the last submission can be reviewed, and accepting or reworking it keeps the invariant |
| Contracts.RejectionsStayWithinLimit | src/services/m04_contract_delivery.js:104-113 | rejections of a version never exceed its rework limit |
| Contracts.SubmitReplay | src/services/m04_contract_delivery.js:55-65 | the same for any later state of the contract |
| ContractRules.CommandsFollowTheRules | src/services/m04_contract_delivery.js:44-202 | every contract command is accepted exactly under its rule on person, status, version, rework count and capability, and then changes exactly what its rule says |
| ContractRules.ProposalsFollowTheRule | src/services/m04_contracts.js:74-95 | a proposal is accepted exactly from the employer, to another existing party, with complete terms |
| ContractRules.FactsWereEstablished | src/services/m04_contract_delivery.js:44-202 | in any run consent was given by the party itself, work was judged by the employer, and disputes were ruled on with a capability for exactly that ruling |
| ContractSagas.SettlementPassesThePort | src/services/contract_saga.js:72-84 | the service's own checks imply the port's DISTRIBUTE check, for allocation lists of any length |
| ContractSagas.SettlementFailures | src/services/contract_saga.js:112-164 | preparing a settlement fails only for those checks or for the saga's identity, and then changes nothing |
| SocialDb.SocialDb.PrepareIntent | src/services/cross_product_saga_store.js:34-60 | a new attempt gets its saga, attempt and outbox rows together; a replay answers with the first saga and changes nothing; a changed intent is refused |
| SocialDb.SocialDb.ClaimOutbox | src/services/cross_product_saga_store.js:62-74 | hands out some due row of the asked world, leased and counted, or nothing when none is due |
| SocialDb.SocialDb.RecordDispatchFailure | src/services/cross_product_saga_store.js:76-98 | only the lease owner reports; an unknown outcome always ends in reconciliation, and freezes every saga that is not finished |
| SocialDb.SocialDb.RecordFinancialResult | src/services/cross_product_saga_store.js:100-146 | inbox, saga and outbox change together; a result the inbox holds is a duplicate that changes nothing, another one for its key conflicts, and the inbox insert is undone when the transition is refused |
| SocialDb.SocialDb.MarkLocalCommitted | src/services/cross_product_saga_store.js:149-161 | only a confirmed success of the right kind becomes COMPLETED |
| SocialDb.SocialDb.DispatchOnce | src/services/cross_product_saga_worker.js:60-163 | one claim in the asked world, one request for its command, and exactly the result or the failure the answer stands for |
| SocialDb.SocialDb.ClaimDueLookup | src/services/cross_product_saga_worker.js:182-198 | hides exactly one due frozen saga from other reconcilers, or nothing when none is due |
| SocialDb.SocialDb.ApplyNotFound | src/services/cross_product_saga_worker.js:226-247 | un-freezes a saga and its row together, or leaves both |
| SocialDb.SocialDb.PostponeLookup | src/services/cross_product_saga_worker.js:207-254 | postpones only a saga that is still frozen |
| SocialDb.SocialDb.PrepareContractActivation | src/services/contract_saga.js:87-109 | checks in order and prepares the funding of the current price |
| SocialDb.SocialDb.PrepareContractSettlement | src/services/contract_saga.js:112-164 | accepts only a decided contract, for its own escrow, handing out its whole authoritative balance, with the allocation loop |
| SocialDb.SocialDb.CommitContractActivation | src/services/contract_saga.js:193-214 | commits ACTIVE with the confirmed escrow reference, or queues the refund, or changes nothing |
| SocialDb.SocialDb.QueueCompensation | src/services/contract_saga.js:178-191 | queues the refund command beside the saga update |
| SocialDb.SocialDb.CommitContractSettlement | src/services/contract_saga.js:217-232 | commits SETTLED together with the saga, or changes nothing |
| SocialDb.SocialDb.ProposeContract | src/services/m04_contracts.js:74-95 | only the employer proposes, to another party, and the proposal starts at version 1 without acceptances |
| SocialDb.SocialDb.PublishContractVersion | src/services/m04_contracts.js:98-116 | a revision gets the next number, keeps all earlier versions and leaves no live acceptance |
| SocialDb.SocialDb.AcceptContractVersion | src/services/m04_contracts.js:119-139 | a party accepts only the current version of a proposal; it is answered with its live acceptance, and a second one is a replay that changes nothing |
| SocialDb.SocialDb.SubmitDelivery | src/services/m04_contract_delivery.js:44-80 | a submission gets the next number, moves the contract to SUBMITTED and is answered with its delivery; a used key replays that delivery or conflicts |
| SocialDb.SocialDb.ReviewDelivery | src/services/m04_contract_delivery.js:82-125 | only the employer decides, on an open submission of the current version; rework needs a note and a free rework |
| SocialDb.SocialDb.RaiseContractDispute | src/services/m04_contract_delivery.js:127-161 | a party disputes a SUBMITTED contract, at most one of its deliveries is marked, and the contract becomes DISPUTED |
| SocialDb.SocialDb.AdjudicateContractDispute | src/services/m04_contract_delivery.js:178-202 | resolves a dispute only with a capability bound to it |
| SocialDb.AssertAllocations | src/services/contract_saga.js:72-84 | the loop accepts exactly non-empty lists of named decimal amounts that sum to the amount |
| SocialDb.CheckDistribution | src/ports/economy_port.js:158-184 | the port's loop agrees with the specification, and what passes sums to the amount |
| EventLog.AppendKeepsNumbered | src/services/core.js:25-32 | events of each aggregate stay numbered 1, 2, 3, … and each has exactly one outbox row |
| EventLog.NumbersRise | src/services/core.js:25-32 | later events of an aggregate have strictly higher numbers |
| LedgerInvariants.FeeKeyIsFresh | src/services/economy.js:152-163 | a fee journal is never mistaken for the fee of another subject or day |
| LedgerInvariants.SettleKeepsOk | src/services/economy.js:126-150 | settling, also by a replayed journal, keeps every wallet solvent and every journal balanced |
| LedgerTheorems.ExecuteKeepsOk | src/services/economy.js:73-193 | every ledger command keeps the ledger safe and only adds to it |
| LedgerTheorems.LedgerIsSafe | src/services/economy.js:85-163 | in any run each wallet's posted minus frozen minus reserved is never negative, and every journal sums to zero |
| LedgerTheorems.WalletsHoldWhatWasMinted | src/services/economy.js:73-150 | however they are listed, wallet balances sum to what was minted less what was consumed |
| LedgerTheorems.CommandsMoveExactly | src/services/economy.js:73-163 | an accepted command books one journal with exactly its amounts, except replays, zero settlements and settlements under a booked key, which book nothing |
| LedgerTheorems.SettlingNeverLowersAvailable | src/services/economy.js:126-150 | settling never leaves the payer with less available than before |
| LedgerTheorems.BusinessKeyReplays | src/services/economy.js:36-65 | a business key reused with the same posting multiset changes nothing, and with any other content is refused |
| LedgerTheorems.FeesAreForOneDay | src/services/economy.js:152-163 | every fee journal is the fee of some subject and day |
| LedgerTheorems.OneFeePerDay | src/services/economy.js:152-163 | in any run each subject is charged at most once per day, exactly when the fee is on record |
| LedgerTheorems.FeeReplays | src/services/economy.js:187-193 | a paid fee is replayed after any run without a charge |
| LedgerRules.CommandsFollowTheRules | src/services/economy.js:73-193 | every command is accepted exactly under its rule: who acts, what is available, which hold, which key, which day and which minimum |
| LedgerRules.CommandsHaveTheirEffect | src/services/economy.js:100-193 | an accepted command changes exactly its own reservation, fee row or activation |
| LedgerRules.CommandsLogTheirEvents | src/services/economy.js:73-193 | an accepted command logs exactly its events, and a replay logs none |
| LedgerRules.OnlyOwnersSpend | src/services/economy.js:85-193 | whoever leaves a wallet with less, posted or available, owns it, or is an active SYSTEM actor that charges its fee |
| LedgerRules.OnlyOwnersHold | src/services/economy.js:100-150 | a reservation is made and closed only by the entity it belongs to |
| LedgerRules.OnlySystemsMint | src/services/economy.js:73-83 | the treasury changes only by a mint of a SYSTEM entity |
| LedgerRules.WalletsAreSafeFromOthers | src/services/economy.js:73-193 | over any run with no request of its owner and no fee for it, a wallet never has less, posted or available, and its holds stay as they are |
| LedgerRules.TreasuryNeedsAMint | src/services/economy.js:73-83 | over any run the treasury was drawn on only if some request was a mint by an entity that was SYSTEM at that moment |
| LedgerDb.LedgerDb.CreateBalancedJournal | src/services/economy.js:45-65 | the insert loop leaves exactly one new journal with all its postings, or replays, or refuses |
| LedgerDb.LedgerDb.Mint | src/services/economy.js:73-83 | only a SYSTEM actor mints, once per basis key |
| LedgerDb.LedgerDb.Transfer | src/services/economy.js:85-98 | only the owner spends, only what is available, to another wallet, once per business key |
| LedgerDb.LedgerDb.Reserve | src/services/economy.js:100-112 | holds what is available once per key; a replay needs the same amount and an active hold |
| LedgerDb.LedgerDb.Release | src/services/economy.js:114-124 | an active hold goes back to its owner; a settled one never does |
| LedgerDb.LedgerDb.Settle | src/services/economy.js:126-150 | an active hold is charged at most its amount and closed; a settled one replays only its own amount |
| LedgerDb.LedgerDb.Fee | src/services/economy.js:152-163 | one fee per subject and day, only when something stays available afterwards |
| LedgerDb.LedgerDb.FirstActivation | src/services/economy.js:176-185 | a subject is activated once, with its first fee, from the required minimum |
| LedgerDb.LedgerDb.ChargeDailyActivityFee | src/services/economy.js:187-193 | only an activated subject is charged, by itself or an active SYSTEM actor |
| LedgerDb.LedgerDb.AppendEvent | src/services/core.js:25-32 | appends the next numbered event and its outbox row |
| LedgerDb.LedgerDb.RunCommand | src/services/core.js:34-62 | an action runs once; its row answers every replay; another command under its key is refused |
| LedgerDb.LedgerDb.Perform | src/services/core.js:50-61 | a failed command restores every table to its savepoint before the failure is recorded |
| Commands.RunningAgainIsRunningOnce | src/services/core.js:34-62 | whatever its work does, a command sent again after any others changes nothing and gets its first answer |
| Commands.ReusedKeyIsRefused | src/services/core.js:41-48 | a key reused for another command is refused after any run and changes nothing |
| Commands.CommandsKeepLedgerSafe | src/services/core.js:34-62 | the ledger stays safe under commands replayed and reused at will |
| LedgerRules.CallsRunExactlyWhen | src/services/core.js:34-62 | a call does something exactly when it has a key its actor did not use before and the actor is active; then its whole work is kept, or only its failure is recorded |
| LedgerRules.OnlyActiveOwnersSpend | src/services/core.js:34-62 | a wallet loses only to a new call of its active owner, or to a fee that an active SYSTEM actor charges |
| LedgerRules.CallsOfOthersAreSafe | src/services/core.js:34-62 | over any calls of others, replayed and reused at will, a wallet never has less and its holds stay |
| GatewayCharges.ChargeIsTight | src/services/gateway.js:32-43 | the charge covers the exact cost and is less than two microE above it |
| GatewayCharges.ChargeIsMonotone | src/services/gateway.js:36-43 | more tokens never cost less |
| GatewayCharges.AdmissibleIsAccepted | src/services/gateway.js:223-243 | preparation accepts exactly the requests within every limit whose fee is paid and whose own active hold covers an authorization that covers the conservative bound |
| GatewayCharges.AcceptedRequestsAreCovered | src/services/gateway.js:223-243 | whatever is measured within an accepted request's bounds costs at most its authorization, and at most its hold |
| GatewayCharges.QuotesFollowTheRule | src/services/p1_4.js:58-70 | a quote is made exactly within the limits of an available plan, for a day at most, and is never free; it costs what its limits can cost |
| GatewayCharges.QuotesAreUsedWithinTheirScope | src/services/p1_4.js:74-87 | a live quote is reserved at its cost or more, and a reserved one authorizes exactly requests within its scope and time, at its cost |
| GatewayCharges.QuotedPathIsCovered | src/services/p1_4.js:83-89 | on the quoted path preparation succeeds, except exactly when no output limit was given and the descriptor's own costs more than the quote |
| GatewayCharges.QuotedWithoutLimitCanBeRefused | src/services/p1_4.js:83-89 | a concrete quoted request without an output limit that preparation refuses |
| Holds.SparedHoldIsKept | src/services/economy.js:73-193 | no ledger command touches a reservation it does not name, or books a settlement key that is not its own |
| Holds.QuotedInferenceIsPrepared | src/services/p1_4.js:58-89 | a quote, its reservation and any other ledger traffic after it: a request with an output limit is authorized exactly within the quote's limits and time, and then prepared once the fee is paid |
| GatewayRuns.SettlingWorks | src/services/gateway.js:317-335 | settling a funded execution within its authorization always succeeds and books exactly its charge under its own key |
| GatewayRuns.ReleasingWorks | src/services/gateway.js:337-379 | releasing a funded execution always succeeds and books nothing |
| GatewayRuns.DispatchesAreAllowed | src/services/gateway.js:256-300 | an attempt is dispatched exactly when its execution is open, the identity authenticated, the ticket of today, the fee paid, energy available, the route active and, platform-paid, the payer's own active hold covers the authorization; otherwise nothing changes |
| GatewayRuns.MeasuredEndsMean | src/services/gateway.js:317-379 | measured usage is charged exactly when it was authorized and its hold can be settled at it, with one receipt at that charge; otherwise nothing is written |
| GatewayRuns.UnmeasuredEndsMean | src/services/gateway.js:356-392 | a failure without usage gives the hold back and charges nothing; an unknown outcome keeps the hold and asks for reconciliation |
| GatewayRuns.BlocksMean | src/services/gateway.js:337-350 | a blocked dispatch gives back an active hold of the payer, charges nothing and fails the execution |
| GatewayRuns.CancelsMean | src/services/p1_4.js:93 | exactly a proposed execution is cancelled, by its payer, or by a SYSTEM actor when it has no hold; asking changes nothing else |
| GatewayRuns.OthersKeepRun | src/services/gateway.js:414-538 | whatever other transactions commit between two of a run's own, it stands where it stood, or was cancelled before anything was sent |
| GatewayRuns.EndsInStep | src/services/gateway.js:414-538 | however a platform-paid run ends, its attempts are numbered and closed, it has at most one receipt, and the hold is settled at the receipt's charge, given back, or kept for reconciliation, as the status says |
| GatewayRuns.AcceptedCancelMeansNeverDispatched | src/services/p1_4.js:93 | in any run of any transactions, an accepted cancel means that no attempt was or ever will be dispatched, no receipt is ever written and the hold stays given back |
| GatewayRuns.CommitAllKeepsLedgerOk | src/services/gateway.js:276-392 | every run of gateway and ledger transactions keeps the ledger balanced and every wallet solvent |
| Gateway.Gateway.PrepareExecution | src/services/gateway.js:198-254 | accepts exactly the admissible requests; an accepted one stands ready with its own active hold and an unused settlement key, a refused one leaves nothing |
| Gateway.Gateway.MarkAttemptDispatched | src/services/gateway.js:256-300 | dispatches exactly when every condition on execution, identity, day, fee, energy, route and hold is met; a refusal leaves nothing |
| Gateway.Gateway.FinalizeSuccess | src/services/gateway.js:317-335 | settles at the measured charge, writes its receipt and closes its attempt, or throws and leaves nothing |
| Gateway.Gateway.FinalizeFailure | src/services/gateway.js:356-379 | settles a measured failure, releases an unmeasured one, or throws and leaves nothing |
| Gateway.Gateway.FinalizeUnknown | src/services/gateway.js:381-392 | keeps the hold and asks for reconciliation |
| Gateway.Gateway.FinalizeEligibilityFailure | src/services/gateway.js:337-350 | releases an active hold and fails the execution from any status |
| Gateway.Gateway.Conclude | src/services/gateway.js:440-536 | another attempt follows exactly after a safe reply with attempts left; any other reply ends the run with the status, receipt, attempt, event and hold that belong to it, and nothing is thrown |
| Gateway.Gateway.RunAttempts | src/services/gateway.js:414-538 | beside any transactions of others, the loop never throws or runs out, sends at most the allowed attempts, each only when every dispatch condition is met and more than one only with idempotency after safe replies, and ends by its last reply, blocked by an unmet condition, or cancelled before anything was sent |
| Gateway.Gateway.Infer | src/services/gateway.js:414-538 | refused before anything is written exactly when not admissible, or run to one of those ends |
| Gateway.Gateway.CancelExecution | src/services/p1_4.js:93 | a proposed execution is cancelled and its hold given back; a dispatched or ended one is left as it is |
| RuntimeTheorems.StepKeepsInv | src/services/runtime_control.js:219-393 | every runtime transaction keeps the lifecycle, log, lease, checkpoint, schedule and route invariants |
| RuntimeTheorems.LifecycleIsConsistent | src/services/runtime_control.js:219-393 | in every reachable state ACTIVE means available model, IDLE and no flag at all, anything else is BLOCKED, and the transition log chains to the current status |
| RuntimeTheorems.OnlyResumeActivates | src/services/runtime_policy.js:113-126 | resuming, alone or from a due wake, is the only way into ACTIVE, and only with everything in order |
| RuntimeTheorems.EpochsCountAcquisitions | src/services/runtime.js:311-351 | the lease epoch equals the number of acquisitions |
| RuntimeTheorems.EpochNamesOneWorker | src/services/runtime.js:311-386 | at any two moments of a run an epoch stands for one worker, and later holders have no smaller epoch |
| RuntimeTheorems.StaleHoldersAreFenced | src/services/runtime.js:353-474 | once a newer lease was acquired, nothing done with an old epoch passes again |
| RuntimeTheorems.CheckpointsAreOrdered | src/services/runtime.js:416-474 | checkpoint versions strictly rise, with epochs that never fall |
| RuntimeTheorems.ActionsFinishOnce | src/services/runtime_control.js:566-643 | a finished action stays as it was, and a claim is replaced only by one of a higher epoch |
| RuntimeTheorems.ClaimsEndByTheHolder | src/services/runtime_policy.js:227-309 | a claim ends only by its claimer holding the current lease, or by a strictly newer holder of it |
| RuntimeTheorems.TurnsNeedAReadyRuntime | src/services/runtime_policy.js:178-309 | turns are granted or taken over only for an active, funded, unrestricted runtime |
| RuntimeTheorems.WakesRunOnce | src/services/runtime_scheduler.js:79-166 | each wake schedule runs at most once and leaves one piece of evidence |
| RuntimeRules.LeasesFollowTheRules | src/services/runtime.js:311-386 | a lease is given exactly when nobody holds one, with the next epoch, and extended exactly for its holder |
| RuntimeRules.HoldersFollowTheRules | src/services/runtime.js:388-474 | a lease is released exactly once by its last holder, and a checkpoint saved exactly by the holder on the version it has seen |
| RuntimeRules.ResumesFollowTheRule | src/services/runtime_policy.js:113-126 | a runtime is resumed exactly by the subject or the system with nothing in the way, and is then ACTIVE and IDLE |
| RuntimeRules.PausesFollowTheRule | src/services/runtime_control.js:268-299 | a runtime is paused exactly at rest, by the subject or the system, for a reason they may give; only the system records an owner pause |
| RuntimeRules.ReconciliationsFollowTheRule | src/services/runtime_control.js:301-358 | an active runtime is sent dormant exactly when it is short of energy or of the fee, at rest or under its claimant's lease |
| RuntimeRules.RoutesFollowTheRule | src/services/runtime.js:207-305 | a route is published exactly by the system for the profile version it has seen, and becomes the current one |
| RuntimeRules.ModelChangesFollowTheRule | src/services/runtime_control.js:360-393 | the model status is changed exactly by the system, at rest when that ends ACTIVE |
| RuntimeRules.RestrictionsFollowTheRule | src/services/runtime_policy.js:128-176 | exactly the four policy flags are set and cleared, exactly by the system, at rest when that ends ACTIVE |
| RuntimeRules.SchedulesFollowTheRule | src/services/runtime_control.js:503-549 | a dedupe key stands for one schedule: a new row, the row it has with the same terms, or a refusal |
| RuntimeRules.ClaimsFollowTheRules | src/services/runtime_policy.js:178-309 | a turn is granted, taken over, missed or blocked exactly in its situation, and exactly its rows change |
| RuntimeRules.WakesFollowTheRules | src/services/runtime_scheduler.js:79-166 | a due wake is missed, completed or blocked exactly as time and runtime say, with evidence of that outcome |
| RuntimeRules.CompletionsFollowTheRule | src/services/runtime_control.js:619-643 | a completion is accepted exactly from the claimer that still holds its lease, and leaves COMPLETED or BLOCKED exactly as reported, with terms, claimer and epoch kept |
| RuntimeOutcomes.SchedulesChangeBy | src/services/runtime_control.js:566-643 | a schedule changes only by a grant, takeover, miss, block, completion or wake that its rule allows |
| RuntimeOutcomes.StatusesWereEarned | src/services/runtime_control.js:566-643 | in any run every schedule that no longer waits came to its status, claimer and epoch by such a step |
| RuntimeOutcomes.TurnsEndAsReported | src/services/runtime_control.js:619-643 | in any run a COMPLETED turn was reported completed by its claimer holding the lease, a BLOCKED one reported blocked or found lost, a MISSED one late |
| RuntimeOutcomes.WakesEndAsTheirEvidence | src/services/runtime_scheduler.js:79-166 | in any run a wake is COMPLETED, MISSED or BLOCKED exactly when its evidence says so, and has none while it waits |
| RuntimeOutcomes.LeasesChangeBy | src/services/runtime.js:311-414 | a lease changes only by acquiring a free one, by its holder, or by the claim that sends the runtime dormant |
| RuntimeOutcomes.LeasesCannotBeTaken | src/services/runtime.js:311-414 | over any run a lease that has not expired is changed by nobody but its holder |
| RuntimeOutcomes.StrangersChangeNothing | src/services/runtime_control.js:63-72 | whatever actors that are neither system nor subject send, a run is as if they had sent nothing |
| RuntimeOutcomes.StatusChangesBy | src/services/runtime_control.js:219-393 | the life status changes exactly by an allowed activation, or by exactly what ends an active runtime |
| RuntimeOutcomes.FlagsChangeBy | src/services/runtime_control.js:219-393 | each flag is set and cleared only by the steps that own it |
| RuntimeOutcomes.RestrictionsHold | src/services/runtime_policy.js:128-176 | over any run a pause, budget stop, quarantine or suspension stays, and the runtime is not ACTIVE, until the system lifts it |
| RuntimeDb.AgentRuntime.AcquireRuntimeLease | src/services/runtime.js:311-351 | a held lease is never replaced; a new one gets the next epoch |
| RuntimeDb.AgentRuntime.RenewRuntimeLease | src/services/runtime.js:353-386 | only the current holder extends its lease, and the epoch stays |
| RuntimeDb.AgentRuntime.ReleaseRuntimeLease | src/services/runtime.js:388-414 | only the last holder releases, once, expired or not |
| RuntimeDb.AgentRuntime.SaveRuntimeCheckpoint | src/services/runtime.js:416-474 | only the current holder saves, on the state version it has seen, and that version moves on |
| RuntimeDb.AgentRuntime.PublishModelRoute | src/services/runtime.js:207-305 | the next route becomes current with its change record, the model becomes available and the missing-route flag goes |
| RuntimeDb.AgentRuntime.ActivateRuntime | src/services/runtime_control.js:219-266 | enters ACTIVE and IDLE without energy flags, logging the change, or changes nothing |
| RuntimeDb.AgentRuntime.ResumeRuntime | src/services/runtime_policy.js:113-126 | no policy flag may be set; otherwise activates |
| RuntimeDb.AgentRuntime.PauseRuntime | src/services/runtime_control.js:268-299 | a quiescent active runtime becomes DORMANT and BLOCKED, with the flag of its reason |
| RuntimeDb.AgentRuntime.ReconcileActiveRuntime | src/services/runtime_control.js:301-358 | an active runtime that cannot pay its day becomes DORMANT with the flag that says why; a funded one stays |
| RuntimeDb.AgentRuntime.ChangeModelStatus | src/services/runtime_control.js:360-393 | losing the model blocks the runtime and ends ACTIVE; regaining it does not resume |
| RuntimeDb.AgentRuntime.SetRuntimeRestriction | src/services/runtime_policy.js:128-176 | only policy flags change; setting one ends ACTIVE, clearing one does not resume |
| RuntimeDb.AgentRuntime.ScheduleAction | src/services/runtime_control.js:503-549 | one schedule per dedupe key; the same terms replay, others conflict |
| RuntimeDb.AgentRuntime.ClaimScheduledAction | src/services/runtime_control.js:566-617 | a due turn is claimed, missed or blocked by the lease holder, or left when the runtime is not ready |
| RuntimeDb.AgentRuntime.RecoverClaim | src/services/runtime_policy.js:227-309 | only a strictly newer epoch takes over; an unfunded runtime blocks the claim and ends the lease |
| RuntimeDb.AgentRuntime.ClaimAutonomousAction | src/services/runtime_policy.js:178-225 | the one entry for workers: funding first, then takeover of a claimed action or claim of a free one |
| RuntimeDb.AgentRuntime.CompleteScheduledAction | src/services/runtime_control.js:619-643 | only the claimer with its own epoch, still holding the lease, completes, and the row says COMPLETED or BLOCKED as reported |
| RuntimeDb.AgentRuntime.RunDueWakeAction | src/services/runtime_scheduler.js:79-166 | a due wake ends COMPLETED, MISSED or BLOCKED with its evidence, and a funding failure leaves its flag |
| MigrationOrder.ReadAllAccepts | scripts/migration-order.js:51-77 | reading accepts exactly the lists whose names all parse and share no name and no order key |
| MigrationOrder.OrderIsStrict | scripts/migration-order.js:79-84 | accepted names come back strictly increasing, each exactly once |
| MigrationOrder.OrderIgnoresListing | scripts/migration-order.js:51-85 | every permutation of the input gives the same order |
| MigrationOrder.ValidateMigrationFiles | scripts/migration-order.js:51-85 | the loop with its sets of seen names and keys computes that order or the first problem |
| MigrationOrder.ValidateAppliedMetadata | scripts/migration-order.js:93-128 | applied metadata is accepted exactly when it is a prefix of the order |
| MigrationOrder.Migrator.Migrate | scripts/migrate.js:20-41 | wherever the loop stops, the metadata is a prefix again, longer by exactly the executed files in order; a completed run applied every file |
| MigrationOrder.StillPrefix | scripts/migrate.js:24-36 | after each migration the metadata is a prefix that the next run accepts |
| MigrationNames.NamesAreThePattern | scripts/migration-order.js:1-49 | a name is read exactly when it is three or four digits, at most one letter and underscored lower-case words before .sql; such a name is refused exactly when its number is zero |
| MigrationNames.PartsAreRead | scripts/migration-order.js:38-48 | and is read as the value of its digits and the place of its letter |
| MigrationNames.FilesAreAccepted | scripts/migration-order.js:51-77 | well-formed names are accepted exactly when no number is zero and no two share number and letter |
| MigrationNames.OrderFollowsTheNames | scripts/migration-order.js:79-84 | accepted files come back by number, and for one number without a letter first, then by letter |

## Left out

- `FOR UPDATE`, `SKIP LOCKED` and isolation: each transaction is atomic and the choice of a due row is free; `ORDER BY` of candidates is not modelled.
- Database triggers and unique indexes beyond the conflict targets named in the services; nothing proved relies on them.
- SAGA_ALREADY_ACTIVE and SAGA_VERSION_CONFLICT: they need a unique index or a lost row lock that the atomic transactions rule out.
- Liveness of a frozen saga: conflicting evidence and ambiguous refunds stop it for good, and nothing is claimed about it finishing.
- The cause of a failed saga invariant check: all of them are one error, InvalidSaga.
- Escrow BALANCE requests and the other EconomyPort operations: they do not move through the saga.
- Milestone deliveries, review evidence, dispute texts and contract terms that no check reads.
- Lone surrogates in JavaScript strings, and JavaScript's number printing: a number is the token that is printed for it.
- SHA-256, UUIDs, `Date` parsing and HTTP: injective digests, fresh ids, natural times, and nondeterministic provider replies.
- Connector URLs, credentials, provider adapters, sleeps between attempts and the text of messages.
- Replays of `infer` with a used idempotency key: they answer from the stored row and touch neither hold nor provider.
- The terminal statuses of a gateway execution are not absorbing: a blocked dispatch overwrites CANCELLED with FAILED, as the code does.
- SocialDb.DispatchOnce: nothing else commits between its claim and its report, because `SagaWorld` has them as separate steps with anything in between.
- Executions that share one reservation: a run assumes that nobody else uses its hold, and nothing is claimed about two that do.
- Goals, traits, manifests and read-only queries of the runtime: version counters and validators.
- Direct calls to the exported `activateRuntime` and `claimScheduledAction`: the server reaches them only through the policy entries.
- Triggers that react to identity suspension or to a disabled connector; route availability is therefore no part of the lifecycle invariant.
- `validateMigrationNames` of the migration policy, and what the SQL of a migration does.
- WORLD_MISMATCH checks of the ledger, command and runtime services, whose models hold one world.
- Social spaces, relationships, identity bindings, memory and knowledge ports, metrics and readiness.
