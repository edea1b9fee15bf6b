/**
 The pure cross-product saga (src/shared/cross_product_saga.js) and the escrow branch of
 the EconomyPort request check (src/ports/economy_port.js).
 A payload digest is represented by the payload it was computed from.
 */
module Sagas {
  import opened Wrappers
  import opened OperationKeys
  import opened Text

  /** The error codes the services throw. */
  datatype Problem =
    | InvalidSagaInput | InvalidSaga | InvalidSagaState | InvalidSagaResult
    | SagaIdempotencyConflict | SagaResultConflict | InvalidSagaTransition
    | UnexpectedSagaOperation | SettlementCompensationForbidden
    | InvalidMicroE | InvalidEconomyPortEnvelope | InvalidEconomyPortRequest | EscrowAllocationMismatch
    | UniqueViolation | SagaOutboxLeaseLost | SagaOperationNotFound | SagaNotFound | SagaKindMismatch
    | InvalidContractInput | InvalidContractSagaInput | ContractNotFound | ContractPartyNotFound | Forbidden
    | StaleVersion | ContractTermsLocked | ContractNotAccepting
    | IdempotencyConflict | ContractNotDeliverable | InvalidReviewDecision | ContractNotReviewable
    | DeliveryNotFound | DeliveryNotDisputable | DeliveryAlreadyReviewed | ReworkLimitExceeded | ReviewNoteRequired
    | ContractNotDisputable | InvalidAdjudicationOutcome | ResolutionRequired | ForbiddenAdjudicator
    | ContractNotDisputed | DisputeNotFound | DisputeAlreadyResolved
    | ContractNotActivatable | ContractVersionRequired | ContractAcceptanceCriteriaRequired
    | ContractAcceptanceRequired | ContractNotSettleable | ContractEscrowReferenceMismatch
    | ContractAcceptanceDecisionRequired | ContractDisputeResolutionRequired
    | AuthoritativeEscrowSnapshotRequired | EscrowBalanceNotDistributable | InvalidEscrowSnapshot
    | RemoteFundingNotConfirmed | RemoteSettlementNotConfirmed | SettlementForwardRecoveryRequired

  datatype SagaKind = ContractActivation | ContractSettlement

  datatype SagaState =
    | PendingRemote | RemoteSucceeded | Failed | Completed
    | CompensationPending | Compensated | ReconciliationRequired

  datatype EscrowAction = Fund | Distribute | Refund

  datatype Allocation = Allocation(principalRef: string, amount: string)

  /** The payload fields that belong to one escrow action. */
  datatype EscrowDetail =
    | Funding(prepay: seq<Allocation>)
    | Distribution(escrowRef: string, expectedBalance: string, expectedVersion: string,
                   receiptRef: string, observedAt: nat, allocations: seq<Allocation>)
    | Refunding(refundOf: string, reason: string)

  datatype EscrowPayload =
    EscrowPayload(action: Option<EscrowAction>, contractRef: string, amount: string, detail: EscrowDetail)

  datatype FinancialRequest = FinancialRequest(principalRef: string, payload: EscrowPayload)

  /** `payloadDigest`: equal digests are equal payloads. */
  datatype Digest = Sha256(preimage: FinancialRequest)

  datatype FinancialResult =
    FinancialResult(key: string, digest: Digest, succeeded: bool, resultRef: Option<string>, errorCode: Option<string>)

  /** The durable logical intent the outbox stores. */
  datatype Command =
    Command(operation: string, operationKey: string, idempotencyKey: string, correlationId: string, step: SagaStep,
            principalRef: string, digest: Digest, payload: EscrowPayload)

  datatype Saga = Saga(
    kind: SagaKind, sagaId: string, attemptId: string, worldId: string, contractId: string, contractVersion: int,
    state: SagaState,
    primaryStep: SagaStep, primaryKey: string, primaryDigest: Digest, primaryRequest: FinancialRequest,
    primaryResult: Option<FinancialResult>,
    compensationKey: Option<string>, compensationDigest: Option<Digest>,
    compensationRequest: Option<FinancialRequest>, compensationResult: Option<FinancialResult>,
    compensationReason: Option<string>)

  datatype SagaInput = SagaInput(
    sagaId: string, worldId: string, contractId: string, contractVersion: int, attemptId: string,
    request: FinancialRequest)

  function PrimaryStep(kind: SagaKind): SagaStep {
    match kind
    case ContractActivation => FundEscrow
    case ContractSettlement => DistributeEscrow
  }

  function ActionOf(step: SagaStep): EscrowAction {
    match step
    case FundEscrow => Fund
    case DistributeEscrow => Distribute
    case ReleaseEscrow => Refund
  }

  // ---- EconomyPort escrow request ----

  predicate AllDecimal(allocations: seq<Allocation>) {
    forall i :: 0 <= i < |allocations| ==> IsNonNegativeDecimal(allocations[i].amount)
  }

  function AllocationTotal(allocations: seq<Allocation>): nat
    requires AllDecimal(allocations)
  {
    if allocations == [] then 0
    else AllocationTotal(allocations[..|allocations| - 1]) + DecimalValue(allocations[|allocations| - 1].amount)
  }

  /** `walkMicroE`: every `*_micro_e` field, wherever it is nested, is a signed decimal string. */
  predicate MicroEFieldsOk(payload: EscrowPayload) {
    && IsSignedDecimal(payload.amount)
    && match payload.detail
       case Funding(prepay) => forall i :: 0 <= i < |prepay| ==> IsSignedDecimal(prepay[i].amount)
       case Distribution(_, balance, _, _, _, allocations) =>
         IsSignedDecimal(balance) && forall i :: 0 <= i < |allocations| ==> IsSignedDecimal(allocations[i].amount)
       case Refunding(_, _) => true
  }

  /** What DISTRIBUTE demands beyond the fields every escrow action carries. */
  function DistributeProblem(payload: EscrowPayload): (problem: Option<Problem>)
    requires IsPositiveDecimal(payload.amount)
  {
    match payload.detail
    case Distribution(escrowRef, balance, version, receipt, _, allocations) =>
      if escrowRef == "" || receipt == "" then Some(InvalidEconomyPortEnvelope)
      else if !IsPositiveDecimal(balance) then Some(InvalidMicroE)
      else if !IsNonNegativeDecimal(version) then Some(InvalidEconomyPortEnvelope)
      else if allocations == [] then Some(InvalidEconomyPortRequest)
      else if exists i :: 0 <= i < |allocations| && allocations[i].principalRef == "" then Some(InvalidEconomyPortEnvelope)
      else if !AllDecimal(allocations) then Some(InvalidMicroE)
      else if AllocationTotal(allocations) != DecimalValue(balance) || DecimalValue(payload.amount) != DecimalValue(balance)
        then Some(EscrowAllocationMismatch)
      else None
    case _ => Some(InvalidEconomyPortEnvelope)
  }

  /** `assertEconomyPortRequest('escrow', …)` on a principal and a payload with a chosen action. */
  function PortProblem(request: FinancialRequest): Option<Problem> {
    var payload := request.payload;
    if request.principalRef == "" then Some(InvalidEconomyPortEnvelope)
    else if !MicroEFieldsOk(payload) then Some(InvalidMicroE)
    else if payload.action.None? then Some(InvalidEconomyPortRequest)
    else if payload.contractRef == "" then Some(InvalidEconomyPortEnvelope)
    else if !IsPositiveDecimal(payload.amount) then Some(InvalidMicroE)
    else if payload.action == Some(Distribute) then DistributeProblem(payload)
    else None
  }

  /** `canonicalFinancialRequest` */
  function CanonicalRequest(step: SagaStep, request: FinancialRequest): Result<FinancialRequest, Problem> {
    if request.principalRef == "" then Err(InvalidSagaInput)
    else if request.payload.action.Some? && request.payload.action.value != ActionOf(step) then Err(InvalidSagaInput)
    else
      var normalized := request.(payload := request.payload.(action := Some(ActionOf(step))));
      var problem := PortProblem(normalized);
      if problem.Some? then Err(problem.value) else Ok(normalized)
  }

  // ---- Transitions ----

  function CreateSaga(kind: SagaKind, input: SagaInput): Result<Saga, Problem> {
    if input.sagaId == "" || input.worldId == "" || input.contractId == "" || input.attemptId == ""
       || input.contractVersion < 1 then Err(InvalidSagaInput)
    else
      var step := PrimaryStep(kind);
      var request := CanonicalRequest(step, input.request);
      if request.Err? then Err(request.error)
      else Ok(Saga(kind, input.sagaId, input.attemptId, input.worldId, input.contractId, input.contractVersion,
                   PendingRemote,
                   step, OperationKey(input.worldId, input.attemptId, step), Sha256(request.value), request.value,
                   None, None, None, None, None, None))
  }

  /** What never changes after creation, as `assertSagaInvariant` checks it. */
  predicate WellFormed(saga: Saga) {
    && saga.attemptId != "" && saga.worldId != ""
    && saga.primaryStep == PrimaryStep(saga.kind)
    && saga.primaryKey == OperationKey(saga.worldId, saga.attemptId, saga.primaryStep)
    && CanonicalRequest(saga.primaryStep, saga.primaryRequest) == Ok(saga.primaryRequest)
    && saga.primaryDigest == Sha256(saga.primaryRequest)
  }

  predicate HasStatus(result: Option<FinancialResult>, succeeded: bool) {
    result.Some? && result.value.succeeded == succeeded
  }

  /** The refund fields `assertSagaInvariant` demands in the three compensating states. */
  predicate CompensationWellFormed(saga: Saga) {
    && saga.kind == ContractActivation
    && saga.compensationKey == Some(OperationKey(saga.worldId, saga.attemptId, ReleaseEscrow))
    && saga.compensationRequest.Some?
    && CanonicalRequest(ReleaseEscrow, saga.compensationRequest.value) == Ok(saga.compensationRequest.value)
    && saga.compensationDigest == Some(Sha256(saga.compensationRequest.value))
  }

  /** `assertSagaInvariant` does not throw. */
  predicate SagaInvariant(saga: Saga) {
    && WellFormed(saga)
    && (saga.state in {RemoteSucceeded, Completed, CompensationPending, Compensated, ReconciliationRequired}
        ==> HasStatus(saga.primaryResult, true))
    && (saga.state == Failed ==> HasStatus(saga.primaryResult, false))
    && (saga.state in {CompensationPending, Compensated, ReconciliationRequired} ==> CompensationWellFormed(saga))
    && (saga.state == Compensated ==> HasStatus(saga.compensationResult, true))
    && (saga.state == Completed && saga.kind == ContractSettlement ==> saga.compensationKey.None?)
  }

  function Intent(saga: Saga, key: string, step: SagaStep, request: FinancialRequest): Command {
    Command("escrow", key, key, saga.attemptId, step, request.principalRef, Sha256(request), request.payload)
  }

  function PrimaryCommand(saga: Saga): Command {
    Intent(saga, saga.primaryKey, saga.primaryStep, saga.primaryRequest)
  }

  function CompensationCommand(saga: Saga): Command
    requires saga.compensationKey.Some? && saga.compensationRequest.Some?
  {
    Intent(saga, saga.compensationKey.value, ReleaseEscrow, saga.compensationRequest.value)
  }

  function BuildFinancialCommand(saga: Saga): Result<Option<Command>, Problem> {
    if !SagaInvariant(saga) then Err(InvalidSaga)
    else if saga.state == PendingRemote then Ok(Some(PrimaryCommand(saga)))
    else if saga.state == CompensationPending then Ok(Some(CompensationCommand(saga)))
    else Ok(None)
  }

  function ObservePrimary(saga: Saga, result: FinancialResult): Result<Saga, Problem> {
    if result.digest != saga.primaryDigest then Err(SagaIdempotencyConflict)
    else if saga.primaryResult.Some? then
      if saga.primaryResult.value != result then Err(SagaResultConflict) else Ok(saga)
    else if saga.state != PendingRemote then Err(InvalidSagaTransition)
    else Ok(saga.(state := if result.succeeded then RemoteSucceeded else Failed, primaryResult := Some(result)))
  }

  function ObserveCompensation(saga: Saga, result: FinancialResult): Result<Saga, Problem> {
    if saga.compensationKey.None? || Some(result.digest) != saga.compensationDigest then Err(SagaIdempotencyConflict)
    else if saga.compensationResult.Some? then
      if saga.compensationResult.value != result then Err(SagaResultConflict) else Ok(saga)
    else if saga.state != CompensationPending then Err(InvalidSagaTransition)
    else Ok(saga.(state := if result.succeeded then Compensated else ReconciliationRequired,
                  compensationResult := Some(result)))
  }

  function ObserveFinancialResult(saga: Saga, result: FinancialResult): Result<Saga, Problem> {
    if !SagaInvariant(saga) then Err(InvalidSaga)
    else if result.key == "" || (result.succeeded && (result.resultRef.None? || result.resultRef.value == ""))
      then Err(InvalidSagaResult)
    else if result.key == saga.primaryKey then ObservePrimary(saga, result)
    else if Some(result.key) == saga.compensationKey then ObserveCompensation(saga, result)
    else Err(UnexpectedSagaOperation)
  }

  datatype LocalState = LocalActive | LocalSettled

  function MarkLocalTransitionCommitted(saga: Saga, local: LocalState): Result<Saga, Problem> {
    if !SagaInvariant(saga) then Err(InvalidSaga)
    else if saga.state != RemoteSucceeded || !HasStatus(saga.primaryResult, true) then Err(InvalidSagaTransition)
    else if local != (if saga.kind == ContractActivation then LocalActive else LocalSettled) then Err(InvalidSagaTransition)
    else Ok(saga.(state := Completed))
  }

  function RefundRequest(saga: Saga, escrowRef: string, reason: string): FinancialRequest {
    FinancialRequest(
      saga.primaryRequest.principalRef,
      EscrowPayload(Some(Refund), saga.primaryRequest.payload.contractRef, saga.primaryRequest.payload.amount,
                    Refunding(escrowRef, reason)))
  }

  function RequestActivationCompensation(saga: Saga, reason: string): Result<Saga, Problem> {
    if !SagaInvariant(saga) then Err(InvalidSaga)
    else if saga.kind != ContractActivation then Err(SettlementCompensationForbidden)
    else if saga.state != RemoteSucceeded || !HasStatus(saga.primaryResult, true) then Err(InvalidSagaTransition)
    else if reason == "" then Err(InvalidSagaInput)
    else if saga.primaryResult.value.resultRef.None? then Err(InvalidSagaInput)
    else
      var asked := RefundRequest(saga, saga.primaryResult.value.resultRef.value, reason);
      var request := CanonicalRequest(ReleaseEscrow, asked.(payload := asked.payload.(action := None)));
      if request.Err? then Err(request.error)
      else Ok(saga.(
        state := CompensationPending,
        compensationKey := Some(OperationKey(saga.worldId, saga.attemptId, ReleaseEscrow)),
        compensationDigest := Some(Sha256(request.value)),
        compensationRequest := Some(request.value),
        compensationReason := Some(reason)))
  }

  // ---- Properties of the pure saga ----

  lemma CreateSagaIsSound(kind: SagaKind, input: SagaInput)
    requires CreateSaga(kind, input).Ok?
    ensures var saga := CreateSaga(kind, input).value;
      && Sound(saga)
      && BuildFinancialCommand(saga) == Ok(Some(PrimaryCommand(saga)))
      && PrimaryCommand(saga).payload == input.request.payload.(action := Some(ActionOf(saga.primaryStep)))
  {
  }

  /** A transition is one of the four ways the protocol moves a saga. */
  datatype Transition =
    | Observe(result: FinancialResult)
    | CommitLocal(local: LocalState)
    | Compensate(reason: string)

  function Advance(saga: Saga, t: Transition): Result<Saga, Problem> {
    match t
    case Observe(result) => ObserveFinancialResult(saga, result)
    case CommitLocal(local) => MarkLocalTransitionCommitted(saga, local)
    case Compensate(reason) => RequestActivationCompensation(saga, reason)
  }

  /** Rejected transitions leave the saga where it was. */
  function AdvanceAll(saga: Saga, ts: seq<Transition>): Saga {
    if ts == [] then saga
    else
      var before := AdvanceAll(saga, ts[..|ts| - 1]);
      var after := Advance(before, ts[|ts| - 1]);
      if after.Ok? then after.value else before
  }

  /** The identity of a saga and everything its primary funds key stands for. */
  predicate SameIdentity(a: Saga, b: Saga) {
    && a.kind == b.kind && a.sagaId == b.sagaId && a.attemptId == b.attemptId && a.worldId == b.worldId
    && a.contractId == b.contractId && a.contractVersion == b.contractVersion
    && a.primaryStep == b.primaryStep && a.primaryKey == b.primaryKey
    && a.primaryDigest == b.primaryDigest && a.primaryRequest == b.primaryRequest
  }

  /** Once known, a result or a refund intent is never replaced. */
  predicate Remembers(a: Saga, b: Saga) {
    && (a.primaryResult.Some? ==> b.primaryResult == a.primaryResult)
    && (a.compensationResult.Some? ==> b.compensationResult == a.compensationResult)
    && (a.compensationKey.Some? ==>
          && b.compensationKey == a.compensationKey
          && b.compensationRequest == a.compensationRequest
          && b.compensationDigest == a.compensationDigest)
  }

  /**
   What creation establishes and every transition keeps: the asserted invariant, plus the fact it
   leaves out, that the refund fields are set exactly from a refund request on.
   */
  predicate Sound(saga: Saga) {
    && SagaInvariant(saga)
    && (saga.compensationKey.Some? ==>
          && CompensationWellFormed(saga)
          && HasStatus(saga.primaryResult, true)
          && saga.state in {CompensationPending, Compensated, ReconciliationRequired})
    && (saga.compensationKey.None? ==> saga.compensationResult.None?)
  }

  /** Canonicalizing a canonical request changes nothing. */
  lemma CanonicalIsStable(step: SagaStep, request: FinancialRequest)
    requires CanonicalRequest(step, request).Ok?
    ensures var canonical := CanonicalRequest(step, request).value;
      && CanonicalRequest(step, canonical) == Ok(canonical)
      && canonical == request.(payload := request.payload.(action := Some(ActionOf(step))))
  {
    hide PortProblem;
  }

  lemma ObserveKeepsSound(saga: Saga, result: FinancialResult)
    requires Sound(saga) && ObserveFinancialResult(saga, result).Ok?
    ensures var next := ObserveFinancialResult(saga, result).value;
      Sound(next) && SameIdentity(saga, next) && Remembers(saga, next)
  {
    hide CanonicalRequest, OperationKey;
  }

  lemma CompensateKeepsSound(saga: Saga, reason: string)
    requires Sound(saga) && RequestActivationCompensation(saga, reason).Ok?
    ensures var next := RequestActivationCompensation(saga, reason).value;
      Sound(next) && SameIdentity(saga, next) && Remembers(saga, next)
  {
    hide CanonicalRequest, OperationKey;
    assert saga.compensationKey.None?;
    var asked := RefundRequest(saga, saga.primaryResult.value.resultRef.value, reason);
    CanonicalIsStable(ReleaseEscrow, asked.(payload := asked.payload.(action := None)));
  }

  lemma AdvanceKeepsSound(saga: Saga, t: Transition)
    requires Sound(saga) && Advance(saga, t).Ok?
    ensures var next := Advance(saga, t).value;
      Sound(next) && SameIdentity(saga, next) && Remembers(saga, next)
  {
    hide CanonicalRequest, OperationKey, ObserveFinancialResult, RequestActivationCompensation;
    match t
    case Observe(result) => ObserveKeepsSound(saga, result);
    case CommitLocal(local) =>
    case Compensate(reason) => CompensateKeepsSound(saga, reason);
  }

  lemma RemembersTransitive(a: Saga, b: Saga, c: Saga)
    requires Remembers(a, b) && Remembers(b, c)
    ensures Remembers(a, c)
  {
  }

  /** From a sound saga on, every sequence of transitions keeps it sound and forgets no result. */
  lemma {:induction false} EveryRunIsSound(created: Saga, ts: seq<Transition>, cut: nat)
    requires Sound(created) && cut <= |ts|
    ensures Sound(AdvanceAll(created, ts)) && SameIdentity(created, AdvanceAll(created, ts))
    ensures Remembers(AdvanceAll(created, ts[..cut]), AdvanceAll(created, ts))
  {
    if ts == [] {
      assert ts[..cut] == ts;
    } else {
      var shorter, last := ts[..|ts| - 1], ts[|ts| - 1];
      var before := AdvanceAll(created, shorter);
      EveryRunIsSound(created, shorter, if cut == |ts| then cut - 1 else cut);
      if Advance(before, last).Ok? {
        AdvanceKeepsSound(before, last);
      }
      if cut == |ts| {
        assert ts[..cut] == ts;
      } else {
        assert shorter[..cut] == ts[..cut];
        RemembersTransitive(AdvanceAll(created, ts[..cut]), before, AdvanceAll(created, ts));
      }
    }
  }

  /** A confirmed funding can always be refunded: the refund request never fails its own port check. */
  lemma RefundIsNeverRejected(saga: Saga, reason: string)
    requires SagaInvariant(saga) && saga.kind == ContractActivation && saga.state == RemoteSucceeded
    requires saga.primaryResult.value.resultRef.Some? && reason != ""
    ensures var refund := RequestActivationCompensation(saga, reason);
      && refund.Ok?
      && SagaInvariant(refund.value)
      && BuildFinancialCommand(refund.value) == Ok(Some(CompensationCommand(refund.value)))
      && refund.value.compensationRequest == Some(RefundRequest(saga, saga.primaryResult.value.resultRef.value, reason))
  {
    hide OperationKey;
    var asked := RefundRequest(saga, saga.primaryResult.value.resultRef.value, reason);
    RefundPassesThePort(saga.primaryStep, saga.primaryRequest, asked);
    assert asked.(payload := asked.payload.(action := None)).(payload := asked.payload) == asked;
    CanonicalIsStable(ReleaseEscrow, asked.(payload := asked.payload.(action := None)));
    hide CanonicalRequest;
  }

  /** A refund of a request that passed its port check passes it too. */
  lemma RefundPassesThePort(step: SagaStep, request: FinancialRequest, refund: FinancialRequest)
    requires CanonicalRequest(step, request) == Ok(request)
    requires refund.principalRef == request.principalRef && refund.payload.contractRef == request.payload.contractRef
    requires refund.payload.amount == request.payload.amount && refund.payload.action == Some(Refund)
    requires refund.payload.detail.Refunding?
    ensures CanonicalRequest(ReleaseEscrow, refund.(payload := refund.payload.(action := None))) == Ok(refund)
  {
    assert PortProblem(request).None?;
    assert PortProblem(refund).None?;
    assert refund.(payload := refund.payload.(action := None)).(payload := refund.payload) == refund;
  }
}
