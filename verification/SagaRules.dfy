/**
 The rules of the pure saga (src/shared/cross_product_saga.js) and of the escrow port: which requests may be
 sent, and which transitions a saga takes.
 */
module SagaRules {
  import opened Wrappers
  import opened OperationKeys
  import opened Text
  import opened Sagas

  // ---- Escrow requests ----

  /** What one kind of request carries, beside principal, contract and amount. */
  predicate DetailAllowed(payload: EscrowPayload) {
    match payload.detail
    case Funding(prepay) => payload.action != Some(Distribute) && forall a :: a in prepay ==> IsSignedDecimal(a.amount)
    case Refunding(_, _) => payload.action != Some(Distribute)
    case Distribution(escrowRef, balance, version, receiptRef, _, allocations) =>
      && IsSignedDecimal(balance) && (forall a :: a in allocations ==> IsSignedDecimal(a.amount))
      && (payload.action == Some(Distribute) ==>
            && escrowRef != "" && receiptRef != "" && IsPositiveDecimal(balance) && IsNonNegativeDecimal(version)
            && allocations != [] && (forall a :: a in allocations ==> a.principalRef != "" && IsNonNegativeDecimal(a.amount))
            && AllDigits(payload.amount) && DecimalValue(payload.amount) == DecimalValue(balance)
            && AllDecimal(allocations) && AllocationTotal(allocations) == DecimalValue(balance))
  }

  /** A request the escrow port takes: an action on a positive amount of a named contract for a named principal. */
  predicate RequestAllowed(request: FinancialRequest) {
    && request.principalRef != "" && request.payload.contractRef != "" && request.payload.action.Some?
    && IsPositiveDecimal(request.payload.amount) && DetailAllowed(request.payload)
  }

  lemma PortFollowsTheRule(request: FinancialRequest)
    ensures PortProblem(request).None? <==> RequestAllowed(request)
  {
    var payload := request.payload;
    hide DecimalValue, AllocationTotal;
    match payload.detail {
      case Funding(prepay) =>
        assert (forall i :: 0 <= i < |prepay| ==> IsSignedDecimal(prepay[i].amount)) <==>
               forall a :: a in prepay ==> IsSignedDecimal(a.amount);
      case Distribution(_, balance, _, _, _, allocations) =>
        assert (forall i :: 0 <= i < |allocations| ==> IsSignedDecimal(allocations[i].amount)) <==>
               forall a :: a in allocations ==> IsSignedDecimal(a.amount);
        assert AllDecimal(allocations) <==> forall a :: a in allocations ==> IsNonNegativeDecimal(a.amount);
        assert (exists i :: 0 <= i < |allocations| && allocations[i].principalRef == "") <==>
               !(forall a :: a in allocations ==> a.principalRef != "");
      case _ =>
    }
  }

  /** A step's request is taken with its own action filled in, and refused with any other one. */
  lemma RequestsAreNormalized(step: SagaStep, request: FinancialRequest)
    ensures var filled := FinancialRequest(request.principalRef, EscrowPayload(
                            Some(ActionOf(step)), request.payload.contractRef, request.payload.amount, request.payload.detail));
      && (CanonicalRequest(step, request).Ok?
          <==> request.payload.action in {None, Some(ActionOf(step))} && RequestAllowed(filled))
      && (CanonicalRequest(step, request).Ok? ==> CanonicalRequest(step, request).value == filled)
  {
    PortFollowsTheRule(request.(payload := request.payload.(action := Some(ActionOf(step)))));
    hide PortProblem, DetailAllowed;
  }

  // ---- Transitions ----

  /** A saga is created exactly from a named attempt of a contract version with an allowed request, and waits for its result. */
  lemma CreationFollowsTheRule(kind: SagaKind, input: SagaInput)
    ensures var step := if kind == ContractActivation then FundEscrow else DistributeEscrow;
      var saga := CreateSaga(kind, input);
      && (saga.Ok? <==>
            && input.sagaId != "" && input.worldId != "" && input.contractId != "" && input.attemptId != ""
            && input.contractVersion >= 1 && CanonicalRequest(step, input.request).Ok?)
      && (saga.Ok? ==>
            var request := CanonicalRequest(step, input.request).value;
            saga.value == Saga(kind, input.sagaId, input.attemptId, input.worldId, input.contractId, input.contractVersion,
                               PendingRemote, step, OperationKey(input.worldId, input.attemptId, step), Sha256(request),
                               request, None, None, None, None, None, None))
  {
    hide CanonicalRequest;
  }

  predicate Succeeded(result: Option<FinancialResult>) {
    match result case None => false case Some(r) => r.succeeded
  }

  /** The request a saga was created with: its own step, key and digest. */
  predicate HasIdentity(saga: Saga) {
    && saga.attemptId != "" && saga.worldId != ""
    && saga.primaryStep == (if saga.kind == ContractActivation then FundEscrow else DistributeEscrow)
    && saga.primaryKey == OperationKey(saga.worldId, saga.attemptId, saga.primaryStep)
    && saga.primaryRequest.payload.action == Some(ActionOf(saga.primaryStep)) && RequestAllowed(saga.primaryRequest)
    && saga.primaryDigest == Sha256(saga.primaryRequest)
  }

  /** The refund a funding saga asked for: its own step, key and digest. */
  predicate HasRefund(saga: Saga) {
    && saga.kind == ContractActivation && saga.compensationRequest.Some?
    && saga.compensationKey == Some(OperationKey(saga.worldId, saga.attemptId, ReleaseEscrow))
    && saga.compensationRequest.value.payload.action == Some(Refund) && RequestAllowed(saga.compensationRequest.value)
    && saga.compensationDigest == Some(Sha256(saga.compensationRequest.value))
  }

  /** What the asserted invariant says of each state. */
  lemma InvariantByState(saga: Saga)
    ensures SagaInvariant(saga) <==>
      && HasIdentity(saga)
      && match saga.state
         case PendingRemote => true
         case RemoteSucceeded => Succeeded(saga.primaryResult)
         case Failed => saga.primaryResult.Some? && !Succeeded(saga.primaryResult)
         case Completed => Succeeded(saga.primaryResult) && (saga.kind == ContractSettlement ==> saga.compensationKey.None?)
         case CompensationPending => Succeeded(saga.primaryResult) && HasRefund(saga)
         case Compensated => Succeeded(saga.primaryResult) && HasRefund(saga) && Succeeded(saga.compensationResult)
         case ReconciliationRequired => Succeeded(saga.primaryResult) && HasRefund(saga)
  {
    RequestsAreNormalized(saga.primaryStep, saga.primaryRequest);
    if saga.compensationRequest.Some? {
      RequestsAreNormalized(ReleaseEscrow, saga.compensationRequest.value);
    }
    hide CanonicalRequest, RequestAllowed, OperationKey;
  }

  /** A saga that fails its check takes no transition and has no command. */
  lemma UnsoundSagasAreRefused(saga: Saga, result: FinancialResult, local: LocalState, reason: string)
    requires !SagaInvariant(saga)
    ensures ObserveFinancialResult(saga, result) == Err(InvalidSaga)
    ensures MarkLocalTransitionCommitted(saga, local) == Err(InvalidSaga)
    ensures RequestActivationCompensation(saga, reason) == Err(InvalidSaga)
    ensures BuildFinancialCommand(saga) == Err(InvalidSaga)
  {
    hide SagaInvariant;
  }

  /** A result with a key, and a reference if it is a success. */
  predicate IsResult(result: FinancialResult) {
    result.key != "" && (result.succeeded ==> result.resultRef.Some? && result.resultRef.value != "")
  }

  /**
   A sound saga takes a result for its own primary key exactly when the digest is its request's and it is either
   the one it holds, or the first one it waited for; its state then says what the result said.
   */
  lemma PrimaryResultsFollowTheRule(saga: Saga, result: FinancialResult)
    requires SagaInvariant(saga) && result.key == saga.primaryKey
    ensures var next := ObserveFinancialResult(saga, result);
      && (next.Ok? <==>
            && IsResult(result) && result.digest == saga.primaryDigest
            && (saga.primaryResult == Some(result) || (saga.primaryResult.None? && saga.state == PendingRemote)))
      && (next.Ok? ==>
            next.value == if saga.primaryResult == Some(result) then saga
                          else saga.(primaryResult := Some(result), state := if result.succeeded then RemoteSucceeded else Failed))
      && (IsResult(result) && result.digest != saga.primaryDigest ==> next == Err(SagaIdempotencyConflict))
      && (IsResult(result) && result.digest == saga.primaryDigest && saga.primaryResult !in {None, Some(result)} ==>
            next == Err(SagaResultConflict))
  {
    hide SagaInvariant;
  }

  /** And a result for its refund, which ends COMPENSATED, or waits for somebody if the refund was refused. */
  lemma RefundResultsFollowTheRule(saga: Saga, result: FinancialResult)
    requires SagaInvariant(saga) && result.key != saga.primaryKey
    ensures var next := ObserveFinancialResult(saga, result);
      && (next.Ok? <==>
            && IsResult(result) && saga.compensationKey == Some(result.key) && saga.compensationDigest == Some(result.digest)
            && (saga.compensationResult == Some(result)
                || (saga.compensationResult.None? && saga.state == CompensationPending)))
      && (next.Ok? ==>
            next.value == if saga.compensationResult == Some(result) then saga
                          else saga.(compensationResult := Some(result),
                                     state := if result.succeeded then Compensated else ReconciliationRequired))
      && (IsResult(result) && saga.compensationKey != Some(result.key) ==> next == Err(UnexpectedSagaOperation))
  {
    hide SagaInvariant;
  }

  /** Exactly a confirmed success is completed, by the local transition of its kind, or refunded, if it was a funding. */
  lemma EndsFollowTheRule(saga: Saga, local: LocalState, reason: string)
    requires SagaInvariant(saga)
    ensures var next := MarkLocalTransitionCommitted(saga, local);
      && (next.Ok? <==> saga.state == RemoteSucceeded && local == (if saga.kind == ContractSettlement then LocalSettled else LocalActive))
      && (next.Ok? ==> next.value == saga.(state := Completed))
    ensures var next := RequestActivationCompensation(saga, reason);
      && (next.Ok? <==>
            && saga.state == RemoteSucceeded && saga.kind == ContractActivation && reason != ""
            && saga.primaryResult.value.resultRef.Some?)
      && (next.Ok? ==>
            var paid := saga.primaryRequest;
            var request := FinancialRequest(paid.principalRef, EscrowPayload(
              Some(Refund), paid.payload.contractRef, paid.payload.amount,
              Refunding(saga.primaryResult.value.resultRef.value, reason)));
            next.value == saga.(
              state := CompensationPending,
              compensationKey := Some(OperationKey(saga.worldId, saga.attemptId, ReleaseEscrow)),
              compensationDigest := Some(Sha256(request)), compensationRequest := Some(request),
              compensationReason := Some(reason)))
  {
    if saga.state == RemoteSucceeded && saga.kind == ContractActivation && reason != ""
       && saga.primaryResult.value.resultRef.Some? {
      RefundIsNeverRejected(saga, reason);
    }
    hide CanonicalRequest, OperationKey, CompensationWellFormed;
  }

  /** A command is due exactly while a result is waited for: the primary one first, later the refund. */
  lemma CommandsAreDue(saga: Saga)
    requires SagaInvariant(saga)
    ensures BuildFinancialCommand(saga)
         == Ok(if saga.state == PendingRemote then
                 Some(Command("escrow", saga.primaryKey, saga.primaryKey, saga.attemptId, saga.primaryStep,
                              saga.primaryRequest.principalRef, Sha256(saga.primaryRequest), saga.primaryRequest.payload))
               else if saga.state == CompensationPending then
                 var key, request := OperationKey(saga.worldId, saga.attemptId, ReleaseEscrow), saga.compensationRequest.value;
                 Some(Command("escrow", key, key, saga.attemptId, ReleaseEscrow,
                              request.principalRef, Sha256(request), request.payload))
               else None)
  {
    hide OperationKey, CanonicalRequest;
  }
}
