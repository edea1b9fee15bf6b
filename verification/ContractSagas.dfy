/**
 Contract status tied to sagas (src/services/contract_saga.js): preparing a saga from a contract,
 and committing ACTIVE or SETTLED, or queueing a refund, from a confirmed result.
 */
module ContractSagas {
  import opened Wrappers
  import opened OperationKeys
  import opened Text
  import opened Sagas
  import opened SagaStore
  import opened Contracts

  datatype ContractId = ContractId(worldId: string, contractId: string)

  /** The tables of the `social` schema. */
  datatype Social = Social(store: Store, contracts: map<ContractId, Contract>)

  function Within<T>(db: Social, tx: Tx<Store, T>): Tx<Social, T> {
    Tx(db.(store := tx.after), tx.reply)
  }

  // ---- prepareContractActivation ----

  datatype ActivationInput = ActivationInput(
    worldId: string, contractId: string, sagaId: string, attemptId: string,
    principalRef: string, contractRef: string, prepay: seq<Allocation>)

  /** The funding the saga is created with: exactly the price of the current version. */
  function FundingRequest(input: ActivationInput, price: string): FinancialRequest {
    FinancialRequest(input.principalRef, EscrowPayload(None, input.contractRef, price, Funding(input.prepay)))
  }

  function PrepareActivation(db: Social, input: ActivationInput, now: nat): Tx<Social, Prepared> {
    var id := ContractId(input.worldId, input.contractId);
    if Blank(input.worldId) || Blank(input.contractId) || Blank(input.sagaId) || Blank(input.attemptId)
       || Blank(input.principalRef) || Blank(input.contractRef) then Tx(db, Err(InvalidContractSagaInput))
    else if id !in db.contracts then Tx(db, Err(ContractNotFound))
    else
      var c := db.contracts[id];
      if c.status != Proposed then Tx(db, Err(ContractNotActivatable))
      else if c.currentVersion < 1 || c.currentVersion !in c.versions then Tx(db, Err(ContractVersionRequired))
      else if !c.versions[c.currentVersion].hasCriteria then Tx(db, Err(ContractAcceptanceCriteriaRequired))
      else if |AcceptedParties(c)| != 2 then Tx(db, Err(ContractAcceptanceRequired))
      else
        var saga := CreateSaga(ContractActivation, SagaInput(
          input.sagaId, input.worldId, input.contractId, c.currentVersion, input.attemptId,
          FundingRequest(input, c.versions[c.currentVersion].price)));
        if saga.Err? then Tx(db, Err(saga.error)) else Within(db, PrepareIntent(db.store, saga.value, now))
  }

  // ---- prepareContractSettlement ----

  /** `observedAt` is absent when it is not a timestamp. */
  datatype EscrowSnapshot = EscrowSnapshot(
    escrowRef: string, balance: string, authorityVersion: string, receiptRef: string, observedAt: Option<nat>)

  datatype SettlementInput = SettlementInput(
    worldId: string, contractId: string, sagaId: string, attemptId: string,
    principalRef: string, contractRef: string, escrowRef: string,
    snapshot: Option<EscrowSnapshot>, allocations: seq<Allocation>)

  function SnapshotProblem(snapshot: Option<EscrowSnapshot>, expectedRef: string): Option<Problem> {
    if snapshot.None? then Some(AuthoritativeEscrowSnapshotRequired)
    else
      var s := snapshot.value;
      if Blank(s.escrowRef) || Blank(s.balance) || Blank(s.authorityVersion) || Blank(s.receiptRef)
        then Some(InvalidContractSagaInput)
      else if s.escrowRef != expectedRef then Some(ContractEscrowReferenceMismatch)
      else if !IsNonNegativeDecimal(s.balance) || DecimalValue(s.balance) <= 0 then Some(EscrowBalanceNotDistributable)
      else if !IsNonNegativeDecimal(s.authorityVersion) || s.observedAt.None? then Some(InvalidEscrowSnapshot)
      else None
  }

  predicate AllocationOk(a: Allocation) {
    !Blank(a.principalRef) && IsNonNegativeDecimal(a.amount)
  }

  /** `assertAllocations` does not throw. */
  predicate AllocationsOk(allocations: seq<Allocation>, amount: string)
    requires AllDigits(amount)
  {
    && allocations != []
    && (forall i :: 0 <= i < |allocations| ==> AllocationOk(allocations[i]))
    && AllocationTotal(allocations) == DecimalValue(amount)
  }

  predicate HasResolvedDispute(c: Contract) {
    exists i :: 0 <= i < |c.disputes|
      && c.disputes[i].version == c.currentVersion && c.disputes[i].status == Resolved
      && c.disputes[i].resolution.Some? && c.disputes[i].resolvedBy.Some?
  }

  function DistributionRequest(input: SettlementInput): FinancialRequest
    requires input.snapshot.Some? && input.snapshot.value.observedAt.Some?
  {
    var s := input.snapshot.value;
    FinancialRequest(input.principalRef, EscrowPayload(None, input.contractRef, s.balance,
      Distribution(s.escrowRef, s.balance, s.authorityVersion, s.receiptRef, s.observedAt.value, input.allocations)))
  }

  /** Everything `prepareContractSettlement` checks before it creates the saga. */
  function SettlementProblem(db: Social, input: SettlementInput): Option<Problem> {
    var id := ContractId(input.worldId, input.contractId);
    if Blank(input.worldId) || Blank(input.contractId) || Blank(input.sagaId) || Blank(input.attemptId)
       || Blank(input.principalRef) || Blank(input.contractRef) || Blank(input.escrowRef)
      then Some(InvalidContractSagaInput)
    else if id !in db.contracts then Some(ContractNotFound)
    else
      var c := db.contracts[id];
      if c.status !in {Submitted, Disputed} then Some(ContractNotSettleable)
      else if c.escrowRef != Some(input.escrowRef) then Some(ContractEscrowReferenceMismatch)
      else if c.status == Submitted && !HasAcceptedDelivery(c) then Some(ContractAcceptanceDecisionRequired)
      else if c.status == Disputed && !HasResolvedDispute(c) then Some(ContractDisputeResolutionRequired)
      else if SnapshotProblem(input.snapshot, input.escrowRef).Some?
        then SnapshotProblem(input.snapshot, input.escrowRef)
      else if !AllocationsOk(input.allocations, input.snapshot.value.balance) then Some(InvalidContractSagaInput)
      else None
  }

  function PrepareSettlement(db: Social, input: SettlementInput, now: nat): Tx<Social, Prepared> {
    var problem := SettlementProblem(db, input);
    if problem.Some? then Tx(db, Err(problem.value))
    else
      var c := db.contracts[ContractId(input.worldId, input.contractId)];
      var saga := CreateSaga(ContractSettlement, SagaInput(
        input.sagaId, input.worldId, input.contractId, c.currentVersion, input.attemptId, DistributionRequest(input)));
      if saga.Err? then Tx(db, Err(saga.error)) else Within(db, PrepareIntent(db.store, saga.value, now))
  }

  // ---- commitContractActivation, commitContractSettlement ----

  datatype CommitReply = CommitReply(compensationRequired: bool)

  const INELIGIBLE := "contract no longer eligible for ACTIVE commit after confirmed funding"

  predicate EligibleForActive(c: Contract, version: int) {
    && c.status == Proposed
    && c.currentVersion == version
    && c.currentVersion in c.versions && c.versions[c.currentVersion].hasCriteria
    && |AcceptedParties(c)| == 2
  }

  function CommitActivation(db: Social, worldId: string, sagaId: string, now: nat): Tx<Social, CommitReply> {
    if sagaId !in db.store.sagas || db.store.sagas[sagaId].snapshot.worldId != worldId then Tx(db, Err(SagaNotFound))
    else
      var saga := db.store.sagas[sagaId].snapshot;
      var id := ContractId(worldId, saga.contractId);
      if saga.kind != ContractActivation then Tx(db, Err(SagaKindMismatch))
      else if saga.state != RemoteSucceeded || !HasStatus(saga.primaryResult, true)
        then Tx(db, Err(RemoteFundingNotConfirmed))
      else if id !in db.contracts then Tx(db, Err(ContractNotFound))
      else if !EligibleForActive(db.contracts[id], saga.contractVersion) then
        var queued := QueueCompensation(db.store, sagaId, INELIGIBLE, now);
        if queued.reply.Err? then Tx(db, Err(queued.reply.error))
        else Tx(db.(store := queued.after), Ok(CommitReply(true)))
      else
        var escrowRef := saga.primaryResult.value.resultRef;
        if escrowRef.None? || Blank(escrowRef.value) then Tx(db, Err(InvalidContractSagaInput))
        else
          var marked := MarkCommitted(db.store, worldId, sagaId, LocalActive);
          if marked.reply.Err? then Tx(db, Err(marked.reply.error))
          else Tx(
            Social(marked.after, db.contracts[id := db.contracts[id].(status := Active, escrowRef := escrowRef)]),
            Ok(CommitReply(false)))
  }

  function CommitSettlement(db: Social, worldId: string, sagaId: string): Tx<Social, SagaState> {
    if sagaId !in db.store.sagas || db.store.sagas[sagaId].snapshot.worldId != worldId then Tx(db, Err(SagaNotFound))
    else
      var saga := db.store.sagas[sagaId].snapshot;
      var id := ContractId(worldId, saga.contractId);
      if saga.kind != ContractSettlement then Tx(db, Err(SagaKindMismatch))
      else if saga.state != RemoteSucceeded || !HasStatus(saga.primaryResult, true)
        then Tx(db, Err(RemoteSettlementNotConfirmed))
      else if id !in db.contracts then Tx(db, Err(ContractNotFound))
      else if db.contracts[id].status !in {Submitted, Disputed} || db.contracts[id].currentVersion != saga.contractVersion
        then Tx(db, Err(SettlementForwardRecoveryRequired))
      else
        var marked := MarkCommitted(db.store, worldId, sagaId, LocalSettled);
        if marked.reply.Err? then Tx(db, Err(marked.reply.error))
        else Tx(Social(marked.after, db.contracts[id := db.contracts[id].(status := Settled)]), marked.reply)
  }

  // ---- Settlement conserves the escrow ----

  /**
   Once the service's own checks pass, the port's DISTRIBUTE check cannot fail, for allocation lists
   of any length, and the allocations add up to the amount and to the authoritative balance.
   */
  lemma SettlementPassesThePort(db: Social, input: SettlementInput)
    requires SettlementProblem(db, input).None?
    ensures var request := CanonicalRequest(DistributeEscrow, DistributionRequest(input));
      && request.Ok?
      && request.value.payload.action == Some(Distribute)
      && request.value.payload.amount == request.value.payload.detail.expectedBalance == input.snapshot.value.balance
      && request.value.payload.detail.allocations == input.allocations
      && AllocationTotal(input.allocations) == DecimalValue(input.snapshot.value.balance) > 0
  {
    var request := DistributionRequest(input);
    PositiveDecimalValue(input.snapshot.value.balance);
    var normalized := request.(payload := request.payload.(action := Some(Distribute)));
    assert DistributeProblem(normalized.payload).None?;
    assert PortProblem(normalized).None?;
  }

  /** The only ways preparing a settlement fails are the service's own checks and the saga's identity. */
  lemma SettlementFailures(db: Social, input: SettlementInput, now: nat)
    requires PrepareSettlement(db, input, now).reply.Err?
    requires forall id :: id in db.contracts ==> db.contracts[id].currentVersion >= 1
    requires forall a :: a in db.store.attempts ==> db.store.attempts[a] in db.store.sagas
    ensures PrepareSettlement(db, input, now).after == db
    ensures || SettlementProblem(db, input) == Some(PrepareSettlement(db, input, now).reply.error)
            || PrepareSettlement(db, input, now).reply.error in {SagaIdempotencyConflict, UniqueViolation}
  {
    hide CanonicalRequest, OperationKey, PrepareIntent, CreateSaga, AllocationsOk, HasAcceptedDelivery, HasResolvedDispute;
    if SettlementProblem(db, input).None? {
      SettlementPassesThePort(db, input);
      FreshSagaFailures(db, input, now);
    }
  }

  lemma FreshSagaFailures(db: Social, input: SettlementInput, now: nat)
    requires SettlementProblem(db, input).None?
    requires CanonicalRequest(DistributeEscrow, DistributionRequest(input)).Ok?
    requires db.contracts[ContractId(input.worldId, input.contractId)].currentVersion >= 1
    requires forall a :: a in db.store.attempts ==> db.store.attempts[a] in db.store.sagas
    requires PrepareSettlement(db, input, now).reply.Err?
    ensures PrepareSettlement(db, input, now).after == db
    ensures PrepareSettlement(db, input, now).reply.error in {SagaIdempotencyConflict, UniqueViolation}
  {
    var c := db.contracts[ContractId(input.worldId, input.contractId)];
    var made := SagaInput(
      input.sagaId, input.worldId, input.contractId, c.currentVersion, input.attemptId, DistributionRequest(input));
    CreateSagaIsSound(ContractSettlement, made);
    hide BuildFinancialCommand, PortProblem, CanonicalRequest, OperationKey, Sound;
  }
}
