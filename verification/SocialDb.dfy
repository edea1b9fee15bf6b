/**
 The tables of the `social` schema as mutable state, and the service functions as the transactions
 that update them row by row. Each one is proved to have exactly the effect and the reply of its
 function in `SagaStore`, `Contracts` or `ContractSagas`; a throw rolls the transaction back.
 */
module SocialDb {
  import opened Wrappers
  import opened OperationKeys
  import opened Text
  import opened Sagas
  import opened SagaStore
  import opened SagaWorker
  import opened Contracts
  import opened ContractSagas
  import opened SocialOutcomes

  class SocialDb {
    var sagas: map<string, SagaRow>
    var attempts: map<AttemptKey, string>
    var outbox: map<string, OutboxRow>
    var inbox: map<string, FinancialResult>
    var contracts: map<ContractId, Contract>

    ghost function Sagas(): Store
      reads this
    {
      Store(sagas, attempts, outbox, inbox)
    }

    ghost function Tables(): Social
      reads this
    {
      Social(Sagas(), contracts)
    }

    constructor ()
      ensures Tables() == Social(Store(map[], map[], map[], map[]), map[])
    {
      sagas, attempts, outbox, inbox, contracts := map[], map[], map[], map[], map[];
    }

    // ---- cross_product_saga_store.js ----

    method PrepareIntent(saga: Saga, now: nat) returns (reply: Result<Prepared, Problem>)
      modifies this`sagas, this`attempts, this`outbox
      ensures Tx(Sagas(), reply) == SagaStore.PrepareIntent(old(Sagas()), saga, now)
    {
      var built := BuildFinancialCommand(saga);
      if built.Err? {
        return Err(built.error);
      }
      if built.value.None? {
        return Err(InvalidSagaState);
      }
      var command := built.value.value;
      var attempt := AttemptOf(saga);
      if attempt in attempts {
        var owner := attempts[attempt];
        if owner !in sagas {
          return Err(InvalidSagaState);
        }
        var prior := sagas[owner].snapshot;
        if prior.primaryDigest != saga.primaryDigest || prior.contractId != saga.contractId
           || prior.contractVersion != saga.contractVersion {
          return Err(SagaIdempotencyConflict);
        }
        return Ok(Prepared(owner, true));
      }
      if saga.sagaId in sagas || command.operationKey in outbox {
        return Err(UniqueViolation);
      }
      sagas := sagas[saga.sagaId := SagaRow(saga.state, saga.compensationKey, saga, 1, None)];
      attempts := attempts[attempt := saga.sagaId];
      outbox := outbox[command.operationKey := NewOutboxRow(saga, command, now)];
      return Ok(Prepared(saga.sagaId, false));
    }

    /** `SKIP LOCKED` leaves the choice among the due rows open. */
    method ClaimOutbox(worker: string, leaseMs: int, worldId: Option<string>, now: nat)
      returns (reply: Result<Option<Claimed>, Problem>)
      modifies this`outbox
      ensures reply.Err? <==> Blank(worker) || !LeaseMsOk(leaseMs)
      ensures reply.Err? ==> reply.error == InvalidSagaInput && Sagas() == old(Sagas())
      ensures reply == Ok(None) ==>
        && Sagas() == old(Sagas())
        && forall key :: key in outbox && (worldId.Some? ==> outbox[key].worldId == worldId.value) ==>
             !Claimable(outbox[key], now)
      ensures reply.Ok? && reply.value.Some? ==>
        var claim := reply.value.value;
        && claim.key in old(outbox) && Claimable(old(outbox)[claim.key], now)
        && (worldId.Some? ==> claim.row.worldId == worldId.value)
        && Sagas() == Claim(old(Sagas()), claim.key, worker, leaseMs, now)
        && claim.row == outbox[claim.key]
    {
      if Blank(worker) || leaseMs < 1000 || leaseMs > 300_000 {
        return Err(InvalidSagaInput);
      }
      if !exists key :: key in outbox && (worldId.Some? ==> outbox[key].worldId == worldId.value)
                        && Claimable(outbox[key], now) {
        return Ok(None);
      }
      var key :| key in outbox && (worldId.Some? ==> outbox[key].worldId == worldId.value) && Claimable(outbox[key], now);
      var row := outbox[key];
      outbox := outbox[key := row.(
        status := Leased, attempts := row.attempts + 1, leaseOwner := Some(worker), leaseUntil := Some(now + leaseMs))];
      return Ok(Some(Claimed(key, outbox[key])));
    }

    method RecordDispatchFailure(failure: Failure, now: nat) returns (reply: Result<OutboxStatus, Problem>)
      modifies this`sagas, this`outbox
      ensures Tx(Sagas(), reply) == RecordFailure(old(Sagas()), failure, now)
    {
      if Blank(failure.outboxKey) || Blank(failure.owner) || Blank(failure.errorCode) || failure.maxAttempts < 1 {
        return Err(InvalidSagaInput);
      }
      if failure.outboxKey !in outbox {
        return Err(SagaOutboxLeaseLost);
      }
      var row := outbox[failure.outboxKey];
      if row.status != Leased || row.leaseOwner != Some(failure.owner) {
        return Err(SagaOutboxLeaseLost);
      }
      var status := if failure.outcomeUnknown then NeedsReconciliation
                    else if failure.retryable && row.attempts < failure.maxAttempts then RetryWait
                    else DeadLetter;
      var wakeAt := now + Delay(failure.retryAfterMs);
      outbox := outbox[failure.outboxKey := row.(
        status := status, nextAttemptAt := wakeAt, leaseOwner := None, leaseUntil := None)];
      if row.sagaId in sagas && sagas[row.sagaId].snapshot.worldId == row.worldId {
        var saga := sagas[row.sagaId];
        if failure.outcomeUnknown {
          if saga.state !in {Completed, Compensated, Failed} {
            FreezeSaga(row.sagaId, wakeAt);
          }
        } else if status == DeadLetter {
          sagas := sagas[row.sagaId := saga.(version := saga.version + 1)];
        }
      }
      return Ok(status);
    }

    method FreezeSaga(sagaId: string, wakeAt: nat)
      requires sagaId in sagas
      modifies this`sagas
      ensures sagas == old(sagas)[sagaId := Frozen(old(sagas)[sagaId], wakeAt)]
    {
      var row := sagas[sagaId];
      row := row.(state := ReconciliationRequired, snapshot := row.snapshot.(state := ReconciliationRequired));
      sagas := sagas[sagaId := row.(version := row.version + 1, nextReconcileAt := Some(wakeAt))];
    }

    method FreezeOperation(operationKey: string, now: nat)
      requires operationKey in outbox && outbox[operationKey].sagaId in sagas
      modifies this`sagas, this`outbox
      ensures Sagas() == Freeze(old(Sagas()), operationKey, now)
    {
      var row := outbox[operationKey];
      FreezeSaga(row.sagaId, now);
      outbox := outbox[operationKey := row.(status := NeedsReconciliation, leaseOwner := None, leaseUntil := None)];
    }

    method RecordFinancialResult(worldId: string, operationKey: string, raw: RawResult, now: nat)
      returns (reply: Result<Recorded, Problem>)
      modifies this`sagas, this`outbox, this`inbox
      ensures Tx(Sagas(), reply) == RecordResult(old(Sagas()), worldId, operationKey, raw, now)
      ensures reply.Ok? && operationKey in old(inbox) ==>
        && reply.value.duplicate == (NormalizeResult(raw, operationKey) == Ok(old(inbox)[operationKey]))
        && reply.value.conflict == !reply.value.duplicate
      ensures reply.Ok? && reply.value.duplicate ==> Sagas() == old(Sagas()) && operationKey in inbox
    {
      hide NormalizeResult, ObserveFinancialResult, Blank;
      if Blank(worldId) || Blank(operationKey) {
        return Err(InvalidSagaInput);
      }
      var normalized := NormalizeResult(raw, operationKey);
      if normalized.Err? {
        return Err(normalized.error);
      }
      var result := normalized.value;
      if result.key != operationKey {
        return Err(UnexpectedSagaOperation);
      }
      if operationKey !in outbox || outbox[operationKey].worldId != worldId || outbox[operationKey].sagaId !in sagas
         || sagas[outbox[operationKey].sagaId].snapshot.worldId != worldId {
        return Err(SagaOperationNotFound);
      }
      var row := outbox[operationKey];
      var saga := sagas[row.sagaId];
      if operationKey in inbox {
        if inbox[operationKey] == result {
          return Ok(Recorded(true, false, saga.state));
        }
        FreezeOperation(operationKey, now);
        return Ok(Recorded(false, true, ReconciliationRequired));
      }
      var rollback := inbox;
      inbox := inbox[operationKey := result];
      var snapshot := saga.snapshot;
      if snapshot.state == ReconciliationRequired {
        if snapshot.primaryResult.None? && operationKey == snapshot.primaryKey {
          snapshot := snapshot.(state := PendingRemote);
        } else if snapshot.compensationResult.None? && Some(operationKey) == snapshot.compensationKey {
          snapshot := snapshot.(state := CompensationPending);
        }
      }
      var next := ObserveFinancialResult(snapshot, result);
      if next.Err? {
        if next.error in {SagaIdempotencyConflict, SagaResultConflict} {
          FreezeOperation(operationKey, now);
          return Ok(Recorded(false, true, ReconciliationRequired));
        }
        inbox := rollback;
        return Err(next.error);
      }
      sagas := sagas[row.sagaId := saga.(
        state := next.value.state, snapshot := next.value, version := saga.version + 1, nextReconcileAt := None)];
      outbox := outbox[operationKey := row.(status := Delivered, leaseOwner := None, leaseUntil := None)];
      return Ok(Recorded(false, false, next.value.state));
    }

    method MarkLocalCommitted(worldId: string, sagaId: string, local: LocalState)
      returns (reply: Result<SagaState, Problem>)
      modifies this`sagas
      ensures Tx(Sagas(), reply) == MarkCommitted(old(Sagas()), worldId, sagaId, local)
    {
      hide MarkLocalTransitionCommitted, Blank;
      if Blank(worldId) || Blank(sagaId) {
        return Err(InvalidSagaInput);
      }
      if sagaId !in sagas || sagas[sagaId].snapshot.worldId != worldId {
        return Err(SagaNotFound);
      }
      var row := sagas[sagaId];
      var next := MarkLocalTransitionCommitted(row.snapshot, local);
      if next.Err? {
        return Err(next.error);
      }
      sagas := sagas[sagaId := row.(
        state := next.value.state, snapshot := next.value, version := row.version + 1, nextReconcileAt := None)];
      return Ok(next.value.state);
    }

    // ---- cross_product_saga_worker.js ----

    /** Claims one due saga lookup, and hides the saga from other reconcilers for a while. */
    method ClaimDueLookup(hideMs: nat, now: nat) returns (key: Option<string>)
      modifies this`sagas
      ensures key.None? ==> Sagas() == old(Sagas()) && forall k :: k in outbox ==> !LookupDue(Sagas(), k, now)
      ensures key.Some? ==>
        LookupDue(old(Sagas()), key.value, now) && Sagas() == ClaimLookup(old(Sagas()), key.value, hideMs, now)
    {
      if !exists k :: k in outbox && Due(k, now) {
        return None;
      }
      var k :| k in outbox && Due(k, now);
      var sagaId := outbox[k].sagaId;
      sagas := sagas[sagaId := sagas[sagaId].(nextReconcileAt := Some(now + hideMs))];
      return Some(k);
    }

    predicate Due(key: string, now: nat)
      reads this
      ensures Due(key, now) == LookupDue(Sagas(), key, now)
    {
      && key in outbox && outbox[key].status == NeedsReconciliation && outbox[key].sagaId in sagas
      && var row := sagas[outbox[key].sagaId];
         && row.state == ReconciliationRequired
         && row.nextReconcileAt.Some? && row.nextReconcileAt.value <= now
         && row.snapshot.worldId == outbox[key].worldId
         && (key == row.snapshot.primaryKey || Some(key) == row.compensationKey)
    }

    /** The lookup failed or was inconclusive: only a saga that is still frozen is looked at again later. */
    method PostponeLookup(worldId: string, sagaId: string, retryMs: nat, now: nat)
      modifies this`sagas
      ensures Sagas() == DeferLookup(old(Sagas()), worldId, sagaId, retryMs, now)
    {
      if sagaId in sagas && sagas[sagaId].snapshot.worldId == worldId && sagas[sagaId].state == ReconciliationRequired {
        sagas := sagas[sagaId := sagas[sagaId].(nextReconcileAt := Some(now + retryMs))];
      }
    }

    method ApplyNotFound(worldId: string, sagaId: string, operationKey: string, now: nat) returns (outcome: NotFoundOutcome)
      modifies this`sagas, this`outbox
      ensures (Sagas(), outcome) == RetryAfterNotFound(old(Sagas()), worldId, sagaId, operationKey, now)
    {
      if sagaId !in sagas || sagas[sagaId].snapshot.worldId != worldId || sagas[sagaId].state != ReconciliationRequired {
        return StaleReconciliation;
      }
      var row := sagas[sagaId];
      var snapshot := row.snapshot;
      if snapshot.primaryResult.Some? || snapshot.compensationResult.Some? {
        return StillFrozen;
      }
      snapshot := snapshot.(
        state := if snapshot.primaryKey == operationKey then PendingRemote else CompensationPending);
      sagas := sagas[sagaId := row.(
        state := snapshot.state, snapshot := snapshot, version := row.version + 1, nextReconcileAt := None)];
      if operationKey in outbox && outbox[operationKey].status == NeedsReconciliation {
        outbox := outbox[operationKey := outbox[operationKey].(status := RetryWait, nextAttemptAt := now)];
      }
      return SameKeyRetryScheduled;
    }

    /**
     One claim, the port's answer to the request made for it, and the report, with no other transaction
     in between; time passes while the port answers. `Ok(None)` means there was nothing to claim.
     */
    method DispatchOnce(worker: string, leaseMs: int, worldId: Option<string>, requestId: string, port: PortRequest -> Reply,
                        retryAfterMs: int, maxAttempts: int, claimAt: nat, reportAt: nat)
      returns (claimed: Result<Option<Claimed>, Problem>)
      modifies this`sagas, this`outbox, this`inbox
      ensures claimed.Err? <==> Blank(worker) || !LeaseMsOk(leaseMs)
      ensures claimed.Err? || claimed.value.None? ==> Sagas() == old(Sagas())
      ensures claimed.Ok? && claimed.value.None? ==>
        forall key :: key in outbox && (worldId.Some? ==> outbox[key].worldId == worldId.value) ==>
          !Claimable(outbox[key], claimAt)
      ensures claimed.Ok? && claimed.value.Some? ==>
        var claim := claimed.value.value;
        && claim.key in old(outbox) && Claimable(old(outbox)[claim.key], claimAt)
        && (worldId.Some? ==> claim.row.worldId == worldId.value)
        && var leased := Claim(old(Sagas()), claim.key, worker, leaseMs, claimAt);
           && claim.row == leased.outbox[claim.key]
           && Sagas() ==
                if !IdentityMatches(claim) then RecordFailure(leased, Mismatch(claim), reportAt).after
                else match ReactionTo(port(RequestFor(claim.row.command, requestId)), claim.row.command)
                  case Record(raw) => RecordResult(leased, claim.row.worldId, claim.key, raw, reportAt).after
                  case Report(code, retryable, unknown, own) =>
                    RecordFailure(leased, FailureOf(claim, code, retryable, unknown, retryAfterMs, LimitOf(own, maxAttempts)),
                                  reportAt).after
    {
      var claim :- ClaimOutbox(worker, leaseMs, worldId, claimAt);
      if claim.None? {
        return Ok(None);
      }
      var handed := claim.value;
      if !IdentityMatches(handed) {
        var _ := RecordDispatchFailure(Mismatch(handed), reportAt);
      } else {
        match ReactionTo(port(RequestFor(handed.row.command, requestId)), handed.row.command)
        case Record(raw) =>
          var _ := RecordFinancialResult(handed.row.worldId, handed.key, raw, reportAt);
        case Report(code, retryable, unknown, own) =>
          var _ := RecordDispatchFailure(
            FailureOf(handed, code, retryable, unknown, retryAfterMs, LimitOf(own, maxAttempts)), reportAt);
      }
      return Ok(Some(handed));
    }

    // ---- contract_saga.js ----

    method PrepareContractActivation(input: ActivationInput, now: nat) returns (reply: Result<Prepared, Problem>)
      modifies this`sagas, this`attempts, this`outbox
      ensures Tx(Tables(), reply) == PrepareActivation(old(Tables()), input, now)
    {
      hide CreateSaga, SagaStore.PrepareIntent;
      if Blank(input.worldId) || Blank(input.contractId) || Blank(input.sagaId) || Blank(input.attemptId)
         || Blank(input.principalRef) || Blank(input.contractRef) {
        return Err(InvalidContractSagaInput);
      }
      var id := ContractId(input.worldId, input.contractId);
      if id !in contracts {
        return Err(ContractNotFound);
      }
      var c := contracts[id];
      if c.status != Proposed {
        return Err(ContractNotActivatable);
      }
      if c.currentVersion < 1 || c.currentVersion !in c.versions {
        return Err(ContractVersionRequired);
      }
      if !c.versions[c.currentVersion].hasCriteria {
        return Err(ContractAcceptanceCriteriaRequired);
      }
      if |AcceptedParties(c)| != 2 {
        return Err(ContractAcceptanceRequired);
      }
      var saga := CreateSaga(ContractActivation, SagaInput(
        input.sagaId, input.worldId, input.contractId, c.currentVersion, input.attemptId,
        FundingRequest(input, c.versions[c.currentVersion].price)));
      if saga.Err? {
        return Err(saga.error);
      }
      reply := PrepareIntent(saga.value, now);
    }

    method PrepareContractSettlement(input: SettlementInput, now: nat) returns (reply: Result<Prepared, Problem>)
      modifies this`sagas, this`attempts, this`outbox
      ensures Tx(Tables(), reply) == PrepareSettlement(old(Tables()), input, now)
      ensures reply.Ok? ==> SettlementReady(old(Tables()), input)
    {
      ReadinessIsChecked(Tables(), input);
      hide CreateSaga, SagaStore.PrepareIntent, HasAcceptedDelivery, HasResolvedDispute, AllocationsOk, SettlementReady;
      if Blank(input.worldId) || Blank(input.contractId) || Blank(input.sagaId) || Blank(input.attemptId)
         || Blank(input.principalRef) || Blank(input.contractRef) || Blank(input.escrowRef) {
        return Err(InvalidContractSagaInput);
      }
      var id := ContractId(input.worldId, input.contractId);
      if id !in contracts {
        return Err(ContractNotFound);
      }
      var c := contracts[id];
      if c.status !in {Submitted, Disputed} {
        return Err(ContractNotSettleable);
      }
      if c.escrowRef != Some(input.escrowRef) {
        return Err(ContractEscrowReferenceMismatch);
      }
      if c.status == Submitted {
        if !HasAcceptedDelivery(c) {
          return Err(ContractAcceptanceDecisionRequired);
        }
      } else {
        if !HasResolvedDispute(c) {
          return Err(ContractDisputeResolutionRequired);
        }
      }
      var problem := SnapshotProblem(input.snapshot, input.escrowRef);
      if problem.Some? {
        return Err(problem.value);
      }
      var sums := AssertAllocations(input.allocations, input.snapshot.value.balance);
      if !sums {
        return Err(InvalidContractSagaInput);
      }
      var saga := CreateSaga(ContractSettlement, SagaInput(
        input.sagaId, input.worldId, input.contractId, c.currentVersion, input.attemptId, DistributionRequest(input)));
      if saga.Err? {
        return Err(saga.error);
      }
      reply := PrepareIntent(saga.value, now);
    }

    method CommitContractActivation(worldId: string, sagaId: string, now: nat) returns (reply: Result<CommitReply, Problem>)
      modifies this`sagas, this`outbox, this`contracts
      ensures Tx(Tables(), reply) == CommitActivation(old(Tables()), worldId, sagaId, now)
    {
      hide MarkCommitted, SagaStore.QueueCompensation, EligibleForActive;
      if sagaId !in sagas || sagas[sagaId].snapshot.worldId != worldId {
        return Err(SagaNotFound);
      }
      var saga := sagas[sagaId].snapshot;
      if saga.kind != ContractActivation {
        return Err(SagaKindMismatch);
      }
      if saga.state != RemoteSucceeded || !HasStatus(saga.primaryResult, true) {
        return Err(RemoteFundingNotConfirmed);
      }
      var id := ContractId(worldId, saga.contractId);
      if id !in contracts {
        return Err(ContractNotFound);
      }
      var c := contracts[id];
      if !EligibleForActive(c, saga.contractVersion) {
        var queued := QueueCompensation(sagaId, INELIGIBLE, now);
        if queued.Err? {
          RefusedQueue(old(Sagas()), sagaId, INELIGIBLE, now);
          return Err(queued.error);
        }
        return Ok(CommitReply(true));
      }
      var escrowRef := saga.primaryResult.value.resultRef;
      if escrowRef.None? || Blank(escrowRef.value) {
        return Err(InvalidContractSagaInput);
      }
      contracts := contracts[id := c.(status := Active, escrowRef := escrowRef)];
      var marked := MarkLocalCommitted(worldId, sagaId, LocalActive);
      if marked.Err? {
        RefusedMark(old(Sagas()), worldId, sagaId, LocalActive);
        contracts := contracts[id := c];
        assert contracts == old(contracts);
        return Err(marked.error);
      }
      return Ok(CommitReply(false));
    }

    method QueueCompensation(sagaId: string, reason: string, now: nat) returns (reply: Result<bool, Problem>)
      requires sagaId in sagas
      modifies this`sagas, this`outbox
      ensures Tx(Sagas(), reply) == SagaStore.QueueCompensation(old(Sagas()), sagaId, reason, now)
    {
      hide RequestActivationCompensation, BuildFinancialCommand;
      var row := sagas[sagaId];
      var next := RequestActivationCompensation(row.snapshot, reason);
      if next.Err? {
        return Err(next.error);
      }
      var built := BuildFinancialCommand(next.value);
      if built.Err? {
        return Err(built.error);
      }
      if built.value.None? {
        return Err(InvalidSagaState);
      }
      var command := built.value.value;
      sagas := sagas[sagaId := row.(
        state := next.value.state, compensationKey := next.value.compensationKey, snapshot := next.value,
        version := row.version + 1)];
      if command.operationKey in outbox {
        return Ok(false);
      }
      outbox := outbox[command.operationKey := NewOutboxRow(next.value, command, now)];
      return Ok(true);
    }

    method CommitContractSettlement(worldId: string, sagaId: string) returns (reply: Result<SagaState, Problem>)
      modifies this`sagas, this`contracts
      ensures Tx(Tables(), reply) == CommitSettlement(old(Tables()), worldId, sagaId)
    {
      hide MarkCommitted;
      if sagaId !in sagas || sagas[sagaId].snapshot.worldId != worldId {
        return Err(SagaNotFound);
      }
      var saga := sagas[sagaId].snapshot;
      if saga.kind != ContractSettlement {
        return Err(SagaKindMismatch);
      }
      if saga.state != RemoteSucceeded || !HasStatus(saga.primaryResult, true) {
        return Err(RemoteSettlementNotConfirmed);
      }
      var id := ContractId(worldId, saga.contractId);
      if id !in contracts {
        return Err(ContractNotFound);
      }
      var c := contracts[id];
      if c.status !in {Submitted, Disputed} || c.currentVersion != saga.contractVersion {
        return Err(SettlementForwardRecoveryRequired);
      }
      contracts := contracts[id := c.(status := Settled)];
      reply := MarkLocalCommitted(worldId, sagaId, LocalSettled);
      if reply.Err? {
        RefusedMark(old(Sagas()), worldId, sagaId, LocalSettled);
        contracts := contracts[id := c];
        assert contracts == old(contracts);
      }
    }

    // ---- m04_contracts.js and m04_contract_delivery.js ----

    method ProposeContract(id: ContractId, actor: string, employer: string, contractor: string, terms: Terms,
                           partiesExist: bool) returns (problem: Option<Problem>)
      requires id !in contracts
      modifies this`contracts
      ensures var made := Propose(actor, employer, contractor, terms, partiesExist);
        if made.Err? then problem == Some(made.error) && contracts == old(contracts)
        else problem == None && contracts == old(contracts)[id := made.value]
    {
      if Blank(actor) || Blank(employer) || Blank(contractor) || employer == contractor {
        return Some(InvalidContractInput);
      }
      if actor != employer {
        return Some(Forbidden);
      }
      if !TermsOk(terms) {
        return Some(InvalidContractInput);
      }
      if !partiesExist {
        return Some(ContractPartyNotFound);
      }
      contracts := contracts[id := Contract(employer, contractor, Proposed, 0, map[], [], None, [], [])];
      contracts := contracts[id := contracts[id].(versions := contracts[id].versions[1 := terms])];
      contracts := contracts[id := contracts[id].(currentVersion := 1)];
      return None;
    }

    method PublishContractVersion(id: ContractId, actor: string, expectedVersion: int, terms: Terms)
      returns (problem: Option<Problem>)
      modifies this`contracts
      ensures Executed(old(contracts), contracts, id, PublishVersion(actor, expectedVersion, terms), problem)
    {
      if id !in contracts {
        return Some(ContractNotFound);
      }
      var c := contracts[id];
      if actor != c.employer && actor != c.contractor {
        return Some(Forbidden);
      }
      if c.status != Proposed {
        return Some(ContractTermsLocked);
      }
      if expectedVersion != c.currentVersion {
        return Some(StaleVersion);
      }
      if !TermsOk(terms) {
        return Some(InvalidContractInput);
      }
      contracts := contracts[id := contracts[id].(versions := c.versions[c.currentVersion + 1 := terms])];
      contracts := contracts[id := contracts[id].(acceptances := Invalidated(c.acceptances, c.currentVersion))];
      contracts := contracts[id := contracts[id].(currentVersion := c.currentVersion + 1)];
      return None;
    }

    method AcceptContractVersion(id: ContractId, actor: string, expectedVersion: int, idempotencyKey: string)
      returns (reply: Result<LiveAcceptance, Problem>)
      modifies this`contracts
      ensures Executed(old(contracts), contracts, id, AcceptTerms(actor, expectedVersion, idempotencyKey), ProblemOf(reply))
      ensures reply.Ok? ==>
        var a, before, after := reply.value.acceptance, old(contracts)[id].acceptances, contracts[id].acceptances;
        && a in after && a.version == contracts[id].currentVersion && a.party == actor && !a.invalidated
        && (reply.value.replayed <==> HasAccepted(old(contracts)[id], a.version, actor))
        && after == if reply.value.replayed then before else before + [Acceptance(a.version, actor, idempotencyKey, false)]
    {
      if Blank(idempotencyKey) {
        return Err(InvalidContractInput);
      }
      if id !in contracts {
        return Err(ContractNotFound);
      }
      var c := contracts[id];
      if actor != c.employer && actor != c.contractor {
        return Err(Forbidden);
      }
      if c.status != Proposed {
        return Err(ContractNotAccepting);
      }
      if expectedVersion != c.currentVersion {
        return Err(StaleVersion);
      }
      if HasAccepted(c, c.currentVersion, actor) {
        var i :| 0 <= i < |c.acceptances|
          && c.acceptances[i].version == c.currentVersion && c.acceptances[i].party == actor && !c.acceptances[i].invalidated;
        return Ok(LiveAcceptance(c.acceptances[i], true));
      }
      var made := Acceptance(c.currentVersion, actor, idempotencyKey, false);
      contracts := contracts[id := c.(acceptances := c.acceptances + [made])];
      return Ok(LiveAcceptance(made, false));
    }

    method SubmitDelivery(id: ContractId, actor: string, artifactRef: string, idempotencyKey: string, expectedVersion: int)
      returns (reply: Result<Submission, Problem>)
      modifies this`contracts
      ensures Executed(old(contracts), contracts, id, SubmitWork(actor, expectedVersion, artifactRef, idempotencyKey),
                       ProblemOf(reply))
      ensures reply.Ok? ==>
        var d, before, after := reply.value.delivery, old(contracts)[id].deliveries, contracts[id].deliveries;
        && d.version == contracts[id].currentVersion && d.submittedBy == actor
        && d.artifactRef == artifactRef && d.idempotencyKey == idempotencyKey
        && reply.value.contractStatus == contracts[id].status
        && (reply.value.replayed <==> FindDelivery(before, idempotencyKey).Some?)
        && if reply.value.replayed then d in before && after == before
           else after == before + [d] && d.status == InReview && contracts[id].status == Submitted
    {
      if Blank(artifactRef) || Blank(idempotencyKey) {
        return Err(InvalidContractInput);
      }
      if id !in contracts {
        return Err(ContractNotFound);
      }
      var c := contracts[id];
      if actor != c.contractor {
        return Err(Forbidden);
      }
      if expectedVersion != c.currentVersion {
        return Err(StaleVersion);
      }
      var existing := FindDelivery(c.deliveries, idempotencyKey);
      if existing.Some? {
        var row := c.deliveries[existing.value];
        if row.version != c.currentVersion || row.submittedBy != actor || row.artifactRef != artifactRef {
          return Err(IdempotencyConflict);
        }
        return Ok(Submission(row, c.status, true));
      }
      if c.status != Active {
        return Err(ContractNotDeliverable);
      }
      var no := LastSubmissionNo(c.deliveries, c.currentVersion) + 1;
      var made := Delivery(c.currentVersion, no, actor, artifactRef, idempotencyKey, InReview);
      contracts := contracts[id := c.(deliveries := c.deliveries + [made])];
      contracts := contracts[id := contracts[id].(status := Submitted)];
      return Ok(Submission(made, Submitted, false));
    }

    method ReviewDelivery(id: ContractId, actor: string, delivery: nat, decision: Decision, expectedVersion: int,
                          note: Option<string>) returns (problem: Option<Problem>)
      modifies this`contracts
      ensures Executed(old(contracts), contracts, id, ReviewWork(actor, expectedVersion, delivery, decision, note), problem)
    {
      hide CountRejected;
      if decision == OtherDecision {
        return Some(InvalidReviewDecision);
      }
      if id !in contracts {
        return Some(ContractNotFound);
      }
      var c := contracts[id];
      if actor != c.employer {
        return Some(Forbidden);
      }
      if c.status != Submitted {
        return Some(ContractNotReviewable);
      }
      if expectedVersion != c.currentVersion {
        return Some(StaleVersion);
      }
      if delivery >= |c.deliveries| || c.deliveries[delivery].version !in c.versions {
        return Some(DeliveryNotFound);
      }
      var row := c.deliveries[delivery];
      if row.version != c.currentVersion {
        return Some(StaleVersion);
      }
      if row.status != InReview {
        return Some(DeliveryAlreadyReviewed);
      }
      if note.Some? && Blank(note.value) {
        return Some(InvalidContractInput);
      }
      if decision == Rework {
        if CountRejected(c.deliveries, c.currentVersion) >= c.versions[row.version].reworkLimit {
          return Some(ReworkLimitExceeded);
        }
        if note.None? {
          return Some(ReviewNoteRequired);
        }
      }
      var status := if decision == AcceptDelivery then Accepted else Rejected;
      contracts := contracts[id := c.(deliveries := c.deliveries[delivery := row.(status := status)])];
      if decision == Rework {
        contracts := contracts[id := contracts[id].(status := Active)];
      }
      return None;
    }

    method RaiseContractDispute(id: ContractId, actor: string, reason: string, delivery: Option<nat>, expectedVersion: int)
      returns (problem: Option<Problem>)
      modifies this`contracts
      ensures Executed(old(contracts), contracts, id, OpenDispute(actor, expectedVersion, reason, delivery), problem)
    {
      if Blank(reason) {
        return Some(InvalidContractInput);
      }
      if id !in contracts {
        return Some(ContractNotFound);
      }
      var c := contracts[id];
      if actor != c.employer && actor != c.contractor {
        return Some(Forbidden);
      }
      if c.status != Submitted {
        return Some(ContractNotDisputable);
      }
      if expectedVersion != c.currentVersion {
        return Some(StaleVersion);
      }
      if delivery.Some? {
        if delivery.value >= |c.deliveries| || c.deliveries[delivery.value].version != c.currentVersion {
          return Some(DeliveryNotFound);
        }
        if c.deliveries[delivery.value].status !in {InReview, Accepted, Rejected} {
          return Some(DeliveryNotDisputable);
        }
      }
      contracts := contracts[id := c.(
        disputes := c.disputes + [Dispute(c.currentVersion, delivery, actor, Open, None, None)])];
      if delivery.Some? {
        contracts := contracts[id := contracts[id].(
          deliveries := c.deliveries[delivery.value := c.deliveries[delivery.value].(status := InDispute)])];
      }
      contracts := contracts[id := contracts[id].(status := Disputed)];
      return None;
    }

    method AdjudicateContractDispute(id: ContractId, dispute: nat, actor: string, ruling: RulingInput, hasResolution: bool,
                                     expectedVersion: int, authorization: Option<Authorization>)
      returns (problem: Option<Problem>)
      modifies this`contracts
      ensures Executed(old(contracts), contracts, id,
                       Rule(actor, expectedVersion, dispute, ruling, hasResolution, authorization), problem)
    {
      if ruling == RulingOther {
        return Some(InvalidAdjudicationOutcome);
      }
      if !hasResolution {
        return Some(ResolutionRequired);
      }
      if authorization.None? {
        return Some(ForbiddenAdjudicator);
      }
      var verified := authorization.value;
      if verified.worldId != id.worldId || verified.contractId != id.contractId || verified.dispute != dispute
         || verified.actor != actor || verified.expectedVersion != expectedVersion {
        return Some(ForbiddenAdjudicator);
      }
      if id !in contracts {
        return Some(ContractNotFound);
      }
      var c := contracts[id];
      if c.status != Disputed {
        return Some(ContractNotDisputed);
      }
      if expectedVersion != c.currentVersion {
        return Some(StaleVersion);
      }
      if dispute >= |c.disputes| {
        return Some(DisputeNotFound);
      }
      var row := c.disputes[dispute];
      if row.version != c.currentVersion {
        return Some(StaleVersion);
      }
      if row.status !in {Open, UnderReview} {
        return Some(DisputeAlreadyResolved);
      }
      row := row.(status := Resolved, resolution := Some(if ruling == RulingUphold then UpholdClaim else RejectClaim));
      row := row.(resolvedBy := Some(verified.adjudicator));
      contracts := contracts[id := c.(disputes := c.disputes[dispute := row])];
      return None;
    }
  }

  lemma RefusedQueue(store: Store, sagaId: string, reason: string, now: nat)
    requires sagaId in store.sagas && SagaStore.QueueCompensation(store, sagaId, reason, now).reply.Err?
    ensures SagaStore.QueueCompensation(store, sagaId, reason, now).after == store
  {
    hide RequestActivationCompensation, BuildFinancialCommand;
  }

  lemma RefusedMark(store: Store, worldId: string, sagaId: string, local: LocalState)
    requires MarkCommitted(store, worldId, sagaId, local).reply.Err?
    ensures MarkCommitted(store, worldId, sagaId, local).after == store
  {
    hide MarkLocalTransitionCommitted;
  }

  /** What an acceptance and a submission are answered with. */
  datatype LiveAcceptance = LiveAcceptance(acceptance: Acceptance, replayed: bool)

  datatype Submission = Submission(delivery: Delivery, contractStatus: ContractStatus, replayed: bool)

  function ProblemOf<T>(reply: Result<T, Problem>): Option<Problem> {
    if reply.Err? then Some(reply.error) else None
  }

  /** The contract table after a command: the command's own result, or its problem and nothing changed. */
  predicate Executed(a: map<ContractId, Contract>, b: map<ContractId, Contract>, id: ContractId, command: ContractCommand,
                     problem: Option<Problem>)
  {
    if id !in a then problem.Some? && b == a
    else
      var next := Execute(a[id], id.worldId, id.contractId, command);
      if next.Err? then problem == Some(next.error) && b == a else problem == None && b == a[id := next.value]
  }

  /** `assertAllocations`: a running total over the whole list. */
  method AssertAllocations(allocations: seq<Allocation>, amount: string) returns (ok: bool)
    requires AllDigits(amount)
    ensures ok == AllocationsOk(allocations, amount)
  {
    if allocations == [] {
      return false;
    }
    var total: nat := 0;
    for i := 0 to |allocations|
      invariant forall j :: 0 <= j < i ==> AllocationOk(allocations[j])
      invariant total == AllocationTotal(allocations[..i])
    {
      if Blank(allocations[i].principalRef) || !IsNonNegativeDecimal(allocations[i].amount) {
        assert !AllocationOk(allocations[i]);
        return false;
      }
      assert allocations[..i + 1][..i] == allocations[..i];
      total := total + DecimalValue(allocations[i].amount);
    }
    assert allocations[..|allocations|] == allocations;
    return total == DecimalValue(amount);
  }

  /** The DISTRIBUTE branch of `assertRequestPayload`, with its own running total. */
  method CheckDistribution(payload: EscrowPayload) returns (problem: Option<Problem>)
    requires IsPositiveDecimal(payload.amount) && payload.detail.Distribution?
    ensures problem.Some? <==> DistributeProblem(payload).Some?
    ensures problem.None? ==>
      && AllDecimal(payload.detail.allocations)
      && AllocationTotal(payload.detail.allocations) == DecimalValue(payload.amount)
  {
    var d := payload.detail;
    if d.escrowRef == "" || d.receiptRef == "" {
      return Some(InvalidEconomyPortEnvelope);
    }
    if !IsPositiveDecimal(d.expectedBalance) {
      return Some(InvalidMicroE);
    }
    if !IsNonNegativeDecimal(d.expectedVersion) {
      return Some(InvalidEconomyPortEnvelope);
    }
    if d.allocations == [] {
      return Some(InvalidEconomyPortRequest);
    }
    var total: nat := 0;
    for i := 0 to |d.allocations|
      invariant forall j :: 0 <= j < i ==> d.allocations[j].principalRef != "" && IsNonNegativeDecimal(d.allocations[j].amount)
      invariant total == AllocationTotal(d.allocations[..i])
    {
      if d.allocations[i].principalRef == "" {
        return Some(InvalidEconomyPortEnvelope);
      }
      if !IsNonNegativeDecimal(d.allocations[i].amount) {
        return Some(InvalidMicroE);
      }
      assert d.allocations[..i + 1][..i] == d.allocations[..i];
      total := total + DecimalValue(d.allocations[i].amount);
    }
    assert d.allocations[..|d.allocations|] == d.allocations;
    if total != DecimalValue(d.expectedBalance) || DecimalValue(payload.amount) != DecimalValue(d.expectedBalance) {
      return Some(EscrowAllocationMismatch);
    }
    return None;
  }
}
