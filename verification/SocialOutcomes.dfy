/**
 What the contract sagas answer, in terms of the contract they find: a funding starts from an agreement,
 a settlement from a decision, and each is committed exactly when its contract still allows it.
 */
module SocialOutcomes {
  import opened Wrappers
  import opened OperationKeys
  import opened Text
  import opened Sagas
  import opened SagaStore
  import opened SagaWorker
  import opened SagaInvariants
  import opened Contracts
  import opened ContractSagas
  import opened SagaWorld
  import opened SagaWorldProofs
  import opened SagaTheorems

  // ---- Preparing ----

  /** The party holds a live acceptance of the current version. */
  predicate Consents(c: Contract, party: string) {
    exists a :: a in c.acceptances && a.version == c.currentVersion && a.party == party && !a.invalidated
  }

  lemma ConsentIsAccepted(c: Contract, party: string)
    ensures Consents(c, party) <==> HasAccepted(c, c.currentVersion, party)
  {
    if Consents(c, party) {
      var a :| a in c.acceptances && a.version == c.currentVersion && a.party == party && !a.invalidated;
      var i :| 0 <= i < |c.acceptances| && c.acceptances[i] == a;
    }
  }

  /** Both parties hold live acceptances of the current version of a proposal that says when work is done. */
  ghost predicate IsAgreed(c: Contract) {
    && c.status == Proposed && c.currentVersion in c.versions && c.versions[c.currentVersion].hasCriteria
    && Consents(c, c.employer) && Consents(c, c.contractor)
  }

  /** The employer accepted a delivery of the current version. */
  predicate HasAcceptance(c: Contract) {
    exists i :: 0 <= i < |c.deliveries| && c.deliveries[i].version == c.currentVersion && c.deliveries[i].status == Accepted
  }

  /** An adjudicator ruled on a dispute of the current version. */
  predicate HasRuling(c: Contract) {
    exists i :: 0 <= i < |c.disputes|
      && c.disputes[i].version == c.currentVersion && c.disputes[i].status == Resolved
      && c.disputes[i].resolution.Some? && c.disputes[i].resolvedBy.Some?
  }

  /** Somebody entitled to it decided how the work ended. */
  predicate IsDecided(c: Contract) {
    (c.status == Submitted && HasAcceptance(c)) || (c.status == Disputed && HasRuling(c))
  }

  /** An authoritative account of a positive balance of the contract's own escrow. */
  predicate IsAuthoritative(snapshot: Option<EscrowSnapshot>, escrowRef: string) {
    && snapshot.Some? && snapshot.value.escrowRef == escrowRef
    && IsPositiveDecimal(snapshot.value.balance) && IsNonNegativeDecimal(snapshot.value.authorityVersion)
    && !Blank(snapshot.value.receiptRef) && snapshot.value.observedAt.Some?
  }

  /** Named decimal amounts that hand out exactly the balance. */
  predicate HandsOut(allocations: seq<Allocation>, balance: string)
    requires AllDigits(balance)
  {
    && allocations != []
    && (forall i :: 0 <= i < |allocations| ==> !Blank(allocations[i].principalRef) && IsNonNegativeDecimal(allocations[i].amount))
    && AllocationTotal(allocations) == DecimalValue(balance)
  }

  ghost predicate FundingReady(db: Social, input: ActivationInput) {
    var id := ContractId(input.worldId, input.contractId);
    && !Blank(input.worldId) && !Blank(input.contractId) && !Blank(input.sagaId) && !Blank(input.attemptId)
    && !Blank(input.principalRef) && !Blank(input.contractRef)
    && id in db.contracts && IsAgreed(db.contracts[id])
    && IsPositiveDecimal(db.contracts[id].versions[db.contracts[id].currentVersion].price)
    && (forall i :: 0 <= i < |input.prepay| ==> IsSignedDecimal(input.prepay[i].amount))
  }

  predicate SettlementReady(db: Social, input: SettlementInput) {
    var id := ContractId(input.worldId, input.contractId);
    && !Blank(input.worldId) && !Blank(input.contractId) && !Blank(input.sagaId) && !Blank(input.attemptId)
    && !Blank(input.principalRef) && !Blank(input.contractRef) && !Blank(input.escrowRef)
    && id in db.contracts && IsDecided(db.contracts[id]) && db.contracts[id].escrowRef == Some(input.escrowRef)
    && IsAuthoritative(input.snapshot, input.escrowRef) && HandsOut(input.allocations, input.snapshot.value.balance)
  }

  function NewSaga(kind: SagaKind, sagaId: string, attemptId: string, id: ContractId, version: int, request: FinancialRequest)
    : Saga
  {
    var step := PrimaryStep(kind);
    Saga(kind, sagaId, attemptId, id.worldId, id.contractId, version, PendingRemote,
         step, OperationKey(id.worldId, attemptId, step), Sha256(request), request, None, None, None, None, None, None)
  }

  /** The saga that funds exactly the price of the current version. */
  function FundingSaga(c: Contract, input: ActivationInput): Saga
    requires c.currentVersion in c.versions
  {
    NewSaga(ContractActivation, input.sagaId, input.attemptId, ContractId(input.worldId, input.contractId), c.currentVersion,
            FinancialRequest(input.principalRef, EscrowPayload(Some(Fund), input.contractRef,
              c.versions[c.currentVersion].price, Funding(input.prepay))))
  }

  /** The saga that hands out exactly the balance of the escrow. */
  function SettlementSaga(c: Contract, input: SettlementInput): Saga
    requires input.snapshot.Some? && input.snapshot.value.observedAt.Some?
  {
    var s := input.snapshot.value;
    NewSaga(ContractSettlement, input.sagaId, input.attemptId, ContractId(input.worldId, input.contractId), c.currentVersion,
            FinancialRequest(input.principalRef, EscrowPayload(Some(Distribute), input.contractRef, s.balance,
              Distribution(s.escrowRef, s.balance, s.authorityVersion, s.receiptRef, s.observedAt.value, input.allocations))))
  }

  /** A funding is prepared exactly from an agreement, and funds its price; anything else is refused. */
  lemma FundingsStartFromAgreements(db: Social, input: ActivationInput, now: nat)
    requires ContractsOk(db.contracts)
    ensures var tx := PrepareActivation(db, input, now);
      if FundingReady(db, input)
        then tx == Within(db, PrepareIntent(
               db.store, FundingSaga(db.contracts[ContractId(input.worldId, input.contractId)], input), now))
      else tx.reply.Err? && tx.after == db
  {
    hide PrepareIntent, OperationKey, CreateSaga, HasAccepted, Consents;
    var id := ContractId(input.worldId, input.contractId);
    if id in db.contracts {
      var c := db.contracts[id];
      ContractIsOk(db.contracts, id);
      TwoAcceptancesAreBothParties(c);
      ConsentIsAccepted(c, c.employer);
      ConsentIsAccepted(c, c.contractor);
      if !Blank(input.principalRef) && !Blank(input.contractRef) && c.currentVersion in c.versions
         && !Blank(input.worldId) && !Blank(input.contractId) && !Blank(input.sagaId) && !Blank(input.attemptId) {
        FundingIsCreated(c, input);
      }
      hide ContractOk;
    }
    hide AcceptedParties, ContractsOk;
  }

  lemma ContractIsOk(contracts: map<ContractId, Contract>, id: ContractId)
    requires ContractsOk(contracts) && id in contracts
    ensures ContractOk(contracts[id])
    ensures contracts[id].employer != contracts[id].contractor && contracts[id].currentVersion >= 1
  {
  }

  lemma FundingIsCreated(c: Contract, input: ActivationInput)
    requires c.currentVersion in c.versions && c.currentVersion >= 1
    requires !Blank(input.principalRef) && !Blank(input.contractRef) && !Blank(input.worldId) && !Blank(input.contractId)
    requires !Blank(input.sagaId) && !Blank(input.attemptId)
    ensures var created := CreateSaga(ContractActivation, SagaInput(
        input.sagaId, input.worldId, input.contractId, c.currentVersion, input.attemptId,
        FundingRequest(input, c.versions[c.currentVersion].price)));
      if IsPositiveDecimal(c.versions[c.currentVersion].price)
         && (forall i :: 0 <= i < |input.prepay| ==> IsSignedDecimal(input.prepay[i].amount))
        then created == Ok(FundingSaga(c, input)) else created.Err?
  {
    hide OperationKey;
    var asked := FundingRequest(input, c.versions[c.currentVersion].price);
    assert asked.(payload := asked.payload.(action := Some(Fund))) == FundingSaga(c, input).primaryRequest;
  }

  /**
   A settlement is prepared exactly from a decision, for the contract's own escrow, on an authoritative
   account of its balance, handing out all of it; anything else is refused and nothing changes.
   */
  lemma SettlementsStartFromDecisions(db: Social, input: SettlementInput, now: nat)
    requires ContractsOk(db.contracts)
    ensures var tx := PrepareSettlement(db, input, now);
      if SettlementReady(db, input)
        then tx == Within(db, PrepareIntent(
               db.store, SettlementSaga(db.contracts[ContractId(input.worldId, input.contractId)], input), now))
      else tx.reply.Err? && tx.after == db
  {
    hide PrepareIntent, CreateSaga, HasAcceptance, HasRuling, HandsOut, IsAuthoritative;
    ReadinessIsChecked(db, input);
    if SettlementProblem(db, input).None? {
      var id := ContractId(input.worldId, input.contractId);
      ContractIsOk(db.contracts, id);
      SettlementPassesThePort(db, input);
      SettlementIsCreated(db.contracts[id], input);
    }
    hide SettlementProblem, SettlementReady, ContractsOk;
  }

  lemma ReadinessIsChecked(db: Social, input: SettlementInput)
    ensures SettlementProblem(db, input).None? <==> SettlementReady(db, input)
    ensures SettlementProblem(db, input).None? ==>
      && ContractId(input.worldId, input.contractId) in db.contracts
      && input.snapshot.Some? && input.snapshot.value.observedAt.Some?
      && !Blank(input.worldId) && !Blank(input.contractId) && !Blank(input.sagaId) && !Blank(input.attemptId)
  {
    if input.snapshot.Some? {
      if IsNonNegativeDecimal(input.snapshot.value.balance) {
        PositiveDecimalValue(input.snapshot.value.balance);
        DecimalHasInk(input.snapshot.value.balance);
      }
      if IsNonNegativeDecimal(input.snapshot.value.authorityVersion) {
        DecimalHasInk(input.snapshot.value.authorityVersion);
      }
    }
    hide DecimalValue;
  }

  lemma DecimalHasInk(s: string)
    requires IsNonNegativeDecimal(s)
    ensures !Blank(s)
  {
    assert IsDigit(s[0]) && !IsJsSpace(s[0]);
  }

  lemma SettlementIsCreated(c: Contract, input: SettlementInput)
    requires c.currentVersion >= 1 && input.snapshot.Some? && input.snapshot.value.observedAt.Some?
    requires !Blank(input.worldId) && !Blank(input.contractId) && !Blank(input.sagaId) && !Blank(input.attemptId)
    requires CanonicalRequest(DistributeEscrow, DistributionRequest(input)).Ok?
    ensures CreateSaga(ContractSettlement, SagaInput(
        input.sagaId, input.worldId, input.contractId, c.currentVersion, input.attemptId, DistributionRequest(input)))
      == Ok(SettlementSaga(c, input))
  {
    hide OperationKey, PortProblem;
    var asked := DistributionRequest(input);
    CanonicalIsStable(DistributeEscrow, asked);
    assert asked.(payload := asked.payload.(action := Some(Distribute))) == SettlementSaga(c, input).primaryRequest;
  }

  /** The step that brings a saga into the world: a preparation from an agreement or from a decision. */
  ghost predicate EntersBy(w: World, step: Step, id: string, saga: Saga) {
    || (step.PrepareFunding? && step.funding.sagaId == id && FundingReady(w.db, step.funding)
        && saga == FundingSaga(w.db.contracts[ContractId(step.funding.worldId, step.funding.contractId)], step.funding))
    || (step.PrepareDistribution? && step.distribution.sagaId == id && SettlementReady(w.db, step.distribution)
        && saga == SettlementSaga(
             w.db.contracts[ContractId(step.distribution.worldId, step.distribution.contractId)], step.distribution))
  }

  lemma PreparingAddsThatSaga(store: Store, saga: Saga, now: nat, id: string)
    requires id !in store.sagas && id in PrepareIntent(store, saga, now).after.sagas
    ensures id == saga.sagaId && PrepareIntent(store, saga, now).after.sagas[id].snapshot == saga
  {
    hide BuildFinancialCommand;
  }

  lemma FreezingAddsNoSaga(store: Store, key: string, next: Saga, now: nat)
    requires key in store.outbox && store.outbox[key].sagaId in store.sagas
    ensures SameSagas(store, Freeze(store, key, now)) && SameSagas(store, Accept(store, key, next))
  {
  }

  lemma RecordingAddsNoSaga(store: Store, worldId: string, key: string, raw: RawResult, now: nat)
    ensures SameSagas(store, RecordResult(store, worldId, key, raw, now).after)
  {
    RecordResultShape(store, worldId, key, raw, now);
    hide RecordResult, NormalizeResult, ObserveFinancialResult, Unfrozen, Freeze, Accept;
    if RecordResult(store, worldId, key, raw, now).after != store {
      var received := store.(inbox := store.inbox[key := NormalizeResult(raw, key).value]);
      var observed := ObserveFinancialResult(Unfrozen(store.sagas[store.outbox[key].sagaId].snapshot, key),
                                             NormalizeResult(raw, key).value);
      FreezingAddsNoSaga(store, key, store.sagas[store.outbox[key].sagaId].snapshot, now);
      FreezingAddsNoSaga(received, key, if observed.Ok? then observed.value else received.sagas[received.outbox[key].sagaId].snapshot,
                         now);
    }
  }

  lemma ReportingAddsNoSaga(store: Store, failure: Failure, now: nat)
    ensures SameSagas(store, RecordFailure(store, failure, now).after)
  {
    hide Blank, FailureStatus, Frozen;
  }

  lemma MarkingAddsNoSaga(store: Store, worldId: string, sagaId: string, local: LocalState, now: nat)
    ensures SameSagas(store, MarkCommitted(store, worldId, sagaId, local).after)
    ensures sagaId in store.sagas ==> SameSagas(store, QueueCompensation(store, sagaId, INELIGIBLE, now).after)
  {
    hide MarkLocalTransitionCommitted, RequestActivationCompensation, BuildFinancialCommand, Blank;
  }

  lemma CommittingAddsNoSaga(db: Social, worldId: string, sagaId: string, now: nat)
    ensures SameSagas(db.store, CommitActivation(db, worldId, sagaId, now).after.store)
    ensures SameSagas(db.store, CommitSettlement(db, worldId, sagaId).after.store)
  {
    MarkingAddsNoSaga(db.store, worldId, sagaId, LocalActive, now);
    MarkingAddsNoSaga(db.store, worldId, sagaId, LocalSettled, now);
    assert SameSagas(db.store, db.store);
    hide MarkCommitted, QueueCompensation, EligibleForActive, HasStatus, Blank, SameSagas;
  }

  lemma LookingAddsNoSaga(store: Store, key: string, worldId: string, sagaId: string, ms: nat, now: nat)
    ensures LookupDue(store, key, now) ==> SameSagas(store, ClaimLookup(store, key, ms, now))
    ensures SameSagas(store, RetryAfterNotFound(store, worldId, sagaId, key, now).0)
    ensures SameSagas(store, DeferLookup(store, worldId, sagaId, ms, now))
  {
  }

  lemma CommitStepsAddNoSaga(w: World, step: Step)
    requires step.Activate? || step.Settle?
    ensures SameSagas(w.db.store, Apply(w, step).db.store)
  {
    hide CommitActivation, CommitSettlement, SameSagas;
    match step
    case Activate(worldId, sagaId) =>
      CommitSteps(w, worldId, sagaId);
      CommittingAddsNoSaga(w.db, worldId, sagaId, w.now);
      hide Apply;
    case Settle(worldId, sagaId) =>
      CommitSteps(w, worldId, sagaId);
      CommittingAddsNoSaga(w.db, worldId, sagaId, w.now);
      hide Apply;
  }

  lemma StoringAddsNoSaga(w: World, worldId: string, key: string, raw: RawResult)
    ensures SameSagas(w.db.store, StoreResult(w, worldId, key, raw).db.store)
  {
    hide RecordResult, SameSagas;
    RecordingAddsNoSaga(w.db.store, worldId, key, raw, w.now);
  }

  lemma FailingAddsNoSaga(w: World, failure: Failure)
    ensures SameSagas(w.db.store, ReportFailure(w, failure).db.store)
  {
    hide RecordFailure, SameSagas;
    ReportingAddsNoSaga(w.db.store, failure, w.now);
  }

  lemma HandlingAddsNoSaga(w: World, claim: Claimed, reply: Reply, retryAfterMs: int)
    ensures SameSagas(w.db.store, Apply(w, HandleReply(claim, reply, retryAfterMs)).db.store)
  {
    assert SameSagas(w.db.store, w.db.store);
    hide StoreResult, ReportFailure, ReactionTo, TruthfulReply, SameSagas, IdentityMatches;
    match ReactionTo(reply, claim.row.command)
    case Record(raw) => StoringAddsNoSaga(w, claim.row.worldId, claim.key, raw);
    case Report(code, retryable, unknown, own) =>
      FailingAddsNoSaga(w, FailureOf(claim, code, retryable, unknown, retryAfterMs, LimitOf(own, w.maxAttempts)));
  }

  lemma ReportStepsAddNoSaga(w: World, step: Step)
    requires step.HandleReply? || step.RejectMismatch? || step.Found?
    ensures SameSagas(w.db.store, Apply(w, step).db.store)
  {
    if step.HandleReply? {
      HandlingAddsNoSaga(w, step.claim, step.reply, step.retryAfterMs);
      hide Apply;
    } else {
      assert SameSagas(w.db.store, w.db.store);
      hide StoreResult, ReportFailure, TruthfulResult, SameSagas, IdentityMatches;
      match step
      case RejectMismatch(claim) => FailingAddsNoSaga(w, Mismatch(claim));
      case Found(lookup, raw) => StoringAddsNoSaga(w, lookup.worldId, lookup.operationKey, raw);
    }
  }

  lemma OtherStepsAddNoSaga(w: World, step: Step)
    requires !step.PrepareFunding? && !step.PrepareDistribution?
    ensures SameSagas(w.db.store, Apply(w, step).db.store)
  {
    if step.Activate? || step.Settle? {
      CommitStepsAddNoSaga(w, step);
    } else if step.HandleReply? || step.RejectMismatch? || step.Found? {
      ReportStepsAddNoSaga(w, step);
    } else {
      assert SameSagas(w.db.store, w.db.store);
      hide Propose, Execute, ClaimLookup, RetryAfterNotFound, DeferLookup, LookupDue;
      match step
      case LookUp(key, hideMs) => LookingAddsNoSaga(w.db.store, key, "", "", hideMs, w.now);
      case NotFound(lookup) => LookingAddsNoSaga(w.db.store, lookup.operationKey, lookup.worldId, lookup.sagaId, 0, w.now);
      case Inconclusive(lookup, ms) => LookingAddsNoSaga(w.db.store, lookup.operationKey, lookup.worldId, lookup.sagaId, ms, w.now);
      case _ =>
    }
  }

  lemma StepEntry(w: World, step: Step, id: string)
    requires Inv(w) && id !in w.db.store.sagas && id in Apply(w, step).db.store.sagas
    ensures EntersBy(w, step, id, Apply(w, step).db.store.sagas[id].snapshot)
  {
    hide Inv, PrepareActivation, PrepareSettlement, PrepareIntent, FundingReady, SettlementReady, FundingSaga, SettlementSaga,
      ContractsOk;
    InvParts(w);
    if step.PrepareFunding? {
      PrepareFundingStep(w, step.funding);
      FundingsStartFromAgreements(w.db, step.funding, w.now);
      hide Apply;
      FundingReadyHasContract(w.db, step.funding);
      PreparingAddsThatSaga(
        w.db.store, FundingSaga(w.db.contracts[ContractId(step.funding.worldId, step.funding.contractId)], step.funding),
        w.now, id);
    } else if step.PrepareDistribution? {
      PrepareDistributionStep(w, step.distribution);
      SettlementsStartFromDecisions(w.db, step.distribution, w.now);
      hide Apply;
      SettlementReadyHasContract(w.db, step.distribution);
      PreparingAddsThatSaga(
        w.db.store,
        SettlementSaga(w.db.contracts[ContractId(step.distribution.worldId, step.distribution.contractId)], step.distribution),
        w.now, id);
    } else {
      OtherStepsAddNoSaga(w, step);
      hide Apply;
    }
  }

  lemma FundingReadyHasContract(db: Social, input: ActivationInput)
    requires FundingReady(db, input)
    ensures var id := ContractId(input.worldId, input.contractId);
      id in db.contracts && db.contracts[id].currentVersion in db.contracts[id].versions
      && FundingSaga(db.contracts[id], input).sagaId == input.sagaId
  {
  }

  lemma SettlementReadyHasContract(db: Social, input: SettlementInput)
    requires SettlementReady(db, input)
    ensures var id := ContractId(input.worldId, input.contractId);
      id in db.contracts && input.snapshot.Some? && input.snapshot.value.observedAt.Some?
      && SettlementSaga(db.contracts[id], input).sagaId == input.sagaId
  {
  }

  /**
   Every saga of a reachable world came in with one step of the run, and that step found an agreement, or
   a decision about the work, that it was entitled to act on.
   */
  lemma {:induction false} SagasWerePrepared(maxAttempts: int, steps: seq<Step>, id: string)
    requires id in Run(Start(maxAttempts), steps).db.store.sagas
    ensures exists k :: 0 <= k < |steps| && EnteredAt(maxAttempts, steps, id, k)
  {
    hide Apply, EntersBy;
    if steps == [] {
      assert false;
    } else {
      var shorter, last := steps[..|steps| - 1], steps[|steps| - 1];
      var before := Run(Start(maxAttempts), shorter);
      if id in before.db.store.sagas {
        SagasWerePrepared(maxAttempts, shorter, id);
        var k :| 0 <= k < |shorter| && EnteredAt(maxAttempts, shorter, id, k);
        assert shorter[..k] == steps[..k] && shorter[..k + 1] == steps[..k + 1] && shorter[k] == steps[k];
        assert EnteredAt(maxAttempts, steps, id, k);
      } else {
        StartIsOk(maxAttempts);
        RunKeepsInv(Start(maxAttempts), shorter);
        StepEntry(before, last, id);
        assert steps[..|steps| - 1] == shorter && steps[..|shorter| + 1] == steps;
        assert EnteredAt(maxAttempts, steps, id, |shorter|);
      }
    }
  }

  ghost predicate EnteredAt(maxAttempts: int, steps: seq<Step>, id: string, k: nat)
    requires k < |steps|
  {
    var before, after := Run(Start(maxAttempts), steps[..k]), Run(Start(maxAttempts), steps[..k + 1]);
    && id !in before.db.store.sagas && id in after.db.store.sagas
    && EntersBy(before, steps[k], id, after.db.store.sagas[id].snapshot)
  }

  // ---- Committing ----

  /** A funding saga whose funds were confirmed and not used yet. */
  predicate IsFunded(db: Social, worldId: string, sagaId: string, kind: SagaKind) {
    && sagaId in db.store.sagas
    && var saga := db.store.sagas[sagaId].snapshot;
       && saga.worldId == worldId && saga.kind == kind && saga.state == RemoteSucceeded
       && ContractId(worldId, saga.contractId) in db.contracts
  }

  /**
   Confirmed funds activate exactly the contract that is still agreed in the version they were for; if it is
   not, their refund is queued; without confirmed funds nothing happens. `SagaOutcomes.CommitsMean` and
   `SagaOutcomes.RefundsMean` say what is left in the saga tables.
   */
  lemma ActivationsCommit(db: Social, worldId: string, sagaId: string, now: nat)
    requires StoreOk(db.store) && ContractsOk(db.contracts) && !Blank(worldId) && !Blank(sagaId)
    ensures var tx := CommitActivation(db, worldId, sagaId, now);
      if !IsFunded(db, worldId, sagaId, ContractActivation) then tx.reply.Err? && tx.after == db
      else
        var saga := db.store.sagas[sagaId].snapshot;
        var id := ContractId(worldId, saga.contractId);
        var c := db.contracts[id];
        && saga.primaryResult.Some?
        && if IsAgreed(c) && c.currentVersion == saga.contractVersion then
             && tx.reply == Ok(CommitReply(false))
             && tx.after.contracts
                == db.contracts[id := c.(status := Active, escrowRef := saga.primaryResult.value.resultRef)]
             && sagaId in tx.after.store.sagas && tx.after.store.sagas[sagaId].state == Completed
             && tx.after.store == MarkCommitted(db.store, worldId, sagaId, LocalActive).after
           else
             && tx.reply == Ok(CommitReply(true)) && tx.after.contracts == db.contracts
             && tx.after.store == QueueCompensation(db.store, sagaId, INELIGIBLE, now).after
             && sagaId in tx.after.store.sagas && tx.after.store.sagas[sagaId].state == CompensationPending
             && tx.after.store.sagas[sagaId].compensationKey.Some?
             && tx.after.store.sagas[sagaId].compensationKey.value !in db.store.outbox
             && tx.after.store.sagas[sagaId].compensationKey.value in tx.after.store.outbox
  {
    hide StoreOk, ContractsOk, Blank, WellFormed, MarkLocalTransitionCommitted, RequestActivationCompensation,
      BuildFinancialCommand, HasAccepted, Consents, SnapshotOk;
    if IsFunded(db, worldId, sagaId, ContractActivation) {
      var saga := db.store.sagas[sagaId].snapshot;
      var id := ContractId(worldId, saga.contractId);
      StoreRow(db.store, sagaId);
      SucceededHasReference(db.store.sagas[sagaId], sagaId);
      ContractIsOk(db.contracts, id);
      TwoAcceptancesAreBothParties(db.contracts[id]);
      ConsentIsAccepted(db.contracts[id], db.contracts[id].employer);
      ConsentIsAccepted(db.contracts[id], db.contracts[id].contractor);
      hide ContractOk, AcceptedParties;
      CommitIsNeverRejected(db.store, sagaId, LocalActive);
      MarkedRow(db.store, worldId, sagaId, LocalActive);
      QueueCompensationKeepsOk(db.store, sagaId, INELIGIBLE, now);
      QueuedRow(db.store, sagaId, now);
      hide MarkCommitted, QueueCompensation, RefundMatchesFunding, Finished;
    }
  }

  lemma SucceededHasReference(row: SagaRow, id: string)
    requires SnapshotOk(row, id) && row.snapshot.state == RemoteSucceeded
    ensures HasStatus(row.snapshot.primaryResult, true) && row.snapshot.primaryResult.Some?
    ensures row.snapshot.primaryResult.value.resultRef.Some? && !Blank(row.snapshot.primaryResult.value.resultRef.value)
  {
  }

  lemma MarkedRow(store: Store, worldId: string, sagaId: string, local: LocalState)
    requires MarkCommitted(store, worldId, sagaId, local).reply == Ok(Completed)
    ensures var b := MarkCommitted(store, worldId, sagaId, local).after;
      && sagaId in b.sagas && b.sagas[sagaId].state == Completed
      && b.outbox == store.outbox && b.inbox == store.inbox && b.attempts == store.attempts
  {
    hide MarkLocalTransitionCommitted;
  }

  lemma QueuedRow(store: Store, sagaId: string, now: nat)
    requires sagaId in store.sagas && QueueCompensation(store, sagaId, INELIGIBLE, now).reply == Ok(true)
    ensures var b := QueueCompensation(store, sagaId, INELIGIBLE, now).after;
      && sagaId in b.sagas && b.sagas[sagaId].state == CompensationPending && b.sagas[sagaId].compensationKey.Some?
      && b.sagas[sagaId].compensationKey.value !in store.outbox && b.sagas[sagaId].compensationKey.value in b.outbox
  {
    hide SagaInvariant, CanonicalRequest, OperationKey;
  }

  /** A confirmed settlement settles exactly the contract that still waits for it in its version; nothing else happens. */
  lemma SettlementsCommit(db: Social, worldId: string, sagaId: string)
    requires StoreOk(db.store) && !Blank(worldId) && !Blank(sagaId)
    ensures var tx := CommitSettlement(db, worldId, sagaId);
      if IsFunded(db, worldId, sagaId, ContractSettlement)
         && db.contracts[ContractId(worldId, db.store.sagas[sagaId].snapshot.contractId)].status in {Submitted, Disputed}
         && db.contracts[ContractId(worldId, db.store.sagas[sagaId].snapshot.contractId)].currentVersion
            == db.store.sagas[sagaId].snapshot.contractVersion then
        var id := ContractId(worldId, db.store.sagas[sagaId].snapshot.contractId);
        && tx.reply == Ok(Completed) && tx.after.contracts == db.contracts[id := db.contracts[id].(status := Settled)]
        && sagaId in tx.after.store.sagas && tx.after.store.sagas[sagaId].state == Completed
        && tx.after.store == MarkCommitted(db.store, worldId, sagaId, LocalSettled).after
      else tx.reply.Err? && tx.after == db
  {
    hide StoreOk, Blank, WellFormed, MarkLocalTransitionCommitted, SnapshotOk;
    if IsFunded(db, worldId, sagaId, ContractSettlement) {
      StoreRow(db.store, sagaId);
      SucceededHasReference(db.store.sagas[sagaId], sagaId);
      CommitIsNeverRejected(db.store, sagaId, LocalSettled);
      MarkedRow(db.store, worldId, sagaId, LocalSettled);
      hide MarkCommitted;
    }
  }
}
