/**
 What the saga protocol guarantees in every reachable state, under any interleaving of claims,
 reclaims, crashes, late results, reconciliations and contract commands.
 */
module SagaTheorems {
  import opened Wrappers
  import opened OperationKeys
  import opened Text
  import opened Sagas
  import opened SagaStore
  import opened SagaWorker
  import opened SagaInvariants
  import opened Contracts
  import opened ContractSagas
  import opened SagaWorld
  import opened SagaWorldProofs

  ghost predicate Reachable(w: World) {
    exists maxAttempts: int, steps: seq<Step> :: w == Run(Start(maxAttempts), steps)
  }

  lemma ReachableIsOk(w: World)
    requires Reachable(w)
    ensures Inv(w)
  {
    hide Inv, Run, Start;
    var maxAttempts: int, steps: seq<Step> :| w == Run(Start(maxAttempts), steps);
    StartIsOk(maxAttempts);
    RunKeepsInv(Start(maxAttempts), steps);
  }

  // ---- The store refines the pure saga ----

  /** Columns agree with snapshots, and a result in a saga came in through the inbox. */
  lemma RowsAgree(w: World, id: string)
    requires Reachable(w) && id in w.db.store.sagas
    ensures var row, store := w.db.store.sagas[id], w.db.store;
      && row.state == row.snapshot.state && row.compensationKey == row.snapshot.compensationKey
      && (row.snapshot.primaryResult.Some? ==>
            InInbox(store, row.snapshot.primaryKey, row.snapshot.primaryResult.value))
      && (row.snapshot.compensationResult.Some? ==>
            && row.snapshot.compensationKey.Some?
            && InInbox(store, row.snapshot.compensationKey.value, row.snapshot.compensationResult.value))
  {
    hide Reachable;
    ReachableIsOk(w);
    assert SagaRowOk(w.db.store, id);
  }

  /** Whenever a result reaches the pure saga, the asserted invariant holds and only a digest can be wrong. */
  lemma ObservationNeverSurprises(w: World, worldId: string, key: string, raw: RawResult)
    requires Reachable(w) && OperationKnown(w.db.store, worldId, key) && key !in w.db.store.inbox
    requires NormalizeResult(raw, key).Ok? && NormalizeResult(raw, key).value.key == key
    ensures var thawed := Unfrozen(w.db.store.sagas[w.db.store.outbox[key].sagaId].snapshot, key);
      var observed := ObserveFinancialResult(thawed, NormalizeResult(raw, key).value);
      && SagaInvariant(thawed)
      && (observed.Ok? <==> NormalizeResult(raw, key).value.digest == w.db.store.outbox[key].digest)
      && (observed.Err? ==> observed.error == SagaIdempotencyConflict)
  {
    hide Reachable;
    ReachableIsOk(w);
    hide StoreOk, SagaInvariant, ObserveFinancialResult, NormalizeResult;
    StoreRefinesSaga(w.db.store, worldId, key, raw);
  }

  // ---- Funds move at most once ----

  /** All requests that were ever sent for one key are the same request, up to its transport id. */
  lemma RequestsForOneKeyAgree(w: World, i: nat, j: nat)
    requires Reachable(w) && i < |w.sent| && j < |w.sent|
    requires w.sent[i].idempotencyKey == w.sent[j].idempotencyKey
    ensures w.sent[j] == w.sent[i].(requestId := w.sent[j].requestId)
  {
    hide Reachable;
    ReachableIsOk(w);
    hide StoreOk, LinksOk, RetriesOk, ContractsOk;
    assert w.sent[i] in w.sent && w.sent[j] in w.sent;
    assert SentOk(w.db.store, w.sent[i]) && SentOk(w.db.store, w.sent[j]);
  }

  /** The keys the Knowledge Ball ran for a saga. */
  function Effects(w: World, id: string): set<string> {
    set key | key in w.kb && w.kb[key].executed
      && key in w.db.store.outbox && w.db.store.outbox[key].sagaId == id
  }

  /** Every funds effect belongs to exactly one saga, and to its primary step or its refund. */
  lemma EffectsAreOwned(w: World, key: string)
    requires Reachable(w) && key in w.kb
    ensures key in w.db.store.outbox && w.db.store.outbox[key].sagaId in w.db.store.sagas
    ensures StoredKey(w.db.store.sagas[w.db.store.outbox[key].sagaId].snapshot, key)
    ensures forall id :: id in w.db.store.sagas && StoredKey(w.db.store.sagas[id].snapshot, key) ==>
      id == w.db.store.outbox[key].sagaId
  {
    hide Reachable;
    ReachableIsOk(w);
    KbRow(w, key);
    var owner := w.db.store.outbox[key].sagaId;
    forall id | id in w.db.store.sagas && StoredKey(w.db.store.sagas[id].snapshot, key) ensures id == owner {
      KeysBelongToOneSaga(w.db.store, id, owner, key);
    }
  }

  lemma KbRow(w: World, key: string)
    requires Inv(w) && key in w.kb
    ensures key in w.db.store.outbox && w.db.store.outbox[key].sagaId in w.db.store.sagas
    ensures var saga := w.db.store.sagas[w.db.store.outbox[key].sagaId].snapshot;
      && IsCommandOf(saga, key, w.db.store.outbox[key].command)
      && w.kb[key].request == RequestFor(w.db.store.outbox[key].command, w.kb[key].request.requestId)
  {
    assert KbOk(w.db.store, w.kb, key);
    assert OutboxRowOk(w.db.store, key);
  }

  /** At most one primary effect and one refund per saga, and a refund only after the primary effect. */
  lemma FundsMoveAtMostOnce(w: World, id: string)
    requires Reachable(w) && id in w.db.store.sagas
    ensures var saga := w.db.store.sagas[id].snapshot;
      && Effects(w, id) <= {saga.primaryKey} + (if saga.compensationKey.Some? then {saga.compensationKey.value} else {})
      && |Effects(w, id)| <= 2
      && (Effects(w, id) != {} ==> saga.primaryKey in Effects(w, id))
  {
    hide Reachable, Inv;
    var saga := w.db.store.sagas[id].snapshot;
    forall key | key in Effects(w, id)
      ensures key == saga.primaryKey || Some(key) == saga.compensationKey
      ensures saga.primaryKey in Effects(w, id)
    {
      EffectsAreOwned(w, key);
      if key != saga.primaryKey {
        RefundFollowsFunding(w, id, key);
      }
    }
    var bound := {saga.primaryKey} + (if saga.compensationKey.Some? then {saga.compensationKey.value} else {});
    SubsetIsSmaller(Effects(w, id), bound);
  }

  lemma SubsetIsSmaller<T>(small: set<T>, big: set<T>)
    requires small <= big
    ensures |small| <= |big|
  {
    assert big == small + (big - small);
  }

  /**
   A REFUND request at the Knowledge Ball follows the executed FUND of the same saga, has its amount,
   principal and contract, and names the escrow the Knowledge Ball opened for it.
   */
  lemma RefundFollowsFunding(w: World, id: string, key: string)
    requires Reachable(w) && key in w.kb && id in w.db.store.sagas
    requires Some(key) == w.db.store.sagas[id].snapshot.compensationKey
    ensures var saga := w.db.store.sagas[id].snapshot;
      && saga.primaryKey in w.kb && w.kb[saga.primaryKey].executed
      && saga.primaryKey in Effects(w, id)
      && var fund, refund := w.kb[saga.primaryKey].request, w.kb[key].request;
         && fund.payload.action == Some(Fund) && refund.payload.action == Some(Refund)
         && refund.payload.amount == fund.payload.amount
         && refund.principalRef == fund.principalRef
         && refund.payload.contractRef == fund.payload.contractRef
         && refund.payload.detail.Refunding?
         && refund.payload.detail.refundOf == w.kb[saga.primaryKey].reference
  {
    hide Reachable;
    ReachableIsOk(w);
    SagaRowFacts(w, id);
    var saga := w.db.store.sagas[id].snapshot;
    KbRow(w, key);
    KbRow(w, saga.primaryKey);
    RefundContents(saga, key, w.db.store.outbox[key].command, w.db.store.outbox[saga.primaryKey].command);
  }

  /** A funded saga is known to the Knowledge Ball as executed, a refused one as refused. */
  lemma SagaRowFacts(w: World, id: string)
    requires Inv(w) && id in w.db.store.sagas
    ensures var saga, store := w.db.store.sagas[id].snapshot, w.db.store;
      && WellFormed(saga) && PhaseOk(saga) && OwnsKey(store, id, saga.primaryKey)
      && (saga.compensationKey.Some? ==> OwnsKey(store, id, saga.compensationKey.value))
      && (saga.primaryResult.Some? ==> ResultIsTrue(w.kb, saga.primaryKey, saga.primaryResult.value))
      && (saga.compensationResult.Some? ==>
            saga.compensationKey.Some? && ResultIsTrue(w.kb, saga.compensationKey.value, saga.compensationResult.value))
  {
    assert SagaRowOk(w.db.store, id);
    var saga := w.db.store.sagas[id].snapshot;
    if saga.primaryResult.Some? {
      assert InboxIsTrue(w.db.store, w.kb, saga.primaryKey);
    }
    if saga.compensationResult.Some? {
      assert InboxIsTrue(w.db.store, w.kb, saga.compensationKey.value);
    }
  }

  lemma RefundContents(saga: Saga, key: string, refund: Command, fund: Command)
    requires WellFormed(saga) && PhaseOk(saga) && saga.compensationKey == Some(key)
    requires IsCommandOf(saga, key, refund) && IsCommandOf(saga, saga.primaryKey, fund)
    ensures HasStatus(saga.primaryResult, true) && saga.primaryResult.value.resultRef.Some?
    ensures fund.payload.action == Some(Fund) && refund.payload.action == Some(Refund)
    ensures refund.payload.amount == fund.payload.amount && refund.principalRef == fund.principalRef
    ensures refund.payload.contractRef == fund.payload.contractRef && refund.payload.detail.Refunding?
    ensures Some(refund.payload.detail.refundOf) == saga.primaryResult.value.resultRef
  {
    PrimaryIsNotCompensation(saga);
    hide OperationKey;
  }

  /** A refusal is final: the saga was never funded and never asks for a refund. */
  lemma RefusedIsNeverFunded(w: World, id: string)
    requires Reachable(w) && id in w.db.store.sagas
    requires HasStatus(w.db.store.sagas[id].snapshot.primaryResult, false)
    ensures Effects(w, id) == {} && w.db.store.sagas[id].snapshot.compensationKey.None?
  {
    hide Reachable;
    ReachableIsOk(w);
    SagaRowFacts(w, id);
    hide Inv, WellFormed, ResultFits;
    if key :| key in Effects(w, id) {
      EffectsAreOwned(w, key);
    }
  }

  // ---- What is handed out again, and what is not ----

  /** The row waits for a lookup, or is delivered: no worker gets it. */
  predicate Fenced(w: World, key: string) {
    key in w.db.store.outbox && w.db.store.outbox[key].status in {NeedsReconciliation, Delivered}
  }

  predicate IsNotFoundFor(step: Step, key: string) {
    step.NotFound? && step.lookup.operationKey == key
  }

  lemma ClaimOpensNoFence(w: World, key: string, other: string, worker: string, leaseMs: int)
    requires Fenced(w, key)
    ensures Fenced(Apply(w, ClaimRow(other, worker, leaseMs)), key)
  {
  }

  lemma ReportOpensNoFence(w: World, failure: Failure, key: string)
    requires Fenced(w, key)
    ensures Fenced(ReportFailure(w, failure), key)
  {
  }

  lemma ResultOpensNoFence(w: World, worldId: string, other: string, raw: RawResult, key: string)
    requires Fenced(w, key)
    ensures Fenced(StoreResult(w, worldId, other, raw), key)
  {
    hide NormalizeResult, ObserveFinancialResult;
  }

  lemma PrepareOpensNoFence(store: Store, saga: Saga, now: nat, key: string)
    requires key in store.outbox
    ensures var after := PrepareIntent(store, saga, now).after;
      key in after.outbox && after.outbox[key] == store.outbox[key]
  {
    hide SagaInvariant;
  }

  lemma CommitKeepsRow(w: World, worldId: string, sagaId: string, key: string)
    requires key in w.db.store.outbox
    ensures var a, s := WithActivation(w, worldId, sagaId), WithSettlement(w, worldId, sagaId);
      && key in a.db.store.outbox && a.db.store.outbox[key] == w.db.store.outbox[key] && a.retries == w.retries
      && key in s.db.store.outbox && s.db.store.outbox[key] == w.db.store.outbox[key] && s.retries == w.retries
  {
    hide CommitActivation, CommitSettlement;
    ActivationKeepsRow(w.db, worldId, sagaId, w.now, key);
    SettlementKeepsRow(w.db, worldId, sagaId, key);
  }

  lemma ActivationKeepsRow(db: Social, worldId: string, sagaId: string, now: nat, key: string)
    requires key in db.store.outbox
    ensures var after := CommitActivation(db, worldId, sagaId, now).after.store;
      key in after.outbox && after.outbox[key] == db.store.outbox[key]
  {
    hide QueueCompensation, MarkCommitted, EligibleForActive, HasStatus;
    CommitKeepsRows(db.store, worldId, sagaId, LocalActive, now, key);
  }

  lemma SettlementKeepsRow(db: Social, worldId: string, sagaId: string, key: string)
    requires key in db.store.outbox
    ensures CommitSettlement(db, worldId, sagaId).after.store.outbox == db.store.outbox
  {
    hide QueueCompensation, MarkCommitted, HasStatus;
    CommitKeepsRows(db.store, worldId, sagaId, LocalSettled, 0, key);
  }

  lemma CommitKeepsRows(store: Store, worldId: string, sagaId: string, local: LocalState, now: nat, key: string)
    requires key in store.outbox
    ensures MarkCommitted(store, worldId, sagaId, local).after.outbox == store.outbox
    ensures sagaId in store.sagas ==>
      var after := QueueCompensation(store, sagaId, INELIGIBLE, now).after;
      key in after.outbox && after.outbox[key] == store.outbox[key]
  {
    hide RequestActivationCompensation, MarkLocalTransitionCommitted, BuildFinancialCommand;
  }

  /** Only a NOT_FOUND answer for the key itself opens the fence. */
  lemma StepOpensNoFence(w: World, step: Step, key: string)
    requires Fenced(w, key) && !IsNotFoundFor(step, key)
    ensures Fenced(Apply(w, step), key)
  {
    hide Fenced, RecordFailure, RecordResult, ReportFailure, StoreResult, CommitActivation, CommitSettlement;
    match step
    case ClaimRow(other, worker, leaseMs) => ClaimOpensNoFence(w, key, other, worker, leaseMs);
    case HandleReply(claim, reply, retryAfterMs) =>
      hide TruthfulReply, ReactionTo;
      match ReactionTo(reply, claim.row.command) {
        case Record(raw) => ResultOpensNoFence(w, claim.row.worldId, claim.key, raw, key);
        case Report(code, retryable, unknown, own) =>
          ReportOpensNoFence(w, FailureOf(claim, code, retryable, unknown, retryAfterMs, LimitOf(own, w.maxAttempts)), key);
      }
    case RejectMismatch(claim) =>
      ReportOpensNoFence(w, Mismatch(claim), key);
    case Found(lookup, raw) => ResultOpensNoFence(w, lookup.worldId, lookup.operationKey, raw, key);
    case Activate(worldId, sagaId) =>
      CommitSteps(w, worldId, sagaId);
      SameRowSameFence(w, worldId, sagaId, key);
    case Settle(worldId, sagaId) =>
      CommitSteps(w, worldId, sagaId);
      SameRowSameFence(w, worldId, sagaId, key);
    case _ => OtherStepOpensNoFence(w, step, key);
  }

  lemma SameRowSameFence(w: World, worldId: string, sagaId: string, key: string)
    requires Fenced(w, key)
    ensures Fenced(WithActivation(w, worldId, sagaId), key) && Fenced(WithSettlement(w, worldId, sagaId), key)
  {
    hide WithActivation, WithSettlement;
    CommitKeepsRow(w, worldId, sagaId, key);
  }

  lemma OtherStepOpensNoFence(w: World, step: Step, key: string)
    requires Fenced(w, key) && !IsNotFoundFor(step, key)
    requires !step.ClaimRow? && !step.HandleReply? && !step.RejectMismatch? && !step.Found?
    requires !step.Activate? && !step.Settle?
    ensures Fenced(Apply(w, step), key)
  {
    hide Propose, Execute, PrepareActivation, PrepareSettlement;
    match step
    case PrepareFunding(input) => PrepareFundingKeepsRow(w.db, input, w.now, key);
    case PrepareDistribution(input) => PrepareDistributionKeepsRow(w.db, input, w.now, key);
    case _ =>
  }

  lemma PrepareFundingKeepsRow(db: Social, input: ActivationInput, now: nat, key: string)
    requires key in db.store.outbox
    ensures var after := PrepareActivation(db, input, now).after.store;
      key in after.outbox && after.outbox[key] == db.store.outbox[key]
  {
    hide PrepareIntent, CreateSaga;
    forall saga ensures var after := PrepareIntent(db.store, saga, now).after;
      key in after.outbox && after.outbox[key] == db.store.outbox[key]
    {
      PrepareOpensNoFence(db.store, saga, now, key);
    }
  }

  lemma PrepareDistributionKeepsRow(db: Social, input: SettlementInput, now: nat, key: string)
    requires key in db.store.outbox
    ensures var after := PrepareSettlement(db, input, now).after.store;
      key in after.outbox && after.outbox[key] == db.store.outbox[key]
  {
    hide PrepareIntent, CreateSaga, SettlementProblem;
    forall saga ensures var after := PrepareIntent(db.store, saga, now).after;
      key in after.outbox && after.outbox[key] == db.store.outbox[key]
    {
      PrepareOpensNoFence(db.store, saga, now, key);
    }
  }

  /**
   Once a failure is recorded as outcome unknown, the row is never handed out again in any run
   without a NOT_FOUND answer for its key.
   */
  lemma {:induction false} UnknownOutcomeIsFenced(w: World, steps: seq<Step>, key: string)
    requires Fenced(w, key)
    requires forall i :: 0 <= i < |steps| ==> !IsNotFoundFor(steps[i], key)
    ensures var later := Run(w, steps);
      Fenced(later, key) && !Claimable(later.db.store.outbox[key], later.now)
  {
    if steps == [] {
    } else {
      var before, last := steps[..|steps| - 1], steps[|steps| - 1];
      assert forall i :: 0 <= i < |before| ==> before[i] == steps[i];
      UnknownOutcomeIsFenced(w, before, key);
      hide Apply;
      StepOpensNoFence(Run(w, before), last, key);
    }
  }

  /**
   From the report of an unknown outcome on, accepted from whoever holds the lease, the row is never handed
   out again in any run without a NOT_FOUND answer for its key.
   */
  lemma ReportedUnknownIsNeverSentAgain(w: World, failure: Failure, steps: seq<Step>)
    requires failure.outcomeUnknown && RecordFailure(w.db.store, failure, w.now).reply.Ok?
    requires forall i :: 0 <= i < |steps| ==> !IsNotFoundFor(steps[i], failure.outboxKey)
    ensures var later, key := Run(ReportFailure(w, failure), steps), failure.outboxKey;
      key in later.db.store.outbox && !Claimable(later.db.store.outbox[key], later.now)
  {
    UnknownOutcomeRaisesFence(w, failure);
    hide Run, ReportFailure;
    UnknownOutcomeIsFenced(ReportFailure(w, failure), steps, failure.outboxKey);
  }

  /** Recording an unknown outcome puts the fence up. */
  lemma UnknownOutcomeRaisesFence(w: World, failure: Failure)
    requires failure.outcomeUnknown && RecordFailure(w.db.store, failure, w.now).reply.Ok?
    ensures Fenced(ReportFailure(w, failure), failure.outboxKey)
    ensures RecordFailure(w.db.store, failure, w.now).reply == Ok(NeedsReconciliation)
  {
  }

  /** Once the saga holds the result of a key, no run ever hands the key out again, whatever is answered. */
  lemma StoredResultIsNeverSentAgain(w: World, steps: seq<Step>, id: string, key: string)
    requires Reachable(w) && id in w.db.store.sagas
    requires StoredResult(w.db.store.sagas[id].snapshot, key).Some?
    ensures var later := Run(w, steps);
      && key in later.db.store.outbox && !Claimable(later.db.store.outbox[key], later.now)
      && id in later.db.store.sagas
      && StoredResult(later.db.store.sagas[id].snapshot, key) == StoredResult(w.db.store.sagas[id].snapshot, key)
  {
    hide Reachable, Inv, StoreGrows, Run;
    ReachableIsOk(w);
    RunKeepsInv(w, steps);
    var later := Run(w, steps);
    SagaRowFacts(w, id);
    KeptResult(w.db.store, later.db.store, id, key);
    HeldResultIsFence(later, id, key);
  }

  lemma KeptResult(a: Store, b: Store, id: string, key: string)
    requires StoreGrows(a, b) && id in a.sagas && StoredResult(a.sagas[id].snapshot, key).Some?
    requires PhaseOk(a.sagas[id].snapshot)
    ensures id in b.sagas && StoredResult(b.sagas[id].snapshot, key) == StoredResult(a.sagas[id].snapshot, key)
  {
    assert SagaKept(a, b, id);
    hide CompensationWellFormed, RefundMatchesFunding, ResultFits;
  }

  lemma HeldResultIsFence(w: World, id: string, key: string)
    requires Inv(w) && id in w.db.store.sagas && StoredResult(w.db.store.sagas[id].snapshot, key).Some?
    ensures key in w.db.store.outbox && !Claimable(w.db.store.outbox[key], w.now)
  {
    hide RowFits;
    SagaRowFacts(w, id);
    assert OutboxRowOk(w.db.store, key);
    ResultClosesRow(w.db.store.outbox[key], w.db.store.sagas[id].snapshot, key, w.now);
  }

  lemma ResultClosesRow(row: OutboxRow, saga: Saga, key: string, now: nat)
    requires RowFits(row, saga, key) && StoredResult(saga, key).Some?
    ensures !Claimable(row, now)
  {
  }

  /**
   A NOT_FOUND answer re-opens a frozen saga's key exactly when the saga holds no result, whether or
   not the inbox does.
   */
  lemma NotFoundReopensIff(w: World, lookup: Lookup)
    requires Reachable(w) && lookup in w.lookups
    requires lookup.sagaId in w.db.store.sagas && w.db.store.sagas[lookup.sagaId].snapshot.worldId == lookup.worldId
    ensures var row, outbox := w.db.store.sagas[lookup.sagaId], Apply(w, NotFound(lookup)).db.store.outbox;
      lookup.operationKey in w.db.store.outbox && lookup.operationKey in outbox &&
      ((outbox[lookup.operationKey].status == RetryWait && w.db.store.outbox[lookup.operationKey].status != RetryWait)
       <==> (row.state == ReconciliationRequired && row.snapshot.primaryResult.None?
             && w.db.store.outbox[lookup.operationKey].status == NeedsReconciliation))
  {
    hide Reachable, Inv, WellFormed, PhaseOk;
    ReachableIsOk(w);
    LookupRow(w, lookup);
    SagaRowFacts(w, lookup.sagaId);
    PrimaryComesFirst(w.db.store.sagas[lookup.sagaId].snapshot);
  }

  lemma PrimaryComesFirst(saga: Saga)
    requires PhaseOk(saga)
    ensures saga.primaryResult.None? ==> saga.compensationResult.None?
  {
  }

  /**
   A result in the inbox alone is no fence: a first result with a foreign digest freezes the saga
   without being stored in it, and a NOT_FOUND answer then lets the same key be sent again.
   */
  lemma InboxAloneIsNoFence(store: Store, key: string, raw: RawResult, now: nat)
    requires StoreOk(store) && key in store.outbox && key !in store.inbox
    requires var row := store.outbox[key];
      && row.status == NeedsReconciliation && OperationKnown(store, row.worldId, key) && !Blank(row.worldId) && !Blank(key)
      && store.sagas[row.sagaId].state == ReconciliationRequired
      && store.sagas[row.sagaId].snapshot.primaryResult.None?
    requires NormalizeResult(raw, key).Ok? && NormalizeResult(raw, key).value.key == key
    requires NormalizeResult(raw, key).value.digest != store.outbox[key].digest
    ensures var row := store.outbox[key];
      var received := RecordResult(store, row.worldId, key, raw, now).after;
      var (retried, outcome) := RetryAfterNotFound(received, row.worldId, row.sagaId, key, now);
      outcome == SameKeyRetryScheduled && key in retried.inbox && key in retried.outbox && Claimable(retried.outbox[key], now)
  {
    hide StoreOk, ObserveFinancialResult, NormalizeResult, SnapshotOk, RowFits, Sound, RecordResult, RetryAfterNotFound;
    var row := store.outbox[key];
    KeyRow(store, key);
    NoRefundYet(store, row.sagaId);
    StoreRefinesSaga(store, row.worldId, key, raw);
    MismatchFreezes(store, key, raw, now);
    NotFoundRetries(store.(inbox := store.inbox[key := NormalizeResult(raw, key).value]), key, now);
  }

  lemma NoRefundYet(store: Store, id: string)
    requires StoreOk(store) && id in store.sagas && store.sagas[id].snapshot.primaryResult.None?
    ensures store.sagas[id].snapshot.compensationResult.None?
  {
    assert SagaRowOk(store, id);
  }

  lemma MismatchFreezes(store: Store, key: string, raw: RawResult, now: nat)
    requires key in store.outbox && key !in store.inbox && !Blank(key)
    requires !Blank(store.outbox[key].worldId) && OperationKnown(store, store.outbox[key].worldId, key)
    requires NormalizeResult(raw, key).Ok? && NormalizeResult(raw, key).value.key == key
    requires store.outbox[key].sagaId in store.sagas
    requires var observed := ObserveFinancialResult(Unfrozen(store.sagas[store.outbox[key].sagaId].snapshot, key),
                                                    NormalizeResult(raw, key).value);
      observed.Err? && observed.error == SagaIdempotencyConflict
    ensures RecordResult(store, store.outbox[key].worldId, key, raw, now).after
         == Freeze(store.(inbox := store.inbox[key := NormalizeResult(raw, key).value]), key, now)
  {
    hide NormalizeResult, ObserveFinancialResult, Freeze, Accept, Unfrozen;
  }

  lemma NotFoundRetries(received: Store, key: string, now: nat)
    requires key in received.outbox && key in received.inbox && received.outbox[key].sagaId in received.sagas
    requires var snapshot := received.sagas[received.outbox[key].sagaId].snapshot;
      && snapshot.worldId == received.outbox[key].worldId
      && snapshot.primaryResult.None? && snapshot.compensationResult.None?
    ensures var row := received.outbox[key];
      var (retried, outcome) := RetryAfterNotFound(Freeze(received, key, now), row.worldId, row.sagaId, key, now);
      outcome == SameKeyRetryScheduled && key in retried.inbox && key in retried.outbox && Claimable(retried.outbox[key], now)
  {
  }

  /** An ambiguous refund is never sent again: not even a NOT_FOUND answer re-opens its key. */
  lemma {:induction false} AmbiguousRefundStaysFenced(w: World, steps: seq<Step>, id: string, key: string)
    requires Reachable(w) && id in w.db.store.sagas && w.db.store.sagas[id].snapshot.compensationKey == Some(key)
    requires Fenced(w, key)
    ensures var later := Run(w, steps);
      Fenced(later, key) && !Claimable(later.db.store.outbox[key], later.now)
  {
    hide Reachable, Inv, Grows;
    ReachableIsOk(w);
    if steps == [] {
    } else {
      var earlier, last := steps[..|steps| - 1], steps[|steps| - 1];
      var before := Run(w, earlier);
      AmbiguousRefundStaysFenced(w, earlier, id, key);
      RunKeepsInv(w, earlier);
      RefundRowStays(w, before, id, key);
      hide Apply;
      if IsNotFoundFor(last, key) {
        NotFoundKeepsRefundFenced(before, last.lookup, id, key);
      } else {
        StepOpensNoFence(before, last, key);
      }
    }
  }

  lemma RefundRowStays(a: World, b: World, id: string, key: string)
    requires Grows(a, b) && id in a.db.store.sagas && a.db.store.sagas[id].snapshot.compensationKey == Some(key)
    ensures id in b.db.store.sagas && b.db.store.sagas[id].snapshot.compensationKey == Some(key)
  {
    assert SagaKept(a.db.store, b.db.store, id);
  }

  lemma NotFoundKeepsRefundFenced(w: World, lookup: Lookup, id: string, key: string)
    requires Inv(w) && Fenced(w, key) && lookup.operationKey == key
    requires id in w.db.store.sagas && w.db.store.sagas[id].snapshot.compensationKey == Some(key)
    ensures Fenced(Apply(w, NotFound(lookup)), key)
  {
    hide Inv, WellFormed, PhaseOk;
    SagaRowFacts(w, id);
    RefundHoldsFunding(w.db.store.sagas[id].snapshot);
    if lookup in w.lookups {
      LookupRow(w, lookup);
    }
  }

  lemma RefundHoldsFunding(saga: Saga)
    requires PhaseOk(saga) && saga.compensationKey.Some?
    ensures saga.primaryResult.Some?
  {
  }

  lemma LookupRow(w: World, lookup: Lookup)
    requires Inv(w) && lookup in w.lookups
    ensures LookupOk(w.db.store, lookup)
  {
  }

  // ---- Retries are bounded ----

  /** A failure report moved the row from LEASED to RETRY_WAIT. */
  predicate MovedToRetry(a: World, b: World, key: string) {
    && key in a.db.store.outbox && a.db.store.outbox[key].status == Leased
    && key in b.db.store.outbox && b.db.store.outbox[key].status == RetryWait
  }

  function CountRetries(w: World, steps: seq<Step>, key: string): nat {
    if steps == [] then 0
    else
      var before := Run(w, steps[..|steps| - 1]);
      CountRetries(w, steps[..|steps| - 1], key) + if MovedToRetry(before, Run(w, steps), key) then 1 else 0
  }

  /** The counter kept beside the state counts exactly those moves, or more. */
  predicate Counted(a: World, b: World, key: string) {
    && RetriesOf(a, key) <= RetriesOf(b, key)
    && (MovedToRetry(a, b, key) ==> RetriesOf(b, key) == RetriesOf(a, key) + 1)
  }

  lemma ReportIsCounted(w: World, failure: Failure, key: string)
    ensures Counted(w, ReportFailure(w, failure), key)
  {
  }

  lemma ResultIsCounted(w: World, worldId: string, other: string, raw: RawResult, key: string)
    ensures Counted(w, StoreResult(w, worldId, other, raw), key)
  {
    hide NormalizeResult, ObserveFinancialResult;
  }

  lemma ClaimIsCounted(w: World, other: string, worker: string, leaseMs: int, key: string)
    ensures Counted(w, Apply(w, ClaimRow(other, worker, leaseMs)), key)
  {
  }

  lemma CommitIsCounted(w: World, worldId: string, sagaId: string, key: string)
    ensures Counted(w, WithActivation(w, worldId, sagaId), key) && Counted(w, WithSettlement(w, worldId, sagaId), key)
  {
    hide WithActivation, WithSettlement;
    if key in w.db.store.outbox {
      CommitKeepsRow(w, worldId, sagaId, key);
    }
    CommitKeepsRetries(w, worldId, sagaId);
  }

  lemma CommitKeepsRetries(w: World, worldId: string, sagaId: string)
    ensures WithActivation(w, worldId, sagaId).retries == w.retries
    ensures WithSettlement(w, worldId, sagaId).retries == w.retries
  {
    hide CommitActivation, CommitSettlement;
  }

  lemma OtherStepIsCounted(w: World, step: Step, key: string)
    requires !step.ClaimRow? && !step.HandleReply? && !step.RejectMismatch? && !step.Found?
    requires !step.Activate? && !step.Settle?
    ensures Counted(w, Apply(w, step), key)
  {
    hide Propose, Execute, PrepareActivation, PrepareSettlement;
    if key in w.db.store.outbox && step.PrepareFunding? {
      PrepareFundingKeepsRow(w.db, step.funding, w.now, key);
    }
    if key in w.db.store.outbox && step.PrepareDistribution? {
      PrepareDistributionKeepsRow(w.db, step.distribution, w.now, key);
    }
  }

  lemma StepIsCounted(w: World, step: Step, key: string)
    ensures Counted(w, Apply(w, step), key)
  {
    hide Counted, RecordFailure, RecordResult, ReportFailure, StoreResult, CommitActivation, CommitSettlement;
    match step
    case ClaimRow(other, worker, leaseMs) => ClaimIsCounted(w, other, worker, leaseMs, key);
    case HandleReply(claim, reply, retryAfterMs) =>
      hide TruthfulReply, ReactionTo;
      OtherStepIsCounted(w, Tick(0), key);
      match ReactionTo(reply, claim.row.command) {
        case Record(raw) => ResultIsCounted(w, claim.row.worldId, claim.key, raw, key);
        case Report(code, retryable, unknown, own) =>
          ReportIsCounted(w, FailureOf(claim, code, retryable, unknown, retryAfterMs, LimitOf(own, w.maxAttempts)), key);
      }
    case RejectMismatch(claim) =>
      OtherStepIsCounted(w, Tick(0), key);
      ReportIsCounted(w, Mismatch(claim), key);
    case Found(lookup, raw) =>
      OtherStepIsCounted(w, Tick(0), key);
      ResultIsCounted(w, lookup.worldId, lookup.operationKey, raw, key);
    case Activate(worldId, sagaId) =>
      CommitSteps(w, worldId, sagaId);
      CommitIsCounted(w, worldId, sagaId, key);
    case Settle(worldId, sagaId) =>
      CommitSteps(w, worldId, sagaId);
      CommitIsCounted(w, worldId, sagaId, key);
    case _ => OtherStepIsCounted(w, step, key);
  }

  lemma {:induction false} RetriesAreCounted(w: World, steps: seq<Step>, key: string)
    ensures RetriesOf(w, key) + CountRetries(w, steps, key) <= RetriesOf(Run(w, steps), key)
  {
    if steps == [] {
    } else {
      hide Apply, RetriesOf;
      RetriesAreCounted(w, steps[..|steps| - 1], key);
      StepIsCounted(Run(w, steps[..|steps| - 1]), steps[|steps| - 1], key);
    }
  }

  /** In any run, failures move a row to RETRY_WAIT fewer than `maxAttempts` times. */
  lemma RetriesAreBounded(maxAttempts: int, steps: seq<Step>, key: string)
    ensures CountRetries(Start(maxAttempts), steps, key) <= if maxAttempts >= 1 then maxAttempts - 1 else 0
  {
    var w := Run(Start(maxAttempts), steps);
    StartIsOk(maxAttempts);
    RunKeepsInv(Start(maxAttempts), steps);
    RetriesAreCounted(Start(maxAttempts), steps, key);
    assert RetryOk(w, key);
  }

  // ---- ACTIVE and REFUND exclude one another ----

  /** After one saga committed ACTIVE, no saga of that contract ever does again, and it never asks a refund itself. */
  lemma AtMostOneActivates(w: World, worldId: string, sagaId: string, steps: seq<Step>, otherWorld: string, other: string)
    requires Reachable(w)
    requires CommitActivation(w.db, worldId, sagaId, w.now).reply == Ok(CommitReply(false))
    ensures var later := Run(WithActivation(w, worldId, sagaId), steps);
      var tx := CommitActivation(later.db, otherWorld, other, later.now);
      && sagaId in w.db.store.sagas
      && (other in later.db.store.sagas
          && ContractOf(later.db.store.sagas[other].snapshot) == ContractOf(w.db.store.sagas[sagaId].snapshot)
          ==> tx.reply != Ok(CommitReply(false)))
      && (other == sagaId ==> tx.reply.Err?)
  {
    hide Reachable;
    ReachableIsOk(w);
    CommitActiveKeepsInv(w, worldId, sagaId);
    var active := WithActivation(w, worldId, sagaId);
    var id := ContractOf(w.db.store.sagas[sagaId].snapshot);
    hide Inv, Grows, Run, WithActivation, CommitActivation, Finished;
    ActivatedByIt(w, worldId, sagaId);
    RunKeepsInv(active, steps);
    var later := Run(active, steps);
    StaysActive(active, later, id);
    ActivatesNoMore(later, otherWorld, other, id);
    FinishedRefuses(later, otherWorld, sagaId);
  }

  lemma StaysActive(a: World, b: World, id: ContractId)
    requires Inv(b) && Grows(a, b) && id in a.activatedBy
    ensures id in b.db.contracts && b.db.contracts[id].status != Proposed
    ensures a.activatedBy[id] in b.db.store.sagas && Finished(b.db.store.sagas[a.activatedBy[id]].snapshot)
    ensures b.activatedBy[id] == a.activatedBy[id]
  {
    hide StoreOk, StoreGrows, ContractsGrow, FundsOk, RetriesOk, ContractsOk, Finished;
    assert ContractLinked(b, id);
  }

  lemma ActivatedByIt(w: World, worldId: string, sagaId: string)
    requires CommitActivation(w.db, worldId, sagaId, w.now).reply == Ok(CommitReply(false))
    ensures sagaId in w.db.store.sagas
    ensures var b := WithActivation(w, worldId, sagaId);
      b.activatedBy == w.activatedBy[ContractOf(w.db.store.sagas[sagaId].snapshot) := sagaId]
  {
    hide QueueCompensation, MarkCommitted, EligibleForActive;
  }

  lemma ActivatesNoMore(w: World, worldId: string, sagaId: string, id: ContractId)
    requires id in w.db.contracts && w.db.contracts[id].status != Proposed
    ensures sagaId in w.db.store.sagas && ContractOf(w.db.store.sagas[sagaId].snapshot) == id ==>
      CommitActivation(w.db, worldId, sagaId, w.now).reply != Ok(CommitReply(false))
  {
    hide QueueCompensation, MarkCommitted;
  }

  lemma FinishedRefuses(w: World, worldId: string, sagaId: string)
    requires sagaId in w.db.store.sagas && Finished(w.db.store.sagas[sagaId].snapshot)
    ensures CommitActivation(w.db, worldId, sagaId, w.now).reply.Err?
  {
  }

  /** Once a saga asked its refund, it never commits ACTIVE, and the refund is never asked anew. */
  lemma RefundExcludesActivation(w: World, worldId: string, sagaId: string, steps: seq<Step>, otherWorld: string)
    requires Reachable(w)
    requires CommitActivation(w.db, worldId, sagaId, w.now).reply == Ok(CommitReply(true))
    ensures var later := Run(WithActivation(w, worldId, sagaId), steps);
      CommitActivation(later.db, otherWorld, sagaId, later.now).reply.Err?
  {
    hide Reachable;
    ReachableIsOk(w);
    hide Inv, StoreOk, StoreGrows, Run, StoreStep, ContractsGrow;
    var asked := WithActivation(w, worldId, sagaId);
    ActivateKeepsInv(w, worldId, sagaId);
    RunKeepsInv(asked, steps);
    var later := Run(asked, steps);
    AskedRefund(w, worldId, sagaId);
    RefundStays(asked.db.store, later.db.store, sagaId);
    SagaRowFacts(later, sagaId);
    hide CommitActivation, WithActivation;
    RefundingRefuses(later, otherWorld, sagaId);
  }

  lemma AskedRefund(w: World, worldId: string, sagaId: string)
    requires Inv(w) && CommitActivation(w.db, worldId, sagaId, w.now).reply == Ok(CommitReply(true))
    ensures var b := WithActivation(w, worldId, sagaId);
      sagaId in b.db.store.sagas && b.db.store.sagas[sagaId].snapshot.compensationKey.Some?
  {
    hide Inv, MarkCommitted, EligibleForActive, QueueCompensation;
    QueuedRefund(w.db.store, sagaId, w.now);
  }

  lemma QueuedRefund(store: Store, sagaId: string, now: nat)
    requires sagaId in store.sagas && QueueCompensation(store, sagaId, INELIGIBLE, now).reply.Ok?
    ensures var b := QueueCompensation(store, sagaId, INELIGIBLE, now).after;
      sagaId in b.sagas && b.sagas[sagaId].snapshot.compensationKey.Some?
  {
    hide BuildFinancialCommand, SagaInvariant, CanonicalRequest, OperationKey;
  }

  lemma RefundStays(a: Store, b: Store, id: string)
    requires StoreGrows(a, b) && id in a.sagas && a.sagas[id].snapshot.compensationKey.Some?
    ensures id in b.sagas && b.sagas[id].snapshot.compensationKey.Some?
  {
    assert SagaKept(a, b, id);
  }

  lemma RefundingRefuses(w: World, worldId: string, sagaId: string)
    requires sagaId in w.db.store.sagas && PhaseOk(w.db.store.sagas[sagaId].snapshot)
    requires w.db.store.sagas[sagaId].snapshot.compensationKey.Some?
    ensures CommitActivation(w.db, worldId, sagaId, w.now).reply.Err?
  {
  }

  // ---- ACTIVE means paid as agreed ----

  /**
   Every contract past PROPOSED carries the escrow reference of a FUND the Knowledge Ball ran for
   exactly the price of its current version, and both parties hold live acceptances of that version.
   */
  lemma ActiveIsPaidAsAgreed(w: World, id: ContractId)
    requires Reachable(w) && id in w.db.contracts && w.db.contracts[id].status != Proposed
    ensures id in w.activatedBy && w.activatedBy[id] in w.db.store.sagas
    ensures var c, saga := w.db.contracts[id], w.db.store.sagas[w.activatedBy[id]].snapshot;
      && saga.kind == ContractActivation && ContractOf(saga) == id && saga.contractVersion == c.currentVersion
      && HasAccepted(c, c.currentVersion, c.employer) && HasAccepted(c, c.currentVersion, c.contractor)
      && saga.primaryKey in w.kb && w.kb[saga.primaryKey].executed
      && c.escrowRef == Some(w.kb[saga.primaryKey].reference)
      && c.currentVersion in c.versions
      && w.kb[saga.primaryKey].request.payload.action == Some(Fund)
      && w.kb[saga.primaryKey].request.payload.amount == c.versions[c.currentVersion].price
      && saga.compensationKey.None?
  {
    hide Reachable;
    ReachableIsOk(w);
    PaidContract(w, id);
    var saga := w.db.store.sagas[w.activatedBy[id]].snapshot;
    SagaRowFacts(w, w.activatedBy[id]);
    KbRow(w, saga.primaryKey);
    FundContents(saga, w.db.store.outbox[saga.primaryKey].command);
  }

  lemma PaidContract(w: World, id: ContractId)
    requires Inv(w) && id in w.db.contracts && w.db.contracts[id].status != Proposed
    ensures id in w.activatedBy && w.activatedBy[id] in w.db.store.sagas
    ensures var saga := w.db.store.sagas[w.activatedBy[id]].snapshot;
      PaidFor(saga, w.db.contracts[id], id) && LinkedTo(saga, w.db.contracts[id])
  {
    hide StoreOk, FundsOk, RetriesOk, ContractsOk, PaidFor, LinkedTo;
    assert ContractLinked(w, id);
    assert SagaLinked(w.db, w.activatedBy[id]);
    PaidIsOf(w.db.store.sagas[w.activatedBy[id]].snapshot, w.db.contracts[id], id);
  }

  lemma PaidIsOf(saga: Saga, c: Contract, id: ContractId)
    requires PaidFor(saga, c, id)
    ensures ContractOf(saga) == id
  {
  }

  lemma FundContents(saga: Saga, command: Command)
    requires WellFormed(saga) && PhaseOk(saga) && saga.kind == ContractActivation
    requires IsCommandOf(saga, saga.primaryKey, command)
    ensures command.payload.action == Some(Fund)
    ensures command.payload.amount == saga.primaryRequest.payload.amount
  {
    PrimaryIsNotCompensation(saga);
    hide OperationKey;
  }

  /** And this never changes again: same escrow, same version, same acceptances, same saga, in every later state. */
  lemma PaidStaysPaid(w: World, steps: seq<Step>, id: ContractId)
    requires Reachable(w) && id in w.db.contracts && w.db.contracts[id].status != Proposed
    ensures var later := Run(w, steps);
      && id in later.db.contracts && id in w.activatedBy && id in later.activatedBy
      && later.activatedBy[id] == w.activatedBy[id]
      && var c, d := w.db.contracts[id], later.db.contracts[id];
         && d.status != Proposed && d.escrowRef == c.escrowRef && d.currentVersion == c.currentVersion
         && d.versions == c.versions && d.acceptances == c.acceptances
  {
    hide Reachable;
    ReachableIsOk(w);
    RunKeepsInv(w, steps);
    hide Run, StoreOk, StoreGrows, FundsOk, RetriesOk, ContractsOk;
    assert ContractLinked(w, id);
    assert ContractKept(w.db.contracts, Run(w, steps).db.contracts, id);
  }

  // ---- A prepared settlement converges forward ----

  /**
   From preparation on the contract keeps its version and only moves towards SETTLED, so a confirmed
   distribution can be committed unless another settlement already settled the contract.
   */
  lemma SettlementConverges(w: World, sagaId: string)
    requires Reachable(w) && sagaId in w.db.store.sagas
    requires var saga := w.db.store.sagas[sagaId].snapshot;
      saga.kind == ContractSettlement && saga.state == RemoteSucceeded
    ensures var saga := w.db.store.sagas[sagaId].snapshot;
      var reply := CommitSettlement(w.db, saga.worldId, sagaId).reply;
      && ContractOf(saga) in w.db.contracts
      && var c := w.db.contracts[ContractOf(saga)];
         if c.status == Settled then
           && reply == Err(SettlementForwardRecoveryRequired)
           && ContractOf(saga) in w.settledBy && w.settledBy[ContractOf(saga)] != sagaId
         else reply == Ok(Completed)
  {
    hide Reachable;
    ReachableIsOk(w);
    hide Inv, StoreOk, WellFormed, PhaseOk, MarkCommitted, CommitSettlement, ResultFits;
    var saga := w.db.store.sagas[sagaId].snapshot;
    SettlementRow(w, sagaId);
    SagaRowFacts(w, sagaId);
    InvParts(w);
    CommitIsNeverRejected(w.db.store, sagaId, LocalSettled);
    FundedInPhase(saga);
    SettlementReply(w.db, sagaId);
  }

  lemma FundedInPhase(saga: Saga)
    requires PhaseOk(saga) && saga.state == RemoteSucceeded
    ensures HasStatus(saga.primaryResult, true) && !Finished(saga)
  {
  }

  lemma SettlementReply(db: Social, sagaId: string)
    requires sagaId in db.store.sagas
    requires var saga := db.store.sagas[sagaId].snapshot;
      && saga.kind == ContractSettlement && saga.state == RemoteSucceeded && HasStatus(saga.primaryResult, true)
      && ContractOf(saga) in db.contracts && db.contracts[ContractOf(saga)].currentVersion == saga.contractVersion
      && db.contracts[ContractOf(saga)].status in {Submitted, Disputed, Settled}
      && MarkCommitted(db.store, saga.worldId, sagaId, LocalSettled).reply == Ok(Completed)
    ensures var saga := db.store.sagas[sagaId].snapshot;
      CommitSettlement(db, saga.worldId, sagaId).reply
      == if db.contracts[ContractOf(saga)].status == Settled then Err(SettlementForwardRecoveryRequired) else Ok(Completed)
  {
    hide MarkCommitted;
  }

  lemma SettlementRow(w: World, sagaId: string)
    requires Inv(w) && sagaId in w.db.store.sagas && w.db.store.sagas[sagaId].snapshot.kind == ContractSettlement
    ensures var saga := w.db.store.sagas[sagaId].snapshot;
      && ContractOf(saga) in w.db.contracts
      && saga.sagaId == sagaId && !Blank(saga.worldId) && !Blank(sagaId)
      && var c := w.db.contracts[ContractOf(saga)];
         && c.currentVersion == saga.contractVersion && c.status in {Submitted, Disputed, Settled}
         && (c.status == Settled <==> ContractOf(saga) in w.settledBy)
         && (c.status == Settled ==>
               && w.settledBy[ContractOf(saga)] in w.db.store.sagas
               && Finished(w.db.store.sagas[w.settledBy[ContractOf(saga)]].snapshot))
  {
    hide StoreOk, FundsOk, RetriesOk, ContractsOk, WellFormed, PhaseOk, HasAcceptedDelivery;
    StoreRow(w.db.store, sagaId);
    assert SagaLinked(w.db, sagaId);
    assert ContractLinked(w, ContractOf(w.db.store.sagas[sagaId].snapshot));
  }

  /** A prepared settlement keeps finding its contract at the same version, on the way to SETTLED. */
  lemma SettlementNeverLosesItsContract(w: World, steps: seq<Step>, sagaId: string)
    requires Reachable(w) && sagaId in w.db.store.sagas
    requires w.db.store.sagas[sagaId].snapshot.kind == ContractSettlement
    ensures var saga, later := w.db.store.sagas[sagaId].snapshot, Run(w, steps);
      && ContractOf(saga) in later.db.contracts
      && later.db.contracts[ContractOf(saga)].currentVersion == saga.contractVersion
      && later.db.contracts[ContractOf(saga)].status in {Submitted, Disputed, Settled}
  {
    hide Reachable;
    ReachableIsOk(w);
    RunKeepsInv(w, steps);
    var later := Run(w, steps);
    assert SagaKept(w.db.store, later.db.store, sagaId);
    hide Inv, Grows, Run;
    SettlementRow(later, sagaId);
  }

  /** Every settlement saga hands the port allocations that add up to the amount and to the escrow balance. */
  lemma SettlementConservesEscrow(w: World, id: string)
    requires Reachable(w) && id in w.db.store.sagas && w.db.store.sagas[id].snapshot.kind == ContractSettlement
    ensures var request := w.db.store.sagas[id].snapshot.primaryRequest;
      && request.payload.action == Some(Distribute) && PortProblem(request).None?
      && request.payload.detail.Distribution?
      && AllDecimal(request.payload.detail.allocations) && AllDigits(request.payload.amount)
      && AllDigits(request.payload.detail.expectedBalance)
      && AllocationTotal(request.payload.detail.allocations)
         == DecimalValue(request.payload.amount) == DecimalValue(request.payload.detail.expectedBalance) > 0
  {
    hide Reachable;
    ReachableIsOk(w);
    StoreRow(w.db.store, id);
    var request := w.db.store.sagas[id].snapshot.primaryRequest;
    hide Inv, PhaseOk;
    CanonicalDistribution(w.db.store.sagas[id].snapshot);
  }

  lemma CanonicalDistribution(saga: Saga)
    requires WellFormed(saga) && saga.kind == ContractSettlement
    ensures var request := saga.primaryRequest;
      && request.payload.action == Some(Distribute) && PortProblem(request).None?
      && request.payload.detail.Distribution?
      && AllDecimal(request.payload.detail.allocations) && AllDigits(request.payload.amount)
      && AllDigits(request.payload.detail.expectedBalance)
      && AllocationTotal(request.payload.detail.allocations)
         == DecimalValue(request.payload.amount) == DecimalValue(request.payload.detail.expectedBalance) > 0
  {
    hide OperationKey;
    PositiveDecimalValue(saga.primaryRequest.payload.amount);
  }

  // ---- Deliveries ----

  /** Submissions of the current version are numbered 1..n without gaps, and rework is bounded. */
  lemma ReworkIsBounded(w: World, id: ContractId)
    requires Reachable(w) && id in w.db.contracts
    ensures var c := w.db.contracts[id];
      && c.currentVersion in c.versions
      && (forall i :: 0 <= i < |c.deliveries| ==>
            c.deliveries[i].submissionNo == i + 1 && c.deliveries[i].version == c.currentVersion)
      && |c.deliveries| <= SubmissionLimit(c.versions[c.currentVersion])
      && CountRejected(c.deliveries, c.currentVersion) < SubmissionLimit(c.versions[c.currentVersion])
      && (c.status == Active ==>
            AllRejected(c.deliveries) && |c.deliveries| < SubmissionLimit(c.versions[c.currentVersion]))
      && (c.status == Submitted ==> LastIsOpen(c.deliveries))
  {
    hide Reachable;
    ReachableIsOk(w);
    hide StoreOk, FundsOk, LinksOk, RetriesOk;
    RejectionsStayWithinLimit(w.db.contracts[id]);
  }

  /** A delivery key replayed after any run returns the delivery it made, and changes nothing. */
  lemma DeliveryReplays(w: World, steps: seq<Step>, id: ContractId, actor: string, version: int, artifact: string, key: string)
    requires Reachable(w) && id in w.db.contracts
    requires Submit(w.db.contracts[id], actor, artifact, key, version).Ok?
    ensures var later := Run(Apply(w, OnContract(id, SubmitWork(actor, version, artifact, key))), steps);
      && id in later.db.contracts
      && Submit(later.db.contracts[id], actor, artifact, key, version)
         == Ok(SubmitReply(later.db.contracts[id],
                           Submit(w.db.contracts[id], actor, artifact, key, version).value.delivery, true))
  {
    hide Reachable;
    ReachableIsOk(w);
    var step := OnContract(id, SubmitWork(actor, version, artifact, key));
    hide Inv, Grows, Run, ContractOk, ContractGrows, Submit, Apply;
    StepKeepsInv(w, step);
    SubmittedTo(w, id, actor, version, artifact, key);
    RunKeepsInv(Apply(w, step), steps);
    ContractRow(w, id);
    ContractAfter(Apply(w, step), Run(Apply(w, step), steps), id);
    SubmitReplay(w.db.contracts[id], Run(Apply(w, step), steps).db.contracts[id], actor, artifact, key, version);
  }

  lemma SubmittedTo(w: World, id: ContractId, actor: string, version: int, artifact: string, key: string)
    requires id in w.db.contracts && Submit(w.db.contracts[id], actor, artifact, key, version).Ok?
    ensures var b := Apply(w, OnContract(id, SubmitWork(actor, version, artifact, key)));
      && id in b.db.contracts
      && b.db.contracts[id] == Submit(w.db.contracts[id], actor, artifact, key, version).value.contract
  {
    hide Submit;
  }

  lemma ContractAfter(a: World, b: World, id: ContractId)
    requires Inv(b) && Grows(a, b) && id in a.db.contracts
    ensures id in b.db.contracts && ContractOk(b.db.contracts[id]) && ContractGrows(a.db.contracts[id], b.db.contracts[id])
  {
    hide StoreGrows, StoreOk, FundsOk, LinksOk, RetriesOk, ContractGrows;
    assert ContractKept(a.db.contracts, b.db.contracts, id);
  }
}
