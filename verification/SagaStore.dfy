/**
 The persisted saga: saga rows, outbox, inbox, and what each transaction of
 src/services/cross_product_saga_store.js and of the reconciler in
 src/services/cross_product_saga_worker.js makes of them.
 These functions specify the methods of class `SocialDb`.
 */
module SagaStore {
  import opened Wrappers
  import opened OperationKeys
  import opened Text
  import opened Sagas

  datatype OutboxStatus = Pending | Leased | Delivered | RetryWait | NeedsReconciliation | DeadLetter

  datatype OutboxRow = OutboxRow(
    worldId: string, sagaId: string, digest: Digest, command: Command, status: OutboxStatus, attempts: nat,
    leaseOwner: Option<string>, leaseUntil: Option<nat>, nextAttemptAt: nat)

  /** `state` and `compensationKey` are columns beside the stored snapshot. */
  datatype SagaRow = SagaRow(
    state: SagaState, compensationKey: Option<string>, snapshot: Saga, version: nat, nextReconcileAt: Option<nat>)

  /** The conflict target (world_id, kind, business_attempt_id). */
  datatype AttemptKey = AttemptKey(worldId: string, kind: SagaKind, attemptId: string)

  /** Outbox and inbox rows are found by operation key; the key contains the world. */
  datatype Store = Store(
    sagas: map<string, SagaRow>, attempts: map<AttemptKey, string>,
    outbox: map<string, OutboxRow>, inbox: map<string, FinancialResult>)

  /** A finished transaction: the tables it leaves and its reply. `Err` always comes with the old tables. */
  datatype Tx<S, T> = Tx(after: S, reply: Result<T, Problem>)

  function AttemptOf(saga: Saga): AttemptKey {
    AttemptKey(saga.worldId, saga.kind, saga.attemptId)
  }

  function NewOutboxRow(saga: Saga, command: Command, now: nat): OutboxRow {
    OutboxRow(saga.worldId, saga.sagaId, command.digest, command, Pending, 0, None, None, now)
  }

  // ---- prepareSagaIntent ----

  datatype Prepared = Prepared(sagaId: string, replayed: bool)

  function PrepareIntent(store: Store, saga: Saga, now: nat): Tx<Store, Prepared> {
    var built := BuildFinancialCommand(saga);
    if built.Err? then Tx(store, Err(built.error))
    else if built.value.None? then Tx(store, Err(InvalidSagaState))
    else
      var command, attempt := built.value.value, AttemptOf(saga);
      if attempt in store.attempts then
        var owner := store.attempts[attempt];
        if owner !in store.sagas then Tx(store, Err(InvalidSagaState))
        else
          var prior := store.sagas[owner].snapshot;
          if prior.primaryDigest != saga.primaryDigest || prior.contractId != saga.contractId
             || prior.contractVersion != saga.contractVersion
            then Tx(store, Err(SagaIdempotencyConflict))
          else Tx(store, Ok(Prepared(owner, true)))
      else if saga.sagaId in store.sagas || command.operationKey in store.outbox then Tx(store, Err(UniqueViolation))
      else
        Tx(store.(
             sagas := store.sagas[saga.sagaId := SagaRow(saga.state, saga.compensationKey, saga, 1, None)],
             attempts := store.attempts[attempt := saga.sagaId],
             outbox := store.outbox[command.operationKey := NewOutboxRow(saga, command, now)]),
           Ok(Prepared(saga.sagaId, false)))
  }

  // ---- claimSagaOutbox ----

  predicate Claimable(row: OutboxRow, now: nat) {
    || (row.status in {Pending, RetryWait} && row.nextAttemptAt <= now)
    || (row.status == Leased && row.leaseUntil.Some? && row.leaseUntil.value < now)
  }

  predicate LeaseMsOk(leaseMs: int) {
    1000 <= leaseMs <= 300_000
  }

  function Claim(store: Store, key: string, worker: string, leaseMs: nat, now: nat): Store
    requires key in store.outbox
  {
    var row := store.outbox[key];
    store.(outbox := store.outbox[key := row.(
      status := Leased, attempts := row.attempts + 1, leaseOwner := Some(worker), leaseUntil := Some(now + leaseMs))])
  }

  // ---- recordSagaDispatchFailure ----

  datatype Failure = Failure(
    outboxKey: string, owner: string, errorCode: string, retryable: bool, outcomeUnknown: bool,
    retryAfterMs: int, maxAttempts: int)

  function Delay(retryAfterMs: int): nat {
    if retryAfterMs < 0 then 0 else if retryAfterMs > 3_600_000 then 3_600_000 else retryAfterMs
  }

  function FailureStatus(row: OutboxRow, failure: Failure): OutboxStatus {
    if failure.outcomeUnknown then NeedsReconciliation
    else if failure.retryable && row.attempts < failure.maxAttempts then RetryWait
    else DeadLetter
  }

  function Frozen(row: SagaRow, wakeAt: nat): SagaRow {
    row.(state := ReconciliationRequired, snapshot := row.snapshot.(state := ReconciliationRequired),
         version := row.version + 1, nextReconcileAt := Some(wakeAt))
  }

  function RecordFailure(store: Store, failure: Failure, now: nat): Tx<Store, OutboxStatus> {
    if Blank(failure.outboxKey) || Blank(failure.owner) || Blank(failure.errorCode) || failure.maxAttempts < 1
      then Tx(store, Err(InvalidSagaInput))
    else if failure.outboxKey !in store.outbox
            || store.outbox[failure.outboxKey].status != Leased
            || store.outbox[failure.outboxKey].leaseOwner != Some(failure.owner)
      then Tx(store, Err(SagaOutboxLeaseLost))
    else
      var row := store.outbox[failure.outboxKey];
      var status := FailureStatus(row, failure);
      var wakeAt := now + Delay(failure.retryAfterMs);
      var outbox := store.outbox[failure.outboxKey := row.(
        status := status, nextAttemptAt := wakeAt, leaseOwner := None, leaseUntil := None)];
      var sagas :=
        if row.sagaId !in store.sagas || store.sagas[row.sagaId].snapshot.worldId != row.worldId then store.sagas
        else
          var saga := store.sagas[row.sagaId];
          if failure.outcomeUnknown then
            if saga.state in {Completed, Compensated, Failed} then store.sagas
            else store.sagas[row.sagaId := Frozen(saga, wakeAt)]
          else if status == DeadLetter then store.sagas[row.sagaId := saga.(version := saga.version + 1)]
          else store.sagas;
      Tx(store.(outbox := outbox, sagas := sagas), Ok(status))
  }

  // ---- recordSagaFinancialResult ----

  datatype RawStatus = RawSucceeded | RawFailed | RawOther

  datatype RawResult = RawResult(
    operationKey: Option<string>, idempotencyKey: Option<string>, digest: Option<Digest>, status: RawStatus,
    resultRef: Option<string>, errorCode: Option<string>)

  function NormalizeResult(raw: RawResult, operationKey: string): Result<FinancialResult, Problem> {
    var key := if raw.operationKey.Some? then raw.operationKey.value
               else if raw.idempotencyKey.Some? then raw.idempotencyKey.value
               else operationKey;
    if Blank(key) || raw.digest.None? then Err(InvalidSagaInput)
    else if raw.status == RawOther then Err(InvalidSagaResult)
    else if raw.status == RawSucceeded && (raw.resultRef.None? || Blank(raw.resultRef.value)) then Err(InvalidSagaInput)
    else Ok(FinancialResult(key, raw.digest.value, raw.status == RawSucceeded, raw.resultRef, raw.errorCode))
  }

  datatype Recorded = Recorded(duplicate: bool, conflict: bool, state: SagaState)

  /** A saga frozen by an unknown outcome is observed in the state the missing result belongs to. */
  function Unfrozen(saga: Saga, operationKey: string): Saga {
    if saga.state != ReconciliationRequired then saga
    else if saga.primaryResult.None? && operationKey == saga.primaryKey then saga.(state := PendingRemote)
    else if saga.compensationResult.None? && Some(operationKey) == saga.compensationKey
      then saga.(state := CompensationPending)
    else saga
  }

  predicate OperationKnown(store: Store, worldId: string, operationKey: string) {
    && operationKey in store.outbox
    && store.outbox[operationKey].worldId == worldId
    && store.outbox[operationKey].sagaId in store.sagas
    && store.sagas[store.outbox[operationKey].sagaId].snapshot.worldId == worldId
  }

  /** Contradicting evidence stops automated progress of the saga and of its outbox row. */
  function Freeze(store: Store, operationKey: string, now: nat): Store
    requires operationKey in store.outbox && store.outbox[operationKey].sagaId in store.sagas
  {
    var row := store.outbox[operationKey];
    store.(
      sagas := store.sagas[row.sagaId := Frozen(store.sagas[row.sagaId], now)],
      outbox := store.outbox[operationKey := row.(
        status := NeedsReconciliation, leaseOwner := None, leaseUntil := None)])
  }

  function Accept(store: Store, operationKey: string, next: Saga): Store
    requires operationKey in store.outbox && store.outbox[operationKey].sagaId in store.sagas
  {
    var row := store.outbox[operationKey];
    var saga := store.sagas[row.sagaId];
    store.(
      sagas := store.sagas[row.sagaId := saga.(
        state := next.state, snapshot := next, version := saga.version + 1, nextReconcileAt := None)],
      outbox := store.outbox[operationKey := row.(
        status := Delivered, leaseOwner := None, leaseUntil := None)])
  }

  function RecordResult(store: Store, worldId: string, operationKey: string, raw: RawResult, now: nat)
    : Tx<Store, Recorded>
  {
    var normalized := NormalizeResult(raw, operationKey);
    if Blank(worldId) || Blank(operationKey) then Tx(store, Err(InvalidSagaInput))
    else if normalized.Err? then Tx(store, Err(normalized.error))
    else if normalized.value.key != operationKey then Tx(store, Err(UnexpectedSagaOperation))
    else if !OperationKnown(store, worldId, operationKey) then Tx(store, Err(SagaOperationNotFound))
    else
      var result := normalized.value;
      var saga := store.sagas[store.outbox[operationKey].sagaId];
      if operationKey in store.inbox then
        if store.inbox[operationKey] == result then Tx(store, Ok(Recorded(true, false, saga.state)))
        else Tx(Freeze(store, operationKey, now), Ok(Recorded(false, true, ReconciliationRequired)))
      else
        var received := store.(inbox := store.inbox[operationKey := result]);
        var observed := ObserveFinancialResult(Unfrozen(saga.snapshot, operationKey), result);
        if observed.Ok? then
          Tx(Accept(received, operationKey, observed.value), Ok(Recorded(false, false, observed.value.state)))
        else if observed.error in {SagaIdempotencyConflict, SagaResultConflict} then
          Tx(Freeze(received, operationKey, now), Ok(Recorded(false, true, ReconciliationRequired)))
        else Tx(store, Err(observed.error))
  }

  // ---- markPersistedSagaLocalTransitionCommitted and queueActivationCompensation ----

  function MarkCommitted(store: Store, worldId: string, sagaId: string, local: LocalState): Tx<Store, SagaState> {
    if Blank(worldId) || Blank(sagaId) then Tx(store, Err(InvalidSagaInput))
    else if sagaId !in store.sagas || store.sagas[sagaId].snapshot.worldId != worldId then Tx(store, Err(SagaNotFound))
    else
      var row := store.sagas[sagaId];
      var next := MarkLocalTransitionCommitted(row.snapshot, local);
      if next.Err? then Tx(store, Err(next.error))
      else
        Tx(store.(sagas := store.sagas[sagaId := row.(
             state := next.value.state, snapshot := next.value, version := row.version + 1, nextReconcileAt := None)]),
           Ok(next.value.state))
  }

  function QueueCompensation(store: Store, sagaId: string, reason: string, now: nat): Tx<Store, bool>
    requires sagaId in store.sagas
  {
    var row := store.sagas[sagaId];
    var next := RequestActivationCompensation(row.snapshot, reason);
    if next.Err? then Tx(store, Err(next.error))
    else
      var built := BuildFinancialCommand(next.value);
      if built.Err? then Tx(store, Err(built.error))
      else if built.value.None? then Tx(store, Err(InvalidSagaState))
      else
        var command := built.value.value;
        var queued := command.operationKey !in store.outbox;
        Tx(store.(
             sagas := store.sagas[sagaId := row.(
               state := next.value.state, compensationKey := next.value.compensationKey,
               snapshot := next.value, version := row.version + 1)],
             outbox := if queued
                       then store.outbox[command.operationKey := NewOutboxRow(next.value, command, now)]
                       else store.outbox),
           Ok(queued))
  }

  // ---- reconcileSagaOnce ----

  predicate LookupDue(store: Store, operationKey: string, now: nat) {
    && operationKey in store.outbox
    && store.outbox[operationKey].status == NeedsReconciliation
    && store.outbox[operationKey].sagaId in store.sagas
    && var row := store.sagas[store.outbox[operationKey].sagaId];
       && row.state == ReconciliationRequired
       && row.nextReconcileAt.Some? && row.nextReconcileAt.value <= now
       && row.snapshot.worldId == store.outbox[operationKey].worldId
       && (operationKey == row.snapshot.primaryKey || Some(operationKey) == row.compensationKey)
  }

  /** Hides the saga from other reconcilers for a while. */
  function ClaimLookup(store: Store, operationKey: string, leaseMs: nat, now: nat): Store
    requires LookupDue(store, operationKey, now)
  {
    var sagaId := store.outbox[operationKey].sagaId;
    store.(sagas := store.sagas[sagaId := store.sagas[sagaId].(nextReconcileAt := Some(now + leaseMs))])
  }

  /** The lookup failed or was inconclusive: try again later. */
  function DeferLookup(store: Store, worldId: string, sagaId: string, retryAfterMs: nat, now: nat): Store {
    if sagaId in store.sagas && store.sagas[sagaId].snapshot.worldId == worldId
       && store.sagas[sagaId].state == ReconciliationRequired
      then store.(sagas := store.sagas[sagaId := store.sagas[sagaId].(nextReconcileAt := Some(now + retryAfterMs))])
    else store
  }

  datatype NotFoundOutcome = StaleReconciliation | StillFrozen | SameKeyRetryScheduled

  /** An authoritative NOT_FOUND is the only answer that lets the same key be sent again. */
  function RetryAfterNotFound(store: Store, worldId: string, sagaId: string, operationKey: string, now: nat)
    : (Store, NotFoundOutcome)
  {
    if sagaId !in store.sagas || store.sagas[sagaId].snapshot.worldId != worldId
       || store.sagas[sagaId].state != ReconciliationRequired
      then (store, StaleReconciliation)
    else
      var row := store.sagas[sagaId];
      if row.snapshot.primaryResult.Some? || row.snapshot.compensationResult.Some? then (store, StillFrozen)
      else
        var state := if row.snapshot.primaryKey == operationKey then PendingRemote else CompensationPending;
        var retried := operationKey in store.outbox && store.outbox[operationKey].status == NeedsReconciliation;
        (store.(
           sagas := store.sagas[sagaId := row.(
             state := state, snapshot := row.snapshot.(state := state), version := row.version + 1,
             nextReconcileAt := None)],
           outbox := if retried
                     then store.outbox[operationKey := store.outbox[operationKey].(
                       status := RetryWait, nextAttemptAt := now)]
                     else store.outbox),
         SameKeyRetryScheduled)
  }
}
