/**
 What every transaction on the saga tables keeps: the stored saga refines the pure one, however
 often it is frozen and un-frozen, and rows agree with one another.
 */
module SagaInvariants {
  import opened Wrappers
  import opened OperationKeys
  import opened Text
  import opened Sagas
  import opened SagaStore

  predicate ResultFits(result: FinancialResult, key: string, digest: Digest) {
    && result.key == key
    && result.digest == digest
    && (result.succeeded ==> result.resultRef.Some? && !Blank(result.resultRef.value))
  }

  /** The refund asks back exactly what was funded, from the escrow the funding reported. */
  predicate RefundMatchesFunding(saga: Saga) {
    && HasStatus(saga.primaryResult, true)
    && saga.primaryResult.value.resultRef.Some?
    && saga.compensationReason.Some?
    && saga.compensationRequest == Some(
         RefundRequest(saga, saga.primaryResult.value.resultRef.value, saga.compensationReason.value))
  }

  /**
   The states a stored snapshot can be in, given the results it holds. Every phase includes the
   frozen state, which `assertSagaInvariant` would reject in most of them.
   */
  predicate PhaseOk(saga: Saga) {
    if saga.primaryResult.None? then
      && saga.state in {PendingRemote, ReconciliationRequired}
      && saga.compensationKey.None? && saga.compensationResult.None?
    else
      && ResultFits(saga.primaryResult.value, saga.primaryKey, saga.primaryDigest)
      && if !saga.primaryResult.value.succeeded then
           && saga.state in {Failed, ReconciliationRequired}
           && saga.compensationKey.None? && saga.compensationResult.None?
         else if saga.compensationKey.None? then
           && saga.state in {RemoteSucceeded, Completed, ReconciliationRequired}
           && saga.compensationResult.None?
         else
           && CompensationWellFormed(saga) && RefundMatchesFunding(saga)
           && if saga.compensationResult.None? then saga.state in {CompensationPending, ReconciliationRequired}
              else
                && ResultFits(saga.compensationResult.value, saga.compensationKey.value, saga.compensationDigest.value)
                && if saga.compensationResult.value.succeeded then saga.state in {Compensated, ReconciliationRequired}
                   else saga.state == ReconciliationRequired
  }

  /** The result the saga holds for one of its two keys. */
  function StoredResult(saga: Saga, key: string): Option<FinancialResult> {
    if key == saga.primaryKey then saga.primaryResult
    else if Some(key) == saga.compensationKey then saga.compensationResult
    else None
  }

  /** The columns agree with the snapshot, and the snapshot is one the protocol can reach. */
  predicate SnapshotOk(row: SagaRow, id: string) {
    && row.snapshot.sagaId == id && row.state == row.snapshot.state
    && row.compensationKey == row.snapshot.compensationKey
    && WellFormed(row.snapshot) && PhaseOk(row.snapshot)
  }

  predicate OwnsKey(store: Store, id: string, key: string) {
    key in store.outbox && store.outbox[key].sagaId == id
  }

  predicate InInbox(store: Store, key: string, result: FinancialResult) {
    key in store.inbox && store.inbox[key] == result
  }

  /** The saga owns its attempt and its keys, and every result it holds came in through the inbox. */
  predicate RefsOk(store: Store, saga: Saga, id: string) {
    && AttemptOf(saga) in store.attempts && store.attempts[AttemptOf(saga)] == id
    && OwnsKey(store, id, saga.primaryKey)
    && (saga.primaryResult.Some? ==> InInbox(store, saga.primaryKey, saga.primaryResult.value))
    && (saga.compensationKey.Some? ==> OwnsKey(store, id, saga.compensationKey.value))
    && (saga.compensationResult.Some? ==>
          saga.compensationKey.Some? && InInbox(store, saga.compensationKey.value, saga.compensationResult.value))
  }

  predicate SagaRowOk(store: Store, id: string)
    requires id in store.sagas
  {
    SnapshotOk(store.sagas[id], id) && RefsOk(store, store.sagas[id].snapshot, id)
  }

  /** The command a saga stands for under one of its keys. */
  predicate IsCommandOf(saga: Saga, key: string, command: Command) {
    || (key == saga.primaryKey && command == PrimaryCommand(saga))
    || (Some(key) == saga.compensationKey && saga.compensationRequest.Some? && command == CompensationCommand(saga))
  }

  /** The outbox row stands for the saga's command, and is delivered only with a stored result. */
  predicate RowFits(row: OutboxRow, saga: Saga, key: string) {
    && IsCommandOf(saga, key, row.command)
    && row.digest == row.command.digest && row.worldId == saga.worldId
    && (StoredResult(saga, key).Some? ==> row.status in {Delivered, NeedsReconciliation})
    && (row.status == Delivered ==> StoredResult(saga, key).Some?)
    && (row.status == Leased <==> row.leaseOwner.Some?)
    && (row.leaseOwner.Some? <==> row.leaseUntil.Some?)
  }

  predicate OutboxRowOk(store: Store, key: string)
    requires key in store.outbox
  {
    var row := store.outbox[key];
    row.sagaId in store.sagas && RowFits(row, store.sagas[row.sagaId].snapshot, key)
  }

  predicate InboxRowOk(store: Store, key: string)
    requires key in store.inbox
  {
    key in store.outbox && store.inbox[key].key == key
  }

  predicate AttemptRowOk(store: Store, a: AttemptKey)
    requires a in store.attempts
  {
    store.attempts[a] in store.sagas && AttemptOf(store.sagas[store.attempts[a]].snapshot) == a
  }

  ghost predicate StoreOk(store: Store) {
    && (forall id {:trigger SagaRowOk(store, id)} :: id in store.sagas ==> SagaRowOk(store, id))
    && (forall key {:trigger OutboxRowOk(store, key)} :: key in store.outbox ==> OutboxRowOk(store, key))
    && (forall key {:trigger InboxRowOk(store, key)} :: key in store.inbox ==> InboxRowOk(store, key))
    && (forall a {:trigger AttemptRowOk(store, a)} :: a in store.attempts ==> AttemptRowOk(store, a))
  }

  /** A funded saga that was committed locally, or frozen before it could be: it never moves funds again. */
  predicate Finished(saga: Saga) {
    && HasStatus(saga.primaryResult, true)
    && saga.compensationKey.None?
    && saga.state in {Completed, ReconciliationRequired}
  }

  predicate SagaGrows(a: Saga, b: Saga) {
    && SameIdentity(a, b) && Remembers(a, b)
    && (Finished(a) ==> Finished(b))
  }

  predicate SagaKept(a: Store, b: Store, id: string)
    requires id in a.sagas
  {
    id in b.sagas && SagaGrows(a.sagas[id].snapshot, b.sagas[id].snapshot)
  }

  predicate OutboxKept(a: Store, b: Store, key: string)
    requires key in a.outbox
  {
    key in b.outbox && b.outbox[key].command == a.outbox[key].command && b.outbox[key].sagaId == a.outbox[key].sagaId
  }

  predicate InboxKept(a: Store, b: Store, key: string)
    requires key in a.inbox
  {
    InInbox(b, key, a.inbox[key])
  }

  /** What no transaction undoes. */
  ghost predicate StoreGrows(a: Store, b: Store) {
    && (forall id {:trigger SagaKept(a, b, id)} :: id in a.sagas ==> SagaKept(a, b, id))
    && (forall key {:trigger OutboxKept(a, b, key)} :: key in a.outbox ==> OutboxKept(a, b, key))
    && (forall key {:trigger InboxKept(a, b, key)} :: key in a.inbox ==> InboxKept(a, b, key))
  }

  lemma SagaGrowsReflexive(s: Saga)
    ensures SagaGrows(s, s)
  {
  }

  lemma StoreGrowsReflexive(a: Store)
    ensures StoreGrows(a, a)
  {
  }

  lemma SagaGrowsTransitive(r: Saga, s: Saga, t: Saga)
    requires SagaGrows(r, s) && SagaGrows(s, t)
    ensures SagaGrows(r, t)
  {
  }

  lemma StoreGrowsTransitive(a: Store, b: Store, c: Store)
    requires StoreGrows(a, b) && StoreGrows(b, c)
    ensures StoreGrows(a, c)
  {
    hide SagaGrows;
    forall id | id in a.sagas ensures SagaKept(a, c, id) {
      assert SagaKept(a, b, id) && SagaKept(b, c, id);
      SagaGrowsTransitive(a.sagas[id].snapshot, b.sagas[id].snapshot, c.sagas[id].snapshot);
    }
    forall key | key in a.outbox ensures OutboxKept(a, c, key) {
      assert OutboxKept(a, b, key) && OutboxKept(b, c, key);
    }
    forall key | key in a.inbox ensures InboxKept(a, c, key) {
      assert InboxKept(a, b, key) && InboxKept(b, c, key);
    }
  }

  /** No two sagas share a key, because each key leads back to its one saga. */
  lemma KeysBelongToOneSaga(store: Store, id1: string, id2: string, key: string)
    requires StoreOk(store) && id1 in store.sagas && id2 in store.sagas
    requires StoredKey(store.sagas[id1].snapshot, key) && StoredKey(store.sagas[id2].snapshot, key)
    ensures id1 == id2
  {
    assert SagaRowOk(store, id1) && SagaRowOk(store, id2);
  }

  predicate StoredKey(saga: Saga, key: string) {
    key == saga.primaryKey || Some(key) == saga.compensationKey
  }

  /**
   Most transactions rewrite one saga row and one of its outbox rows. This is all that has to be
   shown about such a step.
   */
  ghost predicate LocalStep(a: Store, b: Store, id: string, key: string) {
    && id in a.sagas && key in a.outbox && a.outbox[key].sagaId == id
    && b.sagas.Keys == a.sagas.Keys && (forall i :: i in a.sagas && i != id ==> b.sagas[i] == a.sagas[i])
    && b.outbox.Keys == a.outbox.Keys && (forall k :: k in a.outbox && k != key ==> b.outbox[k] == a.outbox[k])
    && b.attempts == a.attempts
    && (b.inbox == a.inbox || (key !in a.inbox && Receives(a, b, key)))
    && var s, t := a.sagas[id].snapshot, b.sagas[id].snapshot;
       && SagaGrows(s, t)
       && t.compensationKey == s.compensationKey && t.compensationRequest == s.compensationRequest
       && (forall k :: k in a.outbox && k != key && a.outbox[k].sagaId == id ==> StoredResult(t, k) == StoredResult(s, k))
       && b.outbox[key].command == a.outbox[key].command && b.outbox[key].sagaId == id
       && b.outbox[key].worldId == a.outbox[key].worldId && b.outbox[key].digest == a.outbox[key].digest
  }

  lemma IsLocalStep(a: Store, b: Store, id: string, key: string)
    requires id in a.sagas && key in a.outbox && a.outbox[key].sagaId == id && id in b.sagas && key in b.outbox
    requires b.sagas == a.sagas[id := b.sagas[id]] && b.outbox == a.outbox[key := b.outbox[key]] && b.attempts == a.attempts
    requires b.inbox == a.inbox || (key !in a.inbox && Receives(a, b, key))
    requires SameIntent(a.outbox[key], b.outbox[key])
    requires var s, t := a.sagas[id].snapshot, b.sagas[id].snapshot;
      && SagaGrows(s, t)
      && t.compensationKey == s.compensationKey && t.compensationRequest == s.compensationRequest
      && forall k :: k != key ==> StoredResult(t, k) == StoredResult(s, k)
    ensures LocalStep(a, b, id, key)
  {
    hide StoredResult, SagaGrows, Receives;
  }

  lemma CommandSurvives(s: Saga, t: Saga, key: string, command: Command)
    requires IsCommandOf(s, key, command) && SagaGrows(s, t)
    requires t.compensationKey == s.compensationKey && t.compensationRequest == s.compensationRequest
    ensures IsCommandOf(t, key, command) && s.worldId == t.worldId
  {
  }

  /** The other sagas keep their rows and references. */
  lemma LocalStepKeepsSagas(a: Store, b: Store, id: string, key: string, other: string)
    requires StoreOk(a) && LocalStep(a, b, id, key) && other in b.sagas && other != id
    ensures SagaRowOk(b, other)
  {
    assert SagaRowOk(a, other);
    hide StoreOk, SnapshotOk, SagaGrows, StoredResult, RowFits;
  }

  /** The other outbox rows keep fitting their sagas. */
  lemma LocalStepKeepsOutbox(a: Store, b: Store, id: string, key: string, other: string)
    requires StoreOk(a) && LocalStep(a, b, id, key) && other in b.outbox && other != key
    ensures OutboxRowOk(b, other)
  {
    assert OutboxRowOk(a, other);
    hide StoreOk, SnapshotOk, IsCommandOf, StoredResult, SagaGrows, Receives;
    if a.outbox[other].sagaId == id {
      CommandSurvives(a.sagas[id].snapshot, b.sagas[id].snapshot, other, a.outbox[other].command);
    }
  }

  lemma LocalStepKeepsOk(a: Store, b: Store, id: string, key: string)
    requires StoreOk(a) && LocalStep(a, b, id, key)
    requires SagaRowOk(b, id) && OutboxRowOk(b, key)
    ensures StoreOk(b) && StoreGrows(a, b)
  {
    hide SagaRowOk, OutboxRowOk, StoredResult, SagaGrows;
    forall i | i in b.sagas && i != id ensures SagaRowOk(b, i) {
      LocalStepKeepsSagas(a, b, id, key, i);
    }
    forall k | k in b.outbox && k != key ensures OutboxRowOk(b, k) {
      LocalStepKeepsOutbox(a, b, id, key, k);
    }
    forall k | k in b.inbox ensures InboxRowOk(b, k) {
      assert k in a.inbox ==> InboxRowOk(a, k);
    }
    forall t | t in b.attempts ensures AttemptRowOk(b, t) {
      assert AttemptRowOk(a, t);
      SameAttempt(a.sagas[id].snapshot, b.sagas[id].snapshot);
    }
    forall i | i in a.sagas ensures SagaKept(a, b, i) {
      SagaGrowsReflexive(a.sagas[i].snapshot);
    }
  }

  lemma SameAttempt(s: Saga, t: Saga)
    requires SagaGrows(s, t)
    ensures AttemptOf(s) == AttemptOf(t) && s.worldId == t.worldId
  {
  }

  // ---- What single rows need ----

  lemma WellFormedByIdentity(s: Saga, t: Saga)
    requires WellFormed(s) && SameIdentity(s, t)
    ensures WellFormed(t)
  {
    hide CanonicalRequest, OperationKey;
  }

  predicate SameRefund(s: Saga, t: Saga) {
    && t.compensationKey == s.compensationKey && t.compensationDigest == s.compensationDigest
    && t.compensationRequest == s.compensationRequest && t.compensationReason == s.compensationReason
  }

  lemma RefundByFields(s: Saga, t: Saga)
    requires SameIdentity(s, t) && SameRefund(s, t)
    ensures CompensationWellFormed(t) == CompensationWellFormed(s)
    ensures t.primaryResult == s.primaryResult ==> RefundMatchesFunding(t) == RefundMatchesFunding(s)
  {
    hide CanonicalRequest, OperationKey;
  }

  lemma FrozenSnapshotOk(row: SagaRow, id: string, wakeAt: nat)
    requires SnapshotOk(row, id)
    ensures SnapshotOk(Frozen(row, wakeAt), id)
    ensures SagaGrows(row.snapshot, Frozen(row, wakeAt).snapshot)
  {
    hide WellFormed, CompensationWellFormed, ResultFits, RefundMatchesFunding;
    WellFormedByIdentity(row.snapshot, Frozen(row, wakeAt).snapshot);
    RefundByFields(row.snapshot, Frozen(row, wakeAt).snapshot);
  }

  /** A row that was out for delivery, or that takes contradicting evidence, keeps fitting its saga. */
  lemma ReroutedRowFits(row: OutboxRow, status: OutboxStatus, nextAttemptAt: nat, s: Saga, t: Saga, key: string)
    requires RowFits(row, s, key) && SagaGrows(s, t) && SameRefund(s, t)
    requires StoredResult(t, key) == StoredResult(s, key)
    requires status in {NeedsReconciliation, RetryWait, DeadLetter}
    requires status == NeedsReconciliation || StoredResult(s, key).None?
    ensures RowFits(row.(status := status, nextAttemptAt := nextAttemptAt, leaseOwner := None, leaseUntil := None), t, key)
  {
    hide StoredResult, IsCommandOf;
    CommandSurvives(s, t, key, row.command);
  }

  /** How a rewritten saga keeps its references. */
  lemma RefsSurvive(a: Store, b: Store, s: Saga, t: Saga, id: string)
    requires RefsOk(a, s, id) && SagaGrows(s, t) && SameRefund(s, t)
    requires b.attempts == a.attempts
    requires forall k :: k in a.outbox ==> k in b.outbox && b.outbox[k].sagaId == a.outbox[k].sagaId
    requires forall k :: k in a.inbox ==> InInbox(b, k, a.inbox[k])
    requires t.primaryResult == s.primaryResult
             || (t.primaryResult.Some? && InInbox(b, t.primaryKey, t.primaryResult.value))
    requires t.compensationResult == s.compensationResult
             || (t.compensationResult.Some? && t.compensationKey.Some?
                 && InInbox(b, t.compensationKey.value, t.compensationResult.value))
    ensures RefsOk(b, t, id)
  {
    SameAttempt(s, t);
  }

  // ---- One lemma per transaction ----

  lemma NewSagaKeepsOk(store: Store, saga: Saga, command: Command, now: nat)
    requires StoreOk(store)
    requires var row := SagaRow(saga.state, saga.compensationKey, saga, 1, None);
      SnapshotOk(row, saga.sagaId) && saga.primaryResult.None? && saga.compensationKey.None? && saga.compensationResult.None?
    requires command == PrimaryCommand(saga)
    requires saga.sagaId !in store.sagas && saga.primaryKey !in store.outbox && AttemptOf(saga) !in store.attempts
    ensures var b := store.(
              sagas := store.sagas[saga.sagaId := SagaRow(saga.state, saga.compensationKey, saga, 1, None)],
              attempts := store.attempts[AttemptOf(saga) := saga.sagaId],
              outbox := store.outbox[saga.primaryKey := NewOutboxRow(saga, command, now)]);
            StoreOk(b) && StoreGrows(store, b)
  {
    hide SnapshotOk, PrimaryCommand, SagaGrows, RowFits, AttemptOf;
    var b := store.(
      sagas := store.sagas[saga.sagaId := SagaRow(saga.state, saga.compensationKey, saga, 1, None)],
      attempts := store.attempts[AttemptOf(saga) := saga.sagaId],
      outbox := store.outbox[saga.primaryKey := NewOutboxRow(saga, command, now)]);
    forall i | i in b.sagas && i != saga.sagaId ensures SagaRowOk(b, i) {
      assert SagaRowOk(store, i);
    }
    assert SagaRowOk(b, saga.sagaId);
    NewRowFits(saga, command, now);
    assert OutboxRowOk(b, saga.primaryKey);
    forall k | k in b.outbox && k != saga.primaryKey ensures OutboxRowOk(b, k) {
      assert OutboxRowOk(store, k);
    }
    forall k | k in b.inbox ensures InboxRowOk(b, k) {
      assert InboxRowOk(store, k);
    }
    forall t | t in b.attempts ensures AttemptRowOk(b, t) {
      assert t in store.attempts ==> AttemptRowOk(store, t);
    }
    forall i | i in store.sagas ensures SagaKept(store, b, i) {
      SagaGrowsReflexive(store.sagas[i].snapshot);
    }
  }

  lemma NewRowFits(saga: Saga, command: Command, now: nat)
    requires command == PrimaryCommand(saga) && saga.primaryResult.None?
    ensures RowFits(NewOutboxRow(saga, command, now), saga, saga.primaryKey)
    ensures command.operationKey == saga.primaryKey
  {
  }

  lemma PrepareIntentKeepsOk(store: Store, saga: Saga, now: nat)
    requires StoreOk(store)
    requires Sound(saga) && saga.state == PendingRemote && saga.primaryResult.None?
    ensures StoreOk(PrepareIntent(store, saga, now).after) && StoreGrows(store, PrepareIntent(store, saga, now).after)
  {
    hide StoreOk, StoreGrows, WellFormed;
    var tx := PrepareIntent(store, saga, now);
    if tx.after == store {
      StoreGrowsReflexive(store);
    } else {
      NewRowFits(saga, PrimaryCommand(saga), now);
      NewSagaKeepsOk(store, saga, PrimaryCommand(saga), now);
    }
  }

  /** The outbox insert of a new attempt never meets an existing key. */
  lemma FreshAttemptHasFreshKey(store: Store, saga: Saga)
    requires StoreOk(store) && WellFormed(saga)
    requires AttemptOf(saga) !in store.attempts
    ensures saga.primaryKey !in store.outbox
  {
    hide CanonicalRequest, OperationKey, CompensationCommand, PrimaryCommand;
    if saga.primaryKey in store.outbox {
      var owner := store.outbox[saga.primaryKey].sagaId;
      assert OutboxRowOk(store, saga.primaryKey) && SagaRowOk(store, owner);
      SameKeySameAttempt(saga, store.sagas[owner].snapshot);
    }
  }

  lemma SameKeySameAttempt(saga: Saga, other: Saga)
    requires WellFormed(saga) && WellFormed(other)
    requires other.compensationKey.Some? ==> CompensationWellFormed(other)
    requires StoredKey(other, saga.primaryKey)
    ensures AttemptOf(saga) == AttemptOf(other)
  {
    hide CanonicalRequest, OperationKey;
    if saga.primaryKey == other.primaryKey {
      OperationKeyInjective(saga.worldId, saga.attemptId, saga.primaryStep,
                            other.worldId, other.attemptId, other.primaryStep);
    } else {
      OperationKeyInjective(saga.worldId, saga.attemptId, saga.primaryStep,
                            other.worldId, other.attemptId, ReleaseEscrow);
    }
  }

  lemma ClaimKeepsOk(store: Store, key: string, worker: string, leaseMs: nat, now: nat)
    requires StoreOk(store) && key in store.outbox && Claimable(store.outbox[key], now)
    ensures StoreOk(Claim(store, key, worker, leaseMs, now))
    ensures StoreGrows(store, Claim(store, key, worker, leaseMs, now))
  {
    hide SnapshotOk, SagaGrows, IsCommandOf;
    var id := store.outbox[key].sagaId;
    assert OutboxRowOk(store, key) && SagaRowOk(store, id);
    SagaGrowsReflexive(store.sagas[id].snapshot);
    var b := Claim(store, key, worker, leaseMs, now);
    assert SagaRowOk(b, id) && OutboxRowOk(b, key);
    LocalStepKeepsOk(store, b, id, key);
  }

  /** A rewrite of one saga row and one of its outbox rows that brings no result and no refund. */
  lemma QuietStepKeepsOk(a: Store, b: Store, id: string, key: string)
    requires StoreOk(a) && id in a.sagas && id in b.sagas && key in a.outbox && key in b.outbox
    requires a.outbox[key].sagaId == id && SameIntent(a.outbox[key], b.outbox[key])
    requires b == a.(sagas := a.sagas[id := b.sagas[id]], outbox := a.outbox[key := b.outbox[key]])
    requires SnapshotOk(b.sagas[id], id)
    requires var s, t := a.sagas[id].snapshot, b.sagas[id].snapshot;
      SagaGrows(s, t) && SameRefund(s, t) && SameResults(s, t) && RowFits(b.outbox[key], t, key)
    ensures StoreOk(b) && StoreGrows(a, b)
  {
    hide SnapshotOk, SagaGrows, RowFits, StoredResult;
    assert SagaRowOk(a, id);
    var s, t := a.sagas[id].snapshot, b.sagas[id].snapshot;
    SameKeys(s, t);
    RefsSurvive(a, b, s, t, id);
    SameStoredResults(s, t);
    assert SagaRowOk(b, id) && OutboxRowOk(b, key);
    LocalStepKeepsOk(a, b, id, key);
  }

  predicate SameIntent(a: OutboxRow, b: OutboxRow) {
    b.command == a.command && b.sagaId == a.sagaId && b.worldId == a.worldId && b.digest == a.digest
  }

  lemma RecordFailureKeepsOk(store: Store, failure: Failure, now: nat)
    requires StoreOk(store)
    ensures StoreOk(RecordFailure(store, failure, now).after)
    ensures StoreGrows(store, RecordFailure(store, failure, now).after)
  {
    hide StoreOk, StoreGrows, SnapshotOk, SagaGrows, RowFits, StoredResult, FailureStatus;
    var tx := RecordFailure(store, failure, now);
    if tx.reply.Err? {
      StoreGrowsReflexive(store);
    } else {
      var key := failure.outboxKey;
      var id := store.outbox[key].sagaId;
      KeyRow(store, key);
      FailedSaga(store, failure, now, id);
      hide RecordFailure;
      FailedRowFits(store, tx.after, failure, now, id);
      QuietStepKeepsOk(store, tx.after, id, key);
    }
  }

  lemma KeyRow(store: Store, key: string)
    requires StoreOk(store) && key in store.outbox
    ensures store.outbox[key].sagaId in store.sagas
    ensures RowFits(store.outbox[key], store.sagas[store.outbox[key].sagaId].snapshot, key)
    ensures SnapshotOk(store.sagas[store.outbox[key].sagaId], store.outbox[key].sagaId)
  {
    assert OutboxRowOk(store, key) && SagaRowOk(store, store.outbox[key].sagaId);
  }

  lemma FailedRowFits(store: Store, b: Store, failure: Failure, now: nat, id: string)
    requires RecordFailure(store, failure, now).reply.Ok? && RecordFailure(store, failure, now).after == b
    requires failure.outboxKey in store.outbox && store.outbox[failure.outboxKey].status == Leased
    requires id in store.sagas && id in b.sagas && failure.outboxKey in b.outbox
    requires RowFits(store.outbox[failure.outboxKey], store.sagas[id].snapshot, failure.outboxKey)
    requires var s, t := store.sagas[id].snapshot, b.sagas[id].snapshot;
      SagaGrows(s, t) && SameRefund(s, t) && SameResults(s, t)
    ensures RowFits(b.outbox[failure.outboxKey], b.sagas[id].snapshot, failure.outboxKey)
  {
    hide SagaGrows, RowFits, StoredResult;
    var key := failure.outboxKey;
    var row, s, t := store.outbox[key], store.sagas[id].snapshot, b.sagas[id].snapshot;
    LeasedHasNoResult(row, s, key);
    SameKeys(s, t);
    SameStoredResults(s, t);
    ReroutedRowFits(row, FailureStatus(row, failure), now + Delay(failure.retryAfterMs), s, t, key);
  }

  lemma LeasedHasNoResult(row: OutboxRow, saga: Saga, key: string)
    requires RowFits(row, saga, key) && row.status == Leased
    ensures StoredResult(saga, key).None? && row.worldId == saga.worldId
  {
  }

  /** What a failure makes of the saga row. */
  lemma FailedSaga(store: Store, failure: Failure, now: nat, id: string)
    requires RecordFailure(store, failure, now).reply.Ok? && id == store.outbox[failure.outboxKey].sagaId
    requires id in store.sagas && SnapshotOk(store.sagas[id], id)
    requires store.outbox[failure.outboxKey].worldId == store.sagas[id].snapshot.worldId
    ensures failure.outboxKey in store.outbox && store.outbox[failure.outboxKey].status == Leased
    ensures RecordFailure(store, failure, now).reply == Ok(FailureStatus(store.outbox[failure.outboxKey], failure))
    ensures var b := RecordFailure(store, failure, now).after;
      && id in b.sagas && SnapshotOk(b.sagas[id], id)
      && b == store.(
           sagas := store.sagas[id := b.sagas[id]],
           outbox := store.outbox[failure.outboxKey := store.outbox[failure.outboxKey].(
             status := FailureStatus(store.outbox[failure.outboxKey], failure),
             nextAttemptAt := now + Delay(failure.retryAfterMs), leaseOwner := None, leaseUntil := None)])
      && var s, t := store.sagas[id].snapshot, b.sagas[id].snapshot;
         SagaGrows(s, t) && SameRefund(s, t) && SameResults(s, t)
  {
    hide SnapshotOk, SagaGrows;
    FrozenSnapshotOk(store.sagas[id], id, now + Delay(failure.retryAfterMs));
    SagaGrowsReflexive(store.sagas[id].snapshot);
    BumpedSnapshotOk(store.sagas[id], id);
  }

  predicate SameResults(s: Saga, t: Saga) {
    t.primaryResult == s.primaryResult && t.compensationResult == s.compensationResult
  }

  lemma BumpedSnapshotOk(row: SagaRow, id: string)
    requires SnapshotOk(row, id)
    ensures SnapshotOk(row.(version := row.version + 1), id)
  {
  }

  /**
   Whenever a first result for a key reaches the pure saga, the un-frozen snapshot satisfies the
   asserted invariant, and the only thing that can go wrong is a digest mismatch.
   */
  lemma StoreRefinesSaga(store: Store, worldId: string, key: string, raw: RawResult)
    requires StoreOk(store) && OperationKnown(store, worldId, key) && key !in store.inbox
    requires NormalizeResult(raw, key).Ok? && NormalizeResult(raw, key).value.key == key
    ensures var row := store.sagas[store.outbox[key].sagaId];
      var result := NormalizeResult(raw, key).value;
      var observed := ObserveFinancialResult(Unfrozen(row.snapshot, key), result);
      && row.state == row.snapshot.state
      && Sound(Unfrozen(row.snapshot, key))
      && StoredResult(row.snapshot, key).None?
      && (observed.Ok? <==> result.digest == store.outbox[key].digest)
      && (observed.Err? ==> observed.error == SagaIdempotencyConflict)
  {
    hide WellFormed, CanonicalRequest, Sound, ResultFits, RefundMatchesFunding;
    var id := store.outbox[key].sagaId;
    assert OutboxRowOk(store, key) && SagaRowOk(store, id);
    var saga := store.sagas[id].snapshot;
    assert StoredResult(saga, key).None?;
    UnfrozenIsSound(saga, key);
    ObservedUnfrozen(saga, key, store.outbox[key].command, NormalizeResult(raw, key).value);
  }

  lemma UnfrozenIsSound(saga: Saga, key: string)
    requires WellFormed(saga) && PhaseOk(saga) && StoredKey(saga, key) && StoredResult(saga, key).None?
    ensures var thawed := Unfrozen(saga, key);
      && Sound(thawed)
      && (key == saga.primaryKey ==> thawed.state == PendingRemote)
      && (key != saga.primaryKey ==> thawed.state == CompensationPending)
  {
    hide WellFormed, CompensationWellFormed, ResultFits, RefundMatchesFunding;
    var thawed := Unfrozen(saga, key);
    WellFormedByIdentity(saga, thawed);
    RefundByFields(saga, thawed);
  }

  lemma ObservedUnfrozen(saga: Saga, key: string, command: Command, result: FinancialResult)
    requires WellFormed(saga) && PhaseOk(saga) && StoredResult(saga, key).None?
    requires IsCommandOf(saga, key, command)
    requires result.key == key && key != "" && (result.succeeded ==> result.resultRef.Some? && result.resultRef.value != "")
    ensures var observed := ObserveFinancialResult(Unfrozen(saga, key), result);
      && (observed.Ok? <==> result.digest == command.digest)
      && (observed.Err? ==> observed.error == SagaIdempotencyConflict)
  {
    UnfrozenIsSound(saga, key);
    hide WellFormed, ResultFits, RefundMatchesFunding, CanonicalRequest, OperationKey;
    DigestsOf(saga);
  }

  lemma DigestsOf(saga: Saga)
    requires WellFormed(saga)
    ensures saga.primaryDigest == PrimaryCommand(saga).digest
    ensures CompensationWellFormed(saga) ==> saga.compensationDigest == Some(CompensationCommand(saga).digest)
  {
    hide CanonicalRequest, OperationKey;
  }

  /** The inbox took in one result, under its own key. */
  predicate Receives(a: Store, b: Store, key: string) {
    && b.inbox.Keys == a.inbox.Keys + {key}
    && b.inbox[key].key == key
    && forall k :: k in a.inbox && k != key ==> b.inbox[k] == a.inbox[k]
  }

  lemma WithReceived(store: Store, received: Store, key: string)
    requires received == store || (key !in store.inbox && received == store.(inbox := received.inbox)
                                   && Receives(store, received, key))
    ensures forall k :: k in store.inbox ==> InInbox(received, k, store.inbox[k])
    ensures received.sagas == store.sagas && received.outbox == store.outbox && received.attempts == store.attempts
  {
  }

  lemma FreezeKeepsOk(store: Store, received: Store, key: string, now: nat)
    requires StoreOk(store) && key in store.outbox
    requires received == store || (key !in store.inbox && received == store.(inbox := received.inbox)
                                   && Receives(store, received, key))
    ensures store.outbox[key].sagaId in received.sagas
    ensures StoreOk(Freeze(received, key, now)) && StoreGrows(store, Freeze(received, key, now))
  {
    hide StoreOk, SnapshotOk, SagaGrows, RowFits, StoredResult, RefsOk, StoreGrows, SameRefund;
    var row := store.outbox[key];
    var id := row.sagaId;
    KeyRow(store, key);
    OwnRefs(store, id);
    WithReceived(store, received, key);
    FrozenSnapshotOk(store.sagas[id], id, now);
    var b := Freeze(received, key, now);
    var s, t := store.sagas[id].snapshot, b.sagas[id].snapshot;
    FrozenFields(store.sagas[id], now);
    SameStoredResults(s, t);
    ReroutedRowFits(row, NeedsReconciliation, row.nextAttemptAt, s, t, key);
    RefsSurvive(store, b, s, t, id);
    assert SagaRowOk(b, id) && OutboxRowOk(b, key);
    hide SagaRowOk, OutboxRowOk, Frozen;
    IsLocalStep(store, b, id, key);
    hide LocalStep;
    LocalStepKeepsOk(store, b, id, key);
  }

  lemma OwnRefs(store: Store, id: string)
    requires StoreOk(store) && id in store.sagas
    ensures RefsOk(store, store.sagas[id].snapshot, id)
  {
    assert SagaRowOk(store, id);
  }

  lemma FrozenFields(row: SagaRow, wakeAt: nat)
    ensures var t := Frozen(row, wakeAt).snapshot;
      SameRefund(row.snapshot, t) && SameResults(row.snapshot, t) && t.primaryKey == row.snapshot.primaryKey
      && t.compensationKey == row.snapshot.compensationKey && t.compensationRequest == row.snapshot.compensationRequest
  {
  }

  lemma SameStoredResults(s: Saga, t: Saga)
    requires SameResults(s, t) && t.primaryKey == s.primaryKey && t.compensationKey == s.compensationKey
    ensures forall k :: StoredResult(t, k) == StoredResult(s, k)
  {
  }

  /** What accepting a first result for a key does to the saga. */
  predicate Accepts(saga: Saga, next: Saga, key: string, result: FinancialResult) {
    && SagaGrows(saga, next) && SameRefund(saga, next)
    && if key == saga.primaryKey
       then next.primaryResult == Some(result) && next.compensationResult == saga.compensationResult
       else next.primaryResult == saga.primaryResult && next.compensationResult == Some(result)
            && saga.compensationKey == Some(key)
  }

  lemma AcceptedPrimaryOk(saga: Saga, result: FinancialResult)
    requires WellFormed(saga) && PhaseOk(saga) && saga.primaryResult.None?
    requires ResultFits(result, saga.primaryKey, saga.primaryDigest)
    requires ObserveFinancialResult(Unfrozen(saga, saga.primaryKey), result).Ok?
    ensures var next := ObserveFinancialResult(Unfrozen(saga, saga.primaryKey), result).value;
      WellFormed(next) && PhaseOk(next) && Accepts(saga, next, saga.primaryKey, result)
  {
    hide WellFormed, CompensationWellFormed, RefundMatchesFunding, SagaInvariant, ResultFits;
    WellFormedByIdentity(saga, ObserveFinancialResult(Unfrozen(saga, saga.primaryKey), result).value);
  }

  lemma AcceptedCompensationOk(saga: Saga, key: string, result: FinancialResult)
    requires WellFormed(saga) && PhaseOk(saga) && saga.compensationKey == Some(key) && saga.compensationResult.None?
    requires key != saga.primaryKey
    requires saga.compensationDigest.Some? && ResultFits(result, key, saga.compensationDigest.value)
    requires ObserveFinancialResult(Unfrozen(saga, key), result).Ok?
    ensures var next := ObserveFinancialResult(Unfrozen(saga, key), result).value;
      WellFormed(next) && PhaseOk(next) && Accepts(saga, next, key, result)
  {
    var next := ObserveFinancialResult(Unfrozen(saga, key), result).value;
    ObservedCompensation(saga, key, result);
    hide WellFormed, CompensationWellFormed, RefundMatchesFunding, SagaInvariant, ObserveFinancialResult, OperationKey;
    WellFormedByIdentity(saga, next);
    RefundByFields(saga, next);
  }

  lemma ObservedCompensation(saga: Saga, key: string, result: FinancialResult)
    requires saga.compensationKey == Some(key) && saga.compensationResult.None? && key != saga.primaryKey
    requires PhaseOk(saga) && result.key == key
    requires ObserveFinancialResult(Unfrozen(saga, key), result).Ok?
    ensures ObserveFinancialResult(Unfrozen(saga, key), result).value
         == saga.(state := if result.succeeded then Compensated else ReconciliationRequired, compensationResult := Some(result))
  {
    hide SagaInvariant, CompensationWellFormed, RefundMatchesFunding, ResultFits;
  }

  /** Accepting a result moves the saga to the phase the result belongs to. */
  lemma AcceptedSnapshotOk(saga: Saga, key: string, command: Command, result: FinancialResult)
    requires WellFormed(saga) && PhaseOk(saga) && StoredResult(saga, key).None? && IsCommandOf(saga, key, command)
    requires result.key == key && result.digest == command.digest && key != ""
    requires result.succeeded ==> result.resultRef.Some? && !Blank(result.resultRef.value)
    ensures var observed := ObserveFinancialResult(Unfrozen(saga, key), result);
      observed.Ok? && WellFormed(observed.value) && PhaseOk(observed.value) && Accepts(saga, observed.value, key, result)
  {
    DigestsOf(saga);
    ObservedUnfrozen(saga, key, command, result);
    hide WellFormed, RefundMatchesFunding, ObserveFinancialResult, Accepts, CanonicalRequest, OperationKey;
    if key == saga.primaryKey {
      AcceptedPrimaryOk(saga, result);
    } else {
      AcceptedCompensationOk(saga, key, result);
    }
  }

  lemma AcceptedRowFits(row: OutboxRow, s: Saga, t: Saga, key: string, result: FinancialResult)
    requires RowFits(row, s, key) && Accepts(s, t, key, result)
    ensures RowFits(row.(status := Delivered, leaseOwner := None, leaseUntil := None), t, key)
    ensures forall k :: k != key ==> StoredResult(t, k) == StoredResult(s, k)
  {
    CommandSurvives(s, t, key, row.command);
    SameKeys(s, t);
    hide SagaGrows, IsCommandOf;
  }

  lemma AcceptedRefsOk(a: Store, b: Store, s: Saga, t: Saga, id: string, key: string, result: FinancialResult)
    requires RefsOk(a, s, id) && Accepts(s, t, key, result)
    requires b.attempts == a.attempts && key !in a.inbox
    requires forall k :: k in a.outbox ==> k in b.outbox && b.outbox[k].sagaId == a.outbox[k].sagaId
    requires b.inbox == a.inbox[key := result]
    ensures RefsOk(b, t, id)
  {
    SameKeys(s, t);
    hide SagaGrows;
    RefsSurvive(a, b, s, t, id);
  }

  lemma PrimaryIsNotCompensation(saga: Saga)
    requires WellFormed(saga)
    ensures CompensationWellFormed(saga) ==> saga.compensationKey != Some(saga.primaryKey)
  {
    hide CanonicalRequest, OperationKey;
    if CompensationWellFormed(saga) && saga.compensationKey == Some(saga.primaryKey) {
      OperationKeyInjective(saga.worldId, saga.attemptId, saga.primaryStep, saga.worldId, saga.attemptId, ReleaseEscrow);
    }
  }

  lemma AcceptKeepsOk(store: Store, key: string, result: FinancialResult)
    requires StoreOk(store) && key in store.outbox && key !in store.inbox && key != ""
    requires result.key == key && result.digest == store.outbox[key].digest
    requires result.succeeded ==> result.resultRef.Some? && !Blank(result.resultRef.value)
    ensures store.outbox[key].sagaId in store.sagas
    ensures var saga := store.sagas[store.outbox[key].sagaId].snapshot;
      var observed := ObserveFinancialResult(Unfrozen(saga, key), result);
      && observed.Ok?
      && var b := Accept(store.(inbox := store.inbox[key := result]), key, observed.value);
         StoreOk(b) && StoreGrows(store, b)
  {
    hide StoreOk, StoreGrows, PhaseOk, WellFormed, SagaGrows, ObserveFinancialResult, Accepts, RowFits, RefsOk, StoredResult,
      IsCommandOf, Unfrozen, SameRefund;
    var id := store.outbox[key].sagaId;
    KeyRow(store, key);
    OwnRefs(store, id);
    var row, orow := store.sagas[id], store.outbox[key];
    UnreceivedHasNoResult(store, id, key);
    AcceptedSnapshotOk(row.snapshot, key, orow.command, result);
    var next := ObserveFinancialResult(Unfrozen(row.snapshot, key), result).value;
    var b := Accept(store.(inbox := store.inbox[key := result]), key, next);
    AcceptedRefsOk(store, b, row.snapshot, next, id, key, result);
    AcceptedRowFits(orow, row.snapshot, next, key, result);
    AcceptsGrows(row.snapshot, next, key, result);
    assert SagaRowOk(b, id) && OutboxRowOk(b, key);
    hide SagaRowOk, OutboxRowOk, SnapshotOk;
    IsLocalStep(store, b, id, key);
    hide LocalStep;
    LocalStepKeepsOk(store, b, id, key);
  }

  lemma UnreceivedHasNoResult(store: Store, id: string, key: string)
    requires StoreOk(store) && key in store.outbox && store.outbox[key].sagaId == id && key !in store.inbox
    ensures id in store.sagas && StoredResult(store.sagas[id].snapshot, key).None?
    ensures IsCommandOf(store.sagas[id].snapshot, key, store.outbox[key].command)
    ensures store.outbox[key].digest == store.outbox[key].command.digest
  {
    assert OutboxRowOk(store, key) && SagaRowOk(store, id);
  }

  lemma AcceptsGrows(s: Saga, t: Saga, key: string, result: FinancialResult)
    requires Accepts(s, t, key, result)
    ensures SagaGrows(s, t) && SameRefund(s, t) && t.sagaId == s.sagaId
    ensures t.compensationKey == s.compensationKey && t.compensationRequest == s.compensationRequest
  {
  }

  lemma RecordResultKeepsOk(store: Store, worldId: string, key: string, raw: RawResult, now: nat)
    requires StoreOk(store)
    ensures StoreOk(RecordResult(store, worldId, key, raw, now).after)
    ensures StoreGrows(store, RecordResult(store, worldId, key, raw, now).after)
    ensures RecordResult(store, worldId, key, raw, now).after.inbox != store.inbox ==>
      && NormalizeResult(raw, key).Ok?
      && RecordResult(store, worldId, key, raw, now).after.inbox == store.inbox[key := NormalizeResult(raw, key).value]
      && key in store.outbox && NormalizeResult(raw, key).value.key == key
  {
    hide StoreOk, StoreGrows, ObserveFinancialResult, NormalizeResult, Freeze, Accept, Unfrozen;
    var tx := RecordResult(store, worldId, key, raw, now);
    if tx.after == store {
      StoreGrowsReflexive(store);
    } else {
      NormalizedFits(raw, key);
      var result := NormalizeResult(raw, key).value;
      if key in store.inbox {
        FreezeKeepsOk(store, store, key, now);
        FreezeInbox(store, key, now);
      } else {
        StoreRefinesSaga(store, worldId, key, raw);
        FirstResultKeepsOk(store, key, result, now);
      }
    }
  }

  /** Both ways a first result can go: stored in the saga, or kept beside it as contradicting evidence. */
  lemma FirstResultKeepsOk(store: Store, key: string, result: FinancialResult, now: nat)
    requires StoreOk(store) && key in store.outbox && key !in store.inbox && key != "" && result.key == key
    requires result.succeeded ==> result.resultRef.Some? && !Blank(result.resultRef.value)
    ensures store.outbox[key].sagaId in store.sagas
    ensures var received := store.(inbox := store.inbox[key := result]);
      var observed := ObserveFinancialResult(Unfrozen(store.sagas[store.outbox[key].sagaId].snapshot, key), result);
      && StoreOk(Freeze(received, key, now)) && StoreGrows(store, Freeze(received, key, now))
      && Freeze(received, key, now).inbox == received.inbox
      && (result.digest == store.outbox[key].digest ==>
            && observed.Ok?
            && StoreOk(Accept(received, key, observed.value)) && StoreGrows(store, Accept(received, key, observed.value))
            && Accept(received, key, observed.value).inbox == received.inbox)
  {
    hide StoreOk, StoreGrows, ObserveFinancialResult, Freeze, Accept, Unfrozen;
    var received := store.(inbox := store.inbox[key := result]);
    FreezeKeepsOk(store, received, key, now);
    FreezeInbox(received, key, now);
    if result.digest == store.outbox[key].digest {
      AcceptKeepsOk(store, key, result);
      AcceptInbox(received, key, ObserveFinancialResult(Unfrozen(store.sagas[store.outbox[key].sagaId].snapshot, key), result).value);
    }
  }

  lemma NormalizedFits(raw: RawResult, key: string)
    requires NormalizeResult(raw, key).Ok?
    ensures var result := NormalizeResult(raw, key).value;
      result.key != "" && (result.succeeded ==> result.resultRef.Some? && !Blank(result.resultRef.value))
  {
  }

  lemma FreezeInbox(store: Store, key: string, now: nat)
    requires key in store.outbox && store.outbox[key].sagaId in store.sagas
    ensures Freeze(store, key, now).inbox == store.inbox
  {
  }

  lemma AcceptInbox(store: Store, key: string, next: Saga)
    requires key in store.outbox && store.outbox[key].sagaId in store.sagas
    ensures Accept(store, key, next).inbox == store.inbox
  {
  }

  /** A rewrite of one saga row that touches neither its results nor its refund. */
  lemma SagaOnlyStepKeepsOk(a: Store, b: Store, id: string)
    requires StoreOk(a) && id in a.sagas && id in b.sagas && b == a.(sagas := a.sagas[id := b.sagas[id]])
    requires SnapshotOk(b.sagas[id], id)
    requires var s, t := a.sagas[id].snapshot, b.sagas[id].snapshot;
      SagaGrows(s, t) && SameRefund(s, t) && SameResults(s, t)
    ensures StoreOk(b) && StoreGrows(a, b)
  {
    hide SnapshotOk, SagaGrows, IsCommandOf, StoredResult;
    assert SagaRowOk(a, id);
    var s, t := a.sagas[id].snapshot, b.sagas[id].snapshot;
    var key := s.primaryKey;
    assert OutboxRowOk(a, key);
    SameAttempt(s, t);
    SameKeys(s, t);
    RefsSurvive(a, b, s, t, id);
    SameStoredResults(s, t);
    CommandSurvives(s, t, key, a.outbox[key].command);
    assert SagaRowOk(b, id) && OutboxRowOk(b, key);
    LocalStepKeepsOk(a, b, id, key);
  }

  lemma SameKeys(s: Saga, t: Saga)
    requires SagaGrows(s, t)
    ensures t.primaryKey == s.primaryKey
  {
  }

  lemma MarkCommittedKeepsOk(store: Store, worldId: string, sagaId: string, local: LocalState)
    requires StoreOk(store)
    ensures StoreOk(MarkCommitted(store, worldId, sagaId, local).after)
    ensures StoreGrows(store, MarkCommitted(store, worldId, sagaId, local).after)
  {
    hide StoreOk, StoreGrows;
    var tx := MarkCommitted(store, worldId, sagaId, local);
    if tx.reply.Err? {
      StoreGrowsReflexive(store);
    } else {
      StoreRow(store, sagaId);
      CommittedSnapshotOk(store.sagas[sagaId], sagaId, local);
      hide SnapshotOk, SagaGrows, MarkLocalTransitionCommitted;
      SagaOnlyStepKeepsOk(store, tx.after, sagaId);
    }
  }

  lemma StoreRow(store: Store, id: string)
    requires StoreOk(store) && id in store.sagas
    ensures SnapshotOk(store.sagas[id], id)
  {
    assert SagaRowOk(store, id);
  }

  lemma CommittedSnapshotOk(row: SagaRow, id: string, local: LocalState)
    requires SnapshotOk(row, id) && MarkLocalTransitionCommitted(row.snapshot, local).Ok?
    ensures var next := MarkLocalTransitionCommitted(row.snapshot, local).value;
      && SnapshotOk(row.(state := next.state, snapshot := next, version := row.version + 1, nextReconcileAt := None), id)
      && SagaGrows(row.snapshot, next) && SameRefund(row.snapshot, next) && SameResults(row.snapshot, next)
      && Finished(next) && !Finished(row.snapshot)
  {
    hide WellFormed, ResultFits, RefundMatchesFunding, CompensationWellFormed;
    WellFormedByIdentity(row.snapshot, MarkLocalTransitionCommitted(row.snapshot, local).value);
  }

  /** Committing locally is never refused for a saga that holds a confirmed success. */
  lemma CommitIsNeverRejected(store: Store, sagaId: string, local: LocalState)
    requires StoreOk(store) && sagaId in store.sagas
    requires var saga := store.sagas[sagaId].snapshot;
      && saga.state == RemoteSucceeded && !Blank(saga.worldId) && !Blank(sagaId)
      && local == (if saga.kind == ContractActivation then LocalActive else LocalSettled)
    ensures MarkCommitted(store, store.sagas[sagaId].snapshot.worldId, sagaId, local).reply == Ok(Completed)
  {
    assert SagaRowOk(store, sagaId);
    hide WellFormed, ResultFits, RefundMatchesFunding;
  }

  /** The snapshot a refund request leaves, and the command it queues. */
  lemma RefundSnapshotOk(row: SagaRow, id: string, reason: string)
    requires SnapshotOk(row, id) && reason != ""
    requires row.snapshot.state == RemoteSucceeded && row.snapshot.kind == ContractActivation
    ensures RequestActivationCompensation(row.snapshot, reason).Ok?
    ensures var next := RequestActivationCompensation(row.snapshot, reason).value;
      && SnapshotOk(row.(state := next.state, compensationKey := next.compensationKey, snapshot := next,
                         version := row.version + 1), id)
      && SagaGrows(row.snapshot, next) && SameResults(row.snapshot, next)
      && row.snapshot.compensationKey.None?
      && next.compensationKey == Some(OperationKey(next.worldId, next.attemptId, ReleaseEscrow))
      && next.compensationResult.None? && next.compensationRequest.Some?
      && BuildFinancialCommand(next) == Ok(Some(CompensationCommand(next)))
      && RefundMatchesFunding(next) && CompensationWellFormed(next) && !Finished(next)
  {
    hide CanonicalRequest, OperationKey;
    var saga := row.snapshot;
    assert ResultFits(saga.primaryResult.value, saga.primaryKey, saga.primaryDigest);
    SoundFromPhase(saga);
    RefundIsNeverRejected(saga, reason);
    hide BuildFinancialCommand;
  }

  lemma SoundFromPhase(saga: Saga)
    requires WellFormed(saga) && PhaseOk(saga) && saga.state == RemoteSucceeded
    ensures SagaInvariant(saga)
  {
    hide WellFormed, ResultFits, RefundMatchesFunding, CompensationWellFormed;
  }

  lemma RefundKeyIsFresh(store: Store, sagaId: string, key: string)
    requires StoreOk(store) && sagaId in store.sagas
    requires var saga := store.sagas[sagaId].snapshot;
      saga.compensationKey.None? && key == OperationKey(saga.worldId, saga.attemptId, ReleaseEscrow)
      && saga.kind == ContractActivation
    ensures key !in store.outbox
  {
    if key in store.outbox {
      hide CanonicalRequest, OperationKey, PrimaryCommand, CompensationCommand, RefundMatchesFunding, ResultFits;
      var owner := store.outbox[key].sagaId;
      assert OutboxRowOk(store, key) && SagaRowOk(store, owner) && SagaRowOk(store, sagaId);
      var saga, other := store.sagas[sagaId].snapshot, store.sagas[owner].snapshot;
      OperationKeyInjective(saga.worldId, saga.attemptId, ReleaseEscrow, other.worldId, other.attemptId,
                            if key == other.primaryKey then other.primaryStep else ReleaseEscrow);
    }
  }

  /** A refund can always be queued for a funded activation, and its outbox row is always new. */
  lemma QueueCompensationKeepsOk(store: Store, sagaId: string, reason: string, now: nat)
    requires StoreOk(store) && sagaId in store.sagas && reason != ""
    requires store.sagas[sagaId].snapshot.state == RemoteSucceeded
    requires store.sagas[sagaId].snapshot.kind == ContractActivation
    ensures var tx := QueueCompensation(store, sagaId, reason, now);
      && tx.reply == Ok(true)
      && StoreOk(tx.after) && StoreGrows(store, tx.after)
      && tx.after.inbox == store.inbox
      && sagaId in tx.after.sagas
      && RefundMatchesFunding(tx.after.sagas[sagaId].snapshot)
      && !Finished(tx.after.sagas[sagaId].snapshot)
  {
    hide StoreOk, StoreGrows, RequestActivationCompensation, SnapshotOk, SagaGrows, OperationKey, CompensationWellFormed,
      RefundMatchesFunding, Finished, BuildFinancialCommand;
    StoreRow(store, sagaId);
    var row := store.sagas[sagaId];
    RefundSnapshotOk(row, sagaId, reason);
    var next := RequestActivationCompensation(row.snapshot, reason).value;
    var key := next.compensationKey.value;
    SameWorld(row.snapshot, next);
    RefundKeyIsFresh(store, sagaId, key);
    var b := QueueCompensation(store, sagaId, reason, now).after;
    assert b.sagas == store.sagas[sagaId := row.(state := next.state, compensationKey := next.compensationKey,
                                                 snapshot := next, version := row.version + 1)];
    AddedRefundKeepsOk(store, b, sagaId, key, now);
  }

  lemma SameWorld(s: Saga, t: Saga)
    requires SagaGrows(s, t)
    ensures t.worldId == s.worldId && t.attemptId == s.attemptId
  {
  }

  lemma AddedRefundKeepsOk(a: Store, b: Store, id: string, key: string, now: nat)
    requires StoreOk(a) && id in a.sagas && id in b.sagas && key !in a.outbox
    requires b.sagas == a.sagas[id := b.sagas[id]] && b.attempts == a.attempts && b.inbox == a.inbox
    requires var s, t := a.sagas[id].snapshot, b.sagas[id].snapshot;
      && SnapshotOk(b.sagas[id], id) && SagaGrows(s, t) && SameResults(s, t)
      && s.compensationKey.None? && t.compensationKey == Some(key) && t.compensationRequest.Some?
      && t.compensationResult.None? && CompensationWellFormed(t)
      && b.outbox == a.outbox[key := NewOutboxRow(t, CompensationCommand(t), now)]
    ensures StoreOk(b) && StoreGrows(a, b)
  {
    hide SnapshotOk, SagaGrows, CompensationWellFormed, CompensationCommand, RowFits, RefsOk, SameResults, SameRefund,
      AttemptOf, WellFormedKey;
    var s, t := a.sagas[id].snapshot, b.sagas[id].snapshot;
    SameAttempt(s, t);
    SameKeys(s, t);
    assert SagaRowOk(a, id);
    SnapshotKey(b.sagas[id], id);
    RefundRowFits(t, key, now);
    RefundRefsOk(a, b, s, t, id, key);
    assert SagaRowOk(b, id);
    forall i | i in b.sagas && i != id ensures SagaRowOk(b, i) {
      assert SagaRowOk(a, i);
      RefsKept(a, b, a.sagas[i].snapshot, i);
    }
    forall k | k in b.outbox ensures OutboxRowOk(b, k) {
      if k != key {
        assert OutboxRowOk(a, k);
        if a.outbox[k].sagaId == id {
          EarlierRowFits(a.outbox[k], s, t, k);
        }
      }
    }
    forall k | k in b.inbox ensures InboxRowOk(b, k) {
      assert InboxRowOk(a, k);
    }
    forall r | r in b.attempts ensures AttemptRowOk(b, r) {
      assert AttemptRowOk(a, r);
    }
    forall i | i in a.sagas ensures SagaKept(a, b, i) {
      SagaGrowsReflexive(a.sagas[i].snapshot);
    }
  }

  lemma RefundRefsOk(a: Store, b: Store, s: Saga, t: Saga, id: string, key: string)
    requires RefsOk(a, s, id) && SagaGrows(s, t) && SameResults(s, t)
    requires b.attempts == a.attempts && b.inbox == a.inbox
    requires forall k :: OwnsKey(a, id, k) ==> OwnsKey(b, id, k)
    requires t.compensationKey == Some(key) && OwnsKey(b, id, key) && t.compensationResult.None?
    ensures RefsOk(b, t, id)
  {
    SameAttempt(s, t);
    SameKeys(s, t);
    hide SagaGrows, AttemptOf;
  }

  lemma RefsKept(a: Store, b: Store, s: Saga, id: string)
    requires RefsOk(a, s, id) && b.attempts == a.attempts && b.inbox == a.inbox
    requires forall k :: OwnsKey(a, id, k) ==> OwnsKey(b, id, k)
    ensures RefsOk(b, s, id)
  {
  }

  lemma RefundRowFits(saga: Saga, key: string, now: nat)
    requires saga.compensationKey == Some(key) && saga.compensationRequest.Some? && saga.compensationResult.None?
    requires CompensationWellFormed(saga) && WellFormedKey(saga)
    ensures RowFits(NewOutboxRow(saga, CompensationCommand(saga), now), saga, key)
  {
    hide CanonicalRequest, OperationKey;
    if key == saga.primaryKey {
      OperationKeyInjective(saga.worldId, saga.attemptId, saga.primaryStep, saga.worldId, saga.attemptId, ReleaseEscrow);
    }
  }

  predicate WellFormedKey(saga: Saga) {
    && saga.primaryStep == PrimaryStep(saga.kind)
    && saga.primaryKey == OperationKey(saga.worldId, saga.attemptId, saga.primaryStep)
  }

  lemma SnapshotKey(row: SagaRow, id: string)
    requires SnapshotOk(row, id)
    ensures WellFormedKey(row.snapshot) && row.snapshot.sagaId == id
  {
  }

  lemma EarlierRowFits(row: OutboxRow, s: Saga, t: Saga, k: string)
    requires RowFits(row, s, k) && SagaGrows(s, t) && SameResults(s, t)
    requires s.compensationKey.None?
    ensures RowFits(row, t, k)
  {
  }

  lemma ClaimLookupKeepsOk(store: Store, key: string, leaseMs: nat, now: nat)
    requires StoreOk(store) && LookupDue(store, key, now)
    ensures StoreOk(ClaimLookup(store, key, leaseMs, now)) && StoreGrows(store, ClaimLookup(store, key, leaseMs, now))
  {
    hide StoreOk, StoreGrows, SagaGrows;
    var id := store.outbox[key].sagaId;
    StoreRow(store, id);
    SagaGrowsReflexive(store.sagas[id].snapshot);
    SagaOnlyStepKeepsOk(store, ClaimLookup(store, key, leaseMs, now), id);
  }

  lemma DeferLookupKeepsOk(store: Store, worldId: string, sagaId: string, retryAfterMs: nat, now: nat)
    requires StoreOk(store)
    ensures StoreOk(DeferLookup(store, worldId, sagaId, retryAfterMs, now))
    ensures StoreGrows(store, DeferLookup(store, worldId, sagaId, retryAfterMs, now))
  {
    hide StoreOk, StoreGrows, SagaGrows;
    var b := DeferLookup(store, worldId, sagaId, retryAfterMs, now);
    if b == store {
      StoreGrowsReflexive(store);
    } else {
      StoreRow(store, sagaId);
      SagaGrowsReflexive(store.sagas[sagaId].snapshot);
      SagaOnlyStepKeepsOk(store, b, sagaId);
    }
  }

  /** NOT_FOUND only ever sends the primary key again: a refund's funding is already known. */
  lemma RetryAfterNotFoundKeepsOk(store: Store, worldId: string, sagaId: string, key: string, now: nat)
    requires StoreOk(store) && key in store.outbox && store.outbox[key].sagaId == sagaId
    ensures var (b, outcome) := RetryAfterNotFound(store, worldId, sagaId, key, now);
      && StoreOk(b) && StoreGrows(store, b)
      && (outcome == SameKeyRetryScheduled ==>
            key == store.sagas[sagaId].snapshot.primaryKey && store.sagas[sagaId].snapshot.primaryResult.None?)
  {
    hide StoreOk, StoreGrows, SnapshotOk, SagaGrows, RowFits, StoredResult;
    var (b, outcome) := RetryAfterNotFound(store, worldId, sagaId, key, now);
    if outcome != SameKeyRetryScheduled {
      StoreGrowsReflexive(store);
    } else {
      KeyRow(store, key);
      KeyIsStored(store, key);
      var row, orow := store.sagas[sagaId], store.outbox[key];
      RetriedSnapshotOk(row, sagaId, key);
      RetriedRowFits(orow, row.snapshot, key, now);
      UnchangedRowFits(orow, row.snapshot, row.snapshot.(state := PendingRemote), key);
      SameRow(store, b, key);
      QuietStepKeepsOk(store, b, sagaId, key);
    }
  }

  /** Writing a row back unchanged changes no table. */
  lemma SameRow(a: Store, b: Store, key: string)
    requires key in a.outbox
    ensures b.outbox == a.outbox ==> b.outbox == a.outbox[key := b.outbox[key]]
  {
  }

  lemma KeyIsStored(store: Store, key: string)
    requires StoreOk(store) && key in store.outbox
    ensures store.outbox[key].sagaId in store.sagas
    ensures StoredKey(store.sagas[store.outbox[key].sagaId].snapshot, key)
  {
    assert OutboxRowOk(store, key);
  }

  lemma RetriedRowFits(row: OutboxRow, s: Saga, key: string, now: nat)
    requires RowFits(row, s, key) && StoredResult(s, key).None?
    ensures row.status == NeedsReconciliation ==>
      RowFits(row.(status := RetryWait, nextAttemptAt := now), s.(state := PendingRemote), key)
  {
  }

  lemma UnchangedRowFits(row: OutboxRow, s: Saga, t: Saga, key: string)
    requires RowFits(row, s, key) && SagaGrows(s, t) && SameRefund(s, t) && SameResults(s, t)
    ensures RowFits(row, t, key)
  {
    CommandSurvives(s, t, key, row.command);
    SameKeys(s, t);
    SameStoredResults(s, t);
    hide IsCommandOf, SagaGrows;
  }

  lemma RetriedSnapshotOk(row: SagaRow, id: string, key: string)
    requires SnapshotOk(row, id) && row.snapshot.primaryResult.None? && StoredKey(row.snapshot, key)
    ensures key == row.snapshot.primaryKey && StoredResult(row.snapshot, key).None?
    ensures var t := row.snapshot.(state := PendingRemote);
      && SnapshotOk(row.(state := PendingRemote, snapshot := t, version := row.version + 1, nextReconcileAt := None), id)
      && SagaGrows(row.snapshot, t) && SameRefund(row.snapshot, t) && SameResults(row.snapshot, t)
  {
    hide WellFormed;
    WellFormedByIdentity(row.snapshot, row.snapshot.(state := PendingRemote));
  }
}
