/**
 What each saga transaction answers, in terms of the rows it finds: results told apart from repeated
 and contradicting ones, intents from replayed and changed ones, leases from free rows.
 */
module SagaOutcomes {
  import opened Wrappers
  import opened OperationKeys
  import opened Text
  import opened Sagas
  import opened SagaStore
  import opened SagaWorker
  import opened SagaInvariants
  import opened SagaWorld
  import opened SagaWorldProofs
  import opened SagaTheorems

  // ---- Results ----

  /** A report that names its operation, a digest and a final status; a success names its reference. */
  predicate IsFinalReport(raw: RawResult, key: string) {
    && raw.digest.Some? && raw.status != RawOther
    && (raw.status == RawSucceeded ==> raw.resultRef.Some? && !Blank(raw.resultRef.value))
    && (raw.operationKey.Some? ==> raw.operationKey.value == key)
    && (raw.operationKey.None? && raw.idempotencyKey.Some? ==> raw.idempotencyKey.value == key)
  }

  function ResultOf(raw: RawResult, key: string): FinancialResult
    requires raw.digest.Some?
  {
    FinancialResult(key, raw.digest.value, raw.status == RawSucceeded, raw.resultRef, raw.errorCode)
  }

  lemma FinalReportsAreNormal(raw: RawResult, key: string)
    requires !Blank(key)
    ensures NormalizeResult(raw, key).Ok? && NormalizeResult(raw, key).value.key == key <==> IsFinalReport(raw, key)
    ensures IsFinalReport(raw, key) ==> NormalizeResult(raw, key) == Ok(ResultOf(raw, key))
  {
  }

  /** The state a first result puts its saga in. */
  function StateAfter(saga: Saga, key: string, succeeded: bool): SagaState {
    if key == saga.primaryKey then if succeeded then RemoteSucceeded else Failed
    else if succeeded then Compensated else ReconciliationRequired
  }

  /** The inbox holds another result for the key, or none yet and this one is for another payload. */
  predicate Contradicts(store: Store, key: string, result: FinancialResult)
    requires key in store.outbox
  {
    if key in store.inbox then store.inbox[key] != result else result.digest != store.outbox[key].digest
  }

  /**
   A report is taken exactly when it is final and its operation is known. A repeated one changes
   nothing, a contradicting one freezes saga and row, and any other one is the saga's result.
   */
  lemma RecordingMeans(store: Store, worldId: string, key: string, raw: RawResult, now: nat)
    requires StoreOk(store)
    ensures var tx := RecordResult(store, worldId, key, raw, now);
      && (tx.reply.Ok? <==>
            !Blank(worldId) && !Blank(key) && IsFinalReport(raw, key) && OperationKnown(store, worldId, key))
      && (tx.reply.Err? ==> tx.after == store)
      && (tx.reply.Ok? ==>
            var result, row := ResultOf(raw, key), store.outbox[key];
            && tx.reply.value.duplicate == (key in store.inbox && store.inbox[key] == result)
            && tx.reply.value.conflict == Contradicts(store, key, result)
            && (tx.reply.value.duplicate ==> tx.after == store && tx.reply.value.state == store.sagas[row.sagaId].state)
            && (!tx.reply.value.duplicate ==>
                  && IsRecorded(store, tx.after, key, result, tx.reply.value.conflict, now)
                  && tx.reply.value.state == tx.after.sagas[row.sagaId].state))
  {
    hide StoreOk, NormalizeResult, ObserveFinancialResult, IsFinalReport, OperationKnown, IsRecorded, Unfrozen, Freeze, Accept;
    if !Blank(key) {
      FinalReportsAreNormal(raw, key);
      if !Blank(worldId) && IsFinalReport(raw, key) && OperationKnown(store, worldId, key) {
        KnownRow(store, worldId, key);
        if key !in store.inbox {
          StoreRefinesSaga(store, worldId, key, raw);
        }
        RecordedRows(store, worldId, key, raw, now);
      }
    }
  }

  lemma KnownRow(store: Store, worldId: string, key: string)
    requires OperationKnown(store, worldId, key)
    ensures key in store.outbox && store.outbox[key].sagaId in store.sagas
  {
  }

  /** Inbox, row and saga after a first or a contradicting result; all other rows stay. */
  ghost predicate IsRecorded(a: Store, b: Store, key: string, result: FinancialResult, conflict: bool, now: nat)
    requires key in a.outbox && a.outbox[key].sagaId in a.sagas
  {
    var id := a.outbox[key].sagaId;
    && id in b.sagas && key in b.outbox && b.attempts == a.attempts
    && b.sagas == a.sagas[id := b.sagas[id]] && b.outbox == a.outbox[key := b.outbox[key]]
    && b.inbox == (if key in a.inbox then a.inbox else a.inbox[key := result])
    && b.sagas[id].snapshot.state == b.sagas[id].state
    && (var s, t := a.sagas[id].snapshot, b.sagas[id].snapshot;
        if conflict then
          && b.sagas[id].state == ReconciliationRequired && t == s.(state := ReconciliationRequired)
          && b.sagas[id].nextReconcileAt == Some(now)
          && b.outbox[key] == a.outbox[key].(status := NeedsReconciliation, leaseOwner := None, leaseUntil := None)
        else
          && b.sagas[id].state == StateAfter(s, key, result.succeeded) && StoredResult(t, key) == Some(result)
          && b.sagas[id].nextReconcileAt == None
          && b.outbox[key] == a.outbox[key].(status := Delivered, leaseOwner := None, leaseUntil := None))
    && b.sagas[id].version == a.sagas[id].version + 1
  }

  lemma FrozenIsRecorded(store: Store, received: Store, key: string, result: FinancialResult, now: nat)
    requires key in store.outbox && store.outbox[key].sagaId in store.sagas
    requires received == store.(inbox := if key in store.inbox then store.inbox else store.inbox[key := result])
    ensures IsRecorded(store, Freeze(received, key, now), key, result, true, now)
    ensures Freeze(received, key, now).sagas[store.outbox[key].sagaId].state == ReconciliationRequired
  {
  }

  /** What the pure saga makes of a first result. */
  lemma ObservedFirst(saga: Saga, key: string, result: FinancialResult)
    requires WellFormed(saga) && PhaseOk(saga) && StoredKey(saga, key) && StoredResult(saga, key).None? && result.key == key
    requires ObserveFinancialResult(Unfrozen(saga, key), result).Ok?
    ensures var next := ObserveFinancialResult(Unfrozen(saga, key), result).value;
      next.state == StateAfter(saga, key, result.succeeded) && StoredResult(next, key) == Some(result)
  {
    UnfrozenIsSound(saga, key);
    hide WellFormed, PhaseOk, Sound, SagaInvariant;
  }

  lemma AcceptedIsRecorded(store: Store, key: string, result: FinancialResult, next: Saga, now: nat)
    requires key in store.outbox && store.outbox[key].sagaId in store.sagas && key !in store.inbox
    requires next.state == StateAfter(store.sagas[store.outbox[key].sagaId].snapshot, key, result.succeeded)
    requires StoredResult(next, key) == Some(result)
    ensures var b := Accept(store.(inbox := store.inbox[key := result]), key, next);
      IsRecorded(store, b, key, result, false, now) && b.sagas[store.outbox[key].sagaId].state == next.state
  {
    hide StoredResult, StateAfter;
  }

  lemma RecordedRows(store: Store, worldId: string, key: string, raw: RawResult, now: nat)
    requires StoreOk(store) && OperationKnown(store, worldId, key) && !Blank(worldId) && !Blank(key)
    requires NormalizeResult(raw, key).Ok? && NormalizeResult(raw, key).value.key == key
    requires key in store.outbox && store.outbox[key].sagaId in store.sagas
    ensures var tx, result := RecordResult(store, worldId, key, raw, now), NormalizeResult(raw, key).value;
      tx.reply.Ok? && !tx.reply.value.duplicate ==>
        && IsRecorded(store, tx.after, key, result, tx.reply.value.conflict, now)
        && tx.reply.value.state == tx.after.sagas[store.outbox[key].sagaId].state
  {
    hide StoreOk, NormalizeResult, WellFormed, PhaseOk, ObserveFinancialResult, IsRecorded, Unfrozen, Freeze, Accept,
      SnapshotOk, RowFits, Sound, StoredResult, StoredKey;
    var id, result := store.outbox[key].sagaId, NormalizeResult(raw, key).value;
    var saga := store.sagas[id].snapshot;
    if key in store.inbox {
      FrozenIsRecorded(store, store, key, result, now);
    } else {
      var received := store.(inbox := store.inbox[key := result]);
      FrozenIsRecorded(store, received, key, result, now);
      StoreRefinesSaga(store, worldId, key, raw);
      KeyRow(store, key);
      KeyIsStored(store, key);
      SnapshotColumn(store.sagas[id], id);
      if ObserveFinancialResult(Unfrozen(saga, key), result).Ok? {
        ObservedFirst(saga, key, result);
        AcceptedIsRecorded(store, key, result, ObserveFinancialResult(Unfrozen(saga, key), result).value, now);
      }
    }
  }

  lemma SnapshotColumn(row: SagaRow, id: string)
    requires SnapshotOk(row, id)
    ensures row.state == row.snapshot.state && row.snapshot.sagaId == id && WellFormed(row.snapshot) && PhaseOk(row.snapshot)
  {
  }

  /** Once the inbox holds a result, recording it again after any steps is answered as a duplicate and changes nothing. */
  lemma KnownResultsReplay(w: World, worldId: string, key: string, raw: RawResult, steps: seq<Step>)
    requires Reachable(w) && !Blank(worldId) && !Blank(key) && IsFinalReport(raw, key)
    requires OperationKnown(w.db.store, worldId, key) && key in w.db.store.inbox && w.db.store.inbox[key] == ResultOf(raw, key)
    ensures var later := Run(w, steps);
      && key in later.db.store.outbox && later.db.store.outbox[key].sagaId in later.db.store.sagas
      && StoreResult(later, worldId, key, raw) == later
      && RecordResult(later.db.store, worldId, key, raw, later.now).reply
         == Ok(Recorded(true, false, later.db.store.sagas[later.db.store.outbox[key].sagaId].state))
  {
    hide Reachable, Inv, Grows, Run, RecordResult, StoreOk, IsFinalReport, IsRecorded, OperationKnown;
    ReachableIsOk(w);
    InvParts(w);
    RunKeepsInv(w, steps);
    var later := Run(w, steps);
    InvParts(later);
    KnownStays(w, later, worldId, key);
    RecordingMeans(later.db.store, worldId, key, raw, later.now);
    KnownRow(later.db.store, worldId, key);
  }

  lemma KnownStays(a: World, b: World, worldId: string, key: string)
    requires StoreOk(a.db.store) && StoreOk(b.db.store) && Grows(a, b)
    requires OperationKnown(a.db.store, worldId, key) && key in a.db.store.inbox
    ensures OperationKnown(b.db.store, worldId, key)
    ensures key in b.db.store.inbox && b.db.store.inbox[key] == a.db.store.inbox[key]
  {
    hide SnapshotOk, RefsOk, IsCommandOf, StoredResult, ContractsGrow;
    var id := a.db.store.outbox[key].sagaId;
    assert OutboxKept(a.db.store, b.db.store, key) && SagaKept(a.db.store, b.db.store, id);
    assert InboxKept(a.db.store, b.db.store, key);
    assert OutboxRowOk(a.db.store, key) && OutboxRowOk(b.db.store, key);
  }

  /**
   The worker's report of a definite reply that contradicts nothing: whoever reports the same reply again,
   however much later and after whatever steps, changes nothing.
   */
  lemma DefiniteRepliesAreRecordedOnce(w: World, claim: Claimed, reply: Reply, retryAfterMs: int, steps: seq<Step>)
    requires Reachable(w) && claim in w.claims && IdentityMatches(claim) && TruthfulReply(w.kb, claim.row.command, reply)
    requires ReactionTo(reply, claim.row.command).Record?
    requires var raw := ReactionTo(reply, claim.row.command).raw;
      var tx := RecordResult(w.db.store, claim.row.worldId, claim.key, raw, w.now);
      tx.reply.Ok? && (claim.key in w.db.store.inbox ==> !tx.reply.value.conflict)
    ensures var raw := ReactionTo(reply, claim.row.command).raw;
      var later := Run(Apply(w, HandleReply(claim, reply, retryAfterMs)), steps);
      StoreResult(later, claim.row.worldId, claim.key, raw) == later
  {
    hide Reachable, Inv, Run, RecordResult, StoreOk, IsFinalReport, IsRecorded, OperationKnown, ReactionTo, TruthfulReply,
      IdentityMatches, Apply;
    var raw := ReactionTo(reply, claim.row.command).raw;
    var recorded := Apply(w, HandleReply(claim, reply, retryAfterMs));
    ReachableIsOk(w);
    InvParts(w);
    HandlingRecords(w, claim, reply, retryAfterMs);
    RecordingMeans(w.db.store, claim.row.worldId, claim.key, raw, w.now);
    RecordedIsKnown(w.db.store, claim.row.worldId, claim.key, raw, w.now);
    StepStaysReachable(w, HandleReply(claim, reply, retryAfterMs));
    KnownResultsReplay(recorded, claim.row.worldId, claim.key, raw, steps);
  }

  lemma HandlingRecords(w: World, claim: Claimed, reply: Reply, retryAfterMs: int)
    requires claim in w.claims && IdentityMatches(claim) && TruthfulReply(w.kb, claim.row.command, reply)
    requires ReactionTo(reply, claim.row.command).Record?
    ensures Apply(w, HandleReply(claim, reply, retryAfterMs)).db.store
         == RecordResult(w.db.store, claim.row.worldId, claim.key, ReactionTo(reply, claim.row.command).raw, w.now).after
  {
    hide ReactionTo, RecordResult, TruthfulReply, IdentityMatches;
  }

  lemma RecordedIsKnown(store: Store, worldId: string, key: string, raw: RawResult, now: nat)
    requires StoreOk(store) && RecordResult(store, worldId, key, raw, now).reply.Ok?
    requires key in store.inbox ==> !RecordResult(store, worldId, key, raw, now).reply.value.conflict
    ensures var b := RecordResult(store, worldId, key, raw, now).after;
      && OperationKnown(b, worldId, key) && raw.digest.Some?
      && key in b.inbox && b.inbox[key] == ResultOf(raw, key)
  {
    hide RecordResult, StoreOk, IsFinalReport;
    RecordingMeans(store, worldId, key, raw, now);
    RecordResultKeepsOk(store, worldId, key, raw, now);
    var b := RecordResult(store, worldId, key, raw, now).after;
    KnownInStore(store, b, worldId, key);
    FinalHasDigest(raw, key);
  }

  lemma FinalHasDigest(raw: RawResult, key: string)
    requires IsFinalReport(raw, key)
    ensures raw.digest.Some?
  {
  }

  lemma KnownInStore(a: Store, b: Store, worldId: string, key: string)
    requires StoreOk(a) && StoreOk(b) && StoreGrows(a, b) && OperationKnown(a, worldId, key)
    ensures OperationKnown(b, worldId, key)
  {
    hide SnapshotOk, RefsOk, IsCommandOf, StoredResult;
    var id := a.outbox[key].sagaId;
    assert OutboxKept(a, b, key) && SagaKept(a, b, id);
    assert OutboxRowOk(a, key) && OutboxRowOk(b, key);
  }

  lemma StepStaysReachable(w: World, step: Step)
    requires Reachable(w)
    ensures Reachable(Apply(w, step))
  {
    hide Apply, Run;
    var maxAttempts: int, steps: seq<Step> :| w == Run(Start(maxAttempts), steps);
    RunsOn(Start(maxAttempts), steps, step);
  }

  lemma RunsOn(w: World, steps: seq<Step>, step: Step)
    ensures Run(w, steps + [step]) == Apply(Run(w, steps), step)
  {
    hide Apply;
    assert (steps + [step])[..|steps|] == steps;
  }

  // ---- Failures ----

  /** The asked pause, never negative and never more than an hour. */
  function Pause(retryAfterMs: int): (ms: nat)
    ensures ms <= 60 * 60 * 1000
    ensures 0 <= retryAfterMs <= 60 * 60 * 1000 ==> ms == retryAfterMs
  {
    var atLeast := if retryAfterMs > 0 then retryAfterMs else 0;
    if atLeast < 3_600_000 then atLeast else 3_600_000
  }

  predicate IsDead(failure: Failure, attempts: nat) {
    !failure.outcomeUnknown && (!failure.retryable || attempts >= failure.maxAttempts)
  }

  /** The saga row after a failure report: frozen, or only counted, or as it was. */
  predicate IsReported(a: SagaRow, b: SagaRow, failure: Failure, attempts: nat, wakeAt: nat) {
    if failure.outcomeUnknown && a.state !in {Completed, Compensated, Failed} then
      && b.state == ReconciliationRequired && b.snapshot == a.snapshot.(state := ReconciliationRequired)
      && b.nextReconcileAt == Some(wakeAt) && b.version == a.version + 1
    else
      && b.state == a.state && b.snapshot == a.snapshot && b.nextReconcileAt == a.nextReconcileAt
      && b.version == a.version + if IsDead(failure, attempts) then 1 else 0
  }

  /**
   A failure report is taken exactly from the holder of the row's lease. An unknown outcome waits for
   reconciliation and freezes the saga unless it is finished; a retryable failure waits for its next attempt
   while there is one; anything else is dead.
   */
  lemma FailuresMean(store: Store, failure: Failure, now: nat)
    requires StoreOk(store)
    ensures var tx, key := RecordFailure(store, failure, now), failure.outboxKey;
      && (tx.reply.Ok? <==>
            && !Blank(key) && !Blank(failure.owner) && !Blank(failure.errorCode) && failure.maxAttempts >= 1
            && key in store.outbox && store.outbox[key].status == Leased && store.outbox[key].leaseOwner == Some(failure.owner))
      && (tx.reply.Err? ==> tx.after == store)
      && (tx.reply.Ok? ==>
            var row, wakeAt, id := store.outbox[key], now + Pause(failure.retryAfterMs), store.outbox[key].sagaId;
            && (tx.reply.value == NeedsReconciliation <==> failure.outcomeUnknown)
            && (tx.reply.value == RetryWait <==>
                  !failure.outcomeUnknown && failure.retryable && row.attempts < failure.maxAttempts)
            && tx.reply.value in {NeedsReconciliation, RetryWait, DeadLetter}
            && tx.after.inbox == store.inbox && tx.after.attempts == store.attempts
            && tx.after.outbox == store.outbox[key := row.(
                 status := tx.reply.value, nextAttemptAt := wakeAt, leaseOwner := None, leaseUntil := None)]
            && id in store.sagas && id in tx.after.sagas && tx.after.sagas == store.sagas[id := tx.after.sagas[id]]
            && IsReported(store.sagas[id], tx.after.sagas[id], failure, row.attempts, wakeAt))
  {
    hide StoreOk, Blank, SnapshotOk, RowFits;
    if failure.outboxKey in store.outbox {
      KeyRow(store, failure.outboxKey);
      RowWorld(store.outbox[failure.outboxKey], store.sagas[store.outbox[failure.outboxKey].sagaId].snapshot, failure.outboxKey);
    }
  }

  lemma RowWorld(row: OutboxRow, saga: Saga, key: string)
    requires RowFits(row, saga, key)
    ensures row.worldId == saga.worldId
  {
  }

  // ---- What replies stand for ----

  /** Nobody knows whether the request was run. */
  predicate LeavesDoubt(reply: Reply, command: Command) {
    match reply
    case Thrown(confirmedNoEffect, _) => !confirmedNoEffect
    case Response(status, _, _, _) =>
      || status == OutcomeUnknown
      || (status in {Succeeded, Duplicate} && SuccessReference(reply, command) in {None, Some("")})
  }

  /** The request certainly had no effect yet, or may be repeated under its key. */
  predicate IsTransient(reply: Reply) {
    match reply
    case Thrown(confirmedNoEffect, _) => confirmedNoEffect
    case Response(status, _, _, _) => status in {Timeout, Unavailable}
  }

  /** The name of an error is never blank when the port answers. */
  predicate IsNamed(reply: Reply) {
    reply.Response? ==> !Blank(reply.errorCode)
  }

  /** The first reference that is there. */
  function FirstPresent(refs: seq<Option<string>>): Option<string> {
    if refs == [] then None else if refs[0].Some? then refs[0] else FirstPresent(refs[1..])
  }

  /** A distribution is known by its settlement, anything else by its escrow, and both by the next best reference. */
  lemma ReferencesAreTheFirst(reply: Reply, command: Command)
    requires reply.Response?
    ensures reply.result.None? ==> SuccessReference(reply, command) == reply.operationRef
    ensures reply.result.Some? ==>
      var refs := reply.result.value;
      SuccessReference(reply, command)
      == if command.payload.action == Some(Distribute)
         then FirstPresent([refs.settlementRef, refs.receiptRef, reply.operationRef, refs.operationRef])
         else FirstPresent([refs.escrowRef, reply.operationRef, refs.operationRef, refs.settlementRef, refs.receiptRef])
  {
    if reply.result.Some? {
      var refs := reply.result.value;
      FirstOfFive(refs.settlementRef, refs.receiptRef, reply.operationRef, refs.operationRef, None);
      FirstOfFive(refs.escrowRef, reply.operationRef, refs.operationRef, refs.settlementRef, refs.receiptRef);
    }
    hide FirstPresent;
  }

  lemma FirstOfFive(a: Option<string>, b: Option<string>, c: Option<string>, d: Option<string>, e: Option<string>)
    ensures FirstPresent([a, b, c, d, e]) == FirstOf(a, FirstOf(b, FirstOf(c, FirstOf(d, e))))
    ensures FirstPresent([a, b, c, d]) == FirstOf(a, FirstOf(b, FirstOf(c, d)))
  {
    assert [a, b, c, d, e][1..] == [b, c, d, e] && [b, c, d, e][1..] == [c, d, e] && [c, d, e][1..] == [d, e];
    assert [a, b, c, d][1..] == [b, c, d] && [b, c, d][1..] == [c, d] && [c, d][1..] == [d];
    assert [d, e][1..] == [e] && [e][1..] == [] && [d][1..] == [];
    assert FirstPresent([e]) == e && FirstPresent([d]) == d && FirstPresent([d, e]) == FirstOf(d, e);
    assert FirstPresent([c, d, e]) == FirstOf(c, FirstOf(d, e)) && FirstPresent([c, d]) == FirstOf(c, d);
    assert FirstPresent([b, c, d, e]) == FirstOf(b, FirstPresent([c, d, e]));
  }

  /** What is sent for a claim asks for its own operation under its own key; any other row is not sent. */
  lemma RequestsNameTheirClaim(claim: Claimed, requestId: string)
    ensures IdentityMatches(claim) <==>
      var command, request := claim.row.command, RequestFor(claim.row.command, requestId);
      && request == PortRequest("escrow", requestId, claim.key, command.principalRef, command.payload)
      && command.operationKey == claim.key && command.digest == claim.row.digest
  {
  }

  lemma RepliesMean(reply: Reply, command: Command)
    ensures ReactionTo(reply, command).Record? <==> !LeavesDoubt(reply, command) && !IsTransient(reply)
    ensures ReactionTo(reply, command).Record? ==>
      var succeeded := reply.status in {Succeeded, Duplicate};
      ReactionTo(reply, command).raw
      == RawResult(Some(command.operationKey), None, Some(command.digest), if succeeded then RawSucceeded else RawFailed,
                   if succeeded then SuccessReference(reply, command) else None,
                   if succeeded then None else Some(reply.errorCode))
    ensures ReactionTo(reply, command).Record? ==>
      (ReactionTo(reply, command).raw.status == RawSucceeded <==> reply.status in {Succeeded, Duplicate})
    ensures ReactionTo(reply, command).Report? ==>
      && (ReactionTo(reply, command).outcomeUnknown <==> LeavesDoubt(reply, command))
      && (ReactionTo(reply, command).retryable <==> IsTransient(reply))
      && (IsNamed(reply) ==> !Blank(ReactionTo(reply, command).errorCode))
  {
    assert "TRANSPORT_OUTCOME_UNKNOWN"[0] == 'T' && "KB_SUCCESS_MISSING_OPERATION_REFERENCE"[0] == 'K';
  }

  /** The claim is the row's current lease, and nobody's name is blank. */
  predicate IsCurrentLease(w: World, claim: Claimed) {
    && claim in w.claims && IdentityMatches(claim) && !Blank(claim.key) && w.maxAttempts >= 1
    && claim.key in w.db.store.outbox && w.db.store.outbox[claim.key].status == Leased
    && claim.row.leaseOwner.Some? && !Blank(claim.row.leaseOwner.value)
    && w.db.store.outbox[claim.key].leaseOwner == claim.row.leaseOwner
  }

  /**
   The holder of a lease that is left in doubt puts up the fence, and no run without NOT_FOUND for the key
   hands it out again. A transient reply is retried while attempts are left.
   */
  lemma RepliesDecideTheRow(w: World, claim: Claimed, reply: Reply, retryAfterMs: int, steps: seq<Step>)
    requires Reachable(w) && IsCurrentLease(w, claim) && IsNamed(reply) && TruthfulReply(w.kb, claim.row.command, reply)
    requires forall i :: 0 <= i < |steps| ==> !IsNotFoundFor(steps[i], claim.key)
    ensures LeavesDoubt(reply, claim.row.command) ==>
      var later := Run(Apply(w, HandleReply(claim, reply, retryAfterMs)), steps);
      claim.key in later.db.store.outbox && !Claimable(later.db.store.outbox[claim.key], later.now)
    ensures IsTransient(reply) ==>
      var outbox := Apply(w, HandleReply(claim, reply, retryAfterMs)).db.store.outbox;
      claim.key in outbox
      && outbox[claim.key].status == if w.db.store.outbox[claim.key].attempts < w.maxAttempts then RetryWait else DeadLetter
  {
    hide Reachable, Inv, Run, StoreOk, ReactionTo, TruthfulReply, IdentityMatches, Apply, LeavesDoubt, IsTransient, IsNamed, Blank,
      RecordFailure;
    ReachableIsOk(w);
    InvParts(w);
    RepliesMean(reply, claim.row.command);
    var reaction := ReactionTo(reply, claim.row.command);
    if reaction.Report? {
      var failure := FailureOf(claim, reaction.errorCode, reaction.retryable, reaction.outcomeUnknown, retryAfterMs,
                               LimitOf(reaction.ownLimit, w.maxAttempts));
      HandlingReports(w, claim, reply, retryAfterMs);
      FailuresMean(w.db.store, failure, w.now);
      if reaction.retryable {
        RetryableReportsAreLimited(reply, claim.row.command);
      }
      if reaction.outcomeUnknown {
        ReportedUnknownIsNeverSentAgain(w, failure, steps);
      }
    }
  }

  lemma HandlingReports(w: World, claim: Claimed, reply: Reply, retryAfterMs: int)
    requires claim in w.claims && IdentityMatches(claim) && TruthfulReply(w.kb, claim.row.command, reply)
    requires ReactionTo(reply, claim.row.command).Report?
    ensures var reaction := ReactionTo(reply, claim.row.command);
      Apply(w, HandleReply(claim, reply, retryAfterMs))
      == ReportFailure(w, FailureOf(claim, reaction.errorCode, reaction.retryable, reaction.outcomeUnknown, retryAfterMs,
                                    LimitOf(reaction.ownLimit, w.maxAttempts)))
  {
    hide ReactionTo, ReportFailure, StoreResult, TruthfulReply, IdentityMatches;
  }

  // ---- Leases and lookups ----

  /** Who claims, and when: only a row that waits for its time, or whose lease has run out. */
  lemma ClaimsTakeDueRows(w: World, key: string, worker: string, leaseMs: int)
    requires key in w.db.store.outbox
    ensures var row, b := w.db.store.outbox[key], Apply(w, ClaimRow(key, worker, leaseMs));
      var due := || (row.status == RetryWait && w.now >= row.nextAttemptAt)
                 || (row.status == Pending && w.now >= row.nextAttemptAt)
                 || (row.status == Leased && row.leaseUntil.Some? && w.now > row.leaseUntil.value);
      if !Blank(worker) && 1000 <= leaseMs <= 300_000 && due then
        && key in b.db.store.outbox && b.db.store.outbox[key].status == Leased
        && b.db.store.outbox[key].leaseOwner == Some(worker) && b.db.store.outbox[key].leaseUntil == Some(w.now + leaseMs)
        && b.db.store.outbox[key].attempts == row.attempts + 1
        && b.db.store.outbox[key].command == row.command
        && Claimed(key, b.db.store.outbox[key]) in b.claims
      else b == w
  {
  }

  /** A lease is exclusive until it runs out: nobody claims the row before, whatever else happens to other rows. */
  lemma LeasesAreExclusive(w: World, key: string, worker: string, leaseMs: int, later: World)
    requires key in w.db.store.outbox && Apply(w, ClaimRow(key, worker, leaseMs)) != w
    requires var leased := Apply(w, ClaimRow(key, worker, leaseMs)).db.store.outbox;
      key in leased && key in later.db.store.outbox && later.db.store.outbox[key] == leased[key]
    ensures forall other: string, ms: int ::
      later.now <= w.now + leaseMs ==> Apply(later, ClaimRow(key, other, ms)) == later
  {
    forall other: string, ms: int | later.now <= w.now + leaseMs ensures Apply(later, ClaimRow(key, other, ms)) == later {
      ClaimsTakeDueRows(w, key, worker, leaseMs);
      ClaimsTakeDueRows(later, key, other, ms);
      hide Apply;
    }
  }

  /** Only a frozen saga with a row that waits for reconciliation is looked up, once its time has come, and then hidden. */
  lemma LookupsTakeDueSagas(w: World, key: string, hideMs: nat)
    requires Reachable(w)
    ensures var store, b := w.db.store, Apply(w, LookUp(key, hideMs));
      && (b != w || LookupDue(store, key, w.now) ==>
            && key in store.outbox && store.outbox[key].status == NeedsReconciliation
            && store.outbox[key].sagaId in store.sagas
            && store.sagas[store.outbox[key].sagaId].snapshot.state == ReconciliationRequired)
      && (LookupDue(store, key, w.now) ==> forall at: nat :: at < w.now + hideMs ==> !LookupDue(b.db.store, key, at))
      && (key in store.outbox && store.outbox[key].status == NeedsReconciliation
          && store.outbox[key].sagaId in store.sagas
          && store.sagas[store.outbox[key].sagaId].snapshot.state == ReconciliationRequired
          && store.sagas[store.outbox[key].sagaId].nextReconcileAt.Some?
          && store.sagas[store.outbox[key].sagaId].nextReconcileAt.value <= w.now
          ==> LookupDue(store, key, w.now))
  {
    hide Reachable, Inv, SnapshotOk, RowFits, WellFormed, PhaseOk;
    ReachableIsOk(w);
    InvParts(w);
    if key in w.db.store.outbox {
      KeyRow(w.db.store, key);
      KeyIsStored(w.db.store, key);
      var id := w.db.store.outbox[key].sagaId;
      RowWorld(w.db.store.outbox[key], w.db.store.sagas[id].snapshot, key);
      SnapshotColumns(w.db.store.sagas[id], id);
    }
    hide StoreOk;
  }

  lemma SnapshotColumns(row: SagaRow, id: string)
    requires SnapshotOk(row, id)
    ensures row.state == row.snapshot.state && row.compensationKey == row.snapshot.compensationKey
  {
  }

  /**
   NOT_FOUND for a saga that is frozen without a result sends its primary command again under the same key;
   for a saga that moved on, or holds a result, it changes nothing.
   */
  lemma NotFoundMeans(store: Store, worldId: string, key: string, now: nat)
    requires StoreOk(store) && key in store.outbox
    ensures var id := store.outbox[key].sagaId;
      && id in store.sagas
      && var row, (b, outcome) := store.sagas[id], RetryAfterNotFound(store, worldId, id, key, now);
         if row.snapshot.worldId != worldId || row.snapshot.state != ReconciliationRequired
           then b == store && outcome == StaleReconciliation
         else if row.snapshot.primaryResult.Some? then b == store && outcome == StillFrozen
         else
           && outcome == SameKeyRetryScheduled && key == row.snapshot.primaryKey
           && b.inbox == store.inbox && b.attempts == store.attempts
           && b.sagas == store.sagas[id := SagaRow(
                PendingRemote, None, row.snapshot.(state := PendingRemote), row.version + 1, None)]
           && b.outbox == store.outbox[key :=
                if store.outbox[key].status == NeedsReconciliation
                  then store.outbox[key].(status := RetryWait, nextAttemptAt := now)
                  else store.outbox[key]]
  {
    hide StoreOk, WellFormed, RowFits;
    KeyRow(store, key);
    KeyIsStored(store, key);
    var id := store.outbox[key].sagaId;
    StoreRow(store, id);
    FrozenWithoutResult(store.sagas[id], id, key);
    hide SnapshotOk;
  }

  lemma FrozenWithoutResult(row: SagaRow, id: string, key: string)
    requires SnapshotOk(row, id) && StoredKey(row.snapshot, key)
    ensures row.state == row.snapshot.state && row.compensationKey == row.snapshot.compensationKey
    ensures row.snapshot.primaryResult.None? ==>
      && row.snapshot.compensationResult.None? && row.snapshot.compensationKey.None? && key == row.snapshot.primaryKey
  {
  }

  /** An inconclusive lookup moves only the time of the next one, and only for a saga that is still frozen. */
  lemma DeferralsMean(store: Store, worldId: string, sagaId: string, retryAfterMs: nat, now: nat)
    requires StoreOk(store) && sagaId in store.sagas
    ensures var row := store.sagas[sagaId];
      DeferLookup(store, worldId, sagaId, retryAfterMs, now)
      == if row.snapshot.worldId == worldId && row.snapshot.state == ReconciliationRequired
         then store.(sagas := store.sagas[sagaId := row.(nextReconcileAt := Some(now + retryAfterMs))])
         else store
  {
    StoreRow(store, sagaId);
    hide StoreOk;
  }

  // ---- Local commits and refunds ----

  /** A saga is completed exactly from a confirmed success, by the local transition of its kind. */
  lemma CommitsMean(store: Store, worldId: string, sagaId: string, local: LocalState)
    requires StoreOk(store)
    ensures var tx := MarkCommitted(store, worldId, sagaId, local);
      if !Blank(worldId) && !Blank(sagaId) && sagaId in store.sagas && store.sagas[sagaId].snapshot.worldId == worldId
         && store.sagas[sagaId].snapshot.state == RemoteSucceeded
         && local == (if store.sagas[sagaId].snapshot.kind == ContractSettlement then LocalSettled else LocalActive)
      then
        var row := store.sagas[sagaId];
        tx == Tx(store.(sagas := store.sagas[sagaId := SagaRow(
                   Completed, row.compensationKey, row.snapshot.(state := Completed), row.version + 1, None)]),
                 Ok(Completed))
      else tx.reply.Err? && tx.after == store
  {
    hide StoreOk, Blank, SagaInvariant;
    if !Blank(worldId) && !Blank(sagaId) && sagaId in store.sagas && store.sagas[sagaId].snapshot.worldId == worldId
       && store.sagas[sagaId].snapshot.state == RemoteSucceeded
       && local == (if store.sagas[sagaId].snapshot.kind == ContractSettlement then LocalSettled else LocalActive) {
      CommitIsNeverRejected(store, sagaId, local);
    }
  }

  /** The refund of a funding: all of it, to the principal that paid, naming the escrow it went to. */
  function RefundOf(saga: Saga, reason: string): FinancialRequest
    requires saga.primaryResult.Some? && saga.primaryResult.value.resultRef.Some?
  {
    var paid := saga.primaryRequest;
    FinancialRequest(paid.principalRef, EscrowPayload(Some(Refund), paid.payload.contractRef, paid.payload.amount,
                                                      Refunding(saga.primaryResult.value.resultRef.value, reason)))
  }

  /** A refund is queued exactly for a confirmed funding, under a new key, as an undelivered command of the saga. */
  lemma RefundsMean(store: Store, sagaId: string, reason: string, now: nat)
    requires StoreOk(store) && sagaId in store.sagas
    ensures var tx, row := QueueCompensation(store, sagaId, reason, now), store.sagas[sagaId];
      var saga := row.snapshot;
      if saga.state == RemoteSucceeded && saga.kind == ContractActivation && reason != "" then
        && saga.primaryResult.Some? && saga.primaryResult.value.resultRef.Some?
        && var key, request := OperationKey(saga.worldId, saga.attemptId, ReleaseEscrow), RefundOf(saga, reason);
           var refunding := saga.(
             state := CompensationPending, compensationKey := Some(key), compensationDigest := Some(Sha256(request)),
             compensationRequest := Some(request), compensationReason := Some(reason));
           && key !in store.outbox
           && tx == Tx(store.(
                sagas := store.sagas[sagaId := SagaRow(
                  CompensationPending, Some(key), refunding, row.version + 1, row.nextReconcileAt)],
                outbox := store.outbox[key := OutboxRow(
                  saga.worldId, sagaId, CompensationCommand(refunding).digest, CompensationCommand(refunding),
                  Pending, 0, None, None, now)]),
              Ok(true))
      else tx.reply.Err? && tx.after == store
  {
    hide StoreOk, SagaInvariant, OperationKey, CanonicalRequest;
    var row := store.sagas[sagaId];
    if row.snapshot.state == RemoteSucceeded && row.snapshot.kind == ContractActivation && reason != "" {
      StoreRow(store, sagaId);
      QueueCompensationKeepsOk(store, sagaId, reason, now);
      RefundSnapshotOk(row, sagaId, reason);
      SnapshotColumn(row, sagaId);
      hide SnapshotOk;
    }
  }

  // ---- Intents ----

  /** A prepared saga has its row, its attempt and its undelivered command; every other row stays. */
  predicate IsPrepared(a: Store, b: Store, saga: Saga, now: nat) {
    && saga.sagaId in b.sagas && b.sagas == a.sagas[saga.sagaId := b.sagas[saga.sagaId]]
    && b.sagas[saga.sagaId].snapshot == saga && b.sagas[saga.sagaId].state == saga.state
    && b.attempts == a.attempts[AttemptOf(saga) := saga.sagaId] && b.inbox == a.inbox
    && saga.primaryKey in b.outbox && b.outbox == a.outbox[saga.primaryKey := b.outbox[saga.primaryKey]]
    && var row := b.outbox[saga.primaryKey];
       && row.command == PrimaryCommand(saga) && row.digest == saga.primaryDigest && row.sagaId == saga.sagaId
       && row.status == Pending && row.attempts == 0 && Claimable(row, now)
  }

  /**
   A business attempt is prepared once. Preparing it again with the same digest, contract and version is
   answered with the first saga; with anything else it is refused; either way nothing changes.
   */
  lemma IntentsMean(store: Store, saga: Saga, now: nat)
    requires StoreOk(store) && Sound(saga) && saga.state == PendingRemote && saga.primaryResult.None?
    ensures var tx, attempt := PrepareIntent(store, saga, now), AttemptOf(saga);
      if attempt in store.attempts then
        && tx.after == store && store.attempts[attempt] in store.sagas
        && var prior := store.sagas[store.attempts[attempt]].snapshot;
           var same := && prior.primaryDigest == saga.primaryDigest && prior.contractId == saga.contractId
                       && prior.contractVersion == saga.contractVersion;
           && (same ==> tx.reply == Ok(Prepared(store.attempts[attempt], true)))
           && (!same ==> tx.reply == Err(SagaIdempotencyConflict))
      else if saga.sagaId in store.sagas then tx.after == store && tx.reply == Err(UniqueViolation)
      else tx.reply == Ok(Prepared(saga.sagaId, false)) && IsPrepared(store, tx.after, saga, now)
  {
    hide SagaRowOk, OutboxRowOk, InboxRowOk, WellFormed, CompensationWellFormed, RefundRequest;
    PendingBuilds(saga);
    hide Sound, BuildFinancialCommand;
    if AttemptOf(saga) in store.attempts {
      assert AttemptRowOk(store, AttemptOf(saga));
    } else {
      SoundIsWellFormed(saga);
      FreshAttemptHasFreshKey(store, saga);
    }
    hide StoreOk;
  }

  lemma PendingBuilds(saga: Saga)
    requires Sound(saga) && saga.state == PendingRemote && saga.primaryResult.None?
    ensures BuildFinancialCommand(saga) == Ok(Some(PrimaryCommand(saga))) && PrimaryCommand(saga).operationKey == saga.primaryKey
    ensures PrimaryCommand(saga).digest == saga.primaryDigest
  {
  }

  lemma SoundIsWellFormed(saga: Saga)
    requires Sound(saga)
    ensures WellFormed(saga)
  {
  }

  /** After any steps, preparing a prepared saga's intent again is answered with that saga and changes nothing. */
  lemma PreparedIntentsReplay(w: World, id: string, steps: seq<Step>, again: Saga)
    requires Reachable(w) && id in w.db.store.sagas
    requires Sound(again) && again.state == PendingRemote && again.primaryResult.None?
    requires var saga := w.db.store.sagas[id].snapshot;
      && AttemptOf(again) == AttemptOf(saga) && again.primaryDigest == saga.primaryDigest
      && again.contractId == saga.contractId && again.contractVersion == saga.contractVersion
    ensures var later := Run(w, steps);
      PrepareIntent(later.db.store, again, later.now) == Tx(later.db.store, Ok(Prepared(id, true)))
  {
    hide Reachable, Inv, Grows, Run, StoreOk, PrepareIntent, Sound, IsPrepared;
    ReachableIsOk(w);
    InvParts(w);
    RunKeepsInv(w, steps);
    var later := Run(w, steps);
    InvParts(later);
    AttemptStays(w, later, id);
    IntentsMean(later.db.store, again, later.now);
  }

  lemma AttemptStays(a: World, b: World, id: string)
    requires StoreOk(b.db.store) && Grows(a, b) && id in a.db.store.sagas
    ensures id in b.db.store.sagas && SameIdentity(a.db.store.sagas[id].snapshot, b.db.store.sagas[id].snapshot)
    ensures var attempt := AttemptOf(a.db.store.sagas[id].snapshot);
      attempt in b.db.store.attempts && b.db.store.attempts[attempt] == id
  {
    hide SnapshotOk, ContractsGrow;
    assert SagaKept(a.db.store, b.db.store, id);
    assert SagaRowOk(b.db.store, id);
  }
}
