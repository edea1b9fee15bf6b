/**
 Every step of the saga protocol keeps the invariant of `SagaWorld` and takes nothing back.
 */
module SagaWorldProofs {
  import opened Wrappers
  import opened OperationKeys
  import opened Text
  import opened Sagas
  import opened SagaStore
  import opened SagaWorker
  import opened SagaInvariants
  import opened Contracts
  import opened ContractSagas
  import opened SagaWorld

  // ---- Store rows ----

  ghost predicate OutboxAges(a: Store, b: Store) {
    forall key {:trigger b.outbox[key]} {:trigger key in b.outbox} :: key in b.outbox ==>
      Spent(b.outbox[key]) >= if key in a.outbox then Spent(a.outbox[key]) else 0
  }

  /** What every saga transaction does, whichever it is. */
  ghost predicate StoreStep(a: Store, b: Store) {
    StoreOk(b) && StoreGrows(a, b) && OutboxAges(a, b)
  }

  ghost predicate SameSagas(a: Store, b: Store) {
    b.sagas.Keys == a.sagas.Keys
  }

  lemma StoreStepReflexive(a: Store)
    requires StoreOk(a)
    ensures StoreStep(a, a) && SameSagas(a, a)
  {
    hide StoreOk, StoreGrows;
    StoreGrowsReflexive(a);
  }

  lemma ClaimStep(a: Store, key: string, worker: string, leaseMs: nat, now: nat)
    requires StoreOk(a) && key in a.outbox && Claimable(a.outbox[key], now)
    ensures StoreStep(a, Claim(a, key, worker, leaseMs, now)) && SameSagas(a, Claim(a, key, worker, leaseMs, now))
    ensures Claim(a, key, worker, leaseMs, now).inbox == a.inbox
  {
    ClaimKeepsOk(a, key, worker, leaseMs, now);
    hide StoreOk, StoreGrows;
  }

  lemma FailureStep(a: Store, failure: Failure, now: nat)
    requires StoreOk(a)
    ensures var tx := RecordFailure(a, failure, now);
      && StoreStep(a, tx.after) && SameSagas(a, tx.after) && tx.after.inbox == a.inbox
      && (tx.reply == Ok(RetryWait) ==>
            && failure.retryable && failure.outboxKey in a.outbox && failure.outboxKey in tx.after.outbox
            && Spent(a.outbox[failure.outboxKey]) < Spent(tx.after.outbox[failure.outboxKey]) < failure.maxAttempts)
  {
    hide StoreOk, StoreGrows, Blank;
    RecordFailureKeepsOk(a, failure, now);
  }

  lemma ResultStep(a: Store, worldId: string, key: string, raw: RawResult, now: nat)
    requires StoreOk(a)
    ensures var b := RecordResult(a, worldId, key, raw, now).after;
      && StoreStep(a, b) && SameSagas(a, b)
      && (forall k :: k in b.inbox && k !in a.inbox ==>
            k == key && NormalizeResult(raw, key).Ok? && b.inbox[k] == NormalizeResult(raw, key).value)
  {
    RecordResultKeepsOk(a, worldId, key, raw, now);
    ResultAges(a, worldId, key, raw, now);
    hide StoreOk, StoreGrows, NormalizeResult, RecordResult;
  }

  /** The three things recording a result can do to the tables. */
  lemma RecordResultShape(a: Store, worldId: string, key: string, raw: RawResult, now: nat)
    ensures var b := RecordResult(a, worldId, key, raw, now).after;
      b == a || (key in a.outbox && a.outbox[key].sagaId in a.sagas && NormalizeResult(raw, key).Ok?
                 && var received := a.(inbox := a.inbox[key := NormalizeResult(raw, key).value]);
                    var observed := ObserveFinancialResult(Unfrozen(a.sagas[a.outbox[key].sagaId].snapshot, key),
                                                           NormalizeResult(raw, key).value);
                    || b == Freeze(a, key, now)
                    || b == Freeze(received, key, now)
                    || (observed.Ok? && b == Accept(received, key, observed.value)))
  {
    hide NormalizeResult, ObserveFinancialResult, Freeze, Accept, Unfrozen;
  }

  lemma ResultAges(a: Store, worldId: string, key: string, raw: RawResult, now: nat)
    requires StoreOk(a)
    ensures var b := RecordResult(a, worldId, key, raw, now).after;
      OutboxAges(a, b) && SameSagas(a, b)
  {
    StoreStepReflexive(a);
    RecordResultShape(a, worldId, key, raw, now);
    hide StoreOk, StoreGrows, NormalizeResult, ObserveFinancialResult, Freeze, Accept, Unfrozen, RecordResult;
    if RecordResult(a, worldId, key, raw, now).after != a {
      var received := a.(inbox := a.inbox[key := NormalizeResult(raw, key).value]);
      var observed := ObserveFinancialResult(Unfrozen(a.sagas[a.outbox[key].sagaId].snapshot, key),
                                             NormalizeResult(raw, key).value);
      FreezeAges(a, key, now);
      FreezeAges(received, key, now);
      if observed.Ok? {
        AcceptAges(received, key, observed.value);
      }
      SameTablesAge(a, received);
    }
  }

  lemma SameTablesAge(a: Store, b: Store)
    requires b.outbox == a.outbox && b.sagas == a.sagas
    ensures forall c :: OutboxAges(b, c) ==> OutboxAges(a, c)
    ensures forall c :: SameSagas(b, c) ==> SameSagas(a, c)
  {
  }

  lemma AcceptAges(a: Store, key: string, next: Saga)
    requires key in a.outbox && a.outbox[key].sagaId in a.sagas
    ensures OutboxAges(a, Accept(a, key, next)) && SameSagas(a, Accept(a, key, next))
  {
  }

  lemma FreezeAges(a: Store, key: string, now: nat)
    requires key in a.outbox && a.outbox[key].sagaId in a.sagas
    ensures OutboxAges(a, Freeze(a, key, now)) && SameSagas(a, Freeze(a, key, now))
  {
  }

  lemma NotFoundStep(a: Store, worldId: string, sagaId: string, key: string, now: nat)
    requires StoreOk(a) && key in a.outbox && a.outbox[key].sagaId == sagaId
    ensures var b := RetryAfterNotFound(a, worldId, sagaId, key, now).0;
      StoreStep(a, b) && SameSagas(a, b) && b.inbox == a.inbox
  {
    RetryAfterNotFoundKeepsOk(a, worldId, sagaId, key, now);
    hide StoreOk, StoreGrows;
  }

  lemma LookupStep(a: Store, key: string, hideMs: nat, now: nat)
    requires StoreOk(a) && LookupDue(a, key, now)
    ensures var b := ClaimLookup(a, key, hideMs, now);
      StoreStep(a, b) && SameSagas(a, b) && b.inbox == a.inbox && b.outbox == a.outbox
  {
    ClaimLookupKeepsOk(a, key, hideMs, now);
    hide StoreOk, StoreGrows;
  }

  lemma DeferStep(a: Store, worldId: string, sagaId: string, retryMs: nat, now: nat)
    requires StoreOk(a)
    ensures var b := DeferLookup(a, worldId, sagaId, retryMs, now);
      StoreStep(a, b) && SameSagas(a, b) && b.inbox == a.inbox
  {
    DeferLookupKeepsOk(a, worldId, sagaId, retryMs, now);
    hide StoreOk, StoreGrows;
  }

  lemma PrepareStep(a: Store, saga: Saga, now: nat)
    requires StoreOk(a) && Sound(saga) && saga.state == PendingRemote && saga.primaryResult.None?
    ensures var tx := PrepareIntent(a, saga, now);
      && StoreStep(a, tx.after) && tx.after.inbox == a.inbox
      && (forall id :: id in tx.after.sagas && id !in a.sagas ==> id == saga.sagaId && tx.after.sagas[id].snapshot == saga)
  {
    hide StoreOk, StoreGrows, BuildFinancialCommand, Sound, OutboxAges, PrepareIntent;
    PrepareIntentKeepsOk(a, saga, now);
    PrepareAddsOne(a, saga, now);
  }

  lemma PrepareAddsOne(a: Store, saga: Saga, now: nat)
    ensures var b := PrepareIntent(a, saga, now).after;
      && OutboxAges(a, b) && b.inbox == a.inbox
      && (forall id :: id in b.sagas && id !in a.sagas ==> id == saga.sagaId && b.sagas[id].snapshot == saga)
  {
    hide BuildFinancialCommand, AttemptOf;
  }

  lemma MarkStep(a: Store, worldId: string, sagaId: string, local: LocalState)
    requires StoreOk(a)
    ensures var tx := MarkCommitted(a, worldId, sagaId, local);
      && StoreStep(a, tx.after) && SameSagas(a, tx.after) && tx.after.inbox == a.inbox
      && (tx.reply.Ok? ==>
            sagaId in a.sagas && Finished(tx.after.sagas[sagaId].snapshot) && !Finished(a.sagas[sagaId].snapshot))
  {
    MarkCommittedKeepsOk(a, worldId, sagaId, local);
    var tx := MarkCommitted(a, worldId, sagaId, local);
    if tx.reply.Ok? {
      StoreRow(a, sagaId);
      CommittedSnapshotOk(a.sagas[sagaId], sagaId, local);
    }
    hide StoreOk, StoreGrows, MarkLocalTransitionCommitted, Finished;
  }

  lemma RefundStep(a: Store, sagaId: string, reason: string, now: nat)
    requires StoreOk(a) && sagaId in a.sagas && reason != ""
    requires a.sagas[sagaId].snapshot.state == RemoteSucceeded && a.sagas[sagaId].snapshot.kind == ContractActivation
    ensures var tx := QueueCompensation(a, sagaId, reason, now);
      && tx.reply == Ok(true) && StoreStep(a, tx.after) && SameSagas(a, tx.after) && tx.after.inbox == a.inbox
  {
    QueueCompensationKeepsOk(a, sagaId, reason, now);
    hide StoreOk, StoreGrows, RequestActivationCompensation, BuildFinancialCommand;
  }

  // ---- Requests, results and the Knowledge Ball ----

  lemma FundsSurvive(a: World, b: World)
    requires FundsOk(a) && StoreGrows(a.db.store, b.db.store) && Kept(a.kb, b.kb)
    requires forall r :: r in b.sent && r !in a.sent ==> SentOk(b.db.store, r)
    requires forall c :: c in b.claims && c !in a.claims ==> ClaimOk(b.db.store, c)
    requires forall k :: k in b.kb && k !in a.kb ==> KbOk(b.db.store, b.kb, k)
    requires forall k :: k in b.db.store.inbox && k !in a.db.store.inbox ==> InboxIsTrue(b.db.store, b.kb, k)
    requires forall l :: l in b.lookups && l !in a.lookups ==> LookupOk(b.db.store, l)
    ensures FundsOk(b)
  {
    hide SagaKept, IdentityMatches;
    var before, after := a.db.store, b.db.store;
    forall r | r in b.sent && r in a.sent ensures SentOk(after, r) {
      assert SentOk(before, r) && OutboxKept(before, after, r.idempotencyKey);
    }
    forall c | c in b.claims && c in a.claims ensures ClaimOk(after, c) {
      assert ClaimOk(before, c) && OutboxKept(before, after, c.key);
    }
    forall k | k in b.kb && k in a.kb ensures KbOk(after, b.kb, k) {
      assert KbOk(before, a.kb, k) && OutboxKept(before, after, k);
    }
    forall k | k in after.inbox && k in before.inbox ensures InboxIsTrue(after, b.kb, k) {
      assert InboxIsTrue(before, a.kb, k) && InboxKept(before, after, k);
    }
    forall l | l in b.lookups && l in a.lookups ensures LookupOk(after, l) {
      assert LookupOk(before, l) && OutboxKept(before, after, l.operationKey);
    }
  }

  /** A row is claimed with the command it was queued with, and that command carries its own key. */
  lemma ClaimedRowOk(store: Store, key: string)
    requires StoreOk(store) && key in store.outbox
    ensures ClaimOk(store, Claimed(key, store.outbox[key]))
  {
    assert OutboxRowOk(store, key);
  }

  lemma SentRequestOk(store: Store, claim: Claimed, requestId: string)
    requires ClaimOk(store, claim)
    ensures SentOk(store, RequestFor(claim.row.command, requestId))
    ensures RequestFor(claim.row.command, requestId).idempotencyKey == claim.key
  {
  }

  lemma RecordedIsTrue(kb: map<string, KbEntry>, key: string, raw: RawResult)
    requires TruthfulResult(kb, key, raw) && NormalizeResult(raw, key).Ok?
    ensures ResultIsTrue(kb, key, NormalizeResult(raw, key).value)
  {
  }

  lemma ReactionIsTruthful(kb: map<string, KbEntry>, command: Command, reply: Reply)
    requires TruthfulReply(kb, command, reply) && ReactionTo(reply, command).Record?
    ensures TruthfulResult(kb, command.idempotencyKey, ReactionTo(reply, command).raw)
  {
    hide SuccessReference;
    OnlyDefiniteRepliesAreRecorded(reply, command);
  }

  // ---- Contracts and their sagas ----

  lemma LinkedSurvives(s: Saga, t: Saga, c: Contract, d: Contract)
    requires LinkedTo(s, c) && SagaGrows(s, t) && ContractGrows(c, d)
    ensures LinkedTo(t, d) && ContractOf(t) == ContractOf(s)
  {
    hide Settling, SameSubmission, Finished;
    SettlingIsNotProposed(c);
  }

  lemma SettlingIsNotProposed(c: Contract)
    ensures Settling(c) ==> c.status != Proposed
  {
  }

  lemma PaidSurvives(s: Saga, t: Saga, c: Contract, d: Contract, id: ContractId)
    requires PaidFor(s, c, id) && c.status != Proposed && SagaGrows(s, t) && ContractGrows(c, d)
    ensures PaidFor(t, d, id)
  {
    hide Settling, SameSubmission;
  }

  lemma SettledSurvives(s: Saga, t: Saga, id: ContractId)
    requires SettledFor(s, id) && SagaGrows(s, t)
    ensures SettledFor(t, id)
  {
  }

  /** The contract was neither activated nor settled, nor were the records of that touched. */
  predicate SameStanding(a: World, b: World, id: ContractId)
    requires id in a.db.contracts
  {
    && id in b.db.contracts
    && (a.db.contracts[id].status == Proposed <==> b.db.contracts[id].status == Proposed)
    && (a.db.contracts[id].status == Settled <==> b.db.contracts[id].status == Settled)
    && (id in a.activatedBy <==> id in b.activatedBy) && (id in a.settledBy <==> id in b.settledBy)
  }

  lemma LinksSurvive(a: World, b: World)
    requires LinksOk(a) && StoreGrows(a.db.store, b.db.store) && ContractsGrow(a.db.contracts, b.db.contracts)
    requires Kept(a.activatedBy, b.activatedBy) && Kept(a.settledBy, b.settledBy)
    requires forall id :: id in b.db.store.sagas && id !in a.db.store.sagas ==> SagaLinked(b.db, id)
    requires forall id :: id in b.db.contracts && id !in a.db.contracts ==> ContractLinked(b, id)
    requires forall id :: id in a.db.contracts ==> SameStanding(a, b, id) || (id in b.db.contracts && ContractLinked(b, id))
    requires b.activatedBy.Keys <= b.db.contracts.Keys && b.settledBy.Keys <= b.db.contracts.Keys
    ensures LinksOk(b)
  {
    hide LinkedTo, PaidFor, SettledFor, SagaGrows, ContractGrows, OutboxKept, InboxKept;
    forall id | id in b.db.store.sagas && id in a.db.store.sagas ensures SagaLinked(b.db, id) {
      assert SagaLinked(a.db, id) && SagaKept(a.db.store, b.db.store, id);
      var s := a.db.store.sagas[id].snapshot;
      assert ContractKept(a.db.contracts, b.db.contracts, ContractOf(s));
      LinkedSurvives(s, b.db.store.sagas[id].snapshot, a.db.contracts[ContractOf(s)], b.db.contracts[ContractOf(s)]);
    }
    forall id | id in a.db.contracts && SameStanding(a, b, id) ensures ContractLinked(b, id) {
      assert ContractLinked(a, id) && ContractKept(a.db.contracts, b.db.contracts, id);
      if id in a.activatedBy {
        var owner := a.activatedBy[id];
        assert SagaKept(a.db.store, b.db.store, owner);
        PaidSurvives(a.db.store.sagas[owner].snapshot, b.db.store.sagas[owner].snapshot,
                     a.db.contracts[id], b.db.contracts[id], id);
      }
      if id in a.settledBy {
        var owner := a.settledBy[id];
        assert SagaKept(a.db.store, b.db.store, owner);
        SettledSurvives(a.db.store.sagas[owner].snapshot, b.db.store.sagas[owner].snapshot, id);
      }
    }
  }

  lemma RetriesSurvive(a: World, b: World)
    requires RetriesOk(a) && OutboxAges(a.db.store, b.db.store) && b.maxAttempts == a.maxAttempts
    requires forall key :: key in a.db.store.outbox ==> key in b.db.store.outbox
    requires forall key :: RetriesOf(b, key) == RetriesOf(a, key) || RetryOk(b, key)
    ensures RetriesOk(b)
  {
    forall key ensures RetryOk(b, key) {
      assert RetryOk(a, key);
    }
  }

  lemma ContractGrowsReflexive(c: Contract)
    ensures ContractGrows(c, c)
  {
  }

  lemma ContractsGrowReflexive(contracts: map<ContractId, Contract>)
    ensures ContractsGrow(contracts, contracts)
  {
    hide ContractGrows;
    forall id | id in contracts ensures ContractKept(contracts, contracts, id) {
      ContractGrowsReflexive(contracts[id]);
    }
  }

  lemma OneContractGrows(a: map<ContractId, Contract>, id: ContractId, next: Contract)
    requires ContractsOk(a) && ContractOk(next)
    requires id in a ==> ContractGrows(a[id], next)
    ensures ContractsOk(a[id := next]) && ContractsGrow(a, a[id := next])
  {
    hide ContractGrows, ContractOk;
    forall i | i in a ensures ContractKept(a, a[id := next], i) {
      ContractGrowsReflexive(a[i]);
    }
  }

  // ---- Steps on the saga tables, the worker and the port ----

  /** A step that leaves contracts alone and starts no saga. */
  lemma TrafficKeepsInv(a: World, b: World)
    requires Inv(a) && StoreStep(a.db.store, b.db.store) && SameSagas(a.db.store, b.db.store)
    requires b.db.contracts == a.db.contracts && b.activatedBy == a.activatedBy && b.settledBy == a.settledBy
    requires b.maxAttempts == a.maxAttempts && Kept(a.kb, b.kb)
    requires a.sent <= b.sent && a.claims <= b.claims && a.lookups <= b.lookups
    requires forall r :: r in b.sent && r !in a.sent ==> SentOk(b.db.store, r)
    requires forall c :: c in b.claims && c !in a.claims ==> ClaimOk(b.db.store, c)
    requires forall k :: k in b.kb && k !in a.kb ==> KbOk(b.db.store, b.kb, k)
    requires forall k :: k in b.db.store.inbox && k !in a.db.store.inbox ==> InboxIsTrue(b.db.store, b.kb, k)
    requires forall l :: l in b.lookups && l !in a.lookups ==> LookupOk(b.db.store, l)
    requires forall key :: RetriesOf(b, key) == RetriesOf(a, key) || RetryOk(b, key)
    ensures Inv(b) && Grows(a, b)
  {
    ContractsGrowReflexive(a.db.contracts);
    assert a.activatedBy.Keys <= a.db.contracts.Keys && a.settledBy.Keys <= a.db.contracts.Keys;
    hide StoreOk, ContractsOk, FundsOk, LinksOk, ContractsGrow, SagaLinked, ContractLinked, ClaimOk, KbOk, InboxIsTrue,
      SentOk, RetryOk, RetriesOf, Kept;
    assert Kept(a.activatedBy, b.activatedBy) && Kept(a.settledBy, b.settledBy) by { KeptReflexive(a.activatedBy); KeptReflexive(a.settledBy); }
    LinksUntouched(a, b);
    hide SameSagas;
    FundsSurvive(a, b);
    KeysKept(a.db.store, b.db.store);
    hide StoreGrows, OutboxAges;
    RetriesSurvive(a, b);
  }

  lemma LinksUntouched(a: World, b: World)
    requires LinksOk(a) && StoreGrows(a.db.store, b.db.store) && SameSagas(a.db.store, b.db.store)
    requires b.db.contracts == a.db.contracts && b.activatedBy == a.activatedBy && b.settledBy == a.settledBy
    ensures LinksOk(b)
  {
    ContractsGrowReflexive(a.db.contracts);
    KeptReflexive(a.activatedBy);
    KeptReflexive(a.settledBy);
    assert a.activatedBy.Keys <= a.db.contracts.Keys && a.settledBy.Keys <= a.db.contracts.Keys;
    hide LinksOk, ContractsGrow, StoreGrows, SagaLinked, ContractLinked, Kept;
    LinksSurvive(a, b);
  }

  lemma KeptReflexive<K, V>(m: map<K, V>)
    ensures Kept(m, m)
  {
  }

  lemma KeysKept(a: Store, b: Store)
    requires StoreGrows(a, b)
    ensures forall key :: key in a.outbox ==> key in b.outbox
  {
    forall key | key in a.outbox ensures key in b.outbox {
      assert OutboxKept(a, b, key);
    }
  }

  lemma TickKeepsInv(w: World, ms: nat)
    requires Inv(w)
    ensures Inv(Apply(w, Tick(ms))) && Grows(w, Apply(w, Tick(ms)))
  {
    StoreStepReflexive(w.db.store);
    hide Inv, StoreStep, SameSagas, RetryOk;
    assert StoreOk(w.db.store);
    TrafficKeepsInv(w, Apply(w, Tick(ms)));
  }

  lemma ClaimRowKeepsInv(w: World, key: string, worker: string, leaseMs: int)
    requires Inv(w)
    ensures var b := Apply(w, ClaimRow(key, worker, leaseMs)); Inv(b) && Grows(w, b)
  {
    hide Inv, Grows, SameSagas, StoreOk, StoreGrows, OutboxAges, RetryOk, ClaimOk, SentOk, KbOk, InboxIsTrue;
    var b := Apply(w, ClaimRow(key, worker, leaseMs));
    if b == w {
      TickKeepsInv(w, 0);
    } else {
      InvParts(w);
      ClaimStep(w.db.store, key, worker, leaseMs, w.now);
      ClaimedRowOk(b.db.store, key);
      TrafficKeepsInv(w, b);
    }
  }

  lemma SendKeepsInv(w: World, claim: Claimed, requestId: string, arrival: Arrival)
    requires Inv(w)
    ensures var b := Apply(w, Send(claim, requestId, arrival)); Inv(b) && Grows(w, b)
  {
    if claim !in w.claims || !IdentityMatches(claim) {
      TickKeepsInv(w, 0);
    } else {
      var request := RequestFor(claim.row.command, requestId);
      assert ClaimOk(w.db.store, claim);
      SentRequestOk(w.db.store, claim, requestId);
      TransmitKeepsInv(w, request, arrival);
    }
  }

  lemma TransmitKeepsInv(w: World, request: PortRequest, arrival: Arrival)
    requires Inv(w) && SentOk(w.db.store, request)
    ensures var b := w.(sent := w.sent + [request], kb := Receive(w.kb, request, arrival)); Inv(b) && Grows(w, b)
  {
    var b := w.(sent := w.sent + [request], kb := Receive(w.kb, request, arrival));
    StoreStepReflexive(w.db.store);
    ReceivedOk(w.db.store, w.kb, request, arrival);
    hide Inv, Grows, StoreStep, SameSagas, RetryOk, ClaimOk, SentOk, KbOk, InboxIsTrue, Receive, Kept;
    TrafficKeepsInv(w, b);
  }

  lemma ReceivedOk(store: Store, kb: map<string, KbEntry>, request: PortRequest, arrival: Arrival)
    requires SentOk(store, request)
    ensures var received := Receive(kb, request, arrival);
      Kept(kb, received) && forall k :: k in received && k !in kb ==> KbOk(store, received, k)
  {
  }

  /** A step that only rewrites the tables and stores no result. */
  lemma RewriteKeepsInv(w: World, store: Store)
    requires Inv(w) && StoreStep(w.db.store, store) && SameSagas(w.db.store, store) && store.inbox == w.db.store.inbox
    ensures Inv(WithStore(w, store)) && Grows(w, WithStore(w, store))
  {
    hide Inv, StoreStep, SameSagas, RetryOk, SentOk, ClaimOk, LookupOk, KbOk, InboxIsTrue;
    TrafficKeepsInv(w, WithStore(w, store));
  }

  lemma ReportKeepsInv(w: World, failure: Failure)
    requires Inv(w) && (failure.maxAttempts == w.maxAttempts || !failure.retryable)
    ensures Inv(ReportFailure(w, failure)) && Grows(w, ReportFailure(w, failure))
  {
    var b := ReportFailure(w, failure);
    var key := failure.outboxKey;
    FailureStep(w.db.store, failure, w.now);
    assert RetryOk(w, key);
    hide Inv, StoreStep, SameSagas, RecordFailure, SentOk, ClaimOk, LookupOk, KbOk, InboxIsTrue;
    assert RetriesOf(b, key) == RetriesOf(w, key) || RetryOk(b, key);
    assert forall k :: k != key ==> RetriesOf(b, k) == RetriesOf(w, k);
    hide RetryOk, RetriesOf;
    TrafficKeepsInv(w, b);
  }

  lemma StoreResultKeepsInv(w: World, worldId: string, key: string, raw: RawResult)
    requires Inv(w) && TruthfulResult(w.kb, key, raw)
    ensures Inv(StoreResult(w, worldId, key, raw)) && Grows(w, StoreResult(w, worldId, key, raw))
  {
    var b := StoreResult(w, worldId, key, raw);
    ResultStep(w.db.store, worldId, key, raw, w.now);
    hide Inv, StoreStep, SameSagas, RecordResult, SentOk, ClaimOk, LookupOk, KbOk, NormalizeResult, RetryOk, TruthfulResult,
      ResultIsTrue;
    forall k | k in b.db.store.inbox && k !in w.db.store.inbox ensures InboxIsTrue(b.db.store, b.kb, k) {
      RecordedIsTrue(w.kb, key, raw);
    }
    TrafficKeepsInv(w, b);
  }

  lemma HandleReplyKeepsInv(w: World, claim: Claimed, reply: Reply, retryAfterMs: int)
    requires Inv(w)
    ensures var b := Apply(w, HandleReply(claim, reply, retryAfterMs)); Inv(b) && Grows(w, b)
  {
    hide Inv, Grows, TruthfulReply, TruthfulResult, ReactionTo, ReportFailure, StoreResult;
    var b := Apply(w, HandleReply(claim, reply, retryAfterMs));
    if b == w {
      TickKeepsInv(w, 0);
    } else {
      match ReactionTo(reply, claim.row.command)
      case Record(raw) =>
        ReactionIsTruthful(w.kb, claim.row.command, reply);
        StoreResultKeepsInv(w, claim.row.worldId, claim.key, raw);
      case Report(code, retryable, unknown, own) =>
        if retryable {
          RetryableReportsAreLimited(reply, claim.row.command);
        }
        ReportKeepsInv(w, FailureOf(claim, code, retryable, unknown, retryAfterMs, LimitOf(own, w.maxAttempts)));
    }
  }

  lemma LookUpKeepsInv(w: World, key: string, hideMs: nat)
    requires Inv(w)
    ensures var b := Apply(w, LookUp(key, hideMs)); Inv(b) && Grows(w, b)
  {
    hide Inv, Grows, StoreStep, SameSagas, ClaimLookup, SentOk, ClaimOk, KbOk, InboxIsTrue, RetryOk, StoreOk;
    var b := Apply(w, LookUp(key, hideMs));
    if b == w {
      TickKeepsInv(w, 0);
    } else {
      InvParts(w);
      LookupStep(w.db.store, key, hideMs, w.now);
      hide LookupDue;
      TrafficKeepsInv(w, b);
    }
  }

  lemma NotFoundKeepsInv(w: World, lookup: Lookup)
    requires Inv(w)
    ensures var b := Apply(w, NotFound(lookup)); Inv(b) && Grows(w, b)
  {
    if lookup !in w.lookups {
      TickKeepsInv(w, 0);
    } else {
      assert LookupOk(w.db.store, lookup);
      NotFoundStep(w.db.store, lookup.worldId, lookup.sagaId, lookup.operationKey, w.now);
      hide Inv, Grows, StoreStep, SameSagas, RetryAfterNotFound;
      RewriteKeepsInv(w, RetryAfterNotFound(w.db.store, lookup.worldId, lookup.sagaId, lookup.operationKey, w.now).0);
    }
  }

  lemma InconclusiveKeepsInv(w: World, lookup: Lookup, retryMs: nat)
    requires Inv(w)
    ensures var b := Apply(w, Inconclusive(lookup, retryMs)); Inv(b) && Grows(w, b)
  {
    if lookup !in w.lookups {
      TickKeepsInv(w, 0);
    } else {
      DeferStep(w.db.store, lookup.worldId, lookup.sagaId, retryMs, w.now);
      hide Inv, Grows, StoreStep, SameSagas, DeferLookup;
      RewriteKeepsInv(w, DeferLookup(w.db.store, lookup.worldId, lookup.sagaId, retryMs, w.now));
    }
  }

  // ---- Contract commands ----

  /** A step that sends, receives and looks up nothing. */
  lemma QuietSurvives(a: World, b: World)
    requires FundsOk(a) && RetriesOk(a)
    requires StoreGrows(a.db.store, b.db.store) && OutboxAges(a.db.store, b.db.store)
    requires b.db.store.inbox == a.db.store.inbox
    requires b.sent == a.sent && b.claims == a.claims && b.kb == a.kb && b.lookups == a.lookups
    requires b.retries == a.retries && b.maxAttempts == a.maxAttempts
    ensures FundsOk(b) && RetriesOk(b)
  {
    KeysKept(a.db.store, b.db.store);
    hide StoreGrows, OutboxAges, FundsOk, SentOk, ClaimOk, KbOk, InboxIsTrue, LookupOk;
    RetriesSurvive(a, b);
    hide RetriesOk, RetryOk;
    FundsSurvive(a, b);
  }

  /** What a step on contracts and sagas has to show. */
  lemma TransitionKeepsInv(a: World, b: World)
    requires Inv(a) && StoreStep(a.db.store, b.db.store) && b.db.store.inbox == a.db.store.inbox
    requires b.(db := a.db, activatedBy := a.activatedBy, settledBy := a.settledBy) == a
    requires ContractsOk(b.db.contracts) && ContractsGrow(a.db.contracts, b.db.contracts)
    requires Kept(a.activatedBy, b.activatedBy) && Kept(a.settledBy, b.settledBy)
    requires forall id :: id in b.db.store.sagas && id !in a.db.store.sagas ==> SagaLinked(b.db, id)
    requires forall id :: id in b.db.contracts ==>
      ContractLinked(b, id) || (id in a.db.contracts && SameStanding(a, b, id))
    requires b.activatedBy.Keys <= b.db.contracts.Keys && b.settledBy.Keys <= b.db.contracts.Keys
    ensures Inv(b) && Grows(a, b)
  {
    ContractKeysKept(a.db.contracts, b.db.contracts);
    hide StoreOk, ContractsOk, FundsOk, LinksOk, RetriesOk, ContractsGrow, StoreGrows, OutboxAges, SagaLinked,
      ContractLinked, SameStanding, Kept;
    KeptReflexive(a.kb);
    QuietSurvives(a, b);
    LinksSurvive(a, b);
  }

  lemma ContractKeysKept(a: map<ContractId, Contract>, b: map<ContractId, Contract>)
    requires ContractsGrow(a, b)
    ensures forall id :: id in a ==> id in b
  {
    hide ContractGrows;
    forall id | id in a ensures id in b {
      assert ContractKept(a, b, id);
    }
  }

  lemma InvParts(w: World)
    requires Inv(w)
    ensures StoreOk(w.db.store) && ContractsOk(w.db.contracts)
    ensures w.activatedBy.Keys <= w.db.contracts.Keys && w.settledBy.Keys <= w.db.contracts.Keys
  {
  }

  lemma ProposeKeepsInv(w: World, id: ContractId, made: Contract)
    requires Inv(w) && id !in w.db.contracts && ContractOk(made) && made.status == Proposed
    ensures var b := w.(db := w.db.(contracts := w.db.contracts[id := made])); Inv(b) && Grows(w, b)
  {
    hide Inv, StoreOk, ContractsOk, ContractOk, SagaLinked, StoreStep, ContractsGrow;
    var b := w.(db := w.db.(contracts := w.db.contracts[id := made]));
    InvParts(w);
    StoreStepReflexive(w.db.store);
    OneContractGrows(w.db.contracts, id, made);
    assert ContractLinked(b, id);
    TransitionKeepsInv(w, b);
  }

  lemma CommandKeepsInv(w: World, id: ContractId, next: Contract)
    requires Inv(w) && id in w.db.contracts && ContractOk(next) && ContractGrows(w.db.contracts[id], next)
    requires next.status == Proposed <==> w.db.contracts[id].status == Proposed
    requires next.status == Settled <==> w.db.contracts[id].status == Settled
    ensures var b := w.(db := w.db.(contracts := w.db.contracts[id := next])); Inv(b) && Grows(w, b)
  {
    hide Inv, StoreOk, ContractsOk, ContractOk, SagaLinked, StoreStep, ContractsGrow, ContractGrows, ContractLinked;
    var b := w.(db := w.db.(contracts := w.db.contracts[id := next]));
    InvParts(w);
    StoreStepReflexive(w.db.store);
    OneContractGrows(w.db.contracts, id, next);
    TransitionKeepsInv(w, b);
  }

  lemma ContractStepKeepsInv(w: World, step: Step)
    requires Inv(w) && (step.ProposeContract? || step.OnContract?)
    ensures Inv(Apply(w, step)) && Grows(w, Apply(w, step))
  {
    hide Inv, Grows, Propose, Execute, ContractOk, ContractGrows;
    if Apply(w, step) == w {
      TickKeepsInv(w, 0);
    } else {
      match step
      case ProposeContract(id, actor, employer, contractor, terms, partiesExist) =>
        ProposeIsOk(actor, employer, contractor, terms, partiesExist);
        ProposeKeepsInv(w, id, Propose(actor, employer, contractor, terms, partiesExist).value);
      case OnContract(id, command) =>
        ContractRow(w, id);
        ExecuteKeepsOk(w.db.contracts[id], id.worldId, id.contractId, command);
        ExecuteGrows(w.db.contracts[id], id.worldId, id.contractId, command);
        CommandKeepsInv(w, id, Execute(w.db.contracts[id], id.worldId, id.contractId, command).value);
    }
  }

  lemma ContractRow(w: World, id: ContractId)
    requires Inv(w) && id in w.db.contracts
    ensures ContractOk(w.db.contracts[id])
  {
  }

  // ---- Preparing a saga ----

  lemma PrepareKeepsInv(w: World, saga: Saga)
    requires Inv(w) && Sound(saga) && saga.state == PendingRemote && saga.primaryResult.None?
    requires ContractOf(saga) in w.db.contracts && LinkedTo(saga, w.db.contracts[ContractOf(saga)])
    ensures var b := WithStore(w, PrepareIntent(w.db.store, saga, w.now).after); Inv(b) && Grows(w, b)
  {
    hide Inv, StoreOk, ContractsOk, SagaLinked, StoreStep, ContractsGrow, LinkedTo, ContractLinked, Sound, PrepareIntent;
    var b := WithStore(w, PrepareIntent(w.db.store, saga, w.now).after);
    InvParts(w);
    PrepareStep(w.db.store, saga, w.now);
    ContractsGrowReflexive(w.db.contracts);
    forall id | id in b.db.store.sagas && id !in w.db.store.sagas ensures SagaLinked(b.db, id) {
      LinkedRow(b.db, id);
    }
    TransitionKeepsInv(w, b);
  }

  lemma LinkedRow(db: Social, id: string)
    requires id in db.store.sagas
    requires var saga := db.store.sagas[id].snapshot;
      ContractOf(saga) in db.contracts && LinkedTo(saga, db.contracts[ContractOf(saga)])
    ensures SagaLinked(db, id)
  {
  }

  lemma PrepareFundingKeepsInv(w: World, input: ActivationInput)
    requires Inv(w)
    ensures var b := w.(db := PrepareActivation(w.db, input, w.now).after); Inv(b) && Grows(w, b)
  {
    hide Inv, Grows, AcceptedParties, LinkedTo, Sound, CreateSaga, PrepareIntent;
    var id := ContractId(input.worldId, input.contractId);
    var b := w.(db := PrepareActivation(w.db, input, w.now).after);
    if b == w {
      TickKeepsInv(w, 0);
    } else {
      ContractRow(w, id);
      var c := w.db.contracts[id];
      var made := SagaInput(input.sagaId, input.worldId, input.contractId, c.currentVersion, input.attemptId,
                            FundingRequest(input, c.versions[c.currentVersion].price));
      CreateSagaIsSound(ContractActivation, made);
      ActivationLinked(input, c, made);
      PrepareKeepsInv(w, CreateSaga(ContractActivation, made).value);
    }
  }

  lemma ActivationLinked(input: ActivationInput, c: Contract, made: SagaInput)
    requires ContractOk(c) && !Blank(input.worldId) && !Blank(input.sagaId)
    requires made == SagaInput(input.sagaId, input.worldId, input.contractId, c.currentVersion, input.attemptId,
                               FundingRequest(input, c.versions[c.currentVersion].price))
    requires CreateSaga(ContractActivation, made).Ok?
    ensures var saga := CreateSaga(ContractActivation, made).value;
      && LinkedTo(saga, c) && ContractOf(saga) == ContractId(input.worldId, input.contractId)
      && saga.state == PendingRemote && saga.primaryResult.None? && saga.sagaId == input.sagaId
  {
  }

  lemma PrepareDistributionKeepsInv(w: World, input: SettlementInput)
    requires Inv(w)
    ensures var b := w.(db := PrepareSettlement(w.db, input, w.now).after); Inv(b) && Grows(w, b)
  {
    hide Inv, Grows, LinkedTo, Sound, CreateSaga, PrepareIntent, DistributionRequest;
    var id := ContractId(input.worldId, input.contractId);
    var b := w.(db := PrepareSettlement(w.db, input, w.now).after);
    if b == w {
      TickKeepsInv(w, 0);
    } else {
      ContractRow(w, id);
      var c := w.db.contracts[id];
      var made := SagaInput(input.sagaId, input.worldId, input.contractId, c.currentVersion, input.attemptId,
                            DistributionRequest(input));
      CreateSagaIsSound(ContractSettlement, made);
      SettlementLinked(w.db, input, made);
      PrepareKeepsInv(w, CreateSaga(ContractSettlement, made).value);
    }
  }

  lemma PrepareFundingStep(w: World, input: ActivationInput)
    ensures Apply(w, PrepareFunding(input)) == w.(db := PrepareActivation(w.db, input, w.now).after)
  {
    hide PrepareActivation;
  }

  lemma PrepareDistributionStep(w: World, input: SettlementInput)
    ensures Apply(w, PrepareDistribution(input)) == w.(db := PrepareSettlement(w.db, input, w.now).after)
  {
    hide PrepareSettlement;
  }

  lemma SettlementLinked(db: Social, input: SettlementInput, made: SagaInput)
    requires SettlementProblem(db, input).None? && ContractOk(db.contracts[ContractId(input.worldId, input.contractId)])
    requires made == SagaInput(
      input.sagaId, input.worldId, input.contractId,
      db.contracts[ContractId(input.worldId, input.contractId)].currentVersion, input.attemptId, DistributionRequest(input))
    requires CreateSaga(ContractSettlement, made).Ok?
    ensures var saga := CreateSaga(ContractSettlement, made).value;
      && LinkedTo(saga, db.contracts[ContractId(input.worldId, input.contractId)])
      && ContractOf(saga) == ContractId(input.worldId, input.contractId)
      && saga.state == PendingRemote && saga.primaryResult.None? && saga.sagaId == input.sagaId
  {
  }

  // ---- Committing locally ----

  function Activated(c: Contract, escrowRef: Option<string>): Contract {
    c.(status := Active, escrowRef := escrowRef)
  }

  lemma ActivatedOk(c: Contract, version: int, escrowRef: Option<string>)
    requires ContractOk(c) && EligibleForActive(c, version) && escrowRef.Some?
    ensures ContractOk(Activated(c, escrowRef)) && ContractGrows(c, Activated(c, escrowRef))
    ensures var d := Activated(c, escrowRef);
      HasAccepted(d, d.currentVersion, d.employer) && HasAccepted(d, d.currentVersion, d.contractor)
  {
    TwoAcceptancesAreBothParties(c);
    var d := Activated(c, escrowRef);
    forall party | HasAccepted(c, c.currentVersion, party) ensures HasAccepted(d, d.currentVersion, party) {
      var i :| 0 <= i < |c.acceptances|
        && c.acceptances[i].version == c.currentVersion && c.acceptances[i].party == party && !c.acceptances[i].invalidated;
      assert d.acceptances[i].version == d.currentVersion;
    }
  }

  lemma SettledOk(c: Contract)
    requires ContractOk(c) && c.status in {Submitted, Disputed}
    ensures ContractOk(c.(status := Settled)) && ContractGrows(c, c.(status := Settled))
  {
  }

  /** The saga row after it was marked committed. */
  lemma MarkedSaga(a: Store, worldId: string, sagaId: string, local: LocalState)
    requires StoreOk(a) && MarkCommitted(a, worldId, sagaId, local).reply.Ok?
    ensures sagaId in a.sagas && sagaId in MarkCommitted(a, worldId, sagaId, local).after.sagas
    ensures var t := MarkCommitted(a, worldId, sagaId, local).after.sagas[sagaId].snapshot;
      t == a.sagas[sagaId].snapshot.(state := Completed) && Finished(t)
  {
    StoreRow(a, sagaId);
    CommittedSnapshotOk(a.sagas[sagaId], sagaId, local);
    hide StoreOk, SnapshotOk, SagaInvariant;
  }

  /** What an accepted activation found and left. */
  lemma ActivationFacts(w: World, worldId: string, sagaId: string)
    requires CommitActivation(w.db, worldId, sagaId, w.now).reply == Ok(CommitReply(false))
    ensures sagaId in w.db.store.sagas
    ensures var saga := w.db.store.sagas[sagaId].snapshot;
      var id, marked := ContractOf(saga), MarkCommitted(w.db.store, worldId, sagaId, LocalActive);
      && saga.worldId == worldId && saga.kind == ContractActivation && saga.state == RemoteSucceeded
      && HasStatus(saga.primaryResult, true) && saga.primaryResult.value.resultRef.Some?
      && id in w.db.contracts && EligibleForActive(w.db.contracts[id], saga.contractVersion) && marked.reply.Ok?
      && WithActivation(w, worldId, sagaId)
         == w.(db := Social(marked.after,
                            w.db.contracts[id := Activated(w.db.contracts[id], saga.primaryResult.value.resultRef)]),
               activatedBy := w.activatedBy[id := sagaId])
  {
    hide MarkCommitted, EligibleForActive, QueueCompensation;
  }

  lemma CommitActiveKeepsInv(w: World, worldId: string, sagaId: string)
    requires Inv(w) && CommitActivation(w.db, worldId, sagaId, w.now).reply == Ok(CommitReply(false))
    ensures var b := WithActivation(w, worldId, sagaId); Inv(b) && Grows(w, b)
    ensures ContractOf(w.db.store.sagas[sagaId].snapshot) !in w.activatedBy
  {
    hide Inv, Grows, StoreOk, ContractsOk, ContractOk, SagaLinked, StoreStep, ContractsGrow, ContractGrows, EligibleForActive,
      MarkCommitted, SameSagas, Finished, WithActivation, CommitActivation;
    var b := WithActivation(w, worldId, sagaId);
    ActivationFacts(w, worldId, sagaId);
    InvParts(w);
    var saga := w.db.store.sagas[sagaId].snapshot;
    var id := ContractOf(saga);
    var c := w.db.contracts[id];
    ContractRow(w, id);
    ProposedIsFree(w, id, saga.contractVersion);
    ActivatedOk(c, saga.contractVersion, saga.primaryResult.value.resultRef);
    MarkStep(w.db.store, worldId, sagaId, LocalActive);
    MarkedSaga(w.db.store, worldId, sagaId, LocalActive);
    OneContractGrows(w.db.contracts, id, Activated(c, saga.primaryResult.value.resultRef));
    assert ContractLinked(b, id);
    forall other | other in b.db.contracts && other != id ensures SameStanding(w, b, other) {
    }
    hide ContractLinked, SameStanding;
    SameIds(w.db.store, b.db.store);
    TransitionKeepsInv(w, b);
  }

  lemma SameIds(a: Store, b: Store)
    requires SameSagas(a, b)
    ensures forall id :: id in b.sagas ==> id in a.sagas
  {
  }

  lemma ProposedIsFree(w: World, id: ContractId, version: int)
    requires Inv(w) && id in w.db.contracts && EligibleForActive(w.db.contracts[id], version)
    ensures id !in w.activatedBy && id !in w.settledBy && version == w.db.contracts[id].currentVersion
    ensures w.db.contracts[id].status == Proposed
  {
    assert ContractLinked(w, id);
  }

  lemma ActivateKeepsInv(w: World, worldId: string, sagaId: string)
    requires Inv(w)
    ensures var b := WithActivation(w, worldId, sagaId); Inv(b) && Grows(w, b)
  {
    hide Inv, Grows, StoreOk, ContractsOk, StoreStep, SameSagas, EligibleForActive, MarkCommitted, QueueCompensation;
    InvParts(w);
    var tx := CommitActivation(w.db, worldId, sagaId, w.now);
    if tx.reply == Ok(CommitReply(false)) {
      CommitActiveKeepsInv(w, worldId, sagaId);
    } else if tx.reply.Err? {
      TickKeepsInv(w, 0);
    } else {
      RefundStep(w.db.store, sagaId, INELIGIBLE, w.now);
      RewriteKeepsInv(w, QueueCompensation(w.db.store, sagaId, INELIGIBLE, w.now).after);
    }
  }

  lemma SettleableIsFree(w: World, id: ContractId)
    requires Inv(w) && id in w.db.contracts && w.db.contracts[id].status in {Submitted, Disputed}
    ensures id in w.activatedBy && id !in w.settledBy
  {
    assert ContractLinked(w, id);
  }

  /** Settling leaves what the contract was activated with. */
  lemma StaysPaid(w: World, b: World, id: ContractId)
    requires Inv(w) && StoreGrows(w.db.store, b.db.store) && id in w.db.contracts && id in b.db.contracts
    requires id in w.activatedBy && b.activatedBy == w.activatedBy
    requires ContractGrows(w.db.contracts[id], b.db.contracts[id])
    ensures b.activatedBy[id] in b.db.store.sagas
    ensures PaidFor(b.db.store.sagas[b.activatedBy[id]].snapshot, b.db.contracts[id], id)
  {
    hide SagaGrows, ContractGrows, PaidFor;
    assert ContractLinked(w, id);
    var owner := w.activatedBy[id];
    assert SagaKept(w.db.store, b.db.store, owner);
    PaidSurvives(w.db.store.sagas[owner].snapshot, b.db.store.sagas[owner].snapshot,
                 w.db.contracts[id], b.db.contracts[id], id);
  }

  /** What an accepted settlement found and left. */
  lemma SettlementFacts(w: World, worldId: string, sagaId: string)
    requires CommitSettlement(w.db, worldId, sagaId).reply.Ok?
    ensures sagaId in w.db.store.sagas
    ensures var saga := w.db.store.sagas[sagaId].snapshot;
      var id, marked := ContractOf(saga), MarkCommitted(w.db.store, worldId, sagaId, LocalSettled);
      && saga.worldId == worldId && saga.kind == ContractSettlement && saga.state == RemoteSucceeded
      && HasStatus(saga.primaryResult, true)
      && id in w.db.contracts && w.db.contracts[id].status in {Submitted, Disputed}
      && w.db.contracts[id].currentVersion == saga.contractVersion && marked.reply.Ok?
      && WithSettlement(w, worldId, sagaId)
         == w.(db := Social(marked.after, w.db.contracts[id := w.db.contracts[id].(status := Settled)]),
               settledBy := w.settledBy[id := sagaId])
  {
    hide MarkCommitted;
  }

  lemma SettleKeepsInv(w: World, worldId: string, sagaId: string)
    requires Inv(w)
    ensures var b := WithSettlement(w, worldId, sagaId); Inv(b) && Grows(w, b)
  {
    hide Inv, Grows, MarkCommitted;
    if CommitSettlement(w.db, worldId, sagaId).reply.Err? {
      TickKeepsInv(w, 0);
    } else {
      hide WithSettlement, CommitSettlement;
      SettledKeepsInv(w, worldId, sagaId);
    }
  }

  lemma SettledKeepsInv(w: World, worldId: string, sagaId: string)
    requires Inv(w) && CommitSettlement(w.db, worldId, sagaId).reply.Ok?
    ensures var b := WithSettlement(w, worldId, sagaId); Inv(b) && Grows(w, b)
  {
    hide Inv, StoreOk, ContractsOk, ContractOk, SagaLinked, StoreGrows, OutboxAges, ContractsGrow, ContractGrows,
      MarkCommitted, SameSagas, Finished, PaidFor, Grows, WithSettlement, CommitSettlement, HasStatus;
    var b := WithSettlement(w, worldId, sagaId);
    SettlementFacts(w, worldId, sagaId);
    InvParts(w);
    var id := ContractOf(w.db.store.sagas[sagaId].snapshot);
    var c := w.db.contracts[id];
    ContractRow(w, id);
    SettleableIsFree(w, id);
    SettledOk(c);
    MarkStep(w.db.store, worldId, sagaId, LocalSettled);
    MarkedSaga(w.db.store, worldId, sagaId, LocalSettled);
    OneContractGrows(w.db.contracts, id, c.(status := Settled));
    StaysPaid(w, b, id);
    assert ContractLinked(b, id);
    forall other | other in b.db.contracts && other != id ensures SameStanding(w, b, other) {
    }
    hide ContractLinked, SameStanding;
    SameIds(w.db.store, b.db.store);
    TransitionKeepsInv(w, b);
  }

  // ---- Every step, every run ----

  lemma CommitSteps(w: World, worldId: string, sagaId: string)
    ensures Apply(w, Activate(worldId, sagaId)) == WithActivation(w, worldId, sagaId)
    ensures Apply(w, Settle(worldId, sagaId)) == WithSettlement(w, worldId, sagaId)
  {
    hide WithActivation, WithSettlement;
  }

  lemma StepKeepsInv(w: World, step: Step)
    requires Inv(w)
    ensures Inv(Apply(w, step)) && Grows(w, Apply(w, step))
  {
    hide Inv, Grows, Apply;
    match step
    case Tick(ms) => TickKeepsInv(w, ms);
    case ProposeContract(_, _, _, _, _, _) => ContractStepKeepsInv(w, step);
    case OnContract(_, _) => ContractStepKeepsInv(w, step);
    case PrepareFunding(input) =>
      PrepareFundingStep(w, input);
      PrepareFundingKeepsInv(w, input);
    case PrepareDistribution(input) =>
      PrepareDistributionStep(w, input);
      PrepareDistributionKeepsInv(w, input);
    case ClaimRow(key, worker, leaseMs) => ClaimRowKeepsInv(w, key, worker, leaseMs);
    case Send(claim, requestId, arrival) => SendKeepsInv(w, claim, requestId, arrival);
    case HandleReply(claim, reply, retryAfterMs) => HandleReplyKeepsInv(w, claim, reply, retryAfterMs);
    case RejectMismatch(claim) => RejectMismatchKeepsInv(w, claim);
    case LookUp(key, hideMs) => LookUpKeepsInv(w, key, hideMs);
    case Found(lookup, raw) => FoundKeepsInv(w, lookup, raw);
    case NotFound(lookup) => NotFoundKeepsInv(w, lookup);
    case Inconclusive(lookup, retryMs) => InconclusiveKeepsInv(w, lookup, retryMs);
    case Activate(worldId, sagaId) =>
      CommitSteps(w, worldId, sagaId);
      ActivateKeepsInv(w, worldId, sagaId);
    case Settle(worldId, sagaId) =>
      CommitSteps(w, worldId, sagaId);
      SettleKeepsInv(w, worldId, sagaId);
  }

  /** The worker's identity check never fails, so its DEAD_LETTER branch is never taken. */
  lemma RejectMismatchKeepsInv(w: World, claim: Claimed)
    requires Inv(w)
    ensures var b := Apply(w, RejectMismatch(claim)); Inv(b) && Grows(w, b) && b == w
  {
    assert claim in w.claims ==> ClaimOk(w.db.store, claim);
    hide Inv, Grows;
    TickKeepsInv(w, 0);
  }

  lemma FoundKeepsInv(w: World, lookup: Lookup, raw: RawResult)
    requires Inv(w)
    ensures var b := Apply(w, Found(lookup, raw)); Inv(b) && Grows(w, b)
  {
    hide Inv, Grows, TruthfulResult, StoreResult;
    if Apply(w, Found(lookup, raw)) == w {
      TickKeepsInv(w, 0);
    } else {
      StoreResultKeepsInv(w, lookup.worldId, lookup.operationKey, raw);
    }
  }

  lemma GrowsTransitive(a: World, b: World, c: World)
    requires Grows(a, b) && Grows(b, c)
    ensures Grows(a, c)
  {
    StoreGrowsTransitive(a.db.store, b.db.store, c.db.store);
    hide StoreGrows, ContractGrows;
    forall id | id in a.db.contracts ensures ContractKept(a.db.contracts, c.db.contracts, id) {
      assert ContractKept(a.db.contracts, b.db.contracts, id) && ContractKept(b.db.contracts, c.db.contracts, id);
      ContractGrowsTransitive(a.db.contracts[id], b.db.contracts[id], c.db.contracts[id]);
    }
  }

  /** The invariant holds after every run, and nothing along the way is taken back. */
  lemma {:induction false} RunKeepsInv(w: World, steps: seq<Step>)
    requires Inv(w)
    ensures Inv(Run(w, steps)) && Grows(w, Run(w, steps))
  {
    hide Inv, Grows, Apply;
    if steps == [] {
      TickKeepsInv(w, 0);
      NoTime(w);
    } else {
      var before := Run(w, steps[..|steps| - 1]);
      RunKeepsInv(w, steps[..|steps| - 1]);
      StepKeepsInv(before, steps[|steps| - 1]);
      GrowsTransitive(w, before, Run(w, steps));
    }
  }

  lemma NoTime(w: World)
    ensures Apply(w, Tick(0)) == w
  {
  }

  lemma StartIsOk(maxAttempts: int)
    ensures Inv(Start(maxAttempts))
  {
  }
}
