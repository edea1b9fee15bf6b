/**
 The whole saga protocol as a state machine: contract commands, saga transactions, the at-least-once
 worker, the reconciler, and the Knowledge Ball, which runs each idempotency key at most once.
 A crash is a step that is never taken, a late or repeated report is a step on an old claim, and
 `SKIP LOCKED` is the free choice of the key.
 */
module SagaWorld {
  import opened Wrappers
  import opened OperationKeys
  import opened Text
  import opened Sagas
  import opened SagaStore
  import opened SagaWorker
  import opened SagaInvariants
  import opened Contracts
  import opened ContractSagas

  /** The durable answer the Knowledge Ball gives for one idempotency key. */
  datatype KbEntry = KbEntry(request: PortRequest, executed: bool, reference: string)

  datatype Lookup = Lookup(worldId: string, sagaId: string, operationKey: string)

  /** A request may be lost on the way; the first one to arrive for a key is run or durably refused. */
  datatype Arrival = Lost | Arrives(executes: bool, reference: string)

  /**
   `claims` and `lookups` remember everything that was ever handed to a worker or a reconciler,
   `activatedBy` and `settledBy` which saga committed a contract, `retries` how often a failure
   moved a row to RETRY_WAIT.
   */
  datatype World = World(
    now: nat, maxAttempts: int, db: Social, claims: set<Claimed>, lookups: set<Lookup>,
    sent: seq<PortRequest>, kb: map<string, KbEntry>,
    activatedBy: map<ContractId, string>, settledBy: map<ContractId, string>, retries: map<string, nat>)

  datatype Step =
    | Tick(ms: nat)
    | ProposeContract(id: ContractId, actor: string, employer: string, contractor: string, terms: Terms,
                      partiesExist: bool)
    | OnContract(id: ContractId, command: ContractCommand)
    | PrepareFunding(funding: ActivationInput)
    | PrepareDistribution(distribution: SettlementInput)
    | ClaimRow(key: string, worker: string, leaseMs: int)
    | Send(claim: Claimed, requestId: string, arrival: Arrival)
    | HandleReply(claim: Claimed, reply: Reply, retryAfterMs: int)
    | RejectMismatch(claim: Claimed)
    | LookUp(key: string, hideMs: nat)
    | Found(lookup: Lookup, raw: RawResult)
    | NotFound(lookup: Lookup)
    | Inconclusive(lookup: Lookup, retryMs: nat)
    | Activate(worldId: string, sagaId: string)
    | Settle(worldId: string, sagaId: string)

  function WithStore(w: World, store: Store): World {
    w.(db := w.db.(store := store))
  }

  function RetriesOf(w: World, key: string): nat {
    if key in w.retries then w.retries[key] else 0
  }

  function Receive(kb: map<string, KbEntry>, request: PortRequest, arrival: Arrival): map<string, KbEntry> {
    if arrival.Lost? || request.idempotencyKey in kb then kb
    else kb[request.idempotencyKey := KbEntry(request, arrival.executes, arrival.reference)]
  }

  /** The port never reports a success or a refusal that the Knowledge Ball did not durably decide. */
  predicate TruthfulReply(kb: map<string, KbEntry>, command: Command, reply: Reply) {
    reply.Response? ==>
      && (reply.status in {Succeeded, Duplicate} ==>
            && command.idempotencyKey in kb && kb[command.idempotencyKey].executed
            && (SuccessReference(reply, command).Some? ==>
                  SuccessReference(reply, command) == Some(kb[command.idempotencyKey].reference)))
      && (reply.status == Refused ==> command.idempotencyKey in kb && !kb[command.idempotencyKey].executed)
  }

  /** The same for a lookup answer; its digest may still be that of another payload. */
  predicate TruthfulResult(kb: map<string, KbEntry>, key: string, raw: RawResult) {
    && (raw.status == RawSucceeded ==>
          key in kb && kb[key].executed && (raw.resultRef.Some? ==> raw.resultRef == Some(kb[key].reference)))
    && (raw.status == RawFailed ==> key in kb && !kb[key].executed)
  }

  function ReportFailure(w: World, failure: Failure): World {
    var tx := RecordFailure(w.db.store, failure, w.now);
    var next := WithStore(w, tx.after);
    if tx.reply == Ok(RetryWait) then next.(retries := w.retries[failure.outboxKey := RetriesOf(w, failure.outboxKey) + 1])
    else next
  }

  function StoreResult(w: World, worldId: string, key: string, raw: RawResult): World {
    WithStore(w, RecordResult(w.db.store, worldId, key, raw, w.now).after)
  }

  function Apply(w: World, step: Step): World {
    match step
    case Tick(ms) => w.(now := w.now + ms)
    case ProposeContract(id, actor, employer, contractor, terms, partiesExist) =>
      var made := Propose(actor, employer, contractor, terms, partiesExist);
      if id in w.db.contracts || made.Err? then w
      else w.(db := w.db.(contracts := w.db.contracts[id := made.value]))
    case OnContract(id, command) =>
      if id !in w.db.contracts then w
      else
        var next := Execute(w.db.contracts[id], id.worldId, id.contractId, command);
        if next.Err? then w else w.(db := w.db.(contracts := w.db.contracts[id := next.value]))
    case PrepareFunding(input) => w.(db := PrepareActivation(w.db, input, w.now).after)
    case PrepareDistribution(input) => w.(db := PrepareSettlement(w.db, input, w.now).after)
    case ClaimRow(key, worker, leaseMs) =>
      if Blank(worker) || !LeaseMsOk(leaseMs) || key !in w.db.store.outbox || !Claimable(w.db.store.outbox[key], w.now)
        then w
      else
        var store := Claim(w.db.store, key, worker, leaseMs, w.now);
        WithStore(w, store).(claims := w.claims + {Claimed(key, store.outbox[key])})
    case Send(claim, requestId, arrival) =>
      if claim !in w.claims || !IdentityMatches(claim) then w
      else
        var request := RequestFor(claim.row.command, requestId);
        w.(sent := w.sent + [request], kb := Receive(w.kb, request, arrival))
    case HandleReply(claim, reply, retryAfterMs) =>
      if claim !in w.claims || !IdentityMatches(claim) || !TruthfulReply(w.kb, claim.row.command, reply) then w
      else
        (match ReactionTo(reply, claim.row.command)
         case Record(raw) => StoreResult(w, claim.row.worldId, claim.key, raw)
         case Report(code, retryable, unknown, own) =>
           ReportFailure(w, FailureOf(claim, code, retryable, unknown, retryAfterMs, LimitOf(own, w.maxAttempts))))
    case RejectMismatch(claim) =>
      if claim !in w.claims || IdentityMatches(claim) then w
      else ReportFailure(w, Mismatch(claim))
    case LookUp(key, hideMs) =>
      if !LookupDue(w.db.store, key, w.now) then w
      else
        var row := w.db.store.outbox[key];
        WithStore(w, ClaimLookup(w.db.store, key, hideMs, w.now)).(
          lookups := w.lookups + {Lookup(row.worldId, row.sagaId, key)})
    case Found(lookup, raw) =>
      if lookup !in w.lookups || !TruthfulResult(w.kb, lookup.operationKey, raw) then w
      else StoreResult(w, lookup.worldId, lookup.operationKey, raw)
    case NotFound(lookup) =>
      if lookup !in w.lookups then w
      else WithStore(w, RetryAfterNotFound(w.db.store, lookup.worldId, lookup.sagaId, lookup.operationKey, w.now).0)
    case Inconclusive(lookup, retryMs) =>
      if lookup !in w.lookups then w
      else WithStore(w, DeferLookup(w.db.store, lookup.worldId, lookup.sagaId, retryMs, w.now))
    case Activate(worldId, sagaId) => WithActivation(w, worldId, sagaId)
    case Settle(worldId, sagaId) => WithSettlement(w, worldId, sagaId)
  }

  function WithActivation(w: World, worldId: string, sagaId: string): World {
    var tx := CommitActivation(w.db, worldId, sagaId, w.now);
    var next := w.(db := tx.after);
    if tx.reply == Ok(CommitReply(false))
      then next.(activatedBy := w.activatedBy[ContractOf(w.db.store.sagas[sagaId].snapshot) := sagaId])
    else next
  }

  function WithSettlement(w: World, worldId: string, sagaId: string): World {
    var tx := CommitSettlement(w.db, worldId, sagaId);
    var next := w.(db := tx.after);
    if tx.reply.Ok? then next.(settledBy := w.settledBy[ContractOf(w.db.store.sagas[sagaId].snapshot) := sagaId]) else next
  }

  function ContractOf(saga: Saga): ContractId {
    ContractId(saga.worldId, saga.contractId)
  }

  function Run(w: World, steps: seq<Step>): World {
    if steps == [] then w else Apply(Run(w, steps[..|steps| - 1]), steps[|steps| - 1])
  }

  function Start(maxAttempts: int): World {
    World(0, maxAttempts, Social(Store(map[], map[], map[], map[]), map[]), {}, {}, [], map[], map[], map[], map[])
  }

  // ---- The invariant ----

  predicate SentOk(store: Store, request: PortRequest) {
    && request.idempotencyKey in store.outbox
    && request == RequestFor(store.outbox[request.idempotencyKey].command, request.requestId)
  }

  predicate ClaimOk(store: Store, claim: Claimed) {
    && claim.key in store.outbox
    && claim.row.command == store.outbox[claim.key].command
    && IdentityMatches(claim)
  }

  predicate KbOk(store: Store, kb: map<string, KbEntry>, key: string)
    requires key in kb
  {
    SentOk(store, kb[key].request) && kb[key].request.idempotencyKey == key
  }

  /** The stored result is the one the Knowledge Ball durably decided. */
  predicate ResultIsTrue(kb: map<string, KbEntry>, key: string, result: FinancialResult) {
    && key in kb && kb[key].executed == result.succeeded
    && (result.succeeded ==> result.resultRef == Some(kb[key].reference))
  }

  predicate InboxIsTrue(store: Store, kb: map<string, KbEntry>, key: string)
    requires key in store.inbox
  {
    ResultIsTrue(kb, key, store.inbox[key])
  }

  predicate LookupOk(store: Store, lookup: Lookup) {
    lookup.operationKey in store.outbox && store.outbox[lookup.operationKey].sagaId == lookup.sagaId
  }

  ghost predicate FundsOk(w: World) {
    && (forall r {:trigger SentOk(w.db.store, r)} :: r in w.sent ==> SentOk(w.db.store, r))
    && (forall c {:trigger ClaimOk(w.db.store, c)} :: c in w.claims ==> ClaimOk(w.db.store, c))
    && (forall k {:trigger KbOk(w.db.store, w.kb, k)} :: k in w.kb ==> KbOk(w.db.store, w.kb, k))
    && (forall k {:trigger InboxIsTrue(w.db.store, w.kb, k)} ::
          k in w.db.store.inbox ==> InboxIsTrue(w.db.store, w.kb, k))
    && (forall l {:trigger LookupOk(w.db.store, l)} :: l in w.lookups ==> LookupOk(w.db.store, l))
  }

  /** A prepared saga stays tied to the version it was prepared for. */
  predicate LinkedTo(saga: Saga, c: Contract) {
    && !Blank(saga.worldId) && !Blank(saga.sagaId)
    && saga.contractVersion >= 1 && saga.contractVersion in c.versions
    && match saga.kind
       case ContractActivation => saga.primaryRequest.payload.amount == c.versions[saga.contractVersion].price
       case ContractSettlement =>
         && c.currentVersion == saga.contractVersion && Settling(c)
         && saga.primaryRequest.payload.detail.Distribution?
         && c.escrowRef == Some(saga.primaryRequest.payload.detail.escrowRef)
  }

  predicate SagaLinked(db: Social, id: string)
    requires id in db.store.sagas
  {
    var saga := db.store.sagas[id].snapshot;
    ContractOf(saga) in db.contracts && LinkedTo(saga, db.contracts[ContractOf(saga)])
  }

  predicate PaidFor(saga: Saga, c: Contract, id: ContractId) {
    && saga.kind == ContractActivation && ContractOf(saga) == id && Finished(saga)
    && saga.contractVersion == c.currentVersion
    && c.escrowRef == saga.primaryResult.value.resultRef
    && HasAccepted(c, c.currentVersion, c.employer) && HasAccepted(c, c.currentVersion, c.contractor)
  }

  predicate SettledFor(saga: Saga, id: ContractId) {
    saga.kind == ContractSettlement && ContractOf(saga) == id && Finished(saga)
  }

  predicate ContractLinked(w: World, id: ContractId)
    requires id in w.db.contracts
  {
    var c, sagas := w.db.contracts[id], w.db.store.sagas;
    && (c.status == Proposed <==> id !in w.activatedBy)
    && (c.status == Settled <==> id in w.settledBy)
    && (id in w.activatedBy ==>
          w.activatedBy[id] in sagas && PaidFor(sagas[w.activatedBy[id]].snapshot, c, id))
    && (id in w.settledBy ==>
          w.settledBy[id] in sagas && SettledFor(sagas[w.settledBy[id]].snapshot, id))
  }

  ghost predicate LinksOk(w: World) {
    && (forall id {:trigger SagaLinked(w.db, id)} :: id in w.db.store.sagas ==> SagaLinked(w.db, id))
    && (forall id {:trigger ContractLinked(w, id)} :: id in w.db.contracts ==> ContractLinked(w, id))
    && w.activatedBy.Keys <= w.db.contracts.Keys && w.settledBy.Keys <= w.db.contracts.Keys
  }

  ghost predicate ContractsOk(contracts: map<ContractId, Contract>) {
    forall id {:trigger contracts[id]} :: id in contracts ==> ContractOk(contracts[id])
  }

  /** Claims of a row that are over. */
  function Spent(row: OutboxRow): int {
    if row.status == Leased then row.attempts - 1 else row.attempts
  }

  /** Every move to RETRY_WAIT used up one claim, and only claims below the limit are retried. */
  predicate RetryOk(w: World, key: string) {
    var n := RetriesOf(w, key);
    && (n == 0 || (key in w.db.store.outbox && n < w.maxAttempts))
    && (key in w.db.store.outbox ==> n <= Spent(w.db.store.outbox[key]))
  }

  ghost predicate RetriesOk(w: World) {
    forall key {:trigger RetryOk(w, key)} :: RetryOk(w, key)
  }

  ghost predicate Inv(w: World) {
    StoreOk(w.db.store) && ContractsOk(w.db.contracts) && FundsOk(w) && LinksOk(w) && RetriesOk(w)
  }

  // ---- What no step takes back ----

  predicate ContractKept(a: map<ContractId, Contract>, b: map<ContractId, Contract>, id: ContractId)
    requires id in a
  {
    id in b && ContractGrows(a[id], b[id])
  }

  ghost predicate ContractsGrow(a: map<ContractId, Contract>, b: map<ContractId, Contract>) {
    forall id {:trigger ContractKept(a, b, id)} :: id in a ==> ContractKept(a, b, id)
  }

  predicate Kept<K, V(==)>(a: map<K, V>, b: map<K, V>) {
    forall k :: k in a ==> k in b && b[k] == a[k]
  }

  ghost predicate Grows(a: World, b: World) {
    && StoreGrows(a.db.store, b.db.store) && ContractsGrow(a.db.contracts, b.db.contracts)
    && Kept(a.kb, b.kb) && Kept(a.activatedBy, b.activatedBy) && Kept(a.settledBy, b.settledBy)
    && a.sent <= b.sent && a.claims <= b.claims && a.lookups <= b.lookups && b.maxAttempts == a.maxAttempts
  }
}
