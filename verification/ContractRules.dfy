/**
 Who may do what with a contract: each command is accepted exactly under its rule and changes exactly what
 it is for, and over whole runs every acceptance, decision and ruling was made by somebody entitled to it.
 */
module ContractRules {
  import opened Wrappers
  import opened Text
  import opened Sagas
  import opened SagaStore
  import opened SagaWorker
  import opened Contracts
  import opened ContractSagas
  import opened SagaWorld
  import opened SagaWorldProofs
  import opened SagaTheorems
  import opened SocialOutcomes

  // ---- Rules ----

  predicate ProposalAllowed(actor: string, employer: string, contractor: string, terms: Terms, partiesExist: bool) {
    && !Blank(employer) && !Blank(contractor) && employer != contractor && actor == employer
    && IsComplete(terms) && partiesExist
  }

  /** Terms that say what is done, when it is done, for how much, and under which rules. */
  predicate IsComplete(terms: Terms) {
    !Blank(terms.scope) && terms.hasDeliverables && terms.hasCriteria && IsNonNegativeDecimal(terms.price) && !Blank(terms.ruleVersion)
  }

  predicate PartyTo(c: Contract, actor: string) {
    actor in {c.employer, c.contractor}
  }

  /** Who may give the command, in which state of the contract. */
  ghost predicate Allowed(c: Contract, worldId: string, contractId: string, command: ContractCommand) {
    match command
    case PublishVersion(actor, version, terms) =>
      PartyTo(c, actor) && c.status == Proposed && version == c.currentVersion && IsComplete(terms)
    case AcceptTerms(actor, version, key) =>
      PartyTo(c, actor) && c.status == Proposed && version == c.currentVersion && !Blank(key)
    case SubmitWork(actor, version, artifactRef, key) =>
      && actor == c.contractor && version == c.currentVersion && !Blank(artifactRef) && !Blank(key)
      && if exists d :: d in c.deliveries && d.idempotencyKey == key
         then exists d :: d in c.deliveries && d.idempotencyKey == key && d.version == version && d.submittedBy == actor
                          && d.artifactRef == artifactRef
         else c.status == Active
    case ReviewWork(actor, version, delivery, decision, note) =>
      && actor == c.employer && c.status == Submitted && version == c.currentVersion && decision != OtherDecision
      && delivery < |c.deliveries| && c.deliveries[delivery].version == version && c.deliveries[delivery].status == InReview
      && (note.Some? ==> !Blank(note.value))
      && c.currentVersion in c.versions
      && (decision == Rework ==> note.Some? && Rejections(c) < c.versions[c.currentVersion].reworkLimit)
    case OpenDispute(actor, version, reason, delivery) =>
      && PartyTo(c, actor) && c.status == Submitted && version == c.currentVersion && !Blank(reason)
      && (delivery.Some? ==> delivery.value < |c.deliveries| && c.deliveries[delivery.value].version == version
                             && c.deliveries[delivery.value].status != InDispute)
    case Rule(actor, version, dispute, ruling, hasResolution, authorization) =>
      && c.status == Disputed && version == c.currentVersion && ruling != RulingOther && hasResolution
      && dispute < |c.disputes| && c.disputes[dispute].version == version && c.disputes[dispute].status != Resolved
      && Empowers(authorization, worldId, contractId, dispute, actor, version)
  }

  /** A capability for exactly this ruling by exactly this actor. */
  predicate Empowers(authorization: Option<Authorization>, worldId: string, contractId: string, dispute: nat, actor: string,
                     version: int)
  {
    && authorization.Some? && authorization.value.worldId == worldId && authorization.value.contractId == contractId
    && authorization.value.dispute == dispute && authorization.value.actor == actor
    && authorization.value.expectedVersion == version
  }

  function Rejections(c: Contract): nat {
    |set i | 0 <= i < |c.deliveries| && c.deliveries[i].version == c.currentVersion && c.deliveries[i].status == Rejected|
  }

  lemma {:induction false} RejectionsAreCounted(deliveries: seq<Delivery>, version: nat)
    ensures |set i | 0 <= i < |deliveries| && deliveries[i].version == version && deliveries[i].status == Rejected|
         == CountRejected(deliveries, version)
  {
    var rejected := set i | 0 <= i < |deliveries| && deliveries[i].version == version && deliveries[i].status == Rejected;
    if deliveries == [] {
      assert rejected == {};
    } else {
      var n := |deliveries| - 1;
      var front := deliveries[..n];
      var earlier := set i | 0 <= i < |front| && front[i].version == version && front[i].status == Rejected;
      RejectionsAreCounted(front, version);
      if deliveries[n].version == version && deliveries[n].status == Rejected {
        assert rejected == earlier + {n};
      } else {
        assert rejected == earlier;
      }
    }
  }

  /** What an allowed command leaves; nothing else of the contract changes. */
  ghost predicate Effect(c: Contract, command: ContractCommand, d: Contract) {
    match command
    case PublishVersion(_, version, terms) =>
      && d == c.(versions := c.versions[c.currentVersion + 1 := terms], currentVersion := c.currentVersion + 1,
                 acceptances := d.acceptances)
      && |d.acceptances| == |c.acceptances|
      && (forall i :: 0 <= i < |c.acceptances| ==>
            && d.acceptances[i].(invalidated := false) == c.acceptances[i].(invalidated := false)
            && (d.acceptances[i].invalidated <==> c.acceptances[i].invalidated || c.acceptances[i].version == c.currentVersion))
    case AcceptTerms(actor, version, key) =>
      d == if Consents(c, actor) then c
           else c.(acceptances := c.acceptances + [Acceptance(c.currentVersion, actor, key, false)])
    case SubmitWork(actor, version, artifactRef, key) =>
      if exists e :: e in c.deliveries && e.idempotencyKey == key then d == c
      else
        && |d.deliveries| == |c.deliveries| + 1 && d == c.(status := Submitted, deliveries := d.deliveries)
        && d.deliveries == c.deliveries + [Delivery(c.currentVersion, |c.deliveries| + 1, actor, artifactRef, key, InReview)]
    case ReviewWork(_, _, delivery, decision, _) =>
      && delivery < |c.deliveries|
      && d == c.(deliveries := c.deliveries[delivery := c.deliveries[delivery].(
                   status := if decision == Rework then Rejected else Accepted)],
                 status := if decision == Rework then Active else Submitted)
    case OpenDispute(actor, _, _, delivery) =>
      && (delivery.Some? ==> delivery.value < |c.deliveries|)
      && d == c.(status := Disputed, disputes := c.disputes + [Dispute(c.currentVersion, delivery, actor, Open, None, None)],
                 deliveries := if delivery.None? then c.deliveries
                               else c.deliveries[delivery.value := c.deliveries[delivery.value].(status := InDispute)])
    case Rule(_, _, dispute, ruling, _, authorization) =>
      && dispute < |c.disputes| && authorization.Some?
      && d == c.(disputes := c.disputes[dispute := c.disputes[dispute].(
                   status := Resolved, resolvedBy := Some(authorization.value.adjudicator),
                   resolution := Some(if ruling == RulingUphold then UpholdClaim else RejectClaim))])
  }

  // ---- The commands follow their rules ----

  lemma ProposalsFollowTheRule(actor: string, employer: string, contractor: string, terms: Terms, partiesExist: bool)
    ensures var made := Propose(actor, employer, contractor, terms, partiesExist);
      && (made.Ok? <==> ProposalAllowed(actor, employer, contractor, terms, partiesExist))
      && (made.Ok? ==>
            && made.value.employer == employer && made.value.contractor == contractor && made.value.status == Proposed
            && made.value.currentVersion == 1 && made.value.versions == map[1 := terms]
            && made.value.acceptances == [] && made.value.deliveries == [] && made.value.disputes == []
            && made.value.escrowRef == None)
  {
  }

  lemma PublishFollows(c: Contract, actor: string, version: int, terms: Terms)
    ensures var next, command := Publish(c, actor, version, terms), PublishVersion(actor, version, terms);
      && (next.Ok? <==> Allowed(c, "", "", command))
      && (next.Ok? ==> Effect(c, command, next.value))
  {
  }

  lemma AcceptFollows(c: Contract, actor: string, version: int, key: string)
    ensures var next, command := AcceptVersion(c, actor, version, key), AcceptTerms(actor, version, key);
      && (next.Ok? <==> Allowed(c, "", "", command))
      && (next.Ok? ==> Effect(c, command, next.value.contract) && (next.value.replayed <==> Consents(c, actor)))
  {
    ConsentIsAccepted(c, actor);
  }

  lemma SubmitFollows(c: Contract, actor: string, artifactRef: string, key: string, version: int)
    requires ContractOk(c)
    ensures var next, command := Submit(c, actor, artifactRef, key, version), SubmitWork(actor, version, artifactRef, key);
      && (next.Ok? <==> Allowed(c, "", "", command))
      && (next.Ok? ==> Effect(c, command, next.value.contract))
  {
    hide ReworkOk, LastSubmissionNo;
    LastSubmissionNoIsLength(c.deliveries, c.currentVersion);
    var found := FindDelivery(c.deliveries, key);
    if found.Some? {
      assert c.deliveries[found.value] in c.deliveries;
    }
    hide FindDelivery;
  }

  lemma ReviewFollows(c: Contract, actor: string, delivery: nat, decision: Decision, version: int, note: Option<string>)
    requires ContractOk(c)
    ensures var next, command := Review(c, actor, delivery, decision, version, note),
                                 ReviewWork(actor, version, delivery, decision, note);
      && (next.Ok? <==> Allowed(c, "", "", command))
      && (next.Ok? ==> Effect(c, command, next.value))
  {
    hide ReworkOk, DeliveriesOk, CountRejected;
    RejectionsAreCounted(c.deliveries, c.currentVersion);
  }

  lemma DisputeFollows(c: Contract, actor: string, reason: string, delivery: Option<nat>, version: int)
    ensures var next, command := RaiseDispute(c, actor, reason, delivery, version), OpenDispute(actor, version, reason, delivery);
      && (next.Ok? <==> Allowed(c, "", "", command))
      && (next.Ok? ==> Effect(c, command, next.value))
  {
  }

  lemma RulingFollows(c: Contract, worldId: string, contractId: string, dispute: nat, actor: string, ruling: RulingInput,
                      hasResolution: bool, version: int, authorization: Option<Authorization>)
    ensures var next := Adjudicate(c, worldId, contractId, dispute, actor, ruling, hasResolution, version, authorization);
      var command := Rule(actor, version, dispute, ruling, hasResolution, authorization);
      && (next.Ok? <==> Allowed(c, worldId, contractId, command))
      && (next.Ok? ==> Effect(c, command, next.value))
  {
  }

  /** Every contract command is accepted exactly under its rule, and then has exactly its effect. */
  lemma CommandsFollowTheRules(c: Contract, worldId: string, contractId: string, command: ContractCommand)
    requires ContractOk(c)
    ensures var next := Execute(c, worldId, contractId, command);
      && (next.Ok? <==> Allowed(c, worldId, contractId, command))
      && (next.Ok? ==> Effect(c, command, next.value))
  {
    hide ContractOk, Publish, AcceptVersion, Submit, Review, RaiseDispute, Adjudicate, Effect;
    match command
    case PublishVersion(actor, version, terms) => PublishFollows(c, actor, version, terms);
    case AcceptTerms(actor, version, key) => AcceptFollows(c, actor, version, key);
    case SubmitWork(actor, version, artifactRef, key) => SubmitFollows(c, actor, artifactRef, key, version);
    case ReviewWork(actor, version, delivery, decision, note) => ReviewFollows(c, actor, delivery, decision, version, note);
    case OpenDispute(actor, version, reason, delivery) => DisputeFollows(c, actor, reason, delivery, version);
    case Rule(actor, version, dispute, ruling, hasResolution, authorization) =>
      RulingFollows(c, worldId, contractId, dispute, actor, ruling, hasResolution, version, authorization);
  }

  // ---- Over whole runs ----

  /** What a contract may show that only a command of the right person can have brought about. */
  datatype Fact = Consent(party: string, version: nat) | WorkAccepted(delivery: nat) | WorkRejected(delivery: nat) | Ruled(dispute: nat)

  predicate Shows(c: Contract, fact: Fact) {
    match fact
    case Consent(party, version) =>
      exists i :: 0 <= i < |c.acceptances| && c.acceptances[i].party == party && c.acceptances[i].version == version
    case WorkAccepted(delivery) => delivery < |c.deliveries| && c.deliveries[delivery].status == Accepted
    case WorkRejected(delivery) => delivery < |c.deliveries| && c.deliveries[delivery].status == Rejected
    case Ruled(dispute) => dispute < |c.disputes| && c.disputes[dispute].status == Resolved
  }

  /**
   Consent is given by the party itself, work is judged by the employer, and a dispute is ruled on with a
   capability for exactly that ruling.
   */
  predicate Establishes(c: Contract, worldId: string, contractId: string, command: ContractCommand, fact: Fact) {
    match fact
    case Consent(party, version) =>
      command.AcceptTerms? && command.party == party && PartyTo(c, party) && version == c.currentVersion && c.status == Proposed
    case WorkAccepted(delivery) =>
      command.ReviewWork? && command.reviewer == c.employer && command.delivery == delivery && command.decision == AcceptDelivery
    case WorkRejected(delivery) =>
      command.ReviewWork? && command.reviewer == c.employer && command.delivery == delivery && command.decision == Rework
    case Ruled(dispute) =>
      && command.Rule? && command.dispute == dispute
      && Empowers(command.authorization, worldId, contractId, dispute, command.actor, command.onVersion)
  }

  lemma NewFactsAreEstablished(c: Contract, worldId: string, contractId: string, command: ContractCommand, fact: Fact)
    requires ContractOk(c) && Execute(c, worldId, contractId, command).Ok? && !Shows(c, fact)
    requires Shows(Execute(c, worldId, contractId, command).value, fact)
    ensures Establishes(c, worldId, contractId, command, fact)
  {
    CommandsFollowTheRules(c, worldId, contractId, command);
    hide Execute, ContractOk, Consents, Rejections;
    if fact.Consent? && command.PublishVersion? {
      RevisionsAddNoConsent(c, command, Execute(c, worldId, contractId, command).value, fact);
    }
  }

  lemma RevisionsAddNoConsent(c: Contract, command: ContractCommand, d: Contract, fact: Fact)
    requires command.PublishVersion? && Effect(c, command, d) && fact.Consent?
    ensures Shows(d, fact) ==> Shows(c, fact)
  {
    if Shows(d, fact) {
      var i :| 0 <= i < |d.acceptances| && d.acceptances[i].party == fact.party && d.acceptances[i].version == fact.version;
      assert d.acceptances[i].(invalidated := false) == c.acceptances[i].(invalidated := false);
      assert c.acceptances[i].party == fact.party && c.acceptances[i].version == fact.version;
    }
  }

  /** Nothing but its status and its escrow reference changed. */
  predicate KeepsRows(c: Contract, d: Contract) {
    d == c.(status := d.status, escrowRef := d.escrowRef)
  }

  lemma StoringTouchesNoContract(w: World, worldId: string, key: string, raw: RawResult, failure: Failure)
    ensures StoreResult(w, worldId, key, raw).db.contracts == w.db.contracts
    ensures ReportFailure(w, failure).db.contracts == w.db.contracts
  {
    hide RecordFailure, RecordResult;
  }

  lemma HandlingTouchesNoContract(w: World, claim: Claimed, reply: Reply, retryAfterMs: int)
    ensures Apply(w, HandleReply(claim, reply, retryAfterMs)).db.contracts == w.db.contracts
  {
    hide ReactionTo, TruthfulReply, IdentityMatches, StoreResult, ReportFailure;
    match ReactionTo(reply, claim.row.command)
    case Record(raw) => StoringTouchesNoContract(w, claim.row.worldId, claim.key, raw, Mismatch(claim));
    case Report(code, retryable, unknown, own) =>
      StoringTouchesNoContract(w, "", "", RawResult(None, None, None, RawOther, None, None),
        FailureOf(claim, code, retryable, unknown, retryAfterMs, LimitOf(own, w.maxAttempts)));
  }

  /** Every contract is still there, and has all its rows. */
  ghost predicate KeepsAllRows(a: Social, b: Social) {
    b.contracts.Keys == a.contracts.Keys && forall id :: id in a.contracts ==> KeepsRows(a.contracts[id], b.contracts[id])
  }

  lemma ActivationKeepsRows(db: Social, worldId: string, sagaId: string, now: nat)
    ensures KeepsAllRows(db, CommitActivation(db, worldId, sagaId, now).after)
  {
    hide MarkCommitted, QueueCompensation, EligibleForActive, HasStatus, Blank;
  }

  lemma SettlementKeepsRows(db: Social, worldId: string, sagaId: string)
    ensures KeepsAllRows(db, CommitSettlement(db, worldId, sagaId).after)
  {
    hide MarkCommitted, HasStatus;
  }

  lemma CommitsKeepRows(w: World, worldId: string, sagaId: string)
    ensures KeepsAllRows(w.db, WithActivation(w, worldId, sagaId).db)
    ensures KeepsAllRows(w.db, WithSettlement(w, worldId, sagaId).db)
  {
    hide CommitActivation, CommitSettlement, KeepsAllRows;
    ActivationKeepsRows(w.db, worldId, sagaId, w.now);
    SettlementKeepsRows(w.db, worldId, sagaId);
  }

  lemma PreparingTouchesNoContract(db: Social, funding: ActivationInput, distribution: SettlementInput, now: nat)
    ensures PrepareActivation(db, funding, now).after.contracts == db.contracts
    ensures PrepareSettlement(db, distribution, now).after.contracts == db.contracts
  {
    hide PrepareIntent, CreateSaga, SettlementProblem, AcceptedParties, Blank;
  }

  /** How one step changes one contract. */
  lemma ContractsChangeBy(w: World, step: Step, id: ContractId)
    requires id in Apply(w, step).db.contracts
    ensures var d := Apply(w, step).db.contracts[id];
      || (id in w.db.contracts && KeepsRows(w.db.contracts[id], d))
      || (step.OnContract? && step.id == id && id in w.db.contracts
          && Execute(w.db.contracts[id], id.worldId, id.contractId, step.command) == Ok(d))
      || (id !in w.db.contracts && d.acceptances == [] && d.deliveries == [] && d.disputes == [])
  {
    if step.HandleReply? {
      HandlingTouchesNoContract(w, step.claim, step.reply, step.retryAfterMs);
      hide Apply;
    } else if step.Activate? || step.Settle? {
      CommitSteps(w, step.worldId, step.sagaId);
      hide Apply, WithActivation, WithSettlement;
      CommitsKeepRows(w, step.worldId, step.sagaId);
    } else if step.PrepareFunding? {
      PrepareFundingStep(w, step.funding);
      hide Apply, PrepareActivation, PrepareSettlement;
      PreparingTouchesNoContract(w.db, step.funding, NoSettlement(), w.now);
    } else if step.PrepareDistribution? {
      PrepareDistributionStep(w, step.distribution);
      hide Apply, PrepareActivation, PrepareSettlement;
      PreparingTouchesNoContract(w.db, ActivationInput("", "", "", "", "", "", []), step.distribution, w.now);
    } else {
      PlainStepsChangeBy(w, step, id);
      hide Apply, Execute;
    }
  }

  lemma PlainStepsChangeBy(w: World, step: Step, id: ContractId)
    requires !step.HandleReply? && !step.Activate? && !step.Settle? && !step.PrepareFunding? && !step.PrepareDistribution?
    requires id in Apply(w, step).db.contracts
    ensures var d := Apply(w, step).db.contracts[id];
      || (id in w.db.contracts && KeepsRows(w.db.contracts[id], d))
      || (step.OnContract? && step.id == id && id in w.db.contracts
          && Execute(w.db.contracts[id], id.worldId, id.contractId, step.command) == Ok(d))
      || (id !in w.db.contracts && d.acceptances == [] && d.deliveries == [] && d.disputes == [])
  {
    hide Execute, ReportFailure, StoreResult, TruthfulResult, IdentityMatches, Propose, ProposalAllowed, Claim, ClaimLookup,
      LookupDue, RetryAfterNotFound, DeferLookup, Blank, WithActivation, WithSettlement;
    if step.ProposeContract? {
      ProposalsFollowTheRule(step.actor, step.employer, step.contractor, step.terms, step.partiesExist);
    } else if step.Found? {
      StoringTouchesNoContract(w, step.lookup.worldId, step.lookup.operationKey, step.raw, Failure("", "", "", false, false, 0, 0));
    } else if step.RejectMismatch? {
      StoringTouchesNoContract(w, "", "", RawResult(None, None, None, RawOther, None, None), Mismatch(step.claim));
    }
  }

  function NoSettlement(): SettlementInput {
    SettlementInput("", "", "", "", "", "", "", None, [])
  }

  /** The step of a run that gave a contract what it shows. */
  ghost predicate EstablishedAt(maxAttempts: int, steps: seq<Step>, id: ContractId, fact: Fact, k: nat)
    requires k < |steps|
  {
    var before := Run(Start(maxAttempts), steps[..k]);
    && steps[k].OnContract? && steps[k].id == id && id in before.db.contracts
    && Allowed(before.db.contracts[id], id.worldId, id.contractId, steps[k].command)
    && Establishes(before.db.contracts[id], id.worldId, id.contractId, steps[k].command, fact)
  }

  /**
   In any run, whatever consent, judgement or ruling a contract shows was brought about by a command that
   its rules allowed, given by the party itself, by the employer, or with a capability for that ruling.
   */
  lemma {:induction false} FactsWereEstablished(maxAttempts: int, steps: seq<Step>, id: ContractId, fact: Fact)
    requires id in Run(Start(maxAttempts), steps).db.contracts && Shows(Run(Start(maxAttempts), steps).db.contracts[id], fact)
    ensures exists k :: 0 <= k < |steps| && EstablishedAt(maxAttempts, steps, id, fact, k)
  {
    hide Apply, Establishes, Allowed, Shows;
    if steps == [] {
      assert false;
    } else {
      var shorter, last := steps[..|steps| - 1], steps[|steps| - 1];
      var before := Run(Start(maxAttempts), shorter);
      if id in before.db.contracts && Shows(before.db.contracts[id], fact) {
        FactsWereEstablished(maxAttempts, shorter, id, fact);
        var k :| 0 <= k < |shorter| && EstablishedAt(maxAttempts, shorter, id, fact, k);
        assert shorter[..k] == steps[..k] && shorter[k] == steps[k];
        assert EstablishedAt(maxAttempts, steps, id, fact, k);
      } else {
        StartIsOk(maxAttempts);
        RunKeepsInv(Start(maxAttempts), shorter);
        StepEstablishes(before, last, id, fact);
        assert EstablishedAt(maxAttempts, steps, id, fact, |shorter|);
      }
    }
  }

  lemma StepEstablishes(w: World, step: Step, id: ContractId, fact: Fact)
    requires Inv(w) && id in Apply(w, step).db.contracts && Shows(Apply(w, step).db.contracts[id], fact)
    requires !(id in w.db.contracts && Shows(w.db.contracts[id], fact))
    ensures step.OnContract? && step.id == id && id in w.db.contracts
    ensures Allowed(w.db.contracts[id], id.worldId, id.contractId, step.command)
    ensures Establishes(w.db.contracts[id], id.worldId, id.contractId, step.command, fact)
  {
    ContractsChangeBy(w, step, id);
    hide Apply, Execute, Establishes, Allowed, Inv, ContractOk;
    if step.OnContract? && step.id == id && id in w.db.contracts
       && Execute(w.db.contracts[id], id.worldId, id.contractId, step.command) == Ok(Apply(w, step).db.contracts[id]) {
      ContractRow(w, id);
      CommandsFollowTheRules(w.db.contracts[id], id.worldId, id.contractId, step.command);
      NewFactsAreEstablished(w.db.contracts[id], id.worldId, id.contractId, step.command, fact);
    }
  }
}
