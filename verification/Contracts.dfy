/**
 One contract with its versions, acceptances, deliveries and disputes, and what each command of
 src/services/m04_contracts.js and src/services/m04_contract_delivery.js makes of it.
 Row ids of deliveries and disputes are their positions. Surrounding spaces are taken as already trimmed.
 */
module Contracts {
  import opened Wrappers
  import opened Text
  import opened Sagas

  datatype ContractStatus = Proposed | Active | Submitted | Disputed | Settled

  datatype Terms = Terms(
    scope: string, price: string, hasDeliverables: bool, hasCriteria: bool, reworkLimit: int, ruleVersion: string)

  datatype Acceptance = Acceptance(version: nat, party: string, idempotencyKey: string, invalidated: bool)

  datatype DeliveryStatus = InReview | Accepted | Rejected | InDispute

  datatype Delivery = Delivery(
    version: nat, submissionNo: nat, submittedBy: string, artifactRef: string, idempotencyKey: string,
    status: DeliveryStatus)

  datatype DisputeStatus = Open | UnderReview | Resolved

  datatype Ruling = UpholdClaim | RejectClaim

  datatype Dispute = Dispute(
    version: nat, delivery: Option<nat>, raisedBy: string, status: DisputeStatus,
    resolution: Option<Ruling>, resolvedBy: Option<string>)

  datatype Contract = Contract(
    employer: string, contractor: string, status: ContractStatus, currentVersion: nat,
    versions: map<nat, Terms>, acceptances: seq<Acceptance>, escrowRef: Option<string>,
    deliveries: seq<Delivery>, disputes: seq<Dispute>)

  // ---- proposeContract, publishContractVersion, acceptContractVersion ----

  predicate TermsOk(terms: Terms) {
    && !Blank(terms.scope) && terms.hasDeliverables && terms.hasCriteria
    && IsNonNegativeDecimal(terms.price) && !Blank(terms.ruleVersion)
  }

  /** `partiesExist`: both entities are registered in the world. */
  function Propose(actor: string, employer: string, contractor: string, terms: Terms, partiesExist: bool)
    : Result<Contract, Problem>
  {
    if Blank(actor) || Blank(employer) || Blank(contractor) then Err(InvalidContractInput)
    else if employer == contractor then Err(InvalidContractInput)
    else if actor != employer then Err(Forbidden)
    else if !TermsOk(terms) then Err(InvalidContractInput)
    else if !partiesExist then Err(ContractPartyNotFound)
    else Ok(Contract(employer, contractor, Proposed, 1, map[1 := terms], [], None, [], []))
  }

  predicate IsParty(c: Contract, actor: string) {
    actor == c.employer || actor == c.contractor
  }

  function Invalidated(acceptances: seq<Acceptance>, version: nat): (result: seq<Acceptance>)
    ensures |result| == |acceptances|
    ensures forall i :: 0 <= i < |result| ==>
      result[i] == if acceptances[i].version == version then acceptances[i].(invalidated := true) else acceptances[i]
  {
    if acceptances == [] then []
    else
      var a := acceptances[0];
      [if a.version == version then a.(invalidated := true) else a] + Invalidated(acceptances[1..], version)
  }

  function Publish(c: Contract, actor: string, expectedVersion: int, terms: Terms): Result<Contract, Problem> {
    if !IsParty(c, actor) then Err(Forbidden)
    else if c.status != Proposed then Err(ContractTermsLocked)
    else if expectedVersion != c.currentVersion then Err(StaleVersion)
    else if !TermsOk(terms) then Err(InvalidContractInput)
    else Ok(c.(
      versions := c.versions[c.currentVersion + 1 := terms],
      acceptances := Invalidated(c.acceptances, c.currentVersion),
      currentVersion := c.currentVersion + 1))
  }

  /** `party` has a live acceptance of `version`. */
  predicate HasAccepted(c: Contract, version: nat, party: string) {
    exists i :: 0 <= i < |c.acceptances|
      && c.acceptances[i].version == version && c.acceptances[i].party == party && !c.acceptances[i].invalidated
  }

  datatype AcceptReply = AcceptReply(contract: Contract, replayed: bool)

  function AcceptVersion(c: Contract, actor: string, expectedVersion: int, idempotencyKey: string)
    : Result<AcceptReply, Problem>
  {
    if Blank(idempotencyKey) then Err(InvalidContractInput)
    else if !IsParty(c, actor) then Err(Forbidden)
    else if c.status != Proposed then Err(ContractNotAccepting)
    else if expectedVersion != c.currentVersion then Err(StaleVersion)
    else if HasAccepted(c, c.currentVersion, actor) then Ok(AcceptReply(c, true))
    else Ok(AcceptReply(
      c.(acceptances := c.acceptances + [Acceptance(c.currentVersion, actor, idempotencyKey, false)]), false))
  }

  /** `count(DISTINCT party_entity_id)` over the live acceptances of the current version. */
  function AcceptedParties(c: Contract): set<string> {
    set i | 0 <= i < |c.acceptances|
      && c.acceptances[i].version == c.currentVersion && !c.acceptances[i].invalidated && IsParty(c, c.acceptances[i].party)
      :: c.acceptances[i].party
  }

  lemma TwoAcceptancesAreBothParties(c: Contract)
    requires c.employer != c.contractor
    ensures |AcceptedParties(c)| == 2
        <==> HasAccepted(c, c.currentVersion, c.employer) && HasAccepted(c, c.currentVersion, c.contractor)
  {
    var parties, both := AcceptedParties(c), {c.employer, c.contractor};
    assert |both| == 2;
    assert parties <= both;
    if |parties| == 2 {
      SubsetOfSameSize(parties, both);
      assert c.employer in parties && c.contractor in parties;
    }
    if HasAccepted(c, c.currentVersion, c.employer) && HasAccepted(c, c.currentVersion, c.contractor) {
      assert parties == both;
    }
  }

  lemma SubsetOfSameSize<T>(small: set<T>, big: set<T>)
    requires small <= big && |small| == |big|
    ensures small == big
  {
    assert big == small + (big - small);
  }

  // ---- submitDelivery, reviewDelivery ----

  /** The row `WHERE idempotency_key = key`, when there is one. */
  function FindDelivery(deliveries: seq<Delivery>, key: string): (found: Option<nat>)
    ensures found.Some? ==> found.value < |deliveries| && deliveries[found.value].idempotencyKey == key
    ensures found.None? ==> forall i :: 0 <= i < |deliveries| ==> deliveries[i].idempotencyKey != key
  {
    if deliveries == [] then None
    else if deliveries[|deliveries| - 1].idempotencyKey == key then Some(|deliveries| - 1)
    else FindDelivery(deliveries[..|deliveries| - 1], key)
  }

  /** `COALESCE(MAX(submission_no), 0)` over the deliveries of a version. */
  function LastSubmissionNo(deliveries: seq<Delivery>, version: nat): nat {
    if deliveries == [] then 0
    else
      var last := deliveries[|deliveries| - 1];
      var before := LastSubmissionNo(deliveries[..|deliveries| - 1], version);
      if last.version == version && last.submissionNo > before then last.submissionNo else before
  }

  datatype SubmitReply = SubmitReply(contract: Contract, delivery: nat, replayed: bool)

  function Submit(c: Contract, actor: string, artifactRef: string, idempotencyKey: string, expectedVersion: int)
    : Result<SubmitReply, Problem>
  {
    if Blank(artifactRef) || Blank(idempotencyKey) then Err(InvalidContractInput)
    else if actor != c.contractor then Err(Forbidden)
    else if expectedVersion != c.currentVersion then Err(StaleVersion)
    else
      var existing := FindDelivery(c.deliveries, idempotencyKey);
      if existing.Some? then
        var row := c.deliveries[existing.value];
        if row.version != c.currentVersion || row.submittedBy != actor || row.artifactRef != artifactRef
          then Err(IdempotencyConflict)
        else Ok(SubmitReply(c, existing.value, true))
      else if c.status != Active then Err(ContractNotDeliverable)
      else
        var no := LastSubmissionNo(c.deliveries, c.currentVersion) + 1;
        Ok(SubmitReply(
          c.(deliveries := c.deliveries + [Delivery(c.currentVersion, no, actor, artifactRef, idempotencyKey, InReview)],
             status := Submitted),
          |c.deliveries|, false))
  }

  function CountRejected(deliveries: seq<Delivery>, version: nat): nat {
    if deliveries == [] then 0
    else
      var last := deliveries[|deliveries| - 1];
      CountRejected(deliveries[..|deliveries| - 1], version)
        + if last.version == version && last.status == Rejected then 1 else 0
  }

  datatype Decision = AcceptDelivery | Rework | OtherDecision

  function Review(c: Contract, actor: string, delivery: nat, decision: Decision, expectedVersion: int,
                  reviewNote: Option<string>): Result<Contract, Problem>
  {
    if decision == OtherDecision then Err(InvalidReviewDecision)
    else if actor != c.employer then Err(Forbidden)
    else if c.status != Submitted then Err(ContractNotReviewable)
    else if expectedVersion != c.currentVersion then Err(StaleVersion)
    else if delivery >= |c.deliveries| || c.deliveries[delivery].version !in c.versions then Err(DeliveryNotFound)
    else
      var row := c.deliveries[delivery];
      if row.version != c.currentVersion then Err(StaleVersion)
      else if row.status != InReview then Err(DeliveryAlreadyReviewed)
      else if reviewNote.Some? && Blank(reviewNote.value) then Err(InvalidContractInput)
      else if decision == Rework && CountRejected(c.deliveries, c.currentVersion) >= c.versions[row.version].reworkLimit
        then Err(ReworkLimitExceeded)
      else if decision == Rework && reviewNote.None? then Err(ReviewNoteRequired)
      else
        var status := if decision == AcceptDelivery then Accepted else Rejected;
        Ok(c.(deliveries := c.deliveries[delivery := row.(status := status)],
              status := if decision == Rework then Active else c.status))
  }

  // ---- raiseContractDispute, adjudicateContractDispute ----

  function RaiseDispute(c: Contract, actor: string, reason: string, delivery: Option<nat>, expectedVersion: int)
    : Result<Contract, Problem>
  {
    if Blank(reason) then Err(InvalidContractInput)
    else if !IsParty(c, actor) then Err(Forbidden)
    else if c.status != Submitted then Err(ContractNotDisputable)
    else if expectedVersion != c.currentVersion then Err(StaleVersion)
    else if delivery.Some? && (delivery.value >= |c.deliveries| || c.deliveries[delivery.value].version != c.currentVersion)
      then Err(DeliveryNotFound)
    else if delivery.Some? && c.deliveries[delivery.value].status == InDispute then Err(DeliveryNotDisputable)
    else
      Ok(c.(
        disputes := c.disputes + [Dispute(c.currentVersion, delivery, actor, Open, None, None)],
        deliveries := if delivery.None? then c.deliveries
                      else c.deliveries[delivery.value := c.deliveries[delivery.value].(status := InDispute)],
        status := Disputed))
  }

  /** The capability a trusted adjudicator port issued, with what it is bound to. */
  datatype Authorization = Authorization(
    worldId: string, contractId: string, dispute: nat, actor: string, expectedVersion: int, adjudicator: string)

  datatype RulingInput = RulingUphold | RulingReject | RulingOther

  function Adjudicate(c: Contract, worldId: string, contractId: string, dispute: nat, actor: string,
                      ruling: RulingInput, hasResolution: bool, expectedVersion: int,
                      authorization: Option<Authorization>): Result<Contract, Problem>
  {
    if ruling == RulingOther then Err(InvalidAdjudicationOutcome)
    else if !hasResolution then Err(ResolutionRequired)
    else if authorization.None?
            || authorization.value.(adjudicator := "")
               != Authorization(worldId, contractId, dispute, actor, expectedVersion, "")
      then Err(ForbiddenAdjudicator)
    else if c.status != Disputed then Err(ContractNotDisputed)
    else if expectedVersion != c.currentVersion then Err(StaleVersion)
    else if dispute >= |c.disputes| then Err(DisputeNotFound)
    else if c.disputes[dispute].version != c.currentVersion then Err(StaleVersion)
    else if c.disputes[dispute].status == Resolved then Err(DisputeAlreadyResolved)
    else
      Ok(c.(disputes := c.disputes[dispute := c.disputes[dispute].(
        status := Resolved,
        resolution := Some(if ruling == RulingUphold then UpholdClaim else RejectClaim),
        resolvedBy := Some(authorization.value.adjudicator))]))
  }

  // ---- What every contract command keeps ----

  predicate AllRejected(deliveries: seq<Delivery>) {
    forall i :: 0 <= i < |deliveries| ==> deliveries[i].status == Rejected
  }

  /** At most this many submissions may ever exist for a version. */
  function SubmissionLimit(terms: Terms): nat {
    (if terms.reworkLimit < 0 then 0 else terms.reworkLimit) + 1
  }

  predicate DeliveriesOk(c: Contract) {
    && (forall i :: 0 <= i < |c.deliveries| ==>
          && c.deliveries[i].version == c.currentVersion
          && c.deliveries[i].submissionNo == i + 1
          && c.deliveries[i].submittedBy == c.contractor)
    && (forall i, j :: 0 <= i < j < |c.deliveries| ==> c.deliveries[i].idempotencyKey != c.deliveries[j].idempotencyKey)
  }

  /** The last submission is the only one that is not rejected. */
  predicate LastIsOpen(deliveries: seq<Delivery>) {
    && |deliveries| > 0
    && deliveries[|deliveries| - 1].status in {InReview, Accepted}
    && AllRejected(deliveries[..|deliveries| - 1])
  }

  predicate ReworkOk(c: Contract)
    requires c.currentVersion in c.versions
  {
    var limit := SubmissionLimit(c.versions[c.currentVersion]);
    match c.status
    case Proposed => c.deliveries == [] && c.disputes == []
    case Active => AllRejected(c.deliveries) && |c.deliveries| < limit
    case Submitted => LastIsOpen(c.deliveries) && |c.deliveries| <= limit
    case _ => 0 < |c.deliveries| <= limit && c.deliveries[|c.deliveries| - 1].status != Rejected
  }

  ghost predicate ContractOk(c: Contract) {
    && c.employer != c.contractor
    && c.currentVersion >= 1
    && (forall v: nat :: v in c.versions <==> 1 <= v <= c.currentVersion)
    && (forall v: nat :: v in c.versions ==> IsNonNegativeDecimal(c.versions[v].price))
    && (forall i :: 0 <= i < |c.acceptances| && !c.acceptances[i].invalidated ==>
          c.acceptances[i].version == c.currentVersion)
    && (c.status == Proposed <==> c.escrowRef.None?)
    && (c.status == Proposed || c.versions[c.currentVersion].hasCriteria)
    && DeliveriesOk(c)
    && ReworkOk(c)
  }

  lemma ProposeIsOk(actor: string, employer: string, contractor: string, terms: Terms, partiesExist: bool)
    ensures var made := Propose(actor, employer, contractor, terms, partiesExist);
      made.Ok? ==> ContractOk(made.value) && made.value.status == Proposed
  {
  }

  lemma PublishKeepsOk(c: Contract, actor: string, expectedVersion: int, terms: Terms)
    requires ContractOk(c) && Publish(c, actor, expectedVersion, terms).Ok?
    ensures ContractOk(Publish(c, actor, expectedVersion, terms).value)
  {
  }

  lemma AcceptVersionKeepsOk(c: Contract, actor: string, expectedVersion: int, key: string)
    requires ContractOk(c) && AcceptVersion(c, actor, expectedVersion, key).Ok?
    ensures ContractOk(AcceptVersion(c, actor, expectedVersion, key).value.contract)
  {
  }

  lemma {:induction false} LastSubmissionNoIsLength(deliveries: seq<Delivery>, version: nat)
    requires forall i :: 0 <= i < |deliveries| ==> deliveries[i].version == version && deliveries[i].submissionNo == i + 1
    ensures LastSubmissionNo(deliveries, version) == |deliveries|
  {
    if deliveries == [] {
    } else {
      LastSubmissionNoIsLength(deliveries[..|deliveries| - 1], version);
    }
  }

  lemma {:induction false} CountRejectedIsBounded(deliveries: seq<Delivery>, version: nat)
    ensures CountRejected(deliveries, version) <= |deliveries|
    ensures deliveries != [] && deliveries[|deliveries| - 1].status != Rejected ==>
      CountRejected(deliveries, version) <= |deliveries| - 1
  {
    if deliveries == [] {
    } else {
      CountRejectedIsBounded(deliveries[..|deliveries| - 1], version);
    }
  }

  /** The rejections of a version never exceed its rework limit. */
  lemma RejectionsStayWithinLimit(c: Contract)
    requires ContractOk(c)
    ensures CountRejected(c.deliveries, c.currentVersion) < SubmissionLimit(c.versions[c.currentVersion])
  {
    CountRejectedIsBounded(c.deliveries, c.currentVersion);
  }

  lemma SubmitKeepsOk(c: Contract, actor: string, artifactRef: string, key: string, expectedVersion: int)
    requires ContractOk(c) && Submit(c, actor, artifactRef, key, expectedVersion).Ok?
    ensures ContractOk(Submit(c, actor, artifactRef, key, expectedVersion).value.contract)
  {
    LastSubmissionNoIsLength(c.deliveries, c.currentVersion);
    var next := Submit(c, actor, artifactRef, key, expectedVersion).value.contract;
    if next != c {
      assert next.deliveries[..|next.deliveries| - 1] == c.deliveries;
    }
  }

  lemma {:induction false} CountRejectedOfAll(deliveries: seq<Delivery>, version: nat)
    requires AllRejected(deliveries)
    requires forall i :: 0 <= i < |deliveries| ==> deliveries[i].version == version
    ensures CountRejected(deliveries, version) == |deliveries|
  {
    if deliveries == [] {
    } else {
      CountRejectedOfAll(deliveries[..|deliveries| - 1], version);
    }
  }

  lemma ReviewKeepsOk(c: Contract, actor: string, delivery: nat, decision: Decision, expectedVersion: int,
                      note: Option<string>)
    requires ContractOk(c) && Review(c, actor, delivery, decision, expectedVersion, note).Ok?
    ensures ContractOk(Review(c, actor, delivery, decision, expectedVersion, note).value)
    ensures delivery == |c.deliveries| - 1
  {
    var n := |c.deliveries|;
    forall i | 0 <= i < n - 1 ensures c.deliveries[i].status == Rejected {
      assert c.deliveries[..n - 1][i] == c.deliveries[i];
    }
    CountRejectedOfAll(c.deliveries[..n - 1], c.currentVersion);
    var next := Review(c, actor, delivery, decision, expectedVersion, note).value;
    assert next.deliveries[..n - 1] == c.deliveries[..n - 1];
  }

  lemma RaiseDisputeKeepsOk(c: Contract, actor: string, reason: string, delivery: Option<nat>, expectedVersion: int)
    requires ContractOk(c) && RaiseDispute(c, actor, reason, delivery, expectedVersion).Ok?
    ensures ContractOk(RaiseDispute(c, actor, reason, delivery, expectedVersion).value)
  {
  }

  lemma AdjudicateKeepsOk(c: Contract, worldId: string, contractId: string, dispute: nat, actor: string,
                          ruling: RulingInput, hasResolution: bool, expectedVersion: int,
                          authorization: Option<Authorization>)
    requires ContractOk(c)
    requires Adjudicate(c, worldId, contractId, dispute, actor, ruling, hasResolution, expectedVersion, authorization).Ok?
    ensures ContractOk(
      Adjudicate(c, worldId, contractId, dispute, actor, ruling, hasResolution, expectedVersion, authorization).value)
  {
  }

  /** Every command on an existing contract. */
  datatype ContractCommand =
    | PublishVersion(publisher: string, onVersion: int, terms: Terms)
    | AcceptTerms(party: string, onVersion: int, acceptanceKey: string)
    | SubmitWork(submitter: string, onVersion: int, artifactRef: string, deliveryKey: string)
    | ReviewWork(reviewer: string, onVersion: int, delivery: nat, decision: Decision, note: Option<string>)
    | OpenDispute(raiser: string, onVersion: int, reason: string, disputed: Option<nat>)
    | Rule(actor: string, onVersion: int, dispute: nat, ruling: RulingInput, hasResolution: bool,
           authorization: Option<Authorization>)

  function Execute(c: Contract, worldId: string, contractId: string, command: ContractCommand): Result<Contract, Problem> {
    match command
    case PublishVersion(publisher, version, terms) => Publish(c, publisher, version, terms)
    case AcceptTerms(party, version, key) =>
      var reply := AcceptVersion(c, party, version, key);
      if reply.Err? then Err(reply.error) else Ok(reply.value.contract)
    case SubmitWork(submitter, version, artifactRef, key) =>
      var reply := Submit(c, submitter, artifactRef, key, version);
      if reply.Err? then Err(reply.error) else Ok(reply.value.contract)
    case ReviewWork(reviewer, version, delivery, decision, note) => Review(c, reviewer, delivery, decision, version, note)
    case OpenDispute(raiser, version, reason, disputed) => RaiseDispute(c, raiser, reason, disputed, version)
    case Rule(actor, version, dispute, ruling, hasResolution, authorization) =>
      Adjudicate(c, worldId, contractId, dispute, actor, ruling, hasResolution, version, authorization)
  }

  lemma ExecuteKeepsOk(c: Contract, worldId: string, contractId: string, command: ContractCommand)
    requires ContractOk(c) && Execute(c, worldId, contractId, command).Ok?
    ensures ContractOk(Execute(c, worldId, contractId, command).value)
  {
    hide ContractOk, Publish, AcceptVersion, Submit, Review, RaiseDispute, Adjudicate;
    match command
    case PublishVersion(publisher, version, terms) => PublishKeepsOk(c, publisher, version, terms);
    case AcceptTerms(party, version, key) => AcceptVersionKeepsOk(c, party, version, key);
    case SubmitWork(submitter, version, artifactRef, key) => SubmitKeepsOk(c, submitter, artifactRef, key, version);
    case ReviewWork(reviewer, version, delivery, decision, note) =>
      ReviewKeepsOk(c, reviewer, delivery, decision, version, note);
    case OpenDispute(raiser, version, reason, disputed) => RaiseDisputeKeepsOk(c, raiser, reason, disputed, version);
    case Rule(actor, version, dispute, ruling, hasResolution, authorization) =>
      AdjudicateKeepsOk(c, worldId, contractId, dispute, actor, ruling, hasResolution, version, authorization);
  }

  /** What identifies a submission never changes. */
  predicate SameSubmission(a: Delivery, b: Delivery) {
    b == a.(status := b.status)
  }

  predicate HasAcceptedDelivery(c: Contract) {
    exists i :: 0 <= i < |c.deliveries|
      && c.deliveries[i].version == c.currentVersion && c.deliveries[i].status == Accepted
  }

  /** An accepted delivery or a dispute: from here the contract only moves towards SETTLED. */
  predicate Settling(c: Contract) {
    c.status in {Disputed, Settled} || (c.status == Submitted && HasAcceptedDelivery(c))
  }

  /** What no command takes back. Once a contract is ACTIVE its version and its acceptances are fixed. */
  predicate ContractGrows(a: Contract, b: Contract) {
    && b.employer == a.employer && b.contractor == a.contractor
    && a.currentVersion <= b.currentVersion
    && (forall v :: v in a.versions ==> v in b.versions && b.versions[v] == a.versions[v])
    && (a.status != Proposed ==>
          && b.status != Proposed && b.escrowRef == a.escrowRef
          && b.currentVersion == a.currentVersion && b.versions == a.versions && b.acceptances == a.acceptances)
    && (Settling(a) ==> Settling(b))
    && (a.status == Settled ==> b.status == Settled)
    && |a.deliveries| <= |b.deliveries|
    && (forall i :: 0 <= i < |a.deliveries| ==> SameSubmission(a.deliveries[i], b.deliveries[i]))
  }

  lemma ContractGrowsTransitive(a: Contract, b: Contract, c: Contract)
    requires ContractGrows(a, b) && ContractGrows(b, c)
    ensures ContractGrows(a, c)
  {
    hide Settling;
    forall i | 0 <= i < |a.deliveries| ensures SameSubmission(a.deliveries[i], c.deliveries[i]) {
      assert SameSubmission(a.deliveries[i], b.deliveries[i]) && SameSubmission(b.deliveries[i], c.deliveries[i]);
    }
  }

  lemma ExecuteGrows(c: Contract, worldId: string, contractId: string, command: ContractCommand)
    requires ContractOk(c) && Execute(c, worldId, contractId, command).Ok?
    ensures var next := Execute(c, worldId, contractId, command).value;
      && ContractGrows(c, next)
      && (c.status == Proposed <==> next.status == Proposed)
      && (c.status == Settled <==> next.status == Settled)
  {
    hide Publish, AcceptVersion, Submit, Review, RaiseDispute, Adjudicate, ContractOk, ContractGrows;
    match command
    case PublishVersion(publisher, version, terms) => PublishGrows(c, publisher, version, terms);
    case AcceptTerms(party, version, key) => AcceptVersionGrows(c, party, version, key);
    case SubmitWork(submitter, version, artifactRef, key) => SubmitGrows(c, submitter, artifactRef, key, version);
    case ReviewWork(reviewer, version, delivery, decision, note) => ReviewGrows(c, reviewer, delivery, decision, version, note);
    case OpenDispute(raiser, version, reason, disputed) => RaiseDisputeGrows(c, raiser, reason, disputed, version);
    case Rule(actor, version, dispute, ruling, hasResolution, authorization) =>
      AdjudicateGrows(c, worldId, contractId, dispute, actor, ruling, hasResolution, version, authorization);
  }

  /** The contract grows, and enters or leaves neither PROPOSED nor SETTLED. */
  predicate GrowsInPlace(a: Contract, b: Contract) {
    ContractGrows(a, b) && (a.status == Proposed <==> b.status == Proposed) && (a.status == Settled <==> b.status == Settled)
  }

  lemma PublishGrows(c: Contract, publisher: string, version: int, terms: Terms)
    requires ContractOk(c) && Publish(c, publisher, version, terms).Ok?
    ensures GrowsInPlace(c, Publish(c, publisher, version, terms).value)
  {
  }

  lemma AcceptVersionGrows(c: Contract, party: string, version: int, key: string)
    requires ContractOk(c) && AcceptVersion(c, party, version, key).Ok?
    ensures GrowsInPlace(c, AcceptVersion(c, party, version, key).value.contract)
  {
  }

  lemma SubmitGrows(c: Contract, actor: string, artifactRef: string, key: string, version: int)
    requires ContractOk(c) && Submit(c, actor, artifactRef, key, version).Ok?
    ensures GrowsInPlace(c, Submit(c, actor, artifactRef, key, version).value.contract)
  {
  }

  lemma RaiseDisputeGrows(c: Contract, raiser: string, reason: string, disputed: Option<nat>, version: int)
    requires ContractOk(c) && RaiseDispute(c, raiser, reason, disputed, version).Ok?
    ensures GrowsInPlace(c, RaiseDispute(c, raiser, reason, disputed, version).value)
  {
  }

  lemma AdjudicateGrows(c: Contract, worldId: string, contractId: string, dispute: nat, actor: string, ruling: RulingInput,
                        hasResolution: bool, version: int, authorization: Option<Authorization>)
    requires ContractOk(c)
    requires Adjudicate(c, worldId, contractId, dispute, actor, ruling, hasResolution, version, authorization).Ok?
    ensures GrowsInPlace(
      c, Adjudicate(c, worldId, contractId, dispute, actor, ruling, hasResolution, version, authorization).value)
  {
  }

  /** An accepted delivery cannot be reviewed away, because only the last one is open to review. */
  lemma ReviewGrows(c: Contract, actor: string, delivery: nat, decision: Decision, expectedVersion: int, note: Option<string>)
    requires ContractOk(c) && Review(c, actor, delivery, decision, expectedVersion, note).Ok?
    ensures GrowsInPlace(c, Review(c, actor, delivery, decision, expectedVersion, note).value)
  {
    ReviewKeepsOk(c, actor, delivery, decision, expectedVersion, note);
    var n := |c.deliveries|;
    forall i | 0 <= i < n - 1 ensures c.deliveries[i].status == Rejected {
      assert c.deliveries[..n - 1][i] == c.deliveries[i];
    }
  }

  /** Replaying a delivery key gives back the delivery it first made and changes nothing. */
  lemma SubmitReplay(c: Contract, later: Contract, actor: string, artifactRef: string, key: string, version: int)
    requires ContractOk(c) && ContractOk(later)
    requires Submit(c, actor, artifactRef, key, version).Ok?
    requires ContractGrows(Submit(c, actor, artifactRef, key, version).value.contract, later)
    ensures Submit(later, actor, artifactRef, key, version)
         == Ok(SubmitReply(later, Submit(c, actor, artifactRef, key, version).value.delivery, true))
  {
    var made := Submit(c, actor, artifactRef, key, version).value;
    var found := FindDelivery(later.deliveries, key);
    assert made.contract.deliveries[made.delivery].idempotencyKey == key;
    assert SameSubmission(made.contract.deliveries[made.delivery], later.deliveries[made.delivery]);
    assert later.deliveries[made.delivery].idempotencyKey == key;
    assert found.Some? && found.value == made.delivery;
    assert made.contract.status != Proposed;
  }
}
