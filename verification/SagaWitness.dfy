/**
 A run of the whole protocol in which a result that only the inbox holds does not keep its key from
 being sent again.
 */
module SagaWitness {
  import opened Wrappers
  import opened OperationKeys
  import opened Text
  import opened Sagas
  import opened SagaStore
  import opened SagaWorker
  import opened SagaInvariants
  import opened Contracts
  import opened ContractSagas
  import opened SagaWorld
  import opened SagaWorldProofs
  import opened SagaTheorems

  const KEY := OperationKey("w", "a", FundEscrow)
  const ID := ContractId("w", "c")
  const TERMS := Terms("s", "1", true, true, 0, "r")
  const INPUT := ActivationInput("w", "c", "s", "a", "p", "c", [])
  const EMPTY_STORE := Store(map[], map[], map[], map[])

  function WitnessSaga(): Saga {
    var request := FinancialRequest("p", EscrowPayload(Some(Fund), "c", "1", Funding([])));
    Saga(ContractActivation, "s", "a", "w", "c", 1, PendingRemote, FundEscrow, KEY, Sha256(request), request,
         None, None, None, None, None, None)
  }

  function Agreed(): Contract {
    Contract("e", "f", Proposed, 1, map[1 := TERMS], [Acceptance(1, "e", "x", false), Acceptance(1, "f", "y", false)],
             None, [], [])
  }

  function PreparedStore(): Store {
    Store(map["s" := SagaRow(PendingRemote, None, WitnessSaga(), 1, None)], map[AttemptOf(WitnessSaga()) := "s"],
          map[KEY := NewOutboxRow(WitnessSaga(), PrimaryCommand(WitnessSaga()), 0)], map[])
  }

  function LeasedStore(): Store {
    Claim(PreparedStore(), KEY, "k", 1000, 0)
  }

  const CLAIM := Claimed(KEY, LeasedStore().outbox[KEY])
  const LOOKUP := Lookup("w", "s", KEY)

  /** The worker lost the reply, and the reconciler may look. */
  function LostReply(): Store {
    RecordFailure(LeasedStore(), Failure(KEY, "k", "E", false, true, 0, 5), 0).after
  }

  /** The lookup reports the success that did happen, with the digest of another payload. */
  function ForeignAnswer(): RawResult {
    var other := FinancialRequest("p", EscrowPayload(Some(Fund), "c", "2", Funding([])));
    RawResult(Some(KEY), None, Some(Sha256(other)), RawSucceeded, Some("ref"), None)
  }

  function Agreement(): seq<Step> {
    [ProposeContract(ID, "e", "e", "f", TERMS, true), OnContract(ID, AcceptTerms("e", 1, "x")),
     OnContract(ID, AcceptTerms("f", 1, "y")), PrepareFunding(INPUT)]
  }

  function Dispatching(): seq<Step> {
    [ClaimRow(KEY, "k", 1000), Send(CLAIM, "q", Arrives(true, "ref")), HandleReply(CLAIM, Thrown(false, "E"), 0)]
  }

  function Reconciliation(): seq<Step> {
    [LookUp(KEY, 0), Found(LOOKUP, ForeignAnswer()), NotFound(LOOKUP)]
  }

  // ---- Where the run stands ----

  function AgreedWorld(): World {
    Start(5).(db := Social(EMPTY_STORE, map[ID := Agreed()]))
  }

  function PreparedWorld(): World {
    AgreedWorld().(db := Social(PreparedStore(), map[ID := Agreed()]))
  }

  function SentWorld(): World {
    var request := RequestFor(CLAIM.row.command, "q");
    PreparedWorld().(db := Social(LeasedStore(), map[ID := Agreed()]), claims := {CLAIM}, sent := [request],
                     kb := map[request.idempotencyKey := KbEntry(request, true, "ref")])
  }

  lemma Ink(s: string)
    requires s != "" && !IsJsSpace(s[0])
    ensures !Blank(s)
  {
  }

  function Proposal(): Contract {
    Contract("e", "f", Proposed, 1, map[1 := TERMS], [], None, [], [])
  }

  function HalfAgreed(): Contract {
    Proposal().(acceptances := [Acceptance(1, "e", "x", false)])
  }

  lemma CommandsAgree()
    ensures Propose("e", "e", "f", TERMS, true) == Ok(Proposal())
    ensures Execute(Proposal(), "w", "c", AcceptTerms("e", 1, "x")) == Ok(HalfAgreed())
    ensures Execute(HalfAgreed(), "w", "c", AcceptTerms("f", 1, "y")) == Ok(Agreed())
  {
    Ink("e"); Ink("f"); Ink("s"); Ink("r"); Ink("x"); Ink("y");
    assert IsNonNegativeDecimal("1");
    assert Proposal().acceptances == [];
    assert !HasAccepted(Proposal(), 1, "e");
    assert Proposal().acceptances + [Acceptance(1, "e", "x", false)] == HalfAgreed().acceptances;
    assert HalfAgreed().acceptances[0].party[0] != "f"[0];
    assert !HasAccepted(HalfAgreed(), 1, "f");
    assert HalfAgreed().acceptances + [Acceptance(1, "f", "y", false)] == Agreed().acceptances;
  }

  lemma AgreementReaches()
    ensures Apply(Apply(Apply(Start(5), Agreement()[0]), Agreement()[1]), Agreement()[2]) == AgreedWorld()
  {
    hide Propose, Execute;
    CommandsAgree();
    var proposed := Start(5).(db := Social(EMPTY_STORE, map[ID := Proposal()]));
    assert Apply(Start(5), Agreement()[0]) == proposed;
    assert Apply(proposed, Agreement()[1]) == Start(5).(db := Social(EMPTY_STORE, map[ID := HalfAgreed()]));
  }

  lemma SagaIsCreated()
    ensures Sound(WitnessSaga())
    ensures BuildFinancialCommand(WitnessSaga()) == Ok(Some(PrimaryCommand(WitnessSaga())))
    ensures CreateSaga(ContractActivation, SagaInput("s", "w", "c", 1, "a", FundingRequest(INPUT, "1"))) == Ok(WitnessSaga())
  {
    hide OperationKey;
    var saga := WitnessSaga();
    assert PortProblem(saga.primaryRequest).None?;
    assert saga.primaryRequest.(payload := saga.primaryRequest.payload.(action := Some(Fund))) == saga.primaryRequest;
    var asked := FundingRequest(INPUT, "1");
    assert asked.(payload := asked.payload.(action := Some(Fund))) == saga.primaryRequest;
  }

  lemma IntentIsStored()
    ensures PrepareIntent(EMPTY_STORE, WitnessSaga(), 0).after == PreparedStore() && StoreOk(PreparedStore())
  {
    SagaIsCreated();
    assert StoreOk(EMPTY_STORE);
    PrepareIntentKeepsOk(EMPTY_STORE, WitnessSaga(), 0);
    hide StoreOk, Sound, OperationKey, BuildFinancialCommand;
  }

  lemma PreparationReaches()
    ensures Apply(AgreedWorld(), PrepareFunding(INPUT)) == PreparedWorld()
  {
    hide StoreOk, Sound, CreateSaga, PrepareIntent, AcceptedParties, Apply, OperationKey;
    PrepareFundingStep(AgreedWorld(), INPUT);
    SagaIsCreated();
    IntentIsStored();
    Ink("w"); Ink("c"); Ink("s"); Ink("a"); Ink("p");
    var c := Agreed();
    assert c.acceptances[0].party == "e" && c.acceptances[1].party == "f";
    assert HasAccepted(c, 1, "e") && HasAccepted(c, 1, "f");
    assert "e"[0] != "f"[0];
    TwoAcceptancesAreBothParties(c);
  }

  lemma KeyIsText()
    ensures !Blank(KEY)
  {
    assert KEY[0] == 'n';
    Ink(KEY);
  }

  lemma DeliveryReaches()
    ensures Apply(Apply(PreparedWorld(), Dispatching()[0]), Dispatching()[1]) == SentWorld()
    ensures StoreOk(LeasedStore())
  {
    hide StoreOk, OperationKey, Blank;
    IntentIsStored();
    Ink("k");
    ClaimKeepsOk(PreparedStore(), KEY, "k", 1000, 0);
    var claimed := PreparedWorld().(db := Social(LeasedStore(), map[ID := Agreed()]), claims := {CLAIM});
    assert Apply(PreparedWorld(), Dispatching()[0]) == claimed;
  }

  lemma LostReplyIsFrozen()
    ensures var store := LostReply();
      && StoreOk(store) && RecordFailure(LeasedStore(), Failure(KEY, "k", "E", false, true, 0, 5), 0).reply == Ok(NeedsReconciliation)
      && LookupDue(store, KEY, 0) && KEY !in store.inbox
      && store.outbox[KEY].sagaId == "s" && store.outbox[KEY].worldId == "w"
      && store.outbox[KEY].digest == WitnessSaga().primaryDigest
      && store.sagas["s"].snapshot.primaryResult.None? && store.sagas["s"].snapshot.worldId == "w"
  {
    hide StoreOk, OperationKey, Blank, StoreGrows;
    DeliveryReaches();
    KeyIsText();
    Ink("k");
    Ink("E");
    RecordFailureKeepsOk(LeasedStore(), Failure(KEY, "k", "E", false, true, 0, 5), 0);
  }

  /** After the lost reply and the lookup. */
  function LookedWorld(): World
    requires LookupDue(LostReply(), KEY, 0)
  {
    SentWorld().(db := Social(ClaimLookup(LostReply(), KEY, 0, 0), map[ID := Agreed()]), lookups := {LOOKUP})
  }

  function FrozenWorld(): World {
    SentWorld().(db := Social(LostReply(), map[ID := Agreed()]))
  }

  lemma FailureReaches()
    ensures Apply(SentWorld(), Dispatching()[2]) == FrozenWorld()
  {
    hide StoreOk, OperationKey, Blank, RecordFailure, LookupDue;
    LostReplyIsFrozen();
    Ink("E");
  }

  lemma LookupReaches()
    ensures LookupDue(LostReply(), KEY, 0)
    ensures Apply(FrozenWorld(), Reconciliation()[0]) == LookedWorld()
  {
    hide StoreOk, OperationKey, Blank, LostReply, ClaimLookup, LookupDue;
    LostReplyIsFrozen();
  }

  function Answered(): Store
    requires LookupDue(LostReply(), KEY, 0)
  {
    RecordResult(ClaimLookup(LostReply(), KEY, 0, 0), "w", KEY, ForeignAnswer(), 0).after
  }

  /** The foreign answer reaches the inbox only, and NOT_FOUND makes the key due again. */
  lemma AnswerIsNoFence()
    ensures LookupDue(LostReply(), KEY, 0)
    ensures var (retried, outcome) := RetryAfterNotFound(Answered(), "w", "s", KEY, 0);
      && outcome == SameKeyRetryScheduled && KEY in retried.inbox && KEY in retried.outbox && Claimable(retried.outbox[KEY], 0)
  {
    hide StoreOk, OperationKey, Blank, RecordFailure, RecordResult, RetryAfterNotFound, StoreGrows;
    LostReplyIsFrozen();
    KeyIsText();
    Ink("w");
    Ink("ref");
    ClaimLookupKeepsOk(LostReply(), KEY, 0, 0);
    assert "1"[0] != "2"[0];
    InboxAloneIsNoFence(ClaimLookup(LostReply(), KEY, 0, 0), KEY, ForeignAnswer(), 0);
  }

  lemma ReconciliationReaches()
    ensures LookupDue(LostReply(), KEY, 0)
    ensures Apply(Apply(LookedWorld(), Reconciliation()[1]), Reconciliation()[2])
         == LookedWorld().(db := Social(RetryAfterNotFound(Answered(), "w", "s", KEY, 0).0, map[ID := Agreed()]))
  {
    hide StoreOk, OperationKey, Blank, LostReply, RecordResult, RetryAfterNotFound, ClaimLookup, LookupDue;
    AnswerIsNoFence();
    var answered := LookedWorld().(db := Social(Answered(), map[ID := Agreed()]));
    assert TruthfulResult(LookedWorld().kb, KEY, ForeignAnswer());
    assert Apply(LookedWorld(), Reconciliation()[1]) == answered;
  }

  lemma RunOne(w: World, steps: seq<Step>, step: Step)
    ensures Run(w, steps + [step]) == Apply(Run(w, steps), step)
  {
    assert (steps + [step])[..|steps|] == steps;
    hide Apply;
  }

  lemma RunThree(w: World, steps: seq<Step>, first: Step, second: Step, third: Step)
    ensures Run(w, steps + [first, second, third]) == Apply(Apply(Apply(Run(w, steps), first), second), third)
  {
    hide Run, Apply;
    RunOne(w, steps, first);
    RunOne(w, steps + [first], second);
    RunOne(w, steps + [first] + [second], third);
    assert steps + [first, second, third] == steps + [first] + [second] + [third];
  }

  /**
   A contract agreed on, a funding prepared, sent and run, its reply lost; the lookup answers for a
   foreign payload, and a second answer is NOT_FOUND. The inbox holds the result, and the key is due again.
   */
  lemma InboxAloneIsNoFenceWitness()
    ensures var w := Run(Start(5), Agreement() + Dispatching() + Reconciliation());
      && Reachable(w) && KEY in w.kb && w.kb[KEY].executed
      && KEY in w.db.store.inbox && KEY in w.db.store.outbox && Claimable(w.db.store.outbox[KEY], w.now)
  {
    hide Apply, LostReply, RetryAfterNotFound, LookupDue, Answered, Run;
    var start := Start(5);
    AgreementReaches();
    RunThree(start, [], Agreement()[0], Agreement()[1], Agreement()[2]);
    RunNothing(start);
    PreparationReaches();
    RunOne(start, [] + [Agreement()[0], Agreement()[1], Agreement()[2]], Agreement()[3]);
    assert [] + [Agreement()[0], Agreement()[1], Agreement()[2]] + [Agreement()[3]] == Agreement();
    DeliveryReaches();
    RunThree(start, Agreement(), Dispatching()[0], Dispatching()[1], Dispatching()[2]);
    assert [Dispatching()[0], Dispatching()[1], Dispatching()[2]] == Dispatching();
    FailureReaches();
    LookupReaches();
    RunThree(start, Agreement() + Dispatching(), Reconciliation()[0], Reconciliation()[1], Reconciliation()[2]);
    assert [Reconciliation()[0], Reconciliation()[1], Reconciliation()[2]] == Reconciliation();
    ReconciliationReaches();
    AnswerIsNoFence();
    RunIsReachable(5, Agreement() + Dispatching() + Reconciliation());
  }

  lemma RunNothing(w: World)
    ensures Run(w, []) == w
  {
  }

  lemma RunIsReachable(maxAttempts: int, steps: seq<Step>)
    ensures Reachable(Run(Start(maxAttempts), steps))
  {
    hide Run;
  }
}
