/**
 The ledger tables as mutable state, and the functions of src/services/economy.js as the
 transactions that update them, each proved against its function in `Ledger`.
 */
module LedgerDb {
  import opened Wrappers
  import opened EventLog
  import opened L = Ledger
  import C = Commands

  class LedgerDb {
    var entities: map<string, Entity>
    var wallets: map<string, nat>
    var journals: seq<Journal>
    var reservations: seq<Reservation>
    var fees: map<FeeKey, nat>
    var activated: set<string>
    var events: seq<Event>
    var outbox: seq<nat>
    var actions: map<C.ActionKey, C.ActionRow>

    ghost function View(): L.Ledger
      reads this
    {
      L.Ledger(entities, wallets, journals, reservations, fees, activated, Log(events, outbox))
    }

    constructor ()
      ensures View() == L.Ledger(map[], map[], [], [], map[], {}, Log([], [])) && actions == map[]
    {
      entities, wallets, journals, reservations := map[], map[], [], [];
      fees, activated, events, outbox, actions := map[], {}, [], [], map[];
    }

    method AppendEvent(aggregate: Aggregate, eventType: string)
      modifies this`events, this`outbox
      ensures View() == old(View()).(log := Append(old(View()).log, aggregate, eventType))
    {
      var next := LastSeq(events, aggregate) + 1;
      outbox := outbox + [|events|];
      events := events + [Event(aggregate, next, eventType)];
    }

    method CreateEntity(entity: string, isSystem: bool)
      modifies this
      ensures actions == old(actions)
      ensures View() == L.CreateEntity(old(View()), entity, isSystem)
    {
      if entity !in entities && entity !in wallets {
        entities := entities[entity := Entity(isSystem, true)];
        wallets := wallets[entity := 0];
        AppendEvent(Aggregate("ENTITY", entity), "ENTITY_CREATED");
      }
    }

    /** `lockWallet` */
    method LockWallet(entity: string) returns (available: Result<int, LedgerProblem>)
      ensures available == if entity in wallets then Ok(Available(View(), entity)) else Err(WalletNotFound)
    {
      if entity !in wallets {
        return Err(WalletNotFound);
      }
      return Ok(Posted(journals, Wallet(entity)) - wallets[entity] - Reserved(reservations, entity));
    }

    /** Inserts the journal row, then its postings one by one. */
    method CreateBalancedJournal(businessKey: string, kind: JournalKind, postings: seq<Posting>)
      returns (reply: Result<Reply, LedgerProblem>)
      modifies this`journals
      ensures var booked := Book(old(View()), businessKey, kind, postings);
        if booked.Err? then reply == Err(booked.error) && View() == old(View())
        else reply == Ok(Reply(Some(booked.value.journal), None, booked.value.replayed)) && View() == booked.value.after
    {
      var existing := FindJournal(journals, businessKey);
      if existing.Some? {
        var prior := journals[existing.value];
        if prior.kind != kind || multiset(prior.postings) != multiset(postings) {
          return Err(IdempotencyConflict);
        }
        return Ok(Reply(existing, None, true));
      }
      var id := |journals|;
      journals := journals + [Journal(businessKey, kind, [])];
      for i := 0 to |postings|
        invariant journals == old(journals) + [Journal(businessKey, kind, postings[..i])]
      {
        var row := journals[id];
        assert postings[..i + 1] == postings[..i] + [postings[i]];
        journals := journals[id := row.(postings := row.postings + [postings[i]])];
      }
      assert postings[..|postings|] == postings;
      return Ok(Reply(Some(id), None, false));
    }

    method Mint(target: string, amount: int, basisKey: string, actor: string) returns (reply: Result<Reply, LedgerProblem>)
      modifies this
      ensures actions == old(actions)
      ensures Done(View(), reply) == L.Mint(old(View()), target, amount, basisKey, actor)
    {
      if amount <= 0 {
        return Err(InvalidAmount);
      }
      if actor !in entities || !entities[actor].isSystem {
        return Err(Forbidden);
      }
      var _ :- LockWallet(target);
      reply := CreateBalancedJournal("mint:" + basisKey, MintJournal,
                                     Move(System("TREASURY_CONTROL"), Wallet(target), amount));
      if reply.Ok? && !reply.value.replayed {
        AppendEvent(Aggregate("WALLET", target), "ENERGY_MINTED");
      }
    }

    method Transfer(from: string, to: string, amount: int, businessKey: string, actor: string)
      returns (reply: Result<Reply, LedgerProblem>)
      modifies this
      ensures actions == old(actions)
      ensures Done(View(), reply) == L.Transfer(old(View()), from, to, amount, businessKey, actor)
      ensures reply.Ok? ==>
        actor == from && from != to && from in old(wallets) && to in old(wallets) && 0 < amount <= Available(old(View()), from)
    {
      if amount <= 0 || from == to {
        return Err(InvalidTransfer);
      }
      if actor != from {
        return Err(Forbidden);
      }
      var available :- LockWallet(from);
      var _ :- LockWallet(to);
      if available < amount {
        return Err(InsufficientEnergy);
      }
      reply := CreateBalancedJournal("transfer:" + businessKey, TransferJournal, Move(Wallet(from), Wallet(to), amount));
      if reply.Ok? && !reply.value.replayed {
        AppendEvent(Aggregate("WALLET", from), "ENERGY_TRANSFERRED_OUT");
        AppendEvent(Aggregate("WALLET", to), "ENERGY_TRANSFERRED_IN");
      }
    }

    method Reserve(entity: string, amount: int, businessKey: string, actor: string)
      returns (reply: Result<Reply, LedgerProblem>)
      modifies this
      ensures actions == old(actions)
      ensures Done(View(), reply) == L.Reserve(old(View()), entity, amount, businessKey, actor)
    {
      if amount <= 0 {
        return Err(InvalidAmount);
      }
      if actor != entity {
        return Err(Forbidden);
      }
      var available :- LockWallet(entity);
      if available < amount {
        return Err(InsufficientEnergy);
      }
      var existing := FindReservation(reservations, entity, businessKey);
      if existing.Some? {
        var row := reservations[existing.value];
        if row.amount != amount || row.status != Active {
          return Err(IdempotencyConflict);
        }
        return Ok(Reply(None, existing, true));
      }
      reservations := reservations + [Reservation(entity, businessKey, amount, Active, None, None)];
      var id := |reservations| - 1;
      AppendEvent(Aggregate("WALLET", entity), "ENERGY_RESERVED");
      return Ok(Reply(None, Some(id), false));
    }

    method Release(entity: string, reservation: nat, actor: string) returns (reply: Result<Reply, LedgerProblem>)
      modifies this
      ensures actions == old(actions)
      ensures Done(View(), reply) == L.Release(old(View()), entity, reservation, actor)
    {
      if actor != entity {
        return Err(Forbidden);
      }
      var _ :- LockWallet(entity);
      if reservation >= |reservations| || reservations[reservation].entity != entity {
        return Err(ReservationNotFound);
      }
      var row := reservations[reservation];
      if row.status == Released {
        return Ok(Reply(None, Some(reservation), true));
      }
      if row.status != Active {
        return Err(ReservationNotReleasable);
      }
      reservations := reservations[reservation := row.(status := Released)];
      AppendEvent(Aggregate("WALLET", entity), "ENERGY_RESERVATION_RELEASED");
      return Ok(Reply(None, Some(reservation), false));
    }

    method Settle(entity: string, reservation: nat, amount: int, businessKey: string, actor: string)
      returns (reply: Result<Reply, LedgerProblem>)
      modifies this
      ensures actions == old(actions)
      ensures Done(View(), reply) == L.Settle(old(View()), entity, reservation, amount, businessKey, actor)
    {
      if actor != entity {
        return Err(Forbidden);
      }
      if amount < 0 {
        return Err(InvalidAmount);
      }
      var _ :- LockWallet(entity);
      if reservation >= |reservations| || reservations[reservation].entity != entity {
        return Err(ReservationNotFound);
      }
      var row := reservations[reservation];
      if row.status == Settled {
        if row.settledAmount != Some(amount) {
          return Err(IdempotencyConflict);
        }
        return Ok(Reply(row.journal, Some(reservation), true));
      }
      if row.status != Active {
        return Err(ReservationNotSettleable);
      }
      if amount > row.amount {
        return Err(ReservationExceeded);
      }
      var journal: Option<nat> := None;
      if amount > 0 {
        var booked :- CreateBalancedJournal("resource-charge:" + businessKey, ResourceCharge,
                                            Move(Wallet(entity), System("CONSUMPTION_REDEMPTION"), amount));
        journal := booked.journal;
      }
      reservations := reservations[reservation := row.(status := Settled, settledAmount := Some(amount), journal := journal)];
      AppendEvent(Aggregate("WALLET", entity), "ENERGY_RESERVATION_SETTLED");
      return Ok(Reply(journal, Some(reservation), false));
    }

    method Fee(entity: string, billingDate: string) returns (reply: Result<Reply, LedgerProblem>)
      modifies this
      ensures actions == old(actions)
      ensures Done(View(), reply) == L.Fee(old(View()), entity, billingDate)
      ensures activated == old(activated)
    {
      var available :- LockWallet(entity);
      var fee := FeeKey(entity, billingDate);
      if fee in fees {
        return Ok(Reply(Some(fees[fee]), None, true));
      }
      if available - DAILY_ACTIVITY_FEE <= 0 {
        return Err(DailyFeeUnfunded);
      }
      var booked :- CreateBalancedJournal(FeeBusinessKey(entity, billingDate), DailyActivityFee, FeePostings(entity));
      fees := fees[fee := booked.journal.value];
      AppendEvent(Aggregate("WALLET", entity), "DAILY_ACTIVITY_FEE_CHARGED");
      return Ok(Reply(booked.journal, None, false));
    }

    /** `assertActivityInitiator` */
    method ActivityInitiator(entity: string, actor: string) returns (allowed: bool)
      ensures allowed == MayInitiate(View(), entity, actor)
    {
      return actor == entity || (actor in entities && entities[actor].isSystem && entities[actor].isActive);
    }

    method FirstActivation(entity: string, billingDate: string, actor: string) returns (reply: Result<Reply, LedgerProblem>)
      modifies this
      ensures actions == old(actions)
      ensures Done(View(), reply) == L.FirstActivation(old(View()), entity, billingDate, actor)
    {
      var allowed := ActivityInitiator(entity, actor);
      if !allowed {
        return Err(Forbidden);
      }
      if entity in activated {
        return Err(AlreadyActivated);
      }
      var available :- LockWallet(entity);
      var problem := ActivationProblem(available);
      if problem.Some? {
        return Err(problem.value);
      }
      reply := Fee(entity, billingDate);
      if reply.Ok? {
        activated := activated + {entity};
      }
    }

    method ChargeDailyActivityFee(entity: string, billingDate: string, actor: string)
      returns (reply: Result<Reply, LedgerProblem>)
      modifies this
      ensures actions == old(actions)
      ensures Done(View(), reply) == L.ChargeFee(old(View()), entity, billingDate, actor)
    {
      var allowed := ActivityInitiator(entity, actor);
      if !allowed {
        return Err(Forbidden);
      }
      if entity !in activated {
        return Err(NotActivated);
      }
      reply := Fee(entity, billingDate);
    }

    // ---- runCommand ----

    method Dispatch(actor: string, command: Command) returns (reply: Result<Reply, LedgerProblem>)
      modifies this
      ensures Done(View(), reply) == L.Execute(old(View()), actor, command)
      ensures actions == old(actions)
    {
      hide L.Mint, L.Transfer, L.Reserve, L.Release, L.Settle, L.FirstActivation, L.ChargeFee, L.CreateEntity;
      match command
      case CreateEntityCommand(entity, isSystem) =>
        CreateEntity(entity, isSystem);
        return Ok(Reply(None, None, false));
      case MintCommand(target, amount, basisKey) => reply := Mint(target, amount, basisKey, actor);
      case TransferCommand(from, to, amount, key) => reply := Transfer(from, to, amount, key, actor);
      case ReserveCommand(entity, amount, key) => reply := Reserve(entity, amount, key, actor);
      case ReleaseCommand(entity, reservation) => reply := Release(entity, reservation, actor);
      case SettleCommand(entity, reservation, amount, key) => reply := Settle(entity, reservation, amount, key, actor);
      case FirstActivationCommand(entity, date) => reply := FirstActivation(entity, date, actor);
      case FeeCommand(entity, date) => reply := ChargeDailyActivityFee(entity, date, actor);
    }

    method RunCommand(actor: string, idempotencyKey: string, actionId: string, actionType: string, payload: Command)
      returns (reply: Result<C.Outcome, C.CommandProblem>)
      modifies this
      ensures (C.Db(View(), actions), reply)
           == C.Run(C.Db(old(View()), old(actions)), LedgerCall(actor, idempotencyKey, actionId, actionType, payload))
    {
      hide L.Execute;
      if idempotencyKey == "" {
        return Err(C.IdempotencyKeyRequired);
      }
      if actor !in entities || !entities[actor].isActive {
        return Err(C.Unauthenticated);
      }
      var key := C.ActionKey(actor, idempotencyKey);
      if key in actions {
        var row := actions[key];
        if row.actionType != actionType || row.payload != payload {
          return Err(C.KeyUsedDifferently);
        }
        return C.Answer(row);
      }
      var done := Perform(key, actionId, actionType, payload);
      return if done.Ok? then Ok(C.Outcome(false, done.value)) else Err(C.Domain(done.error));
    }

    method Savepoint() returns (l: L.Ledger)
      ensures l == View()
    {
      return L.Ledger(entities, wallets, journals, reservations, fees, activated, Log(events, outbox));
    }

    method RollbackTo(l: L.Ledger)
      modifies this
      ensures View() == l && actions == old(actions)
    {
      entities, wallets, journals, reservations := l.entities, l.wallets, l.journals, l.reservations;
      fees, activated, events, outbox := l.fees, l.activated, l.log.events, l.log.outbox;
    }

    /** The work of a new action, under its savepoint. */
    method Perform(key: C.ActionKey, actionId: string, actionType: string, payload: Command)
      returns (done: Result<Reply, LedgerProblem>)
      modifies this
      ensures done == L.Execute(old(View()), key.actor, payload).reply
      ensures View() == if done.Ok? then C.ActionEvent(L.Execute(old(View()), key.actor, payload).after, actionId, "ACTION_SUCCEEDED")
                        else C.ActionEvent(old(View()), actionId, "ACTION_FAILED")
      ensures actions == old(actions)[key :=
        if done.Ok? then C.ActionRow(actionId, actionType, payload, C.Succeeded, Some(done.value), None)
        else C.ActionRow(actionId, actionType, payload, C.Failed, None, Some(done.error))]
    {
      hide L.Execute, Append;
      actions := actions[key := C.ActionRow(actionId, actionType, payload, C.Pending, None, None)];
      var savepoint := Savepoint();
      done := Dispatch(key.actor, payload);
      if done.Ok? {
        actions := actions[key := actions[key].(status := C.Succeeded, result := Some(done.value))];
        AppendEvent(Aggregate("ACTION", actionId), "ACTION_SUCCEEDED");
      } else {
        RollbackTo(savepoint);
        actions := actions[key := actions[key].(status := C.Failed, errorCode := Some(done.error))];
        AppendEvent(Aggregate("ACTION", actionId), "ACTION_FAILED");
      }
    }
  }

  /** A call whose work is the ledger command its payload names. */
  function LedgerCall(actor: string, idempotencyKey: string, actionId: string, actionType: string, payload: Command): C.Call {
    C.Call(actor, idempotencyKey, actionId, actionType, payload,
           l => (L.Execute(l, actor, payload).after, L.Execute(l, actor, payload).reply))
  }
}
