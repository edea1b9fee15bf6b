/**
 Who may do what with the ledger: each command is accepted exactly under its rule, and nobody but its
 owner takes anything from a wallet, except the fees a SYSTEM actor may charge for an activated subject.
 */
module LedgerRules {
  import opened Wrappers
  import opened EventLog
  import opened Ledger
  import opened LedgerInvariants
  import opened LedgerTheorems
  import opened Commands

  // ---- Rules ----

  /** The business key is free, or holds a journal of this kind with these postings. */
  predicate KeyAllows(l: Ledger, key: string, kind: JournalKind, postings: seq<Posting>) {
    forall i :: 0 <= i < |l.journals| && l.journals[i].businessKey == key ==>
      l.journals[i].kind == kind && multiset(l.journals[i].postings) == multiset(postings)
  }

  predicate IsSystem(l: Ledger, actor: string) {
    actor in l.entities && l.entities[actor].isSystem
  }

  predicate IsActiveSystem(l: Ledger, actor: string) {
    IsSystem(l, actor) && l.entities[actor].isActive
  }

  /** A fee that is on record, or that is new, leaves something, and has a free key. */
  predicate FeeAllowed(l: Ledger, entity: string, date: string) {
    && entity in l.wallets
    && (FeeKey(entity, date) in l.fees
        || (Available(l, entity) > 1_000_000
            && forall i :: 0 <= i < |l.journals| ==> l.journals[i].businessKey != FeeBusinessKey(entity, date)))
  }

  predicate Permitted(l: Ledger, actor: string, command: Command) {
    match command
    case CreateEntityCommand(_, _) => true
    case MintCommand(target, amount, key) =>
      && IsSystem(l, actor) && amount > 0 && target in l.wallets
      && KeyAllows(l, "mint:" + key, MintJournal, Move(System("TREASURY_CONTROL"), Wallet(target), amount))
    case TransferCommand(from, to, amount, key) =>
      && actor == from && to != from && 0 < amount && from in l.wallets && to in l.wallets && amount <= Available(l, from)
      && KeyAllows(l, "transfer:" + key, TransferJournal, Move(Wallet(from), Wallet(to), amount))
    case ReserveCommand(entity, amount, key) =>
      && actor == entity && 0 < amount && entity in l.wallets && amount <= Available(l, entity)
      && forall i :: 0 <= i < |l.reservations| && LastHoldFor(l, entity, key, i) ==>
           l.reservations[i].amount == amount && l.reservations[i].status == Active
    case ReleaseCommand(entity, reservation) =>
      && actor == entity && entity in l.wallets
      && reservation < |l.reservations| && l.reservations[reservation].entity == entity
      && l.reservations[reservation].status != Settled
    case SettleCommand(entity, reservation, amount, key) =>
      && actor == entity && entity in l.wallets && amount >= 0
      && reservation < |l.reservations| && l.reservations[reservation].entity == entity
      && var row := l.reservations[reservation];
         || (row.status == Settled && row.settledAmount == Some(amount))
         || (row.status == Active && amount <= row.amount
             && (amount == 0 || KeyAllows(l, "resource-charge:" + key, ResourceCharge,
                                          Move(Wallet(entity), System("CONSUMPTION_REDEMPTION"), amount))))
    case FirstActivationCommand(entity, date) =>
      && (actor == entity || IsActiveSystem(l, actor)) && entity !in l.activated
      && entity in l.wallets && Available(l, entity) >= 100_000_000 && FeeAllowed(l, entity, date)
    case FeeCommand(entity, date) =>
      (actor == entity || IsActiveSystem(l, actor)) && entity in l.activated && FeeAllowed(l, entity, date)
  }

  predicate LastHoldFor(l: Ledger, entity: string, key: string, i: nat) {
    && i < |l.reservations| && l.reservations[i].entity == entity && l.reservations[i].businessKey == key
    && forall j :: i < j < |l.reservations| ==> l.reservations[j].entity != entity || l.reservations[j].businessKey != key
  }

  lemma {:induction false} FoundIsLast(rs: seq<Reservation>, entity: string, key: string)
    ensures var found := FindReservation(rs, entity, key);
      found.Some? ==> forall j :: found.value < j < |rs| ==> rs[j].entity != entity || rs[j].businessKey != key
  {
    if rs == [] {
    } else if rs[|rs| - 1].entity == entity && rs[|rs| - 1].businessKey == key {
    } else {
      FoundIsLast(rs[..|rs| - 1], entity, key);
    }
  }

  lemma KeysDecide(l: Ledger, key: string, kind: JournalKind, postings: seq<Posting>)
    requires forall i, j :: 0 <= i < j < |l.journals| ==> l.journals[i].businessKey != l.journals[j].businessKey
    ensures Book(l, key, kind, postings).Ok? <==> KeyAllows(l, key, kind, postings)
  {
    var found := FindJournal(l.journals, key);
    hide FindJournal;
  }

  lemma DistinctJournals(l: Ledger)
    requires LedgerOk(l)
    ensures forall i, j :: 0 <= i < j < |l.journals| ==> l.journals[i].businessKey != l.journals[j].businessKey
  {
  }

  lemma FeesFollowTheRule(l: Ledger, entity: string, date: string)
    requires LedgerOk(l)
    ensures Fee(l, entity, date).reply.Ok? <==> FeeAllowed(l, entity, date)
  {
    hide Available, Append, LedgerOk, FeePostings, FeeBusinessKey;
    if FeeKey(entity, date) !in l.fees {
      FeeKeyIsFresh(l, entity, date);
    }
    var found := FindJournal(l.journals, FeeBusinessKey(entity, date));
    hide FindJournal;
  }

  lemma HoldsFollowTheRule(l: Ledger, entity: string, amount: int, key: string, actor: string)
    ensures Reserve(l, entity, amount, key, actor).reply.Ok? <==> Permitted(l, actor, ReserveCommand(entity, amount, key))
  {
    hide Available, Append, KeyAllows, FeeAllowed;
    FoundIsLast(l.reservations, entity, key);
    var found := FindReservation(l.reservations, entity, key);
    hide FindReservation;
    if found.Some? {
      assert LastHoldFor(l, entity, key, found.value);
    }
  }

  lemma SettlementsFollowTheRule(l: Ledger, entity: string, reservation: nat, amount: int, key: string, actor: string)
    requires LedgerOk(l)
    ensures Settle(l, entity, reservation, amount, key, actor).reply.Ok?
       <==> Permitted(l, actor, SettleCommand(entity, reservation, amount, key))
  {
    DistinctJournals(l);
    hide LedgerOk, Book, KeyAllows, FeeAllowed, Available, Append, Move;
    KeysDecide(l, "resource-charge:" + key, ResourceCharge, Move(Wallet(entity), System("CONSUMPTION_REDEMPTION"), amount));
  }

  /** Every ledger command is accepted exactly when its rule permits it. */
  lemma CommandsFollowTheRules(l: Ledger, actor: string, command: Command)
    requires LedgerOk(l)
    ensures Execute(l, actor, command).reply.Ok? <==> Permitted(l, actor, command)
  {
    match command {
      case ReserveCommand(entity, amount, key) =>
        HoldsFollowTheRule(l, entity, amount, key, actor);
        hide Reserve, Permitted;
      case SettleCommand(entity, reservation, amount, key) =>
        SettlementsFollowTheRule(l, entity, reservation, amount, key, actor);
        hide Settle, Permitted;
      case FirstActivationCommand(entity, date) =>
        FeeCommandsFollowTheRules(l, entity, date, actor);
        hide FirstActivation, Permitted;
      case FeeCommand(entity, date) =>
        FeeCommandsFollowTheRules(l, entity, date, actor);
        hide ChargeFee, Permitted;
      case _ =>
        hide Reserve, Settle;
        OtherCommandsFollowTheRules(l, actor, command);
    }
  }

  lemma FeeCommandsFollowTheRules(l: Ledger, entity: string, date: string, actor: string)
    requires LedgerOk(l)
    ensures FirstActivation(l, entity, date, actor).reply.Ok? <==> Permitted(l, actor, FirstActivationCommand(entity, date))
    ensures ChargeFee(l, entity, date, actor).reply.Ok? <==> Permitted(l, actor, FeeCommand(entity, date))
  {
    hide LedgerOk, Fee, FeeAllowed, Available;
    FeesFollowTheRule(l, entity, date);
  }

  lemma OtherCommandsFollowTheRules(l: Ledger, actor: string, command: Command)
    requires LedgerOk(l)
    requires command.CreateEntityCommand? || command.MintCommand? || command.TransferCommand? || command.ReleaseCommand?
    ensures Execute(l, actor, command).reply.Ok? <==> Permitted(l, actor, command)
  {
    DistinctJournals(l);
    hide LedgerOk, Book, KeyAllows, Fee, FeeAllowed, Available, Append, Move, Reserve, Settle, FirstActivation, LastHoldFor;
    match command {
      case MintCommand(target, amount, key) =>
        KeysDecide(l, "mint:" + key, MintJournal, Move(System("TREASURY_CONTROL"), Wallet(target), amount));
      case TransferCommand(from, to, amount, key) =>
        KeysDecide(l, "transfer:" + key, TransferJournal, Move(Wallet(from), Wallet(to), amount));
      case _ =>
    }
  }

  // ---- What accepted commands leave ----

  /** Reservations, fees and activations after an accepted command. */
  predicate Effect(l: Ledger, command: Command, b: Ledger) {
    match command
    case ReserveCommand(entity, amount, key) =>
      && SameFees(l, b)
      && if exists i :: 0 <= i < |l.reservations| && l.reservations[i].entity == entity && l.reservations[i].businessKey == key
         then b.reservations == l.reservations
         else b.reservations == l.reservations + [Reservation(entity, key, amount, Active, None, None)]
    case ReleaseCommand(_, reservation) =>
      && SameFees(l, b) && reservation < |l.reservations|
      && b.reservations == l.reservations[reservation := l.reservations[reservation].(status := Released)]
    case SettleCommand(_, reservation, amount, _) =>
      && SameFees(l, b) && reservation < |l.reservations| && reservation < |b.reservations|
      && b.reservations == l.reservations[reservation := l.reservations[reservation].(
           status := Settled, settledAmount := Some(amount), journal := b.reservations[reservation].journal)]
    case FirstActivationCommand(entity, date) =>
      b.reservations == l.reservations && b.activated == l.activated + {entity} && PaidFee(l, b, FeeKey(entity, date))
    case FeeCommand(entity, date) =>
      b.reservations == l.reservations && b.activated == l.activated && PaidFee(l, b, FeeKey(entity, date))
    case CreateEntityCommand(entity, isSystem) =>
      && b.reservations == l.reservations && SameFees(l, b)
      && (entity !in l.entities && entity !in l.wallets ==>
            entity in b.entities && b.entities[entity] == Entity(isSystem, true) && entity in b.wallets && b.wallets[entity] == 0)
    case _ => b.reservations == l.reservations && SameFees(l, b)
  }

  predicate SameFees(l: Ledger, b: Ledger) {
    b.fees == l.fees && b.activated == l.activated
  }

  predicate PaidFee(l: Ledger, b: Ledger, fee: FeeKey) {
    fee in b.fees && b.fees == l.fees[fee := b.fees[fee]] && (fee in l.fees ==> b.fees[fee] == l.fees[fee])
  }

  lemma CommandsHaveTheirEffect(l: Ledger, actor: string, command: Command)
    requires LedgerOk(l) && Execute(l, actor, command).reply.Ok?
    ensures Effect(l, command, Execute(l, actor, command).after)
  {
    hide LedgerOk, Available, FindJournal, Append, Move, FeePostings, MayInitiate;
    match command {
      case FirstActivationCommand(entity, date) => FeeHasItsEffect(l, entity, date); hide Fee;
      case FeeCommand(entity, date) => FeeHasItsEffect(l, entity, date); hide Fee;
      case SettleCommand(entity, reservation, amount, key) => SettleHasItsEffect(l, entity, reservation, amount, key, actor); hide Settle;
      case _ => hide Fee, Settle;
    }
  }

  lemma FeeHasItsEffect(l: Ledger, entity: string, date: string)
    requires Fee(l, entity, date).reply.Ok?
    ensures var b := Fee(l, entity, date).after;
      b.reservations == l.reservations && b.activated == l.activated && PaidFee(l, b, FeeKey(entity, date))
  {
    hide Available, FindJournal, Append, FeePostings, FeeBusinessKey;
  }

  lemma SettleHasItsEffect(l: Ledger, entity: string, reservation: nat, amount: int, key: string, actor: string)
    requires Settle(l, entity, reservation, amount, key, actor).reply.Ok?
    ensures Effect(l, SettleCommand(entity, reservation, amount, key), Settle(l, entity, reservation, amount, key, actor).after)
  {
    hide FindJournal, Append, Move;
  }

  /** The events of an accepted command; a replay has none. */
  function EventsOf(l: Ledger, command: Command): seq<(Aggregate, string)> {
    match command
    case CreateEntityCommand(entity, _) =>
      if entity in l.entities || entity in l.wallets then [] else [(Aggregate("ENTITY", entity), "ENTITY_CREATED")]
    case MintCommand(target, _, _) => if MovesNothing(l, command) then [] else [(Aggregate("WALLET", target), "ENERGY_MINTED")]
    case TransferCommand(from, to, _, _) =>
      if MovesNothing(l, command) then []
      else [(Aggregate("WALLET", from), "ENERGY_TRANSFERRED_OUT"), (Aggregate("WALLET", to), "ENERGY_TRANSFERRED_IN")]
    case ReserveCommand(entity, _, key) =>
      if FindReservation(l.reservations, entity, key).Some? then [] else [(Aggregate("WALLET", entity), "ENERGY_RESERVED")]
    case ReleaseCommand(entity, reservation) =>
      if Owns(l, entity, reservation) && l.reservations[reservation].status == Active
        then [(Aggregate("WALLET", entity), "ENERGY_RESERVATION_RELEASED")] else []
    case SettleCommand(entity, reservation, _, _) =>
      if Owns(l, entity, reservation) && l.reservations[reservation].status == Active
        then [(Aggregate("WALLET", entity), "ENERGY_RESERVATION_SETTLED")] else []
    case FirstActivationCommand(entity, _) =>
      if MovesNothing(l, command) then [] else [(Aggregate("WALLET", entity), "DAILY_ACTIVITY_FEE_CHARGED")]
    case FeeCommand(entity, _) =>
      if MovesNothing(l, command) then [] else [(Aggregate("WALLET", entity), "DAILY_ACTIVITY_FEE_CHARGED")]
  }

  function AppendAll(log: Log, events: seq<(Aggregate, string)>): Log
    decreases |events|
  {
    if events == [] then log else AppendAll(Append(log, events[0].0, events[0].1), events[1..])
  }

  lemma AppendsOne(log: Log, e: (Aggregate, string))
    ensures AppendAll(log, [e]) == Append(log, e.0, e.1)
  {
    assert [e][1..] == [];
  }

  lemma AppendsTwo(log: Log, e: (Aggregate, string), f: (Aggregate, string))
    ensures AppendAll(log, [e, f]) == Append(Append(log, e.0, e.1), f.0, f.1)
  {
    assert [e, f][1..] == [f];
    AppendsOne(Append(log, e.0, e.1), f);
  }

  /** Every accepted command logs its events, and a replayed one logs nothing. */
  lemma CommandsLogTheirEvents(l: Ledger, actor: string, command: Command)
    requires LedgerOk(l) && Execute(l, actor, command).reply.Ok?
    ensures Execute(l, actor, command).after.log == AppendAll(l.log, EventsOf(l, command))
  {
    hide LedgerOk, Available, FindJournal, FindReservation, Append, Move, FeePostings, FeeBusinessKey, MayInitiate;
    match command {
      case TransferCommand(from, to, _, _) =>
        AppendsTwo(l.log, (Aggregate("WALLET", from), "ENERGY_TRANSFERRED_OUT"), (Aggregate("WALLET", to), "ENERGY_TRANSFERRED_IN"));
      case _ =>
        var events := EventsOf(l, command);
        if events != [] {
          AppendsOne(l.log, events[0]);
          assert events == [events[0]];
        }
    }
  }

  // ---- Nobody spends what is not theirs ----

  /** A command that takes something from a wallet on its owner's behalf without being the owner's. */
  predicate IsFeeOf(command: Command, entity: string) {
    (command.FeeCommand? || command.FirstActivationCommand?) && command.entity == entity
  }

  lemma FrozenStays(l: Ledger, actor: string, command: Command, entity: string)
    requires entity in l.wallets
    ensures var b := Execute(l, actor, command).after; entity in b.wallets && b.wallets[entity] == l.wallets[entity]
  {
    hide Available, FindJournal, FindReservation, Append, Move, FeePostings, FeeBusinessKey, MayInitiate;
  }

  /** An accepted command leaves every reservation of anybody but its actor as it was. */
  lemma OthersHoldsStay(l: Ledger, actor: string, command: Command, entity: string)
    requires LedgerOk(l) && Execute(l, actor, command).reply.Ok? && actor != entity
    ensures var b := Execute(l, actor, command).after;
      && Reserved(b.reservations, entity) == Reserved(l.reservations, entity)
      && (forall i :: 0 <= i < |b.reservations| && (i >= |l.reservations| || b.reservations[i] != l.reservations[i]) ==>
            b.reservations[i].entity == actor)
  {
    hide LedgerOk, Reserved, Available, Execute, Append, Move, FindJournal, KeyAllows, FeeAllowed, PaidFee, SameFees;
    var b := Execute(l, actor, command).after;
    CommandsFollowTheRules(l, actor, command);
    CommandsHaveTheirEffect(l, actor, command);
    match command {
      case ReserveCommand(_, amount, key) =>
        ReservedAppend(l.reservations, Reservation(actor, key, amount, Active, None, None), entity);
      case ReleaseCommand(_, reservation) =>
        ReservedUpdate(l.reservations, reservation, b.reservations[reservation], entity);
      case SettleCommand(_, reservation, _, _) =>
        ReservedUpdate(l.reservations, reservation, b.reservations[reservation], entity);
      case _ =>
    }
  }

  /** The treasury is drawn on by minting alone. */
  lemma TreasuryFallsByMints(l: Ledger, actor: string, command: Command)
    requires LedgerOk(l) && Execute(l, actor, command).reply.Ok? && !command.MintCommand?
    ensures Posted(Execute(l, actor, command).after.journals, System("TREASURY_CONTROL"))
         == Posted(l.journals, System("TREASURY_CONTROL"))
  {
    hide LedgerOk, Book, Posted, PostingsTo, Append, FindReservation, FindJournal, Move, Available, MayInitiate;
    assert "TREASURY_CONTROL"[0] != "CONSUMPTION_REDEMPTION"[0];
    match command {
      case TransferCommand(from, to, amount, key) =>
        BookLeavesTreasury(l, "transfer:" + key, TransferJournal, Wallet(from), Wallet(to), amount);
      case SettleCommand(payer, _, amount, key) =>
        BookLeavesTreasury(l, "resource-charge:" + key, ResourceCharge, Wallet(payer), System("CONSUMPTION_REDEMPTION"), amount);
      case FirstActivationCommand(subject, date) =>
        BookLeavesTreasury(l, FeeBusinessKey(subject, date), DailyActivityFee, Wallet(subject),
                           System("CONSUMPTION_REDEMPTION"), DAILY_ACTIVITY_FEE);
      case FeeCommand(subject, date) =>
        BookLeavesTreasury(l, FeeBusinessKey(subject, date), DailyActivityFee, Wallet(subject),
                           System("CONSUMPTION_REDEMPTION"), DAILY_ACTIVITY_FEE);
      case _ =>
    }
  }

  lemma BookLeavesTreasury(l: Ledger, key: string, kind: JournalKind, from: Account, to: Account, amount: int)
    requires from != System("TREASURY_CONTROL") && to != System("TREASURY_CONTROL")
    ensures var booked := Book(l, key, kind, Move(from, to, amount));
      booked.Ok? ==> Posted(booked.value.after.journals, System("TREASURY_CONTROL")) == Posted(l.journals, System("TREASURY_CONTROL"))
  {
    PostedAppend(l.journals, Journal(key, kind, Move(from, to, amount)), System("TREASURY_CONTROL"));
    MoveAmounts(from, to, amount, System("TREASURY_CONTROL"));
    hide Posted, PostingsTo, Move, FindJournal;
  }

  /** Nobody but its owner has a wallet pay, except for its fee. */
  lemma OthersPostNothing(l: Ledger, actor: string, command: Command, entity: string)
    requires LedgerOk(l) && Execute(l, actor, command).reply.Ok? && actor != entity
    ensures Posted(Execute(l, actor, command).after.journals, Wallet(entity)) >= Posted(l.journals, Wallet(entity))
         || (IsFeeOf(command, entity) && IsActiveSystem(l, actor))
  {
    hide LedgerOk, Posted, Available, Execute, MovesNothing, KeyAllows, FeeAllowed, Move;
    CommandsFollowTheRules(l, actor, command);
    CommandsMoveExactly(l, actor, command, entity);
  }

  /**
   Whoever leaves a wallet with less, posted or available, owns it, or is an active SYSTEM actor that charged
   its fee; whoever makes or closes a reservation owns it; and only a SYSTEM entity draws on the treasury.
   */
  lemma OnlyOwnersSpend(l: Ledger, actor: string, command: Command, entity: string)
    requires LedgerOk(l) && entity in l.wallets
    ensures var b := Execute(l, actor, command).after;
      && entity in b.wallets
      && (Posted(b.journals, Wallet(entity)) < Posted(l.journals, Wallet(entity)) || Available(b, entity) < Available(l, entity)
          ==> actor == entity || (IsFeeOf(command, entity) && IsActiveSystem(l, actor)))
  {
    hide LedgerOk, Posted, Reserved, Execute;
    FrozenStays(l, actor, command, entity);
    if Execute(l, actor, command).reply.Err? {
      RefusedChangesNothing(l, actor, command);
    } else if actor != entity {
      OthersPostNothing(l, actor, command, entity);
      OthersHoldsStay(l, actor, command, entity);
    }
  }

  /** A reservation is made and closed by the entity it belongs to. */
  lemma OnlyOwnersHold(l: Ledger, actor: string, command: Command, i: nat)
    requires var b := Execute(l, actor, command).after;
      LedgerOk(l) && i < |b.reservations| && (i >= |l.reservations| || b.reservations[i] != l.reservations[i])
    ensures Execute(l, actor, command).after.reservations[i].entity == actor
  {
    hide LedgerOk, Execute, Reserved;
    if Execute(l, actor, command).reply.Err? {
      RefusedChangesNothing(l, actor, command);
    } else {
      OthersHoldsStay(l, actor, command, actor + "'");
    }
  }

  /** Energy comes into being only when a SYSTEM entity mints it. */
  lemma OnlySystemsMint(l: Ledger, actor: string, command: Command)
    requires LedgerOk(l)
    requires Posted(Execute(l, actor, command).after.journals, System("TREASURY_CONTROL"))
          != Posted(l.journals, System("TREASURY_CONTROL"))
    ensures command.MintCommand? && IsSystem(l, actor)
  {
    hide LedgerOk, Posted, Execute;
    if Execute(l, actor, command).reply.Err? {
      RefusedChangesNothing(l, actor, command);
    } else {
      if !command.MintCommand? {
        TreasuryFallsByMints(l, actor, command);
      }
      CommandsFollowTheRules(l, actor, command);
    }
  }

  // ---- Over whole runs ----

  /** A request that may take from an entity's wallet: its own, or a fee for it. */
  predicate MaySpend(actor: string, command: Command, entity: string) {
    actor == entity || IsFeeOf(command, entity)
  }

  /** A run with no request of the owner and no fee for it never leaves the wallet with less, nor one of its holds changed. */
  lemma {:induction false} WalletsAreSafeFromOthers(l: Ledger, requests: seq<Request>, entity: string)
    requires LedgerOk(l) && entity in l.wallets
    requires forall i :: 0 <= i < |requests| ==> !MaySpend(requests[i].actor, requests[i].command, entity)
    ensures var b := RunAll(l, requests);
      && entity in b.wallets
      && Posted(b.journals, Wallet(entity)) >= Posted(l.journals, Wallet(entity))
      && Available(b, entity) >= Available(l, entity)
      && HoldsStay(l, b, entity)
  {
    hide LedgerOk, Posted, Execute, Available;
    if requests == [] {
    } else {
      var rest, last := requests[..|requests| - 1], requests[|requests| - 1];
      RunKeepsOk(l, rest);
      WalletsAreSafeFromOthers(l, rest, entity);
      OthersTakeNothing(RunAll(l, rest), last.actor, last.command, entity);
    }
  }

  /** Every hold of an entity is where it was, as it was. */
  predicate HoldsStay(l: Ledger, b: Ledger, entity: string) {
    && |l.reservations| <= |b.reservations|
    && forall i :: 0 <= i < |l.reservations| && l.reservations[i].entity == entity ==> b.reservations[i] == l.reservations[i]
  }

  lemma OthersTakeNothing(l: Ledger, actor: string, command: Command, entity: string)
    requires LedgerOk(l) && entity in l.wallets && !MaySpend(actor, command, entity)
    ensures var b := Execute(l, actor, command).after;
      && entity in b.wallets
      && Posted(b.journals, Wallet(entity)) >= Posted(l.journals, Wallet(entity))
      && Available(b, entity) >= Available(l, entity)
      && HoldsStay(l, b, entity)
  {
    hide LedgerOk, Posted, Execute, Available;
    OnlyOwnersSpend(l, actor, command, entity);
    ExecuteKeepsOk(l, actor, command);
    var b := Execute(l, actor, command).after;
    forall i | 0 <= i < |l.reservations| && b.reservations[i] != l.reservations[i] ensures l.reservations[i].entity == actor {
      OnlyOwnersHold(l, actor, command, i);
    }
  }

  /** If a run drew on the treasury, one of its requests was a mint by a SYSTEM entity. */
  lemma {:induction false} TreasuryNeedsAMint(l: Ledger, requests: seq<Request>)
    requires LedgerOk(l)
    requires Posted(RunAll(l, requests).journals, System("TREASURY_CONTROL")) != Posted(l.journals, System("TREASURY_CONTROL"))
    ensures exists i :: 0 <= i < |requests| && IsMintBySystem(RunAll(l, requests[..i]), requests[i])
  {
    hide LedgerOk, Posted, Execute;
    var rest, last := requests[..|requests| - 1], requests[|requests| - 1];
    RunKeepsOk(l, rest);
    if Posted(RunAll(l, rest).journals, System("TREASURY_CONTROL")) != Posted(l.journals, System("TREASURY_CONTROL")) {
      TreasuryNeedsAMint(l, rest);
      var i :| 0 <= i < |rest| && IsMintBySystem(RunAll(l, rest[..i]), rest[i]);
      assert rest[..i] == requests[..i] && rest[i] == requests[i];
    } else {
      OnlySystemsMint(RunAll(l, rest), last.actor, last.command);
      assert IsMintBySystem(RunAll(l, requests[..|requests| - 1]), requests[|requests| - 1]);
    }
  }

  predicate IsMintBySystem(l: Ledger, request: Request) {
    request.command.MintCommand? && IsSystem(l, request.actor)
  }

  // ---- Through runCommand ----

  /** An entity of the world that is not suspended. */
  predicate IsRegistered(l: Ledger, actor: string) {
    actor in l.entities && l.entities[actor].isActive
  }

  /**
   A call does something exactly when it has a key that its actor did not use before and the actor is active:
   the whole work and its answer, or the answer alone when the work failed.
   */
  lemma CallsRunExactlyWhen(db: Db, call: Call)
    ensures Run(db, call).0 != db
       <==> call.idempotencyKey != "" && IsRegistered(db.ledger, call.actor) && ActionKey(call.actor, call.idempotencyKey) !in db.actions
    ensures Run(db, call).0 != db ==>
      var (after, reply) := Run(db, call);
      && after.actions.Keys == db.actions.Keys + {KeyOf(call)}
      && Answer(after.actions[KeyOf(call)]) == AsReplay(reply)
      && after.actions[KeyOf(call)].payload == call.payload
    ensures Run(db, call).0 != db ==>
      match call.work(db.ledger)
      case (l, Ok(result)) =>
        && Run(db, call).1 == Ok(Outcome(false, result))
        && Run(db, call).0.ledger == l.(log := Append(l.log, Aggregate("ACTION", call.actionId), "ACTION_SUCCEEDED"))
      case (_, Err(problem)) =>
        && Run(db, call).1 == Err(Domain(problem))
        && Run(db, call).0.ledger
           == db.ledger.(log := Append(db.ledger.log, Aggregate("ACTION", call.actionId), "ACTION_FAILED"))
  {
    hide Append;
    var key := KeyOf(call);
    if call.idempotencyKey != "" && IsActive(db.ledger, call.actor) && key !in db.actions {
      assert key in Run(db, call).0.actions;
    }
  }

  /** A wallet loses only to a call of its active owner, or to a fee that an active SYSTEM actor charges. */
  lemma OnlyActiveOwnersSpend(db: Db, call: Call, entity: string)
    requires LedgerOk(db.ledger) && entity in db.ledger.wallets && IsLedgerCall(call)
    ensures var l, b := db.ledger, Run(db, call).0.ledger;
      && entity in b.wallets
      && (Posted(b.journals, Wallet(entity)) < Posted(l.journals, Wallet(entity)) || Available(b, entity) < Available(l, entity)
          || !HoldsStay(l, b, entity)
          ==> IsRegistered(l, call.actor) && KeyOf(call) !in db.actions
              && (call.actor == entity || (IsFeeOf(call.payload, entity) && IsActiveSystem(l, call.actor))))
  {
    hide LedgerOk, Posted, Execute, Reserved, IsFeeOf;
    OnlyOwnersSpend(db.ledger, call.actor, call.payload, entity);
    if !MaySpend(call.actor, call.payload, entity) {
      OthersTakeNothing(db.ledger, call.actor, call.payload, entity);
    } else if call.actor != entity {
      FeesKeepHolds(db.ledger, call.actor, call.payload, entity);
    }
    assert IsLedgerCall(call);
  }

  lemma FeesKeepHolds(l: Ledger, actor: string, command: Command, entity: string)
    requires LedgerOk(l) && actor != entity
    ensures HoldsStay(l, Execute(l, actor, command).after, entity)
  {
    hide LedgerOk, Execute;
    ExecuteKeepsOk(l, actor, command);
    var b := Execute(l, actor, command).after;
    forall i | 0 <= i < |l.reservations| && b.reservations[i] != l.reservations[i] ensures l.reservations[i].entity == actor {
      OnlyOwnersHold(l, actor, command, i);
    }
  }

  /** The same over any calls, replayed and reused at will. */
  lemma {:induction false} CallsOfOthersAreSafe(db: Db, calls: seq<Call>, entity: string)
    requires LedgerOk(db.ledger) && entity in db.ledger.wallets
    requires forall i :: 0 <= i < |calls| ==> IsLedgerCall(calls[i]) && !MaySpend(calls[i].actor, calls[i].payload, entity)
    ensures var l, b := db.ledger, RunCalls(db, calls).ledger;
      && entity in b.wallets
      && Posted(b.journals, Wallet(entity)) >= Posted(l.journals, Wallet(entity))
      && Available(b, entity) >= Available(l, entity)
      && HoldsStay(l, b, entity)
  {
    hide LedgerOk, Posted, Execute, Available, Run, IsFeeOf, IsActive, IsActiveSystem;
    if calls == [] {
    } else {
      var rest := calls[..|calls| - 1];
      CommandsKeepLedgerSafe(db, rest);
      CallsOfOthersAreSafe(db, rest, entity);
      OnlyActiveOwnersSpend(RunCalls(db, rest), calls[|calls| - 1], entity);
    }
  }
}
