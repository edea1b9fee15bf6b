/**
 The double-entry ledger of one world (src/services/economy.js and src/domain/energy.js), as the
 tables each command finds and leaves. A wallet's posted balance is the sum of its postings.
 */
module Ledger {
  import opened Wrappers
  import opened EventLog

  const DAILY_ACTIVITY_FEE := 1_000_000
  const FIRST_ACTIVATION_MIN := 100_000_000

  datatype LedgerProblem =
    | WalletNotFound | InvalidAmount | InvalidTransfer | Forbidden | InsufficientEnergy | IdempotencyConflict
    | ReservationNotFound | ReservationNotReleasable | ReservationNotSettleable | ReservationExceeded
    | DailyFeeUnfunded | FirstActivationMinimumUnfunded | AlreadyActivated | NotActivated

  datatype Account = Wallet(entity: string) | System(name: string)

  datatype Posting = Posting(account: Account, amount: int)

  datatype JournalKind = MintJournal | TransferJournal | ResourceCharge | DailyActivityFee

  datatype Journal = Journal(businessKey: string, kind: JournalKind, postings: seq<Posting>)

  datatype ReservationStatus = Active | Released | Settled

  datatype Reservation = Reservation(
    entity: string, businessKey: string, amount: int, status: ReservationStatus,
    settledAmount: Option<int>, journal: Option<nat>)

  datatype FeeKey = FeeKey(subject: string, billingDate: string)

  datatype Entity = Entity(isSystem: bool, isActive: bool)

  /** Journal and reservation ids are positions. `wallets` holds the frozen amounts. */
  datatype Ledger = Ledger(
    entities: map<string, Entity>, wallets: map<string, nat>, journals: seq<Journal>, reservations: seq<Reservation>,
    fees: map<FeeKey, nat>, activated: set<string>, log: Log)

  // ---- Balances ----

  function PostingsTo(postings: seq<Posting>, account: Account): int {
    if postings == [] then 0
    else
      var last := postings[|postings| - 1];
      PostingsTo(postings[..|postings| - 1], account) + if last.account == account then last.amount else 0
  }

  function SumOf(postings: seq<Posting>): int {
    if postings == [] then 0 else SumOf(postings[..|postings| - 1]) + postings[|postings| - 1].amount
  }

  /** Everything ever posted to an account. */
  function Posted(journals: seq<Journal>, account: Account): int {
    if journals == [] then 0
    else Posted(journals[..|journals| - 1], account) + PostingsTo(journals[|journals| - 1].postings, account)
  }

  function HeldBy(r: Reservation, entity: string): int {
    if r.entity == entity && r.status == Active then r.amount else 0
  }

  /** `SUM(amount_micro_e)` over the active reservations of an entity. */
  function Reserved(reservations: seq<Reservation>, entity: string): int {
    if reservations == [] then 0
    else Reserved(reservations[..|reservations| - 1], entity) + HeldBy(reservations[|reservations| - 1], entity)
  }

  /** What `lockWallet` computes as available. */
  function Available(l: Ledger, entity: string): int
    requires entity in l.wallets
  {
    Posted(l.journals, Wallet(entity)) - l.wallets[entity] - Reserved(l.reservations, entity)
  }

  // ---- createBalancedJournal ----

  function FindJournal(journals: seq<Journal>, businessKey: string): (found: Option<nat>)
    ensures found.Some? ==> found.value < |journals| && journals[found.value].businessKey == businessKey
    ensures found.None? ==> forall i :: 0 <= i < |journals| ==> journals[i].businessKey != businessKey
  {
    if journals == [] then None
    else if journals[|journals| - 1].businessKey == businessKey then Some(|journals| - 1)
    else FindJournal(journals[..|journals| - 1], businessKey)
  }

  datatype Booked = Booked(after: Ledger, journal: nat, replayed: bool)

  function Book(l: Ledger, businessKey: string, kind: JournalKind, postings: seq<Posting>): Result<Booked, LedgerProblem> {
    var found := FindJournal(l.journals, businessKey);
    if found.Some? then
      var prior := l.journals[found.value];
      if prior.kind != kind || multiset(prior.postings) != multiset(postings) then Err(IdempotencyConflict)
      else Ok(Booked(l, found.value, true))
    else Ok(Booked(l.(journals := l.journals + [Journal(businessKey, kind, postings)]), |l.journals|, false))
  }

  function Move(from: Account, to: Account, amount: int): seq<Posting> {
    [Posting(from, -amount), Posting(to, amount)]
  }

  // ---- Commands ----

  datatype Reply = Reply(journal: Option<nat>, reservation: Option<nat>, replayed: bool)

  /** A finished command: the tables it leaves and its reply. `Err` comes with the old tables. */
  datatype Done = Done(after: Ledger, reply: Result<Reply, LedgerProblem>)

  function WalletEvent(l: Ledger, entity: string, eventType: string): Ledger {
    l.(log := Append(l.log, Aggregate("WALLET", entity), eventType))
  }

  function CreateEntity(l: Ledger, entity: string, isSystem: bool): Ledger {
    if entity in l.entities || entity in l.wallets then l
    else
      l.(entities := l.entities[entity := Entity(isSystem, true)], wallets := l.wallets[entity := 0],
         log := Append(l.log, Aggregate("ENTITY", entity), "ENTITY_CREATED"))
  }

  function Mint(l: Ledger, target: string, amount: int, basisKey: string, actor: string): Done {
    if amount <= 0 then Done(l, Err(InvalidAmount))
    else if actor !in l.entities || !l.entities[actor].isSystem then Done(l, Err(Forbidden))
    else if target !in l.wallets then Done(l, Err(WalletNotFound))
    else
      var booked := Book(l, "mint:" + basisKey, MintJournal, Move(System("TREASURY_CONTROL"), Wallet(target), amount));
      if booked.Err? then Done(l, Err(booked.error))
      else
        var b := booked.value;
        Done(if b.replayed then l else WalletEvent(b.after, target, "ENERGY_MINTED"),
             Ok(Reply(Some(b.journal), None, b.replayed)))
  }

  function Transfer(l: Ledger, from: string, to: string, amount: int, businessKey: string, actor: string): Done {
    if amount <= 0 || from == to then Done(l, Err(InvalidTransfer))
    else if actor != from then Done(l, Err(Forbidden))
    else if from !in l.wallets || to !in l.wallets then Done(l, Err(WalletNotFound))
    else if Available(l, from) < amount then Done(l, Err(InsufficientEnergy))
    else
      var booked := Book(l, "transfer:" + businessKey, TransferJournal, Move(Wallet(from), Wallet(to), amount));
      if booked.Err? then Done(l, Err(booked.error))
      else
        var b := booked.value;
        Done(if b.replayed then l
             else WalletEvent(WalletEvent(b.after, from, "ENERGY_TRANSFERRED_OUT"), to, "ENERGY_TRANSFERRED_IN"),
             Ok(Reply(Some(b.journal), None, b.replayed)))
  }

  function FindReservation(reservations: seq<Reservation>, entity: string, businessKey: string): (found: Option<nat>)
    ensures found.Some? ==>
      && found.value < |reservations|
      && reservations[found.value].entity == entity && reservations[found.value].businessKey == businessKey
    ensures found.None? ==>
      forall i :: 0 <= i < |reservations| ==> reservations[i].entity != entity || reservations[i].businessKey != businessKey
  {
    if reservations == [] then None
    else
      var last := reservations[|reservations| - 1];
      if last.entity == entity && last.businessKey == businessKey then Some(|reservations| - 1)
      else FindReservation(reservations[..|reservations| - 1], entity, businessKey)
  }

  function Reserve(l: Ledger, entity: string, amount: int, businessKey: string, actor: string): Done {
    if amount <= 0 then Done(l, Err(InvalidAmount))
    else if actor != entity then Done(l, Err(Forbidden))
    else if entity !in l.wallets then Done(l, Err(WalletNotFound))
    else if Available(l, entity) < amount then Done(l, Err(InsufficientEnergy))
    else
      var existing := FindReservation(l.reservations, entity, businessKey);
      if existing.Some? then
        var row := l.reservations[existing.value];
        if row.amount != amount || row.status != Active then Done(l, Err(IdempotencyConflict))
        else Done(l, Ok(Reply(None, existing, true)))
      else
        var next := l.(reservations := l.reservations + [Reservation(entity, businessKey, amount, Active, None, None)]);
        Done(WalletEvent(next, entity, "ENERGY_RESERVED"), Ok(Reply(None, Some(|l.reservations|), false)))
  }

  predicate Owns(l: Ledger, entity: string, reservation: nat) {
    reservation < |l.reservations| && l.reservations[reservation].entity == entity
  }

  function Release(l: Ledger, entity: string, reservation: nat, actor: string): Done {
    if actor != entity then Done(l, Err(Forbidden))
    else if entity !in l.wallets then Done(l, Err(WalletNotFound))
    else if !Owns(l, entity, reservation) then Done(l, Err(ReservationNotFound))
    else
      var row := l.reservations[reservation];
      if row.status == Released then Done(l, Ok(Reply(None, Some(reservation), true)))
      else if row.status != Active then Done(l, Err(ReservationNotReleasable))
      else
        var next := l.(reservations := l.reservations[reservation := row.(status := Released)]);
        Done(WalletEvent(next, entity, "ENERGY_RESERVATION_RELEASED"), Ok(Reply(None, Some(reservation), false)))
  }

  function Settle(l: Ledger, entity: string, reservation: nat, amount: int, businessKey: string, actor: string): Done {
    if actor != entity then Done(l, Err(Forbidden))
    else if amount < 0 then Done(l, Err(InvalidAmount))
    else if entity !in l.wallets then Done(l, Err(WalletNotFound))
    else if !Owns(l, entity, reservation) then Done(l, Err(ReservationNotFound))
    else
      var row := l.reservations[reservation];
      if row.status == Settled then
        if row.settledAmount != Some(amount) then Done(l, Err(IdempotencyConflict))
        else Done(l, Ok(Reply(row.journal, Some(reservation), true)))
      else if row.status != Active then Done(l, Err(ReservationNotSettleable))
      else if amount > row.amount then Done(l, Err(ReservationExceeded))
      else if amount == 0 then
        Done(Closed(l, entity, reservation, 0, None), Ok(Reply(None, Some(reservation), false)))
      else
        var booked := Book(l, "resource-charge:" + businessKey, ResourceCharge,
                           Move(Wallet(entity), System("CONSUMPTION_REDEMPTION"), amount));
        if booked.Err? then Done(l, Err(booked.error))
        else
          Done(Closed(booked.value.after, entity, reservation, amount, Some(booked.value.journal)),
               Ok(Reply(Some(booked.value.journal), Some(reservation), false)))
  }

  /** The reservation settled at an amount, and its event. */
  function Closed(l: Ledger, entity: string, reservation: nat, amount: int, journal: Option<nat>): Ledger
    requires reservation < |l.reservations|
  {
    var row := l.reservations[reservation].(status := Settled, settledAmount := Some(amount), journal := journal);
    WalletEvent(l.(reservations := l.reservations[reservation := row]), entity, "ENERGY_RESERVATION_SETTLED")
  }

  function FeePostings(entity: string): seq<Posting> {
    Move(Wallet(entity), System("CONSUMPTION_REDEMPTION"), DAILY_ACTIVITY_FEE)
  }

  function FeeBusinessKey(entity: string, billingDate: string): string {
    "daily-fee:" + entity + ":" + billingDate
  }

  function Fee(l: Ledger, entity: string, billingDate: string): Done {
    var fee := FeeKey(entity, billingDate);
    if entity !in l.wallets then Done(l, Err(WalletNotFound))
    else if fee in l.fees then Done(l, Ok(Reply(Some(l.fees[fee]), None, true)))
    else if Available(l, entity) - DAILY_ACTIVITY_FEE <= 0 then Done(l, Err(DailyFeeUnfunded))
    else
      var booked := Book(l, FeeBusinessKey(entity, billingDate), DailyActivityFee, FeePostings(entity));
      if booked.Err? then Done(l, Err(booked.error))
      else
        Done(WalletEvent(booked.value.after.(fees := l.fees[fee := booked.value.journal]), entity, "DAILY_ACTIVITY_FEE_CHARGED"),
             Ok(Reply(Some(booked.value.journal), None, false)))
  }

  /** `activationDecision` */
  function ActivationProblem(available: int): Option<LedgerProblem> {
    if available < FIRST_ACTIVATION_MIN then Some(FirstActivationMinimumUnfunded)
    else if available - DAILY_ACTIVITY_FEE <= 0 then Some(DailyFeeUnfunded)
    else None
  }

  predicate MayInitiate(l: Ledger, entity: string, actor: string) {
    actor == entity || (actor in l.entities && l.entities[actor].isSystem && l.entities[actor].isActive)
  }

  function FirstActivation(l: Ledger, entity: string, billingDate: string, actor: string): Done {
    if !MayInitiate(l, entity, actor) then Done(l, Err(Forbidden))
    else if entity in l.activated then Done(l, Err(AlreadyActivated))
    else if entity !in l.wallets then Done(l, Err(WalletNotFound))
    else
      var problem := ActivationProblem(Available(l, entity));
      if problem.Some? then Done(l, Err(problem.value))
      else
        var fee := Fee(l, entity, billingDate);
        if fee.reply.Err? then fee else Done(fee.after.(activated := l.activated + {entity}), fee.reply)
  }

  function ChargeFee(l: Ledger, entity: string, billingDate: string, actor: string): Done {
    if !MayInitiate(l, entity, actor) then Done(l, Err(Forbidden))
    else if entity !in l.activated then Done(l, Err(NotActivated))
    else Fee(l, entity, billingDate)
  }

  /** A command names its wallet; whether its actor may touch it is checked by the command. */
  datatype Command =
    | CreateEntityCommand(entity: string, isSystem: bool)
    | MintCommand(target: string, amount: int, basisKey: string)
    | TransferCommand(entity: string, to: string, amount: int, businessKey: string)
    | ReserveCommand(entity: string, amount: int, businessKey: string)
    | ReleaseCommand(entity: string, reservation: nat)
    | SettleCommand(entity: string, reservation: nat, amount: int, businessKey: string)
    | FirstActivationCommand(entity: string, billingDate: string)
    | FeeCommand(entity: string, billingDate: string)

  function Execute(l: Ledger, actor: string, command: Command): Done {
    match command
    case CreateEntityCommand(entity, isSystem) => Done(CreateEntity(l, entity, isSystem), Ok(Reply(None, None, false)))
    case MintCommand(target, amount, basisKey) => Mint(l, target, amount, basisKey, actor)
    case TransferCommand(from, to, amount, key) => Transfer(l, from, to, amount, key, actor)
    case ReserveCommand(entity, amount, key) => Reserve(l, entity, amount, key, actor)
    case ReleaseCommand(entity, reservation) => Release(l, entity, reservation, actor)
    case SettleCommand(entity, reservation, amount, key) => Settle(l, entity, reservation, amount, key, actor)
    case FirstActivationCommand(entity, date) => FirstActivation(l, entity, date, actor)
    case FeeCommand(entity, date) => ChargeFee(l, entity, date, actor)
  }
}
