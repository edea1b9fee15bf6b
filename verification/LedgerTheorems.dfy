/**
 The ledger over whole runs of commands: conservation, solvency, exact effects, replays, one fee a day.
 */
module LedgerTheorems {
  import opened Wrappers
  import opened EventLog
  import opened Ledger
  import opened LedgerInvariants

  datatype Request = Request(actor: string, command: Command)

  function RunAll(l: Ledger, requests: seq<Request>): Ledger {
    if requests == [] then l
    else
      var last := requests[|requests| - 1];
      Execute(RunAll(l, requests[..|requests| - 1]), last.actor, last.command).after
  }

  const EMPTY := Ledger(map[], map[], [], [], map[], {}, Log([], []))

  lemma ExecuteKeepsOk(l: Ledger, actor: string, command: Command)
    requires LedgerOk(l)
    ensures LedgerOk(Execute(l, actor, command).after) && Extends(l, Execute(l, actor, command).after)
  {
    hide LedgerOk, Extends, Mint, Transfer, Reserve, Release, Settle, FirstActivation, Fee, CreateEntity;
    match command
    case CreateEntityCommand(entity, isSystem) => CreateEntityKeepsOk(l, entity, isSystem);
    case MintCommand(target, amount, basisKey) => MintKeepsOk(l, target, amount, basisKey, actor);
    case TransferCommand(from, to, amount, key) => TransferKeepsOk(l, from, to, amount, key, actor);
    case ReserveCommand(entity, amount, key) => ReserveKeepsOk(l, entity, amount, key, actor);
    case ReleaseCommand(entity, reservation) => ReleaseKeepsOk(l, entity, reservation, actor);
    case SettleCommand(entity, reservation, amount, key) => SettleKeepsOk(l, entity, reservation, amount, key, actor);
    case FirstActivationCommand(entity, date) => FirstActivationKeepsOk(l, entity, date, actor);
    case FeeCommand(entity, date) =>
      ExtendsReflexive(l);
      FeeKeepsOk(l, entity, date);
  }

  lemma {:induction false} RunKeepsOk(l: Ledger, requests: seq<Request>)
    requires LedgerOk(l)
    ensures LedgerOk(RunAll(l, requests)) && Extends(l, RunAll(l, requests))
  {
    hide LedgerOk, Extends, Execute;
    if requests == [] {
      ExtendsReflexive(l);
    } else {
      var before, last := RunAll(l, requests[..|requests| - 1]), requests[|requests| - 1];
      RunKeepsOk(l, requests[..|requests| - 1]);
      ExecuteKeepsOk(before, last.actor, last.command);
      ExtendsTransitive(l, before, RunAll(l, requests));
    }
  }

  /** A refused command changes nothing. */
  lemma RefusedChangesNothing(l: Ledger, actor: string, command: Command)
    requires Execute(l, actor, command).reply.Err?
    ensures Execute(l, actor, command).after == l
  {
  }

  // ---- Safety of the ledger ----

  /** In any run every wallet stays solvent, and the postings of every journal sum to zero. */
  lemma LedgerIsSafe(requests: seq<Request>)
    ensures var l := RunAll(EMPTY, requests);
      && (forall entity :: entity in l.wallets ==> Available(l, entity) >= 0)
      && (forall i :: 0 <= i < |l.journals| ==> SumOf(l.journals[i].postings) == 0)
      && Numbered(l.log)
  {
    RunKeepsOk(EMPTY, requests);
    var l := RunAll(EMPTY, requests);
    forall i | 0 <= i < |l.journals| ensures SumOf(l.journals[i].postings) == 0 {
      assert JournalOk(l, i);
    }
  }

  function TotalPosted(journals: seq<Journal>, accounts: seq<Account>): int {
    if accounts == [] then 0 else Posted(journals, accounts[0]) + TotalPosted(journals, accounts[1..])
  }

  function TotalTo(postings: seq<Posting>, accounts: seq<Account>): int {
    if accounts == [] then 0 else PostingsTo(postings, accounts[0]) + TotalTo(postings, accounts[1..])
  }

  predicate Distinct(accounts: seq<Account>) {
    forall i, j :: 0 <= i < j < |accounts| ==> accounts[i] != accounts[j]
  }

  lemma {:induction false} TotalSplits(journals: seq<Journal>, accounts: seq<Account>)
    requires journals != []
    ensures TotalPosted(journals, accounts)
         == TotalPosted(journals[..|journals| - 1], accounts) + TotalTo(journals[|journals| - 1].postings, accounts)
  {
    if accounts == [] {
    } else {
      TotalSplits(journals, accounts[1..]);
    }
  }

  lemma {:induction false} TotalToSplits(postings: seq<Posting>, accounts: seq<Account>)
    requires postings != [] && Distinct(accounts)
    ensures var last := postings[|postings| - 1];
      TotalTo(postings, accounts)
      == TotalTo(postings[..|postings| - 1], accounts) + if last.account in accounts then last.amount else 0
  {
    if accounts == [] {
    } else {
      TotalToSplits(postings, accounts[1..]);
    }
  }

  lemma {:induction false} NothingToTotal(accounts: seq<Account>)
    ensures TotalTo([], accounts) == 0 && TotalPosted([], accounts) == 0
  {
    if accounts == [] {
    } else {
      NothingToTotal(accounts[1..]);
    }
  }

  lemma {:induction false} TotalToIsSum(postings: seq<Posting>, accounts: seq<Account>)
    requires Distinct(accounts) && forall p :: p in postings ==> p.account in accounts
    ensures TotalTo(postings, accounts) == SumOf(postings)
  {
    if postings == [] {
      NothingToTotal(accounts);
    } else {
      TotalToSplits(postings, accounts);
      TotalToIsSum(postings[..|postings| - 1], accounts);
    }
  }

  lemma {:induction false} BalancedTotal(journals: seq<Journal>, accounts: seq<Account>)
    requires Distinct(accounts)
    requires forall i :: 0 <= i < |journals| ==>
      SumOf(journals[i].postings) == 0 && forall p :: p in journals[i].postings ==> p.account in accounts
    ensures TotalPosted(journals, accounts) == 0
  {
    if journals == [] {
      NothingToTotal(accounts);
    } else {
      TotalSplits(journals, accounts);
      TotalToIsSum(journals[|journals| - 1].postings, accounts);
      BalancedTotal(journals[..|journals| - 1], accounts);
    }
  }

  lemma SystemAccountsAreDistinct(wallets: seq<Account>)
    requires Distinct(wallets) && forall a :: a in wallets ==> a.Wallet?
    ensures Distinct([System("TREASURY_CONTROL"), System("CONSUMPTION_REDEMPTION")] + wallets)
  {
    var accounts := [System("TREASURY_CONTROL"), System("CONSUMPTION_REDEMPTION")] + wallets;
    assert "TREASURY_CONTROL"[0] != "CONSUMPTION_REDEMPTION"[0];
    forall i, j | 0 <= i < j < |accounts| ensures accounts[i] != accounts[j] {
      if j >= 2 {
        assert accounts[j] == wallets[j - 2] && wallets[j - 2] in wallets;
        assert i >= 2 ==> accounts[i] == wallets[i - 2];
      }
    }
  }

  lemma EmptyIsOk()
    ensures LedgerOk(EMPTY)
  {
  }

  lemma JournalRow(l: Ledger, i: nat)
    requires LedgerOk(l) && i < |l.journals|
    ensures JournalOk(l, i)
  {
  }

  /** However the wallets are listed, their balances add up to what was minted less what was consumed. */
  lemma WalletsHoldWhatWasMinted(requests: seq<Request>, wallets: seq<Account>)
    requires var l := RunAll(EMPTY, requests);
      && Distinct(wallets) && (forall a :: a in wallets ==> a.Wallet?)
      && (forall entity :: entity in l.wallets ==> Wallet(entity) in wallets)
    ensures var l := RunAll(EMPTY, requests);
      TotalPosted(l.journals, wallets)
      == -Posted(l.journals, System("TREASURY_CONTROL")) - Posted(l.journals, System("CONSUMPTION_REDEMPTION"))
  {
    hide LedgerOk, RunAll, SumOf, Posted, Extends;
    var l := RunAll(EMPTY, requests);
    EmptyIsOk();
    RunKeepsOk(EMPTY, requests);
    var accounts := [System("TREASURY_CONTROL"), System("CONSUMPTION_REDEMPTION")] + wallets;
    assert accounts[1..][1..] == wallets;
    SystemAccountsAreDistinct(wallets);
    forall i | 0 <= i < |l.journals|
      ensures SumOf(l.journals[i].postings) == 0 && forall p :: p in l.journals[i].postings ==> p.account in accounts
    {
      JournalRow(l, i);
      forall p | p in l.journals[i].postings ensures p.account in accounts {
        assert p.account.System? ==> p.account == accounts[0] || p.account == accounts[1];
        assert p.account.Wallet? ==> p.account in wallets;
      }
    }
    BalancedTotal(l.journals, accounts);
    assert TotalPosted(l.journals, accounts) == Posted(l.journals, accounts[0]) + TotalPosted(l.journals, accounts[1..]);
    assert TotalPosted(l.journals, accounts[1..])
        == Posted(l.journals, accounts[1]) + TotalPosted(l.journals, accounts[1..][1..]);
  }

  // ---- Exact effects ----

  /** What a command posts to a wallet when it is not a replay. */
  function PostedBy(command: Command, entity: string): int {
    match command
    case MintCommand(target, amount, _) => if target == entity then amount else 0
    case TransferCommand(from, to, amount, _) =>
      (if from == entity then -amount else 0) + (if to == entity then amount else 0)
    case SettleCommand(payer, _, amount, _) => if payer == entity then -amount else 0
    case FirstActivationCommand(subject, _) => if subject == entity then -DAILY_ACTIVITY_FEE else 0
    case FeeCommand(subject, _) => if subject == entity then -DAILY_ACTIVITY_FEE else 0
    case _ => 0
  }

  /**
   The accepted commands that move nothing: replays, settlements at zero, and settlements under a key
   that was already booked, which close a second hold without a charge.
   */
  predicate MovesNothing(l: Ledger, command: Command) {
    match command
    case MintCommand(_, _, key) => FindJournal(l.journals, "mint:" + key).Some?
    case TransferCommand(_, _, _, key) => FindJournal(l.journals, "transfer:" + key).Some?
    case SettleCommand(payer, reservation, amount, key) =>
      || (Owns(l, payer, reservation) && l.reservations[reservation].status == Settled)
      || amount == 0
      || FindJournal(l.journals, "resource-charge:" + key).Some?
    case FirstActivationCommand(subject, date) => FeeKey(subject, date) in l.fees
    case FeeCommand(subject, date) => FeeKey(subject, date) in l.fees
    case _ => true
  }

  /** An accepted command books one journal that moves exactly its amounts, unless it is one of those that move nothing. */
  lemma CommandsMoveExactly(l: Ledger, actor: string, command: Command, entity: string)
    requires LedgerOk(l) && Execute(l, actor, command).reply.Ok?
    ensures var b := Execute(l, actor, command).after;
      && |b.journals| == |l.journals| + (if MovesNothing(l, command) then 0 else 1)
      && Posted(b.journals, Wallet(entity)) == Posted(l.journals, Wallet(entity))
         + if MovesNothing(l, command) then 0 else PostedBy(command, entity)
  {
    hide LedgerOk, Book, Posted, PostingsTo, Reserved, Append, FindReservation, FindJournal, Move, Settle, Fee, Available;
    match command {
      case MintCommand(target, amount, key) =>
        BookedMove(l, "mint:" + key, MintJournal, System("TREASURY_CONTROL"), Wallet(target), amount, entity);
      case TransferCommand(from, to, amount, key) =>
        BookedMove(l, "transfer:" + key, TransferJournal, Wallet(from), Wallet(to), amount, entity);
      case SettleCommand(payer, reservation, amount, key) => SettleMoves(l, payer, reservation, amount, key, actor, entity);
      case FirstActivationCommand(subject, date) => FeeMoves(l, subject, date, entity);
      case FeeCommand(subject, date) => FeeMoves(l, subject, date, entity);
      case _ =>
    }
  }

  lemma BookedMove(l: Ledger, key: string, kind: JournalKind, from: Account, to: Account, amount: int, entity: string)
    ensures var booked := Book(l, key, kind, Move(from, to, amount));
      booked.Ok? ==>
        && booked.value.after == l.(journals := booked.value.after.journals)
        && (booked.value.replayed <==> FindJournal(l.journals, key).Some?)
        && |booked.value.after.journals| == |l.journals| + (if booked.value.replayed then 0 else 1)
        && (booked.value.replayed ==> booked.value.after == l)
        && Posted(booked.value.after.journals, Wallet(entity)) == Posted(l.journals, Wallet(entity))
           + if booked.value.replayed then 0
             else (if from == Wallet(entity) then -amount else 0) + (if to == Wallet(entity) then amount else 0)
  {
    PostedAppend(l.journals, Journal(key, kind, Move(from, to, amount)), Wallet(entity));
    MoveAmounts(from, to, amount, Wallet(entity));
    hide Posted, PostingsTo, Move, FindJournal;
  }

  lemma SettleMoves(l: Ledger, payer: string, reservation: nat, amount: int, key: string, actor: string, entity: string)
    ensures var done, command := Settle(l, payer, reservation, amount, key, actor), SettleCommand(payer, reservation, amount, key);
      done.reply.Ok? ==>
        && |done.after.journals| == |l.journals| + (if MovesNothing(l, command) then 0 else 1)
        && Posted(done.after.journals, Wallet(entity)) == Posted(l.journals, Wallet(entity))
           + if MovesNothing(l, command) then 0 else PostedBy(command, entity)
  {
    hide Book, Posted, PostingsTo, Append, FindJournal, Move;
    BookedMove(l, "resource-charge:" + key, ResourceCharge, Wallet(payer), System("CONSUMPTION_REDEMPTION"), amount, entity);
  }

  lemma FeeMoves(l: Ledger, subject: string, date: string, entity: string)
    requires LedgerOk(l)
    ensures var done := Fee(l, subject, date);
      done.reply.Ok? ==>
        && |done.after.journals| == |l.journals| + (if FeeKey(subject, date) in l.fees then 0 else 1)
        && Posted(done.after.journals, Wallet(entity)) == Posted(l.journals, Wallet(entity))
           + if FeeKey(subject, date) !in l.fees && subject == entity then -DAILY_ACTIVITY_FEE else 0
  {
    hide LedgerOk, Book, Posted, PostingsTo, Reserved, Append, FindJournal, Move, Available;
    if FeeKey(subject, date) !in l.fees {
      FeeKeyIsFresh(l, subject, date);
    }
    BookedMove(l, FeeBusinessKey(subject, date), DailyActivityFee, Wallet(subject), System("CONSUMPTION_REDEMPTION"),
               DAILY_ACTIVITY_FEE, entity);
  }

  /** Settling frees the whole hold and charges at most it, so the payer never has less available than before. */
  lemma SettlingNeverLowersAvailable(l: Ledger, entity: string, reservation: nat, amount: int, key: string)
    requires LedgerOk(l) && Settle(l, entity, reservation, amount, key, entity).reply.Ok?
    ensures var b := Settle(l, entity, reservation, amount, key, entity).after;
      entity in b.wallets && Available(b, entity) >= Available(l, entity)
  {
    hide Posted, PostingsTo, Reserved, Append, FindJournal, Move, JournalOk, FeeOk, FeeIsRecorded, Numbered;
    var b := Settle(l, entity, reservation, amount, key, entity).after;
    SettleMoves(l, entity, reservation, amount, key, entity, entity);
    if b != l {
      assert ReservationOk(l, reservation);
      ReservedUpdate(l.reservations, reservation, b.reservations[reservation], entity);
      hide LedgerOk, ReservationOk;
    }
  }

  // ---- Replays ----

  /**
   Once a business key is booked, in every later state the same content is answered with the same
   journal and changes nothing, and any other content is refused.
   */
  lemma BusinessKeyReplays(l: Ledger, key: string, kind: JournalKind, postings: seq<Posting>, later: Ledger,
                           again: JournalKind, content: seq<Posting>)
    requires LedgerOk(later) && Book(l, key, kind, postings).Ok?
    requires Book(l, key, kind, postings).value.after.journals <= later.journals
    ensures Book(later, key, again, content)
         == if again == kind && multiset(content) == multiset(postings)
            then Ok(Booked(later, Book(l, key, kind, postings).value.journal, true))
            else Err(IdempotencyConflict)
  {
    var booked := Book(l, key, kind, postings).value;
    assert later.journals[booked.journal].businessKey == key;
    var found := FindJournal(later.journals, key);
    assert found.Some? && found.value == booked.journal;
  }

  /** Every fee journal is the fee of some subject and day. */
  lemma FeesAreForOneDay(requests: seq<Request>, i: nat)
    requires i < |RunAll(EMPTY, requests).journals| && RunAll(EMPTY, requests).journals[i].kind == DailyActivityFee
    ensures exists fee :: RunAll(EMPTY, requests).journals[i] == FeeJournal(fee)
  {
    var l := RunAll(EMPTY, requests);
    RunKeepsOk(EMPTY, requests);
    assert FeeIsRecorded(l, i);
    var fee :| fee in l.fees && l.fees[fee] == i;
    assert FeeOk(l, fee);
  }

  /** In any run a subject is charged at most once for a day, and exactly when the fee is on record. */
  lemma OneFeePerDay(requests: seq<Request>, i: nat, j: nat, fee: FeeKey)
    requires var l := RunAll(EMPTY, requests);
      i < |l.journals| && j < |l.journals| && l.journals[i] == FeeJournal(fee) == l.journals[j]
    ensures i == j && fee in RunAll(EMPTY, requests).fees && RunAll(EMPTY, requests).fees[fee] == i
  {
    var l := RunAll(EMPTY, requests);
    RunKeepsOk(EMPTY, requests);
    assert FeeIsRecorded(l, i);
    var recorded :| recorded in l.fees && l.fees[recorded] == i;
    assert FeeOk(l, recorded);
    SameFeePostings(fee.subject, recorded.subject);
    SameSuffix("daily-fee:" + fee.subject + ":", fee.billingDate, recorded.billingDate);
  }

  /** A second fee command for the same subject and day, after any run, charges nothing. */
  lemma FeeReplays(l: Ledger, entity: string, date: string, actor: string, requests: seq<Request>)
    requires LedgerOk(l) && ChargeFee(l, entity, date, actor).reply.Ok?
    ensures var paid := ChargeFee(l, entity, date, actor);
      var later := RunAll(paid.after, requests);
      && FeeKey(entity, date) in later.fees
      && Fee(later, entity, date) == Done(later, Ok(Reply(paid.reply.value.journal, None, true)))
  {
    hide LedgerOk, RunAll, Book, Available, Append, FindJournal;
    ExecuteKeepsOk(l, actor, FeeCommand(entity, date));
    var paid := ChargeFee(l, entity, date, actor);
    assert Execute(l, actor, FeeCommand(entity, date)) == paid;
    RunKeepsOk(paid.after, requests);
  }
}
